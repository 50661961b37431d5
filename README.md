# InkyPi front-panel buttons, weather labels and image albums, in Dafny

This project models three sequential pieces of the InkyPi e-ink display software and proves
properties about them:

- **Button handler** (`button_handler.dfy`, module `ButtonHandling`). The `ButtonHandler` object
  holds the GPIO line offsets of buttons A to D (BCM 5, 6, 16 and 24) and the line request. It also
  holds the running flag and the poll thread. `Start` and `Stop` change that state. A ghost trace
  records every externally visible action: acquiring and releasing the line request, launching
  the thread, calling the plugin, calling the display, writing the hash and writing the
  configuration. One edge event runs through a fixed pipeline. First the line becomes a button
  label. Then the handler resolves the active plugin id, its configuration and its
  `handle_button` capability, and calls the plugin. Only an image result is displayed, hashed
  and persisted. Every failure is swallowed. Dispatch happens synchronously on the calling
  thread. `src/button_handler.py` has no debounce window and no busy gate, and neither does the
  model.
- **Weather labels** (`weather_i18n.dfy`, module `WeatherI18n`). This part covers the
  translation and date-format tables and the detection of the LC_TIME locale. It models the
  three-step table choice: the exact locale, then the first key starting with the language part,
  then `en_US`. It also models translation with its title-case fallback, the six air-quality
  bands and the choice of the last-refresh pattern.
- **Image album plugin** (`image_album.dfy`, module `ImageAlbum`). This part covers the
  first-match album lookup and the page-by-page asset collection loop. It models the paths of
  `get_image` that give no image, and the URL of the chosen asset. For `generate_image` it models
  the settings checks, their order, the orientation swap and the resize/padding flags. It also
  models button routing in `handle_button`, which recovers settings from the active playlist
  when none are cached.

`common.dfy` holds the `Option` and `Result` datatypes shared by the three modules.

## Model

| member | source | states |
|---|---|---|
| ButtonHandling.IndexOf | src/button_handler.py:116 | `list.index`: None exactly when the element is absent; otherwise the position holds the element and no earlier position does |
| ButtonHandling.IndexOfDistinct | src/button_handler.py:116 | in a list without repeats, the element at position i is found at i |
| ButtonHandling.ButtonOf | src/button_handler.py:116-118 | the event's button is the first position of its line in the offsets; a line in at most four offsets is always found; no button when the offsets are unset or lack the line |
| ButtonHandling.OffsetsOn | src/button_handler.py:59 | the offsets are the chip's line offsets of BUTTONS, one per button, in button order |
| ButtonHandling.ButtonWiring | src/button_handler.py:21-27 | button A is at index 0 on GPIO 5, B at 1 on 6, C at 2 on 16, D at 3 on 24 |
| ButtonHandling.LabelsDistinct | src/button_handler.py:27 | the four labels are pairwise distinct |
| ButtonHandling.ActivePluginId | src/button_handler.py:123-124 | the refresh record's plugin id, or none when there is no refresh record |
| ButtonHandling.ImageSettings | src/button_handler.py:152 | the display gets the plugin's `image_settings`, or an empty list when there is none |
| ButtonHandling.Resolve | src/button_handler.py:116-141 | steps 1 to 4 succeed iff the line is known, the plugin id is non-empty, its configuration is non-empty, the instance is built and it has a button handler; the label is `LABELS[index]`; each failing step gives its own error (unknown line, no active plugin, missing configuration, instance failed, no button support) |
| ButtonHandling.Deliver | src/button_handler.py:145-163 | the plugin is called once with the label; a display call happens iff the result is an image, with the plugin's image settings; the hash and configuration writes happen iff that display and the hashing did not raise, in that order |
| ButtonHandling.HandleEvent | src/button_handler.py:112-166 | a resolved event does exactly what `Deliver` states for its target; an unresolved one ends with the resolution error and no effects; effects follow the fixed order and never acquire or release lines |
| ButtonHandling.UnknownLineDoesNothing | src/button_handler.py:116 | an event on a line that is not in the offsets, or while the offsets are unset, has no effect |
| ButtonHandling.DisplayOnlyForImages | src/button_handler.py:145-153 | any display, hash write or configuration write implies a resolved handler that returned an image, and the display call carries that image and the plugin's settings |
| ButtonHandling.WritesOnlyAfterSuccessfulDisplay | src/button_handler.py:148-159 | the configuration is written only after a display that did not raise and a hash that was computed and written |
| ButtonHandling.SimulatedLine | src/button_handler.py:186-187 | a simulated press uses `offsets[index]` of the pressed label when offsets are known, else the label's index |
| ButtonHandling.SimulatedPressRoundTrip | src/button_handler.py:186-188 | with distinct offsets, the simulated line resolves back to the label that was pressed |
| ButtonHandling.SimulatedPressWithoutOffsetsDoesNothing | src/button_handler.py:187 | without offsets, a simulated press has no effect |
| ButtonHandling.ConsistentAfterEvent | src/button_handler.py:112-166 | effects that neither acquire nor release keep the handler's invariant |
| ButtonHandling.ButtonHandler.constructor | src/button_handler.py:29-40 | a new handler is not running, has no thread, chip, request or offsets, and has done nothing |
| ButtonHandling.ButtonHandler.Start | src/button_handler.py:44-78 | with a live thread nothing changes; otherwise the chip and offsets are set as far as the lookups succeed; it runs iff both succeed, then holds the fresh request and has acquired it and launched the thread; a failure leaves it not running and acquires nothing |
| ButtonHandling.ButtonHandler.Stop | src/button_handler.py:80-91 | it is no longer running and holds no request; a held request is released exactly once; the thread is joined; chip and offsets are kept |
| ButtonHandling.ButtonHandler.HandleButtonEvent | src/button_handler.py:112-166 | the trace grows by the event's effects; the refresh record's image hash changes only when an image was displayed and hashed |
| ButtonHandling.ButtonHandler.SimulateButtonPress | src/button_handler.py:168-190 | an unknown label changes nothing; a known one runs the event path on the simulated line: the trace grows by that event's effects and the image hash changes only on a completed display |
| ButtonHandling.StopTwice | src/button_handler.py:80-91 | stopping twice releases a held request once and leaves the handler stopped |
| WeatherI18n.SystemLocale | src/plugins/weather/weather_i18n.py:203-217 | the LC_TIME language name when it is present and non-empty, else `en_US`; never empty |
| WeatherI18n.LangPart | src/plugins/weather/weather_i18n.py:231 | the language part is the longest prefix without `_`, and it ends at the first `_` |
| WeatherI18n.FirstMatch | src/plugins/weather/weather_i18n.py:232-235 | the first entry from a position on whose key satisfies the test, or None when none does |
| WeatherI18n.SelectEntry | src/plugins/weather/weather_i18n.py:227-239 | the exact locale's entry; else the first entry, in declared order, whose key starts with the language part; else `en_US` |
| WeatherI18n.DeclaredTables | src/plugins/weather/weather_i18n.py:167-168 | both tables declare `en_US`, so the last fallback always exists |
| WeatherI18n.NewI18n | src/plugins/weather/weather_i18n.py:190-192 | the handler's locale is the detected one; its translations and date formats are the entries the three-step rule selects for that locale |
| WeatherI18n.SpacedKey | src/plugins/weather/weather_i18n.py:273 | `key.replace('_', ' ')`: same length, each `_` a space, other characters kept |
| WeatherI18n.TitleFrom | src/plugins/weather/weather_i18n.py:273 | `str.title()` on ASCII letters: a letter is upper-cased when no letter precedes it, else lower-cased |
| WeatherI18n.FallbackLabel | src/plugins/weather/weather_i18n.py:273 | the fallback label has the key's length, a space for every `_`, title-cased letters, and every other character kept |
| WeatherI18n.Translate | src/plugins/weather/weather_i18n.py:273 | the table entry when the key is present, else the fallback label |
| WeatherI18n.WindSpeedFallsBackToTitle | src/plugins/weather/weather_i18n.py:273 | the fallback for `wind_speed` is `Wind Speed` |
| WeatherI18n.AllTablesShareKeys | src/plugins/weather/weather_i18n.py:15-163 | every translation table declares exactly the same 18 keys |
| WeatherI18n.DeclaredKeysNeverFallBack | src/plugins/weather/weather_i18n.py:273 | for any of those 18 keys, whichever table was selected, translation returns the table entry |
| WeatherI18n.CurrentDatePattern | src/plugins/weather/weather_i18n.py:290 | the current-date pattern is element 0 of one of the declared date-format entries |
| WeatherI18n.CurrentDatePatternOfLocale | src/plugins/weather/weather_i18n.py:290 | for a built handler, the current-date pattern is element 0 of the date-format entry the three-step rule selects for the detected locale |
| WeatherI18n.ShortDayPattern | src/plugins/weather/weather_i18n.py:308 | the short-day pattern, element 1 of the selected date formats, is `%a` for every locale |
| WeatherI18n.BritishEnglishLookup | src/plugins/weather/weather_i18n.py:227-261 | `en_GB` gets the `en_US` translations by language prefix and its own date pattern `%A, %d %B` |
| WeatherI18n.LastRefreshPattern | src/plugins/weather/weather_i18n.py:323-335 | the date part is `%Y-%m-%d` iff the locale starts with `en`, else `%d/%m/%Y`; the time part is `%H:%M` iff the format is exactly `24h`, else `%I:%M %p`; one space joins them |
| WeatherI18n.AirQualityBand | src/plugins/weather/weather_i18n.py:347-358 | band b covers AQI values in [20b, 20b+20); the last band covers everything from 100 up |
| WeatherI18n.AirQualityBandMonotone | src/plugins/weather/weather_i18n.py:347-358 | a higher AQI value never gives a better band |
| WeatherI18n.AirQualityLabel | src/plugins/weather/weather_i18n.py:347-358 | the label is the selected table's entry for the band's key, never a fallback |
| ImageAlbum.Matching | src/plugins/image_album/image_album.py:26 | an album entry is in the result iff it is in the list and has exactly that name; empty iff none has it; the first element is the first match |
| ImageAlbum.GetAlbumId | src/plugins/image_album/image_album.py:20-30 | the id of the first album with exactly that name whenever one has it; not found iff none has it; an error when the listing fails |
| ImageAlbum.LastPage | src/plugins/image_album/image_album.py:39-51 | the first page whose request fails or that has no items; every page before it has items |
| ImageAlbum.RequestsUpTo | src/plugins/image_album/image_album.py:40-45 | the requests are for pages 1, 2, ... consecutively, each with the album id and size 1000 |
| ImageAlbum.GetAssets | src/plugins/image_album/image_album.py:32-54 | it requests pages 1 to the last page and no more; it fails iff that page's request failed, else returns the items of the pages before it, in page order |
| ImageAlbum.ItemsBeforeIsConcat | src/plugins/image_album/image_album.py:49-50 | the collected items are the concatenation of the page items, first page first |
| ImageAlbum.CollectedAssets | src/plugins/image_album/image_album.py:34-54 | fails iff the last page's request failed; otherwise the concatenation of all pages before the first empty one, each of which has items |
| ImageAlbum.AssetUrl | src/plugins/image_album/image_album.py:85 | the URL is the base URL, then `/api/assets/`, then the asset id, then `/original` |
| ImageAlbum.AssetUrlInjective | src/plugins/image_album/image_album.py:85 | different asset ids on one server give different URLs |
| ImageAlbum.AlbumAssets | src/plugins/image_album/image_album.py:68-72 | the album lookup's error, or the assets collected for the album id it found |
| ImageAlbum.Delivered | src/plugins/image_album/image_album.py:92-105 | the loaded image; no image when the loader gives nothing; the loader's exception propagates |
| ImageAlbum.GetImage | src/plugins/image_album/image_album.py:56-105 | no image and no download when the album lookup or asset fetch fails or the album is empty; otherwise it downloads one of the album's assets and returns what the loader gives |
| ImageAlbum.TargetDims | src/plugins/image_album/image_album.py:130-135 | `vertical` swaps width and height; any other orientation keeps them |
| ImageAlbum.UsesPadding | src/plugins/image_album/image_album.py:142 | padding is used iff `padImage` is exactly the string `true` |
| ImageAlbum.CheckSettings | src/plugins/image_album/image_album.py:146-175 | a provider other than Immich fails; for Immich a missing key, then a missing URL, then a missing album fail, in that order; it succeeds iff none is missing |
| ImageAlbum.Finished | src/plugins/image_album/image_album.py:181-191 | without padding the image is returned as loaded; with padding it is padded to the target size, blurred when the option is `blur` or absent, else filled with `backgroundColor` or white |
| ImageAlbum.Generated | src/plugins/image_album/image_album.py:168-195 | a loaded image gives the finished image; a loader that gives nothing gives the not-loaded error; a loader that raises gives its error |
| ImageAlbum.InstanceSettings | src/plugins/image_album/image_album.py:227-231 | the settings of the first playlist plugin with that name; None iff no plugin has it |
| ImageAlbum.FindInstanceSettings | src/plugins/image_album/image_album.py:227-231 | the for/break search finds the same settings |
| ImageAlbum.RecoveredSettings | src/plugins/image_album/image_album.py:214-231 | nothing when reading the refresh record or playlist manager raised, or there is no instance name, manager, active playlist or such playlist; otherwise the first playlist instance with that name |
| ImageAlbum.PressSettings | src/plugins/image_album/image_album.py:208-239 | cached settings win when non-empty; otherwise the recovered ones are used whenever they are non-empty; otherwise none |
| ImageAlbum.RecoveredIsFirstNamedInstance | src/plugins/image_album/image_album.py:214-235 | recovered settings come from the first plugin in the active playlist named after the refresh record's plugin instance |
| ImageAlbum.ImageAlbumPlugin.constructor | src/plugins/image_album/image_album.py:110-113 | a new plugin has no cached settings |
| ImageAlbum.ImageAlbumPlugin.GenerateImage | src/plugins/image_album/image_album.py:124-195 | the settings are cached first, whatever follows; a failed check gives that check's error and downloads nothing; once the checks pass, an album without assets (or whose lookup failed) gives the not-loaded error, otherwise one asset's original is downloaded for the swapped-or-kept size, resized exactly when not padding, and the result is what that load gives |
| ImageAlbum.ImageAlbumPlugin.HandleButton | src/plugins/image_album/image_album.py:197-257 | buttons other than A, and presses with no usable settings, give nothing and change nothing; A caches and generates with the resolved settings and returns the generated image exactly when generation succeeds |

## Left out

- GPIO access (chip lookup by platform, line settings, requesting and releasing lines, reading
  edge events) is hardware I/O. The chip and the line request are values handed to `Start`.
- The `_run` poll loop, thread creation, the daemon flag and the two-second join are
  concurrency and timing. The thread is a value that is alive or not, and `Stop` takes whether
  it ended within the join timeout. Events are handled one call at a time.
- Debounce and a busy gate do not exist in the handler, so they are not modelled.
- The plugin registry, the display manager and image hashing are foreign calls. They are the
  functions of `Services`. A plugin's button handler is a function of the label, so the model
  does not capture a handler that changes the device configuration itself.
- ButtonHandling.ButtonHandler.Start: requires that a granted line request was never acquired
  before. This is an assumption about the hardware library, needed to state that no request is
  released twice.
- ButtonHandling.ButtonHandler.Start: does not model `threading.Thread.start` raising after
  `running` was set.
- The locale query, `strftime` rendering and logging are library behaviour. Only the chosen
  pattern strings are modelled. `format_current_date` and `format_short_day` are modelled as the
  pattern each one selects.
- WeatherI18n.TitleFrom: models `str.title()` on ASCII letters only. Every other character
  counts as uncased, so non-ASCII letters keep their case.
- WeatherI18n.AirQualityBand: AQI values are reals. NaN and other float edge cases are not
  modelled.
- HTTP sessions, headers, timeouts, `raise_for_status` and JSON parsing are network-client
  behaviour. The server's answers are the values of `Network`, and any failed request is one
  error value.
- Malformed JSON is not modelled: an album without `albumName` or `id`, a non-object `assets`,
  or a null `items`.
- The random choice of an asset is a nondeterministic index.
- PIL (the adaptive loader, `pad_image_blur`, `ImageOps.pad`, `ImageColor.getcolor`) is image
  processing. The loader is a function. Padding is a constructor recording the size and the
  background. An invalid colour name raising is not modelled.
- ImageAlbum.ImageAlbumPlugin.GenerateImage: the check `img is None` after the provider match
  is unreachable and not modelled separately. An empty loaded image counts as nothing loaded.
- ImageAlbum.ImageAlbumPlugin.HandleButton: the downloaded URL is an out-parameter, because
  `GenerateImage` chooses its asset nondeterministically; the result is stated for that URL.
- `generate_settings_template` and the other `BasePlugin` behaviour are not modelled.
