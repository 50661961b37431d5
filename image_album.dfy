/**
 * The image-album plugin: choosing an Immich album, collecting its assets page by page, picking
 * one and loading it, and the plugin's own settings checks and button handling.
 *
 * HTTP is replaced by the answers the server gives (`Network`), the adaptive image loader by a
 * function from a request to what it produced, and the image operations by the constructors of
 * `Image`. The random choice of an asset is a nondeterministic choice of an index.
 */
module ImageAlbum {
  import opened Common

  /** A plugin instance's settings, as the settings form stores them. */
  type Settings = map<string, string>

  /** Width and height. */
  type Dims = (int, int)

  datatype Album = Album(albumName: string, id: string)

  datatype Asset = Asset(id: string)

  datatype Background = Blur | Fill(color: string)

  /** An image the loader produced, or one padded to the display's size. */
  datatype Image = Loaded(pixels: nat) | Padded(inner: Image, size: Dims, background: Background)

  /** The errors the source raises. */
  datatype Failure =
    | AlbumsRequestFailed
    | AlbumNotFound(name: string)
    | SearchRequestFailed(page: nat)
    | MissingApiKey
    | MissingUrl
    | MissingAlbum
    | UnsupportedProvider(provider: Option<string>)
    | ImageNotLoaded
    | LoaderRaised

  /** The server's answer to one page of the metadata search. */
  datatype SearchResponse =
    | HttpError                     // the request failed
    | NoAssets                      // the body has no "assets"
    | NoItems                       // "assets" has no "items"
    | Items(items: seq<Asset>)

  /** The body of one metadata search request. */
  datatype SearchBody = SearchBody(albumIds: seq<string>, size: nat, page: nat)

  /**
   * What the Immich server answers: the album list (None: the request failed), and for each
   * album id the responses to pages 1, 2, ...; every page after those has no items.
   */
  datatype Network = Network(albums: Option<seq<Album>>, pages: string -> seq<SearchResponse>)

  /** What the image loader gives for a URL, target size and resize flag. */
  datatype LoadOutcome = LoadedImage(image: Image) | NothingLoaded | LoadFailed

  type Loader = (string, Dims, bool) -> LoadOutcome

  /** The value a settings key has, if any. */
  function Get(settings: Settings, key: string): Option<string> {
    if key in settings then Some(settings[key]) else None
  }

  /** Python truthiness of an optional string: present and non-empty. */
  predicate Present(value: Option<string>) {
    value.Some? && value.value != ""
  }

  // ---------------------------------------------------------------------------------------------
  // Albums

  /** The albums named `name`, in list order. */
  function Matching(albums: seq<Album>, name: string): (m: seq<Album>)
    ensures forall a :: a in m <==> a in albums && a.albumName == name
    ensures m == [] <==> forall i :: 0 <= i < |albums| ==> albums[i].albumName != name
    ensures m != [] ==> exists i :: 0 <= i < |albums| && albums[i] == m[0] &&
                                    forall j :: 0 <= j < i ==> albums[j].albumName != name
  {
    if albums == [] then []
    else if albums[0].albumName == name then [albums[0]] + Matching(albums[1..], name)
    else
      var rest := Matching(albums[1..], name);
      assert forall i :: 1 <= i < |albums| ==> albums[i] == albums[1..][i - 1];
      assert rest != [] ==> exists i :: 0 <= i < |albums| && albums[i] == rest[0] &&
                                        forall j :: 0 <= j < i ==> albums[j].albumName != name by {
        if rest != [] {
          var k :| 0 <= k < |albums[1..]| && albums[1..][k] == rest[0] &&
                   forall j :: 0 <= j < k ==> albums[1..][j].albumName != name;
          assert albums[k + 1] == rest[0];
        }
      }
      rest
  }

  /** The id of the first album named `name`; it fails when none is, or when listing fails. */
  function GetAlbumId(albums: Option<seq<Album>>, name: string): (r: Result<string, Failure>)
    ensures albums.None? ==> r == Err(AlbumsRequestFailed)
    ensures r.Ok? ==> albums.Some? && (exists i :: 0 <= i < |albums.value| &&
                                         albums.value[i].albumName == name && albums.value[i].id == r.value &&
                                         forall j :: 0 <= j < i ==> albums.value[j].albumName != name)
    ensures r == Err(AlbumNotFound(name)) <==>
              albums.Some? && forall i :: 0 <= i < |albums.value| ==> albums.value[i].albumName != name
    ensures albums.Some? && (exists i :: 0 <= i < |albums.value| && albums.value[i].albumName == name) ==> r.Ok?
  {
    match albums
    case None => Err(AlbumsRequestFailed)
    case Some(list) =>
      var matching := Matching(list, name);
      if matching == [] then Err(AlbumNotFound(name)) else Ok(matching[0].id)
  }

  // ---------------------------------------------------------------------------------------------
  // Assets, page by page

  /** The response to page `page` (counted from 1); past the last listed page, an empty page. */
  function ResponseTo(responses: seq<SearchResponse>, page: nat): SearchResponse {
    if 1 <= page <= |responses| then responses[page - 1] else Items([])
  }

  /** The items of a page; a missing "assets" or "items" counts as none. A helper of `GetAssets`. */
  function PageItems(response: SearchResponse): seq<Asset> {
    if response.Items? then response.items else []
  }

  /** Whether collecting ends at this page: the request failed or the page has no items. */
  predicate EndsCollection(response: SearchResponse) {
    response.HttpError? || PageItems(response) == []
  }

  /** The first page from `page` on at which collecting ends. */
  function LastPage(responses: seq<SearchResponse>, page: nat): (last: nat)
    requires page >= 1
    decreases |responses| + 1 - page
    ensures page <= last && (last <= |responses| + 1 || last == page)
    ensures EndsCollection(ResponseTo(responses, last))
    ensures forall p :: page <= p < last ==> !EndsCollection(ResponseTo(responses, p))
  {
    if page > |responses| || EndsCollection(ResponseTo(responses, page)) then page
    else LastPage(responses, page + 1)
  }

  /** The items of pages 1 to `page` - 1, appended in page order. */
  function ItemsBefore(responses: seq<SearchResponse>, page: nat): seq<Asset> {
    if page <= 1 then [] else ItemsBefore(responses, page - 1) + PageItems(ResponseTo(responses, page - 1))
  }

  /** The search requests for pages 1 to `count`. */
  function RequestsUpTo(albumId: string, count: nat): (requests: seq<SearchBody>)
    ensures |requests| == count
    ensures forall i :: 0 <= i < count ==> requests[i] == SearchBody([albumId], 1000, i + 1)
  {
    if count == 0 then [] else RequestsUpTo(albumId, count - 1) + [SearchBody([albumId], 1000, count)]
  }

  /**
   * The assets of an album: failure if the request for the last page failed, else the items of
   * every page before it.
   */
  function CollectedAssets(responses: seq<SearchResponse>): (r: Result<seq<Asset>, Failure>)
    ensures var last := LastPage(responses, 1);
            && (r.Err? <==> ResponseTo(responses, last).HttpError?)
            && (r.Err? ==> r.error == SearchRequestFailed(last))
            && (r.Ok? ==> && last <= |responses| + 1
                          && r.value == ItemsBefore(responses, last)
                          && r.value == Concat(responses[..last - 1])
                          && forall i :: 0 <= i < last - 1 ==> responses[i].Items? && responses[i].items != [])
  {
    var last := LastPage(responses, 1);
    if ResponseTo(responses, last).HttpError? then Err(SearchRequestFailed(last))
    else
      assert ItemsBefore(responses, last) == Concat(responses[..last - 1]) by {
        ItemsBeforeIsConcat(responses, last);
      }
      assert forall i :: 0 <= i < last - 1 ==> responses[i].Items? && responses[i].items != [] by {
        forall i | 0 <= i < last - 1
          ensures responses[i].Items? && responses[i].items != []
        {
          assert ResponseTo(responses, i + 1) == responses[i];
        }
      }
      Ok(ItemsBefore(responses, last))
  }

  /**
   * Requests pages 1, 2, ... of the album with page size 1000 until a page has no items (or a
   * request fails), and returns every item in page order.
   */
  method GetAssets(albumId: string, responses: seq<SearchResponse>)
    returns (r: Result<seq<Asset>, Failure>, requests: seq<SearchBody>)
    ensures r == CollectedAssets(responses)
    ensures requests == RequestsUpTo(albumId, LastPage(responses, 1))
  {
    var allItems: seq<Asset> := [];
    var pageHadItems := true;  // stands for the non-empty placeholder the loop starts from
    var page: nat := 1;
    requests := [];
    ghost var last := LastPage(responses, 1);
    while pageHadItems
      invariant 1 <= page <= last + 1
      invariant pageHadItems ==> page <= last
      invariant !pageHadItems ==> page == last + 1 && !ResponseTo(responses, last).HttpError?
      invariant allItems == ItemsBefore(responses, page)
      invariant requests == RequestsUpTo(albumId, page - 1)
      decreases last + 1 - page
    {
      requests := requests + [SearchBody([albumId], 1000, page)];
      var response := ResponseTo(responses, page);
      if response.HttpError? {
        return Err(SearchRequestFailed(page)), requests;
      }
      var pageItems := PageItems(response);
      allItems := allItems + pageItems;
      page := page + 1;
      pageHadItems := pageItems != [];
    }
    assert ItemsBefore(responses, page) == ItemsBefore(responses, last);
    r := Ok(allItems);
  }

  /** The concatenation of the given pages' items, first page first. */
  function Concat(pages: seq<SearchResponse>): seq<Asset> {
    if pages == [] then [] else PageItems(pages[0]) + Concat(pages[1..])
  }

  lemma {:induction false} ConcatAppend(pages: seq<SearchResponse>, last: SearchResponse)
    ensures Concat(pages + [last]) == Concat(pages) + PageItems(last)
  {
    if pages != [] {
      assert (pages + [last])[1..] == pages[1..] + [last];
      ConcatAppend(pages[1..], last);
    }
  }

  /** What is collected is the in-order concatenation of every page before the last one. */
  lemma {:induction false} ItemsBeforeIsConcat(responses: seq<SearchResponse>, page: nat)
    requires 1 <= page <= |responses| + 1
    ensures ItemsBefore(responses, page) == Concat(responses[..page - 1])
  {
    if page > 1 {
      ItemsBeforeIsConcat(responses, page - 1);
      assert responses[..page - 1] == responses[..page - 2] + [responses[page - 2]];
      ConcatAppend(responses[..page - 2], responses[page - 2]);
    }
  }

  // ---------------------------------------------------------------------------------------------
  // One random image

  /** The URL the original of an asset is downloaded from. */
  function AssetUrl(baseUrl: string, assetId: string): (url: string)
    ensures |url| == |baseUrl| + 12 + |assetId| + 9
    ensures url[..|baseUrl|] == baseUrl
    ensures url[|baseUrl|..|baseUrl| + 12] == "/api/assets/"
    ensures url[|baseUrl| + 12..|url| - 9] == assetId
    ensures url[|url| - 9..] == "/original"
  {
    baseUrl + "/api/assets/" + assetId + "/original"
  }

  /** Two assets of the same server are downloaded from the same URL only if they are the same. */
  lemma AssetUrlInjective(baseUrl: string, a: string, b: string)
    requires AssetUrl(baseUrl, a) == AssetUrl(baseUrl, b)
    ensures a == b
  {
    var u := AssetUrl(baseUrl, a);
    assert |u| == |baseUrl| + 12 + |a| + 9;
    assert |AssetUrl(baseUrl, b)| == |baseUrl| + 12 + |b| + 9;
  }

  /** The assets of the album named `name`, or why they could not be fetched. */
  function AlbumAssets(net: Network, name: string): (r: Result<seq<Asset>, Failure>)
    ensures GetAlbumId(net.albums, name).Err? ==> r == Err(GetAlbumId(net.albums, name).error)
    ensures GetAlbumId(net.albums, name).Ok? ==> r == CollectedAssets(net.pages(GetAlbumId(net.albums, name).value))
  {
    match GetAlbumId(net.albums, name)
    case Err(e) => Err(e)
    case Ok(id) => CollectedAssets(net.pages(id))
  }

  /** What get_image gives for a loader outcome: the image, nothing, or the loader's exception. */
  function Delivered(outcome: LoadOutcome): (r: Result<Option<Image>, Failure>)
    ensures r.Err? <==> outcome.LoadFailed?
    ensures r.Err? ==> r.error == LoaderRaised
    ensures r.Ok? && r.value.Some? <==> outcome.LoadedImage?
    ensures outcome.LoadedImage? ==> r == Ok(Some(outcome.image))
  {
    match outcome
    case LoadedImage(image) => Ok(Some(image))
    case NothingLoaded => Ok(None)
    case LoadFailed => Err(LoaderRaised)
  }

  /**
   * Picks a random asset of the album and loads it. Failing to find the album or its assets,
   * or an album without assets, gives no image; otherwise the loader is asked for the original
   * of one of the album's assets.
   */
  method GetImage(baseUrl: string, album: string, dims: Dims, resize: bool, net: Network, loader: Loader)
    returns (r: Result<Option<Image>, Failure>, requestedUrl: Option<string>)
    ensures AlbumAssets(net, album).Err? || AlbumAssets(net, album).value == [] ==>
              r == Ok(None) && requestedUrl == None
    ensures AlbumAssets(net, album).Ok? && AlbumAssets(net, album).value != [] ==>
              var assets := AlbumAssets(net, album).value;
              && requestedUrl.Some?
              && (exists i :: 0 <= i < |assets| && requestedUrl.value == AssetUrl(baseUrl, assets[i].id))
              && r == Delivered(loader(requestedUrl.value, dims, resize))
  {
    var albumId := GetAlbumId(net.albums, album);
    if albumId.Err? {
      return Ok(None), None;
    }
    var assets, _ := GetAssets(albumId.value, net.pages(albumId.value));
    if assets.Err? || assets.value == [] {
      return Ok(None), None;
    }
    var i :| 0 <= i < |assets.value|;
    var url := AssetUrl(baseUrl, assets.value[i].id);
    r, requestedUrl := Delivered(loader(url, dims, resize)), Some(url);
  }

  // ---------------------------------------------------------------------------------------------
  // Generating an image from the settings

  /** What a valid Immich configuration provides. */
  datatype ImmichRequest = ImmichRequest(url: string, key: string, album: string)

  /** The device configuration this plugin reads. */
  datatype Device = Device(orientation: Option<string>, resolution: Dims, immichKey: Option<string>)

  /** The target size: the resolution, with width and height swapped in vertical orientation. */
  function TargetDims(orientation: Option<string>, resolution: Dims): (dims: Dims)
    ensures orientation == Some("vertical") ==> dims.0 == resolution.1 && dims.1 == resolution.0
    ensures orientation != Some("vertical") ==> dims == resolution
  {
    if orientation == Some("vertical") then (resolution.1, resolution.0) else resolution
  }

  /** Whether the image is padded to size afterwards. */
  function UsesPadding(settings: Settings): (padding: bool)
    ensures padding <==> "padImage" in settings && settings["padImage"] == "true"
  {
    Get(settings, "padImage") == Some("true")
  }

  /**
   * The provider checks, in order: the provider is Immich, then the API key, the URL and the
   * album are present. Any failure is reported before the provider is contacted.
   */
  function CheckSettings(settings: Settings, immichKey: Option<string>): (r: Result<ImmichRequest, Failure>)
    ensures Get(settings, "albumProvider") != Some("Immich") ==>
              r == Err(UnsupportedProvider(Get(settings, "albumProvider")))
    ensures Get(settings, "albumProvider") == Some("Immich") && !Present(immichKey) ==> r == Err(MissingApiKey)
    ensures (Get(settings, "albumProvider") == Some("Immich") && Present(immichKey) &&
             !Present(Get(settings, "url"))) ==> r == Err(MissingUrl)
    ensures (Get(settings, "albumProvider") == Some("Immich") && Present(immichKey) &&
             Present(Get(settings, "url")) && !Present(Get(settings, "album"))) ==> r == Err(MissingAlbum)
    ensures r.Ok? <==>
              Get(settings, "albumProvider") == Some("Immich") && Present(immichKey) &&
              Present(Get(settings, "url")) && Present(Get(settings, "album"))
    ensures r.Ok? ==> r.value == ImmichRequest(settings["url"], immichKey.value, settings["album"])
  {
    var provider := Get(settings, "albumProvider");
    if provider != Some("Immich") then Err(UnsupportedProvider(provider))
    else if !Present(immichKey) then Err(MissingApiKey)
    else if !Present(Get(settings, "url")) then Err(MissingUrl)
    else if !Present(Get(settings, "album")) then Err(MissingAlbum)
    else Ok(ImmichRequest(settings["url"], immichKey.value, settings["album"]))
  }

  /** The loaded image, padded to `dims` when the settings ask for it: blurred or a plain colour. */
  function Finished(image: Image, settings: Settings, dims: Dims): (result: Image)
    ensures !UsesPadding(settings) ==> result == image
    ensures UsesPadding(settings) ==> result.Padded? && result.inner == image && result.size == dims
    ensures (UsesPadding(settings) && (Get(settings, "backgroundOption") == Some("blur") ||
                                       Get(settings, "backgroundOption") == None)) ==> result.background == Blur
    ensures (UsesPadding(settings) && Get(settings, "backgroundOption").Some? &&
             Get(settings, "backgroundOption").value != "blur") ==> result.background.Fill?
    ensures UsesPadding(settings) && result.background.Fill? ==>
              result.background.color == if Present(Get(settings, "backgroundColor")) then settings["backgroundColor"] else "white"
  {
    if !UsesPadding(settings) then image
    else
      var option := if "backgroundOption" in settings then settings["backgroundOption"] else "blur";
      if option == "blur" then Padded(image, dims, Blur)
      else
        var color := if Present(Get(settings, "backgroundColor")) then settings["backgroundColor"] else "white";
        Padded(image, dims, Fill(color))
  }

  /** What generation gives for each loader outcome: the finished image, or the matching error. */
  function Generated(outcome: LoadOutcome, settings: Settings, dims: Dims): (r: Result<Image, Failure>)
    ensures r.Ok? <==> outcome.LoadedImage?
    ensures r.Ok? ==> r.value == Finished(outcome.image, settings, dims)
    ensures outcome.NothingLoaded? ==> r == Err(ImageNotLoaded)
    ensures outcome.LoadFailed? ==> r == Err(LoaderRaised)
  {
    match outcome
    case LoadedImage(image) => Ok(Finished(image, settings, dims))
    case NothingLoaded => Err(ImageNotLoaded)
    case LoadFailed => Err(LoaderRaised)
  }

  /**
   * The download generation may make for these settings: the original of one of the album's
   * assets when the checks pass and the album has assets, else none.
   */
  ghost predicate MayRequest(settings: Settings, device: Device, net: Network, requestedUrl: Option<string>) {
    var check := CheckSettings(settings, device.immichKey);
    if check.Err? then requestedUrl == None
    else
      var assets := AlbumAssets(net, check.value.album);
      if assets.Err? || assets.value == [] then requestedUrl == None
      else && requestedUrl.Some?
           && exists i :: 0 <= i < |assets.value| && requestedUrl.value == AssetUrl(check.value.url, assets.value[i].id)
  }

  /**
   * The result of generating with these settings after downloading `requestedUrl` (None: no
   * download): a failed check, no image, or what the loader's outcome gives. A helper that
   * states `GenerateImage`'s result.
   */
  function GenerationResult(settings: Settings, device: Device, loader: Loader, requestedUrl: Option<string>)
    : Result<Image, Failure>
  {
    var check := CheckSettings(settings, device.immichKey);
    var dims := TargetDims(device.orientation, device.resolution);
    if check.Err? then Err(check.error)
    else if requestedUrl.None? then Err(ImageNotLoaded)
    else Generated(loader(requestedUrl.value, dims, !UsesPadding(settings)), settings, dims)
  }

  // ---------------------------------------------------------------------------------------------
  // Recovering settings for a button press

  datatype PluginInstance = PluginInstance(name: string, settings: Settings)

  datatype Playlist = Playlist(plugins: seq<PluginInstance>)

  datatype PlaylistManager = PlaylistManager(activePlaylist: Option<string>, playlists: map<string, Playlist>)

  /**
   * What the device configuration offers for recovering settings: the refresh record's plugin
   * instance name (None when it has none) and the playlist manager; or reading them raised.
   */
  datatype SettingsSource = LookupRaised | Lookup(pluginInstance: Option<string>, manager: Option<PlaylistManager>)

  /** The settings of the first instance in `plugins` named `name`. */
  function InstanceSettings(plugins: seq<PluginInstance>, name: string): (r: Option<Settings>)
    ensures r.None? <==> forall i :: 0 <= i < |plugins| ==> plugins[i].name != name
    ensures r.Some? ==> exists i :: 0 <= i < |plugins| && plugins[i].name == name &&
                          plugins[i].settings == r.value &&
                          forall j :: 0 <= j < i ==> plugins[j].name != name
  {
    if plugins == [] then None
    else if plugins[0].name == name then Some(plugins[0].settings)
    else
      var rest := InstanceSettings(plugins[1..], name);
      assert forall i :: 1 <= i < |plugins| ==> plugins[i] == plugins[1..][i - 1];
      assert rest.Some? ==> exists i :: 0 <= i < |plugins| && plugins[i].name == name &&
                              plugins[i].settings == rest.value &&
                              forall j :: 0 <= j < i ==> plugins[j].name != name by {
        if rest.Some? {
          var k :| 0 <= k < |plugins[1..]| && plugins[1..][k].name == name &&
                   plugins[1..][k].settings == rest.value &&
                   forall j :: 0 <= j < k ==> plugins[1..][j].name != name;
          assert plugins[k + 1] == plugins[1..][k];
        }
      }
      rest
  }

  /** Walks the playlist's plugins and stops at the first one named `name`. */
  method FindInstanceSettings(plugins: seq<PluginInstance>, name: string) returns (settings: Option<Settings>)
    ensures settings == InstanceSettings(plugins, name)
  {
    settings := None;
    var i := 0;
    while i < |plugins|
      invariant 0 <= i <= |plugins|
      invariant InstanceSettings(plugins, name) == InstanceSettings(plugins[i..], name)
    {
      if plugins[i].name == name {
        settings := Some(plugins[i].settings);
        break;
      }
      assert plugins[i..][1..] == plugins[i + 1..];
      i := i + 1;
    }
  }

  /** Python truthiness of optional settings: present and not empty. */
  predicate HasSettings(settings: Option<Settings>) {
    settings.Some? && settings.value != map[]
  }

  /** The settings of the refresh record's plugin instance in the active playlist, if any. */
  function RecoveredSettings(source: SettingsSource): (r: Option<Settings>)
    ensures (|| source.LookupRaised? || source.pluginInstance.None? || source.manager.None?
             || !Present(source.manager.value.activePlaylist)
             || source.manager.value.activePlaylist.value !in source.manager.value.playlists) ==> r.None?
    ensures r.Some? ==>
              var m := source.manager.value;
              r == InstanceSettings(m.playlists[m.activePlaylist.value].plugins, source.pluginInstance.value)
    ensures source.Lookup? && source.pluginInstance.Some? && source.manager.Some? &&
            Present(source.manager.value.activePlaylist) &&
            source.manager.value.activePlaylist.value in source.manager.value.playlists ==>
              var m := source.manager.value;
              r == InstanceSettings(m.playlists[m.activePlaylist.value].plugins, source.pluginInstance.value)
  {
    match source
    case LookupRaised => None
    case Lookup(instance, manager) =>
      if instance.None? || manager.None? || !Present(manager.value.activePlaylist) then None
      else if manager.value.activePlaylist.value !in manager.value.playlists then None
      else InstanceSettings(manager.value.playlists[manager.value.activePlaylist.value].plugins, instance.value)
  }

  /** The settings a button press works with: the cached ones, else the recovered ones. */
  function PressSettings(cached: Option<Settings>, source: SettingsSource): (r: Option<Settings>)
    ensures HasSettings(cached) ==> r == cached
    ensures r.Some? ==> r.value != map[]
    ensures !HasSettings(cached) && r.Some? ==> r == RecoveredSettings(source)
    ensures !HasSettings(cached) && HasSettings(RecoveredSettings(source)) ==> r == RecoveredSettings(source)
  {
    if HasSettings(cached) then cached
    else if HasSettings(RecoveredSettings(source)) then RecoveredSettings(source)
    else None
  }

  /** A recovered instance is the first one in the active playlist named after the refresh record. */
  lemma RecoveredIsFirstNamedInstance(cached: Option<Settings>, source: SettingsSource)
    requires !HasSettings(cached)
    requires PressSettings(cached, source).Some?
    ensures source.Lookup? && source.pluginInstance.Some? && source.manager.Some?
    ensures var m := source.manager.value;
            && Present(m.activePlaylist) && m.activePlaylist.value in m.playlists
            && var plugins := m.playlists[m.activePlaylist.value].plugins;
               exists i :: 0 <= i < |plugins| && plugins[i].name == source.pluginInstance.value &&
                 Some(plugins[i].settings) == PressSettings(cached, source) &&
                 forall j :: 0 <= j < i ==> plugins[j].name != source.pluginInstance.value
  {
  }

  // ---------------------------------------------------------------------------------------------
  // The plugin object

  class ImageAlbumPlugin {
    /** The settings of the last generate_image call, for button presses. */
    var cachedSettings: Option<Settings>

    constructor ()
      ensures cachedSettings == None
    {
      cachedSettings := None;
    }

    /**
     * Caches the settings first, then checks them and asks Immich for an image of the album,
     * sized for the display (swapped in vertical orientation); the loader resizes only when no
     * padding follows.
     */
    method GenerateImage(settings: Settings, device: Device, net: Network, loader: Loader)
      returns (r: Result<Image, Failure>, requestedUrl: Option<string>)
      modifies this
      ensures cachedSettings == Some(settings)
      ensures MayRequest(settings, device, net, requestedUrl)
      ensures r == GenerationResult(settings, device, loader, requestedUrl)
    {
      cachedSettings := Some(settings);
      var dims := TargetDims(device.orientation, device.resolution);
      var usePadding := UsesPadding(settings);
      var request := CheckSettings(settings, device.immichKey);
      if request.Err? {
        return Err(request.error), None;
      }
      var image, url := GetImage(request.value.url, request.value.album, dims, !usePadding, net, loader);
      requestedUrl := url;
      if image.Err? {
        return Err(image.error), url;
      }
      if image.value.None? {
        return Err(ImageNotLoaded), url;
      }
      r := Ok(Finished(image.value.value, settings, dims));
    }

    /**
     * Button A generates a new image with the cached settings, or with the ones recovered from
     * the active playlist when none are cached; any failure gives no image. Other buttons give
     * no image and change nothing.
     */
    method HandleButton(button: string, device: Device, source: SettingsSource, net: Network, loader: Loader)
      returns (r: Option<Image>, requestedUrl: Option<string>)
      modifies this
      ensures button != "A" || PressSettings(old(cachedSettings), source).None? ==>
                r == None && requestedUrl == None && cachedSettings == old(cachedSettings)
      ensures button == "A" && PressSettings(old(cachedSettings), source).Some? ==>
                var settings := PressSettings(old(cachedSettings), source).value;
                var generated := GenerationResult(settings, device, loader, requestedUrl);
                && cachedSettings == Some(settings)
                && MayRequest(settings, device, net, requestedUrl)
                && r == if generated.Ok? then Some(generated.value) else None
    {
      var settings := cachedSettings;
      if !HasSettings(settings) {
        match source
        case LookupRaised =>
          return None, None;
        case Lookup(instance, manager) =>
          if instance.Some? && manager.Some? {
            if Present(manager.value.activePlaylist) {
              var playlistName := manager.value.activePlaylist.value;
              if playlistName in manager.value.playlists {
                var found := FindInstanceSettings(manager.value.playlists[playlistName].plugins, instance.value);
                if found.Some? {
                  settings := found;
                }
              }
            }
          }
          if !HasSettings(settings) {
            return None, None;
          }
      }
      if button == "A" {
        var image, url := GenerateImage(settings.value, device, net, loader);
        r, requestedUrl := if image.Ok? then Some(image.value) else None, url;
      } else {
        r, requestedUrl := None, None;
      }
    }
  }
}
