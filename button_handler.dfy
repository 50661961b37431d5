/**
 * The front-panel button handler: the lifecycle of the GPIO line request, and the synchronous
 * dispatch of one edge event to the plugin that is currently on the display.
 *
 * The handler dispatches on the calling thread; there is no debounce window and no busy gate.
 * Hardware, the plugin registry, the display and hashing are collaborators outside the model:
 * the chip and the line request are values handed to `Start`, the rest are the functions of
 * `Services`. Every externally visible action is appended to the ghost `trace`.
 */
module ButtonHandling {
  import opened Common

  /** BCM GPIO numbers of the buttons A, B, C and D. */
  const Buttons: seq<int> := [5, 6, 16, 24]

  /** The label of the button at each index. */
  const Labels: seq<string> := ["A", "B", "C", "D"]

  /** The GPIO chip found for the platform: the line offset of each GPIO number it knows. */
  datatype Chip = Chip(lineOffsets: map<int, int>)

  /** An opaque handle on the requested input lines. */
  datatype LineRequest = LineRequest(handle: nat)

  /** The poll thread: never created, or created and still alive or not. */
  datatype PollThread = NoThread | Spawned(alive: bool)

  /** An image, as plugins produce it and the display shows it. */
  datatype Image = Image(pixels: nat)

  /** A value in a plugin's configuration; image_settings holds a list of adjustments. */
  datatype ConfigValue = Text(text: string) | Items(items: seq<string>)

  datatype PluginConfig = PluginConfig(fields: map<string, ConfigValue>)

  /** What a plugin's button handler gives back, or that it raised. */
  datatype ButtonResult = ImageResult(image: Image) | OtherResult(text: string) | NoResult | Raised

  /** A plugin instance: its configuration and, when it has one, its button handler. */
  datatype Plugin = Plugin(config: PluginConfig, handleButton: Option<string -> ButtonResult>)

  /** The refresh record of the device configuration. */
  datatype RefreshInfo = RefreshInfo(pluginId: Option<string>, imageHash: Option<string>)

  /**
   * Collaborators: instantiating a plugin from its configuration (None: it raised), showing an
   * image with adjustment settings (false: it raised) and hashing an image (None: it raised).
   */
  datatype Services = Services(
    instanceOf: PluginConfig -> Option<Plugin>,
    displays: (Image, ConfigValue) -> bool,
    hashOf: Image -> Option<string>)

  /** The externally visible actions of the handler, in the order they happen. */
  datatype Effect =
    | Acquire(request: LineRequest)
    | Launch
    | Release(request: LineRequest)
    | PluginCall(button: string)
    | DisplayCall(image: Image, settings: ConfigValue)
    | HashWrite(hash: string)
    | WriteConfig

  // ---------------------------------------------------------------------------------------------
  // Buttons

  /** The first position of `x` in `s`, as Python's list.index finds it (None: it raises). */
  function IndexOf<T(==)>(s: seq<T>, x: T): (r: Option<nat>)
    ensures r.None? <==> x !in s
    ensures r.Some? ==> r.value < |s| && s[r.value] == x && x !in s[..r.value]
  {
    if s == [] then None
    else if s[0] == x then Some(0)
    else match IndexOf(s[1..], x)
      case None => None
      case Some(i) =>
        assert s[..i + 1] == [s[0]] + s[1..][..i];
        Some(i + 1)
  }

  /** In a sequence without repeats, the position found for the element at `i` is `i`. */
  lemma {:induction false} IndexOfDistinct<T>(s: seq<T>, i: nat)
    requires i < |s|
    requires forall j, k :: 0 <= j < k < |s| ==> s[j] != s[k]
    ensures IndexOf(s, s[i]) == Some(i)
  {
    if i > 0 {
      assert s[0] != s[i];
      assert s[1..][i - 1] == s[i];
      IndexOfDistinct(s[1..], i - 1);
    }
  }

  /** The button index an edge on `line` stands for: the first position of `line` in the offsets. */
  function ButtonOf(offsets: Option<seq<int>>, line: int): (index: Option<nat>)
    ensures offsets.None? ==> index.None?
    ensures offsets.Some? && line !in offsets.value ==> index.None?
    ensures index.Some? ==> offsets.Some? && index.value < |Labels| && index.value < |offsets.value|
    ensures index.Some? ==> offsets.value[index.value] == line && line !in offsets.value[..index.value]
    ensures offsets.Some? && |offsets.value| <= |Labels| && line in offsets.value ==> index.Some?
  {
    match offsets
    case None => None
    case Some(o) =>
      match IndexOf(o, line)
      case None => None
      case Some(i) => if i < |Buttons| then Some(i) else None
  }

  /** The offsets of the button lines on `chip`, in button order. */
  function OffsetsOn(chip: Chip): (offsets: seq<int>)
    requires forall g :: g in Buttons ==> g in chip.lineOffsets
    ensures |offsets| == |Buttons|
    ensures forall i :: 0 <= i < |Buttons| ==> offsets[i] == chip.lineOffsets[Buttons[i]]
  {
    [chip.lineOffsets[5], chip.lineOffsets[6], chip.lineOffsets[16], chip.lineOffsets[24]]
  }

  /** Button i is labelled Labels[i] and wired to GPIO Buttons[i]: A to 5, B to 6, C to 16, D to 24. */
  lemma ButtonWiring()
    ensures |Buttons| == |Labels| == 4
    ensures IndexOf(Labels, "A") == Some(0) && Buttons[0] == 5
    ensures IndexOf(Labels, "B") == Some(1) && Buttons[1] == 6
    ensures IndexOf(Labels, "C") == Some(2) && Buttons[2] == 16
    ensures IndexOf(Labels, "D") == Some(3) && Buttons[3] == 24
  {
    LabelsDistinct();
    IndexOfDistinct(Labels, 0);
    IndexOfDistinct(Labels, 1);
    IndexOfDistinct(Labels, 2);
    IndexOfDistinct(Labels, 3);
  }

  lemma LabelsDistinct()
    ensures forall j, k :: 0 <= j < k < |Labels| ==> Labels[j] != Labels[k]
  {
    forall j, k | 0 <= j < k < |Labels| ensures Labels[j] != Labels[k] {
      assert Labels[j][0] != Labels[k][0];
    }
  }

  // ---------------------------------------------------------------------------------------------
  // Dispatching one event

  /** The plugin id of the refresh record; absent when there is no record or no id. */
  function ActivePluginId(refresh: Option<RefreshInfo>): (id: Option<string>)
    ensures refresh.None? ==> id.None?
    ensures refresh.Some? ==> id == refresh.value.pluginId
  {
    if refresh.Some? then refresh.value.pluginId else None
  }

  /** The adjustments the plugin's configuration asks the display for; an empty list by default. */
  function ImageSettings(plugin: Plugin): (settings: ConfigValue)
    ensures "image_settings" in plugin.config.fields ==> settings == plugin.config.fields["image_settings"]
    ensures "image_settings" !in plugin.config.fields ==> settings == Items([])
  {
    if "image_settings" in plugin.config.fields then plugin.config.fields["image_settings"] else Items([])
  }

  /** Where the handling of one event ended. */
  datatype Outcome =
    | UnknownLine       // offsets unset, or the line is not a button line: the lookup raised
    | NoActivePlugin    // no refresh record, or no or an empty plugin id
    | MissingConfig     // no configuration, or an empty one, for the plugin id
    | InstanceFailed    // instantiating the plugin raised
    | NoButtonSupport   // the plugin has no button handler
    | PluginRaised
    | NotAnImage        // the handler returned something else, or nothing
    | DisplayFailed
    | HashFailed
    | Displayed(hash: string)

  /** What a press reaches: the button's label, and a plugin with its button handler. */
  datatype Target = Target(button: string, plugin: Plugin, handler: string -> ButtonResult)

  /** Steps 1 to 4: the button, the active plugin id, its configuration, its button handler. */
  function Resolve(offsets: Option<seq<int>>, line: int, refresh: Option<RefreshInfo>,
                   plugins: map<string, PluginConfig>, services: Services): (r: Result<Target, Outcome>)
    ensures ButtonOf(offsets, line).None? ==> r == Err(UnknownLine)
    ensures ButtonOf(offsets, line).Some? && (ActivePluginId(refresh).None? || ActivePluginId(refresh).value == "")
            ==> r == Err(NoActivePlugin)
    ensures ButtonOf(offsets, line).Some? && ActivePluginId(refresh).Some? && ActivePluginId(refresh).value != "" &&
            (ActivePluginId(refresh).value !in plugins || plugins[ActivePluginId(refresh).value].fields == map[])
            ==> r == Err(MissingConfig)
    ensures ButtonOf(offsets, line).Some? && ActivePluginId(refresh).Some? && ActivePluginId(refresh).value != "" &&
            ActivePluginId(refresh).value in plugins && plugins[ActivePluginId(refresh).value].fields != map[] &&
            services.instanceOf(plugins[ActivePluginId(refresh).value]).None?
            ==> r == Err(InstanceFailed)
    ensures ButtonOf(offsets, line).Some? && ActivePluginId(refresh).Some? && ActivePluginId(refresh).value != "" &&
            ActivePluginId(refresh).value in plugins && plugins[ActivePluginId(refresh).value].fields != map[] &&
            services.instanceOf(plugins[ActivePluginId(refresh).value]).Some? &&
            services.instanceOf(plugins[ActivePluginId(refresh).value]).value.handleButton.None?
            ==> r == Err(NoButtonSupport)
    ensures r.Ok? <==>
              && ButtonOf(offsets, line).Some?
              && ActivePluginId(refresh).Some? && ActivePluginId(refresh).value != ""
              && ActivePluginId(refresh).value in plugins
              && plugins[ActivePluginId(refresh).value].fields != map[]
              && services.instanceOf(plugins[ActivePluginId(refresh).value]).Some?
              && services.instanceOf(plugins[ActivePluginId(refresh).value]).value.handleButton.Some?
    ensures r.Ok? ==>
              && ButtonOf(offsets, line).Some?
              && r.value.button == Labels[ButtonOf(offsets, line).value]
              && ActivePluginId(refresh).Some? && ActivePluginId(refresh).value != ""
              && ActivePluginId(refresh).value in plugins
              && plugins[ActivePluginId(refresh).value].fields != map[]
              && services.instanceOf(plugins[ActivePluginId(refresh).value]) == Some(r.value.plugin)
              && r.value.plugin.handleButton == Some(r.value.handler)
  {
    match ButtonOf(offsets, line)
    case None => Err(UnknownLine)
    case Some(index) =>
      var id := ActivePluginId(refresh);
      if id.None? || id.value == "" then Err(NoActivePlugin)
      else if id.value !in plugins || plugins[id.value].fields == map[] then Err(MissingConfig)
      else match services.instanceOf(plugins[id.value])
        case None => Err(InstanceFailed)
        case Some(plugin) =>
          match plugin.handleButton
          case None => Err(NoButtonSupport)
          case Some(handler) => Ok(Target(Labels[index], plugin, handler))
  }

  /** The effects of one event and where its handling ended. */
  datatype EventRecord = EventRecord(outcome: Outcome, effects: seq<Effect>)

  /**
   * Effects come in the one order the handler allows: the plugin call, the display call, the
   * hash write, the configuration write, each at most once and each only after the one before.
   */
  ghost predicate Ordered(effects: seq<Effect>) {
    && |effects| <= 4
    && (|effects| > 0 ==> effects[0].PluginCall?)
    && (|effects| > 1 ==> effects[1].DisplayCall?)
    && (|effects| > 2 ==> effects[2].HashWrite?)
    && (|effects| > 3 ==> effects[3] == WriteConfig)
  }

  /** Steps 5 and 6: call the handler; only an image is shown, hashed and persisted. */
  function Deliver(target: Target, services: Services): (r: EventRecord)
    ensures Ordered(r.effects) && 1 <= |r.effects| != 3
    ensures r.effects[0] == PluginCall(target.button)
    ensures |r.effects| > 1 <==> target.handler(target.button).ImageResult?
    ensures |r.effects| > 1 ==>
              r.effects[1] == DisplayCall(target.handler(target.button).image, ImageSettings(target.plugin))
    ensures |r.effects| == 4 <==>
              && target.handler(target.button).ImageResult?
              && services.displays(target.handler(target.button).image, ImageSettings(target.plugin))
              && services.hashOf(target.handler(target.button).image).Some?
    ensures r.outcome.Displayed? <==> |r.effects| == 4
    ensures r.outcome.Displayed? ==> r.effects[2] == HashWrite(r.outcome.hash)
  {
    var call := [PluginCall(target.button)];
    match target.handler(target.button)
    case Raised => EventRecord(PluginRaised, call)
    case ImageResult(image) =>
      var settings := ImageSettings(target.plugin);
      var shown := call + [DisplayCall(image, settings)];
      if !services.displays(image, settings) then EventRecord(DisplayFailed, shown)
      else (
        match services.hashOf(image)
        case None => EventRecord(HashFailed, shown)
        case Some(hash) => EventRecord(Displayed(hash), shown + [HashWrite(hash), WriteConfig]))
    case _ => EventRecord(NotAnImage, call)
  }

  /** The whole pipeline for an edge on `line`; every error is swallowed. */
  function HandleEvent(offsets: Option<seq<int>>, line: int, refresh: Option<RefreshInfo>,
                       plugins: map<string, PluginConfig>, services: Services): (r: EventRecord)
    ensures Ordered(r.effects)
    ensures r.effects == [] <==> Resolve(offsets, line, refresh, plugins, services).Err?
    ensures Resolve(offsets, line, refresh, plugins, services).Err? ==>
              r == EventRecord(Resolve(offsets, line, refresh, plugins, services).error, [])
    ensures Resolve(offsets, line, refresh, plugins, services).Ok? ==>
              r == Deliver(Resolve(offsets, line, refresh, plugins, services).value, services)
    ensures forall e :: e in r.effects ==> !e.Acquire? && !e.Release? && !e.Launch?
  {
    match Resolve(offsets, line, refresh, plugins, services)
    case Err(outcome) => EventRecord(outcome, [])
    case Ok(target) => Deliver(target, services)
  }

  /** An event on a line that is not a button line, or before any offsets are known, does nothing. */
  lemma UnknownLineDoesNothing(offsets: Option<seq<int>>, line: int, refresh: Option<RefreshInfo>,
                               plugins: map<string, PluginConfig>, services: Services)
    requires offsets.None? || line !in offsets.value
    ensures HandleEvent(offsets, line, refresh, plugins, services) == EventRecord(UnknownLine, [])
  {
  }

  /**
   * No display and no configuration write happen unless the active plugin has a button handler
   * and that handler returned an image; the display then uses the plugin's own image settings.
   */
  lemma DisplayOnlyForImages(offsets: Option<seq<int>>, line: int, refresh: Option<RefreshInfo>,
                             plugins: map<string, PluginConfig>, services: Services, e: Effect)
    requires e in HandleEvent(offsets, line, refresh, plugins, services).effects
    requires e.DisplayCall? || e.HashWrite? || e == WriteConfig
    ensures var target := Resolve(offsets, line, refresh, plugins, services);
            && target.Ok?
            && target.value.handler(target.value.button).ImageResult?
            && HandleEvent(offsets, line, refresh, plugins, services).effects[1] ==
                 DisplayCall(target.value.handler(target.value.button).image, ImageSettings(target.value.plugin))
  {
    var r := HandleEvent(offsets, line, refresh, plugins, services);
    var i :| 0 <= i < |r.effects| && r.effects[i] == e;
    assert i > 0;
  }

  /** The hash and the configuration are written only after a display call that did not raise. */
  lemma WritesOnlyAfterSuccessfulDisplay(offsets: Option<seq<int>>, line: int, refresh: Option<RefreshInfo>,
                                         plugins: map<string, PluginConfig>, services: Services)
    requires WriteConfig in HandleEvent(offsets, line, refresh, plugins, services).effects
    ensures var r := HandleEvent(offsets, line, refresh, plugins, services);
            && |r.effects| == 4
            && r.outcome.Displayed?
            && services.displays(r.effects[1].image, r.effects[1].settings)
            && services.hashOf(r.effects[1].image) == Some(r.outcome.hash)
            && r.effects[2] == HashWrite(r.outcome.hash)
  {
    var r := HandleEvent(offsets, line, refresh, plugins, services);
    var i :| 0 <= i < |r.effects| && r.effects[i] == WriteConfig;
    assert i == 3;
  }

  // ---------------------------------------------------------------------------------------------
  // Simulated presses

  /** The line a simulated press of a known button is sent on: the button's offset, or its index. */
  function SimulatedLine(offsets: Option<seq<int>>, button: string): (line: int)
    requires button in Labels
    requires offsets.Some? ==> |offsets.value| == |Buttons|
    ensures IndexOf(Labels, button).Some?
    ensures offsets.Some? ==> line == offsets.value[IndexOf(Labels, button).value] && line in offsets.value
    ensures offsets.None? ==> line == IndexOf(Labels, button).value && Labels[line] == button
  {
    var index := IndexOf(Labels, button).value;
    if offsets.Some? && offsets.value != [] then offsets.value[index] else index
  }

  /** With distinct offsets, a simulated press resolves back to the button that was named. */
  lemma SimulatedPressRoundTrip(offsets: seq<int>, button: string)
    requires button in Labels
    requires |offsets| == |Buttons|
    requires forall j, k :: 0 <= j < k < |offsets| ==> offsets[j] != offsets[k]
    ensures var index := ButtonOf(Some(offsets), SimulatedLine(Some(offsets), button));
            index.Some? && Labels[index.value] == button
  {
    var i := IndexOf(Labels, button).value;
    IndexOfDistinct(offsets, i);
  }

  /** Without offsets the press is sent on the button's index, and the line lookup then raises. */
  lemma SimulatedPressWithoutOffsetsDoesNothing(button: string, refresh: Option<RefreshInfo>,
                                                plugins: map<string, PluginConfig>, services: Services)
    requires button in Labels
    ensures HandleEvent(None, SimulatedLine(None, button), refresh, plugins, services).effects == []
  {
  }

  // ---------------------------------------------------------------------------------------------
  // The handler object

  /** No line request is released twice. */
  ghost predicate ReleasedAtMostOnce(trace: seq<Effect>) {
    forall i, j :: 0 <= i < j < |trace| && trace[i].Release? && trace[j].Release? ==>
      trace[i].request != trace[j].request
  }

  /**
   * The handler's invariant: offsets, when known, are one per button; the request held is one
   * that was acquired and not yet released; every release is of an acquired request, and no
   * request is released twice.
   */
  ghost predicate ConsistentState(offsets: Option<seq<int>>, request: Option<LineRequest>, trace: seq<Effect>) {
    && (offsets.Some? ==> |offsets.value| == |Buttons|)
    && (request.Some? ==> Acquire(request.value) in trace && Release(request.value) !in trace)
    && (forall i :: 0 <= i < |trace| && trace[i].Release? ==> Acquire(trace[i].request) in trace)
    && ReleasedAtMostOnce(trace)
  }

  /** Effects that neither acquire nor release a request keep the invariant. */
  lemma ConsistentAfterEvent(offsets: Option<seq<int>>, request: Option<LineRequest>,
                             trace: seq<Effect>, effects: seq<Effect>)
    requires ConsistentState(offsets, request, trace)
    requires forall e :: e in effects ==> !e.Acquire? && !e.Release?
    ensures ConsistentState(offsets, request, trace + effects)
  {
    var t := trace + effects;
    forall i | 0 <= i < |t| && t[i].Release? ensures Acquire(t[i].request) in t {
      if i < |trace| {
        assert t[i] == trace[i];
      }
    }
  }

  /** The device configuration the handler reads and updates. */
  class DeviceConfig {
    var refreshInfo: Option<RefreshInfo>
    var plugins: map<string, PluginConfig>

    constructor (refreshInfo: Option<RefreshInfo>, plugins: map<string, PluginConfig>)
      ensures this.refreshInfo == refreshInfo && this.plugins == plugins
    {
      this.refreshInfo := refreshInfo;
      this.plugins := plugins;
    }
  }

  class ButtonHandler {
    const deviceConfig: DeviceConfig
    const services: Services

    var running: bool
    var thread: PollThread
    var chip: Option<Chip>
    var request: Option<LineRequest>
    var offsets: Option<seq<int>>

    /** Everything the handler has done so far. */
    ghost var trace: seq<Effect>

    ghost predicate Valid()
      reads this
    {
      ConsistentState(offsets, request, trace)
    }

    constructor (deviceConfig: DeviceConfig, services: Services)
      ensures Valid()
      ensures this.deviceConfig == deviceConfig && this.services == services
      ensures !running && thread == NoThread && chip == None && request == None && offsets == None
      ensures trace == []
    {
      this.deviceConfig := deviceConfig;
      this.services := services;
      running := false;
      thread := NoThread;
      chip := None;
      request := None;
      offsets := None;
      trace := [];
    }

    /**
     * Starts listening. `found` is the chip found for the platform (None: the lookup raised) and
     * `granted` the line request it hands out (None: requesting the lines raised). A handler whose
     * thread is alive is left as it is; a failure leaves it not running, with whatever the
     * source had assigned before the failing call.
     */
    method Start(found: Option<Chip>, granted: Option<LineRequest>)
      requires Valid()
      requires granted.Some? ==> Acquire(granted.value) !in trace
      modifies this
      ensures Valid()
      ensures old(thread) == Spawned(true) ==>
                && running == old(running) && thread == old(thread) && chip == old(chip)
                && request == old(request) && offsets == old(offsets) && trace == old(trace)
      ensures old(thread) != Spawned(true) ==>
                var mapped := found.Some? && forall g :: g in Buttons ==> g in found.value.lineOffsets;
                && chip == (if found.Some? then found else old(chip))
                && offsets == (if mapped then Some(OffsetsOn(found.value)) else old(offsets))
                && (running <==> mapped && granted.Some?)
                && (running ==> thread == Spawned(true) && request == granted &&
                                trace == old(trace) + [Acquire(granted.value), Launch])
                && (!running ==> thread == old(thread) && request == old(request) && trace == old(trace))
    {
      if thread == Spawned(true) {
        return;
      }
      if found.None? {
        running := false;
        return;
      }
      chip := found;
      if !forall g :: g in Buttons ==> g in found.value.lineOffsets {
        running := false;
        return;
      }
      offsets := Some(OffsetsOn(found.value));
      if granted.None? {
        running := false;
        return;
      }
      request := granted;
      trace := trace + [Acquire(granted.value)];
      running := true;
      thread := Spawned(true);
      trace := trace + [Launch];
    }

    /**
     * Stops listening: clears `running`, releases the line request if there is one and forgets
     * it, and waits for the thread, which has ended afterwards when `exitsInTime`. Offsets and
     * chip are kept.
     */
    method Stop(exitsInTime: bool)
      requires Valid()
      modifies this
      ensures Valid()
      ensures !running && request == None
      ensures old(request).Some? ==> trace == old(trace) + [Release(old(request).value)]
      ensures old(request).None? ==> trace == old(trace)
      ensures thread == if old(thread).Spawned? then Spawned(old(thread).alive && !exitsInTime) else NoThread
      ensures chip == old(chip) && offsets == old(offsets)
    {
      running := false;
      if request.Some? {
        trace := trace + [Release(request.value)];
        request := None;
      }
      if thread.Spawned? {
        thread := Spawned(thread.alive && !exitsInTime);
      }
    }

    /** Handles an edge on `line` synchronously, as `HandleEvent` describes. */
    method HandleButtonEvent(line: int)
      requires Valid()
      modifies this`trace, deviceConfig`refreshInfo
      ensures Valid()
      ensures var r := HandleEvent(offsets, line, old(deviceConfig.refreshInfo), deviceConfig.plugins, services);
              && trace == old(trace) + r.effects
              && deviceConfig.refreshInfo ==
                   if r.outcome.Displayed?
                   then Some(old(deviceConfig.refreshInfo).value.(imageHash := Some(r.outcome.hash)))
                   else old(deviceConfig.refreshInfo)
    {
      ghost var record := HandleEvent(offsets, line, deviceConfig.refreshInfo, deviceConfig.plugins, services);
      ConsistentAfterEvent(offsets, request, trace, record.effects);
      var index := ButtonOf(offsets, line);
      if index.None? {
        return;
      }
      var button := Labels[index.value];
      var refresh := deviceConfig.refreshInfo;
      var pluginId := ActivePluginId(refresh);
      if pluginId.None? || pluginId.value == "" {
        return;
      }
      if pluginId.value !in deviceConfig.plugins || deviceConfig.plugins[pluginId.value].fields == map[] {
        return;
      }
      var instance := services.instanceOf(deviceConfig.plugins[pluginId.value]);
      if instance.None? {
        return;
      }
      var plugin := instance.value;
      if plugin.handleButton.None? {
        return;
      }
      assert Resolve(offsets, line, refresh, deviceConfig.plugins, services) ==
             Ok(Target(button, plugin, plugin.handleButton.value));
      trace := trace + [PluginCall(button)];
      var result := plugin.handleButton.value(button);
      if result.ImageResult? {
        var settings := ImageSettings(plugin);
        trace := trace + [DisplayCall(result.image, settings)];
        if !services.displays(result.image, settings) {
          return;
        }
        var hash := services.hashOf(result.image);
        if hash.None? {
          return;
        }
        deviceConfig.refreshInfo := Some(refresh.value.(imageHash := hash));
        trace := trace + [HashWrite(hash.value), WriteConfig];
      }
    }

    /** Feeds a press of `button` through the event path; an unknown button does nothing. */
    method SimulateButtonPress(button: string)
      requires Valid()
      modifies this`trace, deviceConfig`refreshInfo
      ensures Valid()
      ensures button !in Labels ==>
                trace == old(trace) && deviceConfig.refreshInfo == old(deviceConfig.refreshInfo)
      ensures button in Labels ==>
                var r := HandleEvent(offsets, SimulatedLine(offsets, button), old(deviceConfig.refreshInfo),
                                     deviceConfig.plugins, services);
                && trace == old(trace) + r.effects
                && deviceConfig.refreshInfo ==
                     if r.outcome.Displayed?
                     then Some(old(deviceConfig.refreshInfo).value.(imageHash := Some(r.outcome.hash)))
                     else old(deviceConfig.refreshInfo)
    {
      if button !in Labels {
        return;
      }
      HandleButtonEvent(SimulatedLine(offsets, button));
    }
  }

  /** Stopping twice releases the line request once: the second stop finds no request. */
  method StopTwice(handler: ButtonHandler)
    requires handler.Valid()
    modifies handler
    ensures handler.Valid() && !handler.running && handler.request == None
    ensures old(handler.request).Some? ==> handler.trace == old(handler.trace) + [Release(old(handler.request).value)]
    ensures old(handler.request).None? ==> handler.trace == old(handler.trace)
  {
    handler.Stop(true);
    handler.Stop(true);
  }
}
