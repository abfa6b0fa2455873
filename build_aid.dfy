/**
 * The editor-side rules of the plugin (Plugin/RCSBuildAid.cs, class RCSBuildAid): how a
 * direction key combines with the mode, which module lists a mode change clears, what is
 * persisted in the settings, the per-frame list refresh and the bottom-most engine stage.
 *
 * The class's static fields are the fields of one BuildAid object. The game's part scans
 * (getModulesOf) are a Scan value, the key presses a Keys value, the settings file a map
 * from key to the `int` stored under it, and on-screen messages are recorded in `messages`.
 * The object registers its OnModeChange with its events object (line 184). The window and
 * the line renderers subscribe too, but only to redraw; OnModeChange is the only subscriber
 * that changes modelled state, so every call that raises the event is followed here by that
 * handler's run on the new mode.
 */
module BuildAid {
  import opened Types
  import opened BuildAidEvents

  /** A PartModule: the part it belongs to, and that part's inverseStage. */
  datatype Module = Module(part: nat, stage: Int32)

  /** RCSlist, EngineList and WheelList. */
  datatype Lists = Lists(rcs: seq<Module>, engines: seq<Module>, wheels: seq<Module>)

  /** What getModulesOf<T>() returns for each module type the plugin scans for. */
  datatype Scan = Scan(
    rcs: seq<Module>,
    wheels: seq<Module>,
    engines: seq<Module>,
    multiMode: seq<Module>,
    enginesFX: seq<Module>)

  /** Input.anyKeyDown and GetKeyDown of the six translation keys. */
  datatype Keys = Keys(anyKeyDown: bool, up: bool, down: bool, forward: bool, back: bool, left: bool, right: bool)

  const NoRcsMessage: string := "No RCS thrusters in place."
  const NoAttitudeMessage: string := "No attitude control elements in place."

  // ---------------------------------------------------------------------------
  // Mode changes and the module lists

  /** The lists each mode works with: RCS the thrusters, Attitude the thrusters and the wheels, Engine the engines. */
  predicate UsesRcs(m: PluginMode) { m == RCS || m == Attitude }
  predicate UsesWheels(m: PluginMode) { m == Attitude }
  predicate UsesEngines(m: PluginMode) { m == Engine }

  /**
   * onModeChange(m): the lists left over from the previous mode are emptied. After a change
   * to a named mode, exactly the lists that mode does not work with are empty, and the others
   * are untouched; a mode without a name changes nothing.
   */
  function Cleared(l: Lists, m: PluginMode): (r: Lists)
    ensures m != Invalid ==>
              r.rcs == (if UsesRcs(m) then l.rcs else []) &&
              r.wheels == (if UsesWheels(m) then l.wheels else []) &&
              r.engines == (if UsesEngines(m) then l.engines else [])
    ensures m == Invalid ==> r == l
  {
    match m
    case Engine => l.(rcs := [], wheels := [])
    case Attitude => l.(engines := [])
    case RCS => l.(engines := [], wheels := [])
    case None => Lists([], [], [])
    case Invalid => l
  }

  /** Announcing the same mode twice clears nothing more. */
  lemma ClearedIdempotent(l: Lists, m: PluginMode)
    ensures Cleared(Cleared(l, m), m) == Cleared(l, m)
  {
  }

  /** The screen message switchDirection posts when the new mode has nothing to show. */
  function Warning(m: PluginMode, rcsCount: nat, wheelCount: nat): (r: seq<string>)
    ensures r == [] || r == [NoRcsMessage] || r == [NoAttitudeMessage]
    ensures r == [NoRcsMessage] <==> m == RCS && rcsCount == 0
    ensures r == [NoAttitudeMessage] <==> m == Attitude && rcsCount == 0 && wheelCount == 0
  {
    if m == RCS && rcsCount == 0 then [NoRcsMessage]
    else if m == Attitude && rcsCount == 0 && wheelCount == 0 then [NoAttitudeMessage]
    else []
  }

  /** The key Update reacts to: the first of up, down, forward, back, left, right that went down. */
  function KeyDirection(k: Keys): (d: Direction)
    ensures d == DirNone <==> !k.anyKeyDown || !(k.up || k.down || k.forward || k.back || k.left || k.right)
    ensures d != DirNone ==> IsAxis(d)
    ensures d == DirUp <==> k.anyKeyDown && k.up
    ensures d == DirDown <==> k.anyKeyDown && !k.up && k.down
    ensures d == DirForward <==> k.anyKeyDown && !k.up && !k.down && k.forward
    ensures d == DirBack <==> k.anyKeyDown && !k.up && !k.down && !k.forward && k.back
    ensures d == DirLeft <==> k.anyKeyDown && !k.up && !k.down && !k.forward && !k.back && k.left
    ensures d == DirRight <==> k.anyKeyDown && !k.up && !k.down && !k.forward && !k.back && !k.left && k.right
  {
    if !k.anyKeyDown then DirNone
    else if k.up then DirUp
    else if k.down then DirDown
    else if k.forward then DirForward
    else if k.back then DirBack
    else if k.left then DirLeft
    else if k.right then DirRight
    else DirNone
  }

  // ---------------------------------------------------------------------------
  // Settings

  /** Settings.GetValue(key, default) on a settings file whose values are ints. */
  function GetValue(settings: map<string, Int32>, key: string, default: Int32): Int32
  {
    if key in settings then settings[key] else default
  }

  /** Save: the reference marker always, the direction only when it is not none. */
  function Saved(settings: map<string, Int32>, marker: MarkerType, direction: Direction): (r: map<string, Int32>)
    ensures "com_reference" in r && r["com_reference"] == MarkerIndex(marker)
    ensures direction != DirNone ==> "direction" in r && r["direction"] == direction
    ensures direction == DirNone ==> GetValue(r, "direction", 1) == GetValue(settings, "direction", 1)
    ensures forall key :: key in settings ==> key in r
    ensures forall key :: key in r && key != "com_reference" && key != "direction" ==> key in settings && r[key] == settings[key]
  {
    var withMarker := settings["com_reference" := MarkerIndex(marker)];
    if direction != DirNone then withMarker["direction" := direction] else withMarker
  }

  /** The marker code and direction Load reads: read back after Save, the marker is the saved one. */
  lemma SaveLoadRoundTrip(settings: map<string, Int32>, marker: MarkerType, direction: Direction)
    ensures var r := Saved(settings, marker, direction);
            GetValue(r, "com_reference", 0) == MarkerIndex(marker) &&
            GetValue(r, "direction", 1) == (if direction != DirNone then direction else GetValue(settings, "direction", 1))
  {
  }

  /** Save never writes none as the direction: a file without a stored none keeps having none. */
  lemma SaveNeverStoresNone(settings: map<string, Int32>, marker: MarkerType, direction: Direction)
    requires "direction" in settings ==> settings["direction"] != DirNone
    ensures var r := Saved(settings, marker, direction);
            "direction" in r ==> r["direction"] != DirNone
  {
  }

  /** So Load after Save yields none as the direction only when the file held none before. */
  lemma LoadedDirectionIsNotNone(settings: map<string, Int32>, marker: MarkerType, direction: Direction)
    requires "direction" in settings ==> settings["direction"] != DirNone
    ensures GetValue(Saved(settings, marker, direction), "direction", 1) != DirNone
  {
    SaveNeverStoresNone(settings, marker, direction);
  }

  // ---------------------------------------------------------------------------
  // The engine lists of doPlugingUpdate

  /** mod2.part == mod.part for some module of the multi-mode list. */
  predicate SharesPart(m: Module, multiMode: seq<Module>)
  {
    exists j :: 0 <= j < |multiMode| && multiMode[j].part == m.part
  }

  /** The ModuleEnginesFX modules of parts that have no MultiModeEngine, in scan order. */
  function Unpaired(fx: seq<Module>, multiMode: seq<Module>): (r: seq<Module>)
    ensures |r| <= |fx|
    ensures forall k :: 0 <= k < |r| ==> !SharesPart(r[k], multiMode)
    decreases |fx|
  {
    if fx == [] then []
    else
      var last := fx[|fx| - 1];
      Unpaired(fx[..|fx| - 1], multiMode) + (if SharesPart(last, multiMode) then [] else [last])
  }

  /** A module is kept exactly when it is in the FX list and no multi-mode module shares its part. */
  lemma {:induction false} UnpairedMembers(fx: seq<Module>, multiMode: seq<Module>, x: Module)
    ensures x in Unpaired(fx, multiMode) <==> x in fx && !SharesPart(x, multiMode)
    decreases |fx|
  {
    if fx != [] {
      var n := |fx|;
      UnpairedMembers(fx[..n - 1], multiMode, x);
      assert fx == fx[..n - 1] + [fx[n - 1]];
    }
  }

  /** The second loop of the Engine case: keep each FX module whose part has no multi-mode module. */
  method UnpairedFx(fx: seq<Module>, multiMode: seq<Module>) returns (kept: seq<Module>)
    ensures kept == Unpaired(fx, multiMode)
  {
    kept := [];
    for k := 0 to |fx|
      invariant kept == Unpaired(fx[..k], multiMode)
    {
      var m := fx[k];
      var found := false;
      for j := 0 to |multiMode|
        invariant !found ==> forall i :: 0 <= i < j ==> multiMode[i].part != m.part
        invariant found ==> SharesPart(m, multiMode)
      {
        if multiMode[j].part == m.part {
          found := true;
          break;
        }
      }
      assert fx[..k + 1][..k] == fx[..k];
      if !found {
        kept := kept + [m];
      }
    }
    assert fx[..|fx|] == fx;
  }

  /** The bottom-most stage with engines: the largest inverseStage, and 0 when none is above 0. */
  ghost predicate IsBottomStage(engines: seq<Module>, stage: int)
    ensures engines == [] ==> (IsBottomStage(engines, stage) <==> stage == 0)
  {
    stage >= 0 &&
    (forall i :: 0 <= i < |engines| ==> engines[i].stage <= stage) &&
    (stage == 0 || exists i :: 0 <= i < |engines| && engines[i].stage == stage)
  }

  /** The description fixes the stage: at most one value is the bottom-most stage of a list. */
  lemma BottomStageUnique(engines: seq<Module>, a: int, b: int)
    requires IsBottomStage(engines, a) && IsBottomStage(engines, b)
    ensures a == b
  {
  }

  /** The stage loop of the Engine case. */
  method BottomStage(engines: seq<Module>) returns (stage: Int32)
    ensures IsBottomStage(engines, stage)
  {
    stage := 0;
    for k := 0 to |engines|
      invariant IsBottomStage(engines[..k], stage)
    {
      if engines[k].stage > stage {
        stage := engines[k].stage;
      }
    }
    assert engines[..|engines|] == engines;
  }

  /** EngineList in Engine mode: the engines, then the multi-mode engines, then the unpaired FX engines. */
  function EngineScan(scan: Scan): (r: seq<Module>)
    ensures forall x :: x in r <==>
              x in scan.engines || x in scan.multiMode || (x in scan.enginesFX && !SharesPart(x, scan.multiMode))
  {
    forall x ensures x in Unpaired(scan.enginesFX, scan.multiMode) <==> x in scan.enginesFX && !SharesPart(x, scan.multiMode) {
      UnpairedMembers(scan.enginesFX, scan.multiMode, x);
    }
    scan.engines + scan.multiMode + Unpaired(scan.enginesFX, scan.multiMode)
  }

  /**
   * The lists after doPlugingUpdate in mode m: the lists m works with are rescanned (the
   * thrusters and wheels of Attitude only when included, and emptied otherwise); the others
   * are untouched.
   */
  function Refreshed(l: Lists, m: PluginMode, scan: Scan, includeRcs: bool, includeWheels: bool): (r: Lists)
    ensures !UsesRcs(m) ==> r.rcs == l.rcs
    ensures !UsesWheels(m) ==> r.wheels == l.wheels
    ensures !UsesEngines(m) ==> r.engines == l.engines
    ensures r.rcs == l.rcs || r.rcs == scan.rcs || r.rcs == []
    ensures r.wheels == l.wheels || r.wheels == scan.wheels || r.wheels == []
    ensures UsesEngines(m) ==> r.engines == EngineScan(scan)
  {
    match m
    case RCS => l.(rcs := scan.rcs)
    case Attitude =>
      l.(rcs := if includeRcs then scan.rcs else [], wheels := if includeWheels then scan.wheels else [])
    case Engine => l.(engines := EngineScan(scan))
    case None => l
    case Invalid => l
  }

  /** A second refresh from the same scans changes nothing. */
  lemma RefreshTwiceIsOnce(l: Lists, m: PluginMode, scan: Scan, includeRcs: bool, includeWheels: bool)
    ensures var r := Refreshed(l, m, scan, includeRcs, includeWheels);
            Refreshed(r, m, scan, includeRcs, includeWheels) == r
  {
  }

  /**
   * One frame after a change to a named mode, the lists depend on the mode and the scans only:
   * what the mode works with comes from the scans, everything else is empty.
   */
  lemma RefreshAfterModeChange(l: Lists, m: PluginMode, scan: Scan, includeRcs: bool, includeWheels: bool)
    requires m != Invalid
    ensures var r := Refreshed(Cleared(l, m), m, scan, includeRcs, includeWheels);
            r.rcs == (if m == RCS || (m == Attitude && includeRcs) then scan.rcs else []) &&
            r.wheels == (if m == Attitude && includeWheels then scan.wheels else []) &&
            r.engines == (if m == Engine then EngineScan(scan) else [])
  {
  }

  // ---------------------------------------------------------------------------
  // The plugin

  /** The part of the plugin's state that switchDirection and Update change. */
  datatype Snapshot = Snapshot(events: ModeState, direction: Direction, lists: Lists, messages: seq<string>)

  /**
   * switchDirection(dir), where rcsCount and wheelCount are the sizes of the RCS and
   * reaction-wheel scans it makes. Outside RCS and Attitude the previous mode comes back
   * first, and the same key then keeps it; in RCS or Attitude the same key turns the plugin
   * off; another key selects that direction, after one more SetPreviousMode if the mode is
   * none, and warns when the mode has nothing to show.
   */
  function AfterSwitchDirection(p: Snapshot, dir: Direction, rcsCount: nat, wheelCount: nat): Snapshot
  {
    var restore := !IsDirectional(p.events.mode);
    var e := if restore then AfterSetPreviousMode(p.events) else p.events;
    var l := if restore then Cleared(p.lists, e.mode) else p.lists;
    if restore && p.direction == dir then Snapshot(e, p.direction, l, p.messages)
    else if p.direction == dir then Snapshot(AfterSetMode(e, None), DirNone, Cleared(l, None), p.messages)
    else
      var e' := if e.mode == None then AfterSetPreviousMode(e) else e;
      var l' := if e.mode == None then Cleared(l, e'.mode) else l;
      Snapshot(e', dir, l', p.messages + Warning(e'.mode, rcsCount, wheelCount))
  }

  /** Update when a root part exists: refresh the lists and react to a key, or empty the lists when disabled. */
  function AfterUpdate(p: Snapshot, enabled: bool, keys: Keys, scan: Scan, includeRcs: bool, includeWheels: bool): Snapshot
  {
    if !enabled then p.(lists := Lists([], [], []))
    else
      var q := p.(lists := Refreshed(p.lists, p.events.mode, scan, includeRcs, includeWheels));
      var dir := KeyDirection(keys);
      if dir == DirNone then q else AfterSwitchDirection(q, dir, |scan.rcs|, |scan.wheels|)
  }

  /** After switchDirection, either mode and direction are both none, or the mode is RCS or Attitude and the direction is the key's. */
  lemma SwitchOutcome(p: Snapshot, dir: Direction, rcsCount: nat, wheelCount: nat)
    requires IsDirectional(p.events.lastMode)
    ensures var r := AfterSwitchDirection(p, dir, rcsCount, wheelCount);
            (r.events.mode == None && r.direction == DirNone) || (IsDirectional(r.events.mode) && r.direction == dir)
  {
  }

  /**
   * Outside RCS and Attitude, a direction key brings the previous mode back, announces it,
   * clears the lists for it, and selects the key's direction, warning when the key is a new one.
   */
  lemma SwitchFromOtherMode(p: Snapshot, dir: Direction, rcsCount: nat, wheelCount: nat)
    requires IsDirectional(p.events.lastMode) && !IsDirectional(p.events.mode)
    ensures var r := AfterSwitchDirection(p, dir, rcsCount, wheelCount);
            r.events.mode == p.events.lastMode && r.events.lastMode == p.events.lastMode && r.direction == dir &&
            r.events.log == p.events.log + (if p.events.subscribed then [p.events.lastMode] else []) &&
            r.lists == Cleared(p.lists, p.events.lastMode) &&
            r.messages == p.messages + (if p.direction != dir then Warning(p.events.lastMode, rcsCount, wheelCount) else [])
  {
  }

  /** In RCS or Attitude, the key of the current direction turns the plugin off and empties every list. */
  lemma SwitchSameKeyTurnsOff(p: Snapshot, dir: Direction, rcsCount: nat, wheelCount: nat)
    requires IsDirectional(p.events.mode) && p.direction == dir
    ensures var r := AfterSwitchDirection(p, dir, rcsCount, wheelCount);
            r.events.mode == None && r.events.lastMode == p.events.mode && r.direction == DirNone &&
            r.lists == Lists([], [], []) && r.messages == p.messages
  {
  }

  /** In RCS or Attitude, another key only selects its direction, with the warning of the mode. */
  lemma SwitchOtherKey(p: Snapshot, dir: Direction, rcsCount: nat, wheelCount: nat)
    requires IsDirectional(p.events.mode) && p.direction != dir
    ensures var r := AfterSwitchDirection(p, dir, rcsCount, wheelCount);
            r.events == p.events && r.direction == dir && r.lists == p.lists &&
            r.messages == p.messages + Warning(p.events.mode, rcsCount, wheelCount)
  {
  }

  /** Pressing a new direction key twice selects it and then turns the plugin off. */
  lemma SameKeyTwiceTurnsOff(p: Snapshot, dir: Direction, rcsCount: nat, wheelCount: nat)
    requires IsDirectional(p.events.mode) && p.direction != dir
    ensures var r := AfterSwitchDirection(AfterSwitchDirection(p, dir, rcsCount, wheelCount), dir, rcsCount, wheelCount);
            r.events.mode == None && r.events.lastMode == p.events.mode && r.direction == DirNone &&
            r.lists == Lists([], [], [])
  {
    SwitchOtherKey(p, dir, rcsCount, wheelCount);
    SwitchSameKeyTurnsOff(AfterSwitchDirection(p, dir, rcsCount, wheelCount), dir, rcsCount, wheelCount);
  }

  /** Disabled, Update empties every list and changes nothing else. */
  lemma UpdateDisabledClears(p: Snapshot, keys: Keys, scan: Scan, includeRcs: bool, includeWheels: bool)
    ensures var r := AfterUpdate(p, false, keys, scan, includeRcs, includeWheels);
            r.lists == Lists([], [], []) && r.events == p.events && r.direction == p.direction && r.messages == p.messages
  {
  }

  /** Enabled and without a direction key, Update only refreshes the lists of the current mode. */
  lemma UpdateWithoutKeyRefreshes(p: Snapshot, keys: Keys, scan: Scan, includeRcs: bool, includeWheels: bool)
    requires KeyDirection(keys) == DirNone
    ensures var r := AfterUpdate(p, true, keys, scan, includeRcs, includeWheels);
            r.lists == Refreshed(p.lists, p.events.mode, scan, includeRcs, includeWheels) &&
            r.events == p.events && r.direction == p.direction && r.messages == p.messages
  {
  }

  /** Enabled and with a direction key, Update ends with the outcome of switchDirection. */
  lemma UpdateWithKeyOutcome(p: Snapshot, keys: Keys, scan: Scan, includeRcs: bool, includeWheels: bool)
    requires IsDirectional(p.events.lastMode) && KeyDirection(keys) != DirNone
    ensures var r := AfterUpdate(p, true, keys, scan, includeRcs, includeWheels);
            (r.events.mode == None && r.direction == DirNone) ||
            (IsDirectional(r.events.mode) && r.direction == KeyDirection(keys))
  {
    var q := p.(lists := Refreshed(p.lists, p.events.mode, scan, includeRcs, includeWheels));
    SwitchOutcome(q, KeyDirection(keys), |scan.rcs|, |scan.wheels|);
  }

  /** In Engine mode a direction key leaves it: the previous mode is back and the fresh engine list is emptied. */
  lemma KeyInEngineModeLeavesIt(p: Snapshot, keys: Keys, scan: Scan, includeRcs: bool, includeWheels: bool)
    requires IsDirectional(p.events.lastMode) && p.events.mode == Engine && KeyDirection(keys) != DirNone
    ensures var r := AfterUpdate(p, true, keys, scan, includeRcs, includeWheels);
            r.events.mode == p.events.lastMode && r.direction == KeyDirection(keys) && r.lists.engines == []
  {
    var q := p.(lists := Refreshed(p.lists, p.events.mode, scan, includeRcs, includeWheels));
    SwitchFromOtherMode(q, KeyDirection(keys), |scan.rcs|, |scan.wheels|);
  }

  class BuildAid {
    const events: RCSBuildAidEvents
    var direction: Direction
    var rcsList: seq<Module>
    var engineList: seq<Module>
    var wheelList: seq<Module>
    var lastStage: Int32
    var referenceMarker: MarkerType
    /** Messages posted with ScreenMessages.PostScreenMessage, in order. */
    var messages: seq<string>
    /** The settings file, as Settings.GetValue and Settings.SetValue see it. */
    var settings: map<string, Int32>
    /** Whether referenceTransform has been found. */
    var hasReference: bool

    function ModuleLists(): Lists
      reads this
    {
      Lists(rcsList, engineList, wheelList)
    }

    function Current(): Snapshot
      reads this, events
    {
      Snapshot(events.State(), direction, ModuleLists(), messages)
    }

    ghost predicate Valid()
      reads this, events
    {
      events.Valid() && events.subscribed
    }

    /** Awake: load the settings, empty lists, a new events object with OnModeChange subscribed. */
    constructor (settings0: map<string, Int32>, mode0: PluginMode)
      ensures Valid() && fresh(events)
      ensures events.State() == Initial(mode0, true)
      ensures settings == settings0 && ModuleLists() == Lists([], [], [])
      ensures lastStage == 0 && messages == [] && !hasReference
      ensures direction == GetValue(settings0, "direction", 1)
      ensures var code := GetValue(settings0, "com_reference", 0);
              0 <= code < 3 ==> referenceMarker == MarkerAt(code)
    {
      events := new RCSBuildAidEvents(mode0, true);
      settings := settings0;
      direction := DirNone;
      referenceMarker := CoM;
      rcsList, engineList, wheelList := [], [], [];
      lastStage := 0;
      messages := [];
      hasReference := false;
      new;
      var ok := Load();
    }

    /**
     * Load: the marker code stored under "com_reference" (default 0) and the direction under
     * "direction" (default 1). A marker code outside 0..2 has no marker: ok is false and the
     * marker is kept.
     */
    method Load() returns (ok: bool)
      modifies this
      ensures var code := GetValue(settings, "com_reference", 0);
              (ok <==> 0 <= code < 3) &&
              (ok ==> referenceMarker == MarkerAt(code)) &&
              (!ok ==> referenceMarker == old(referenceMarker))
      ensures direction == GetValue(settings, "direction", 1)
      ensures settings == old(settings) && ModuleLists() == old(ModuleLists())
      ensures lastStage == old(lastStage) && messages == old(messages) && hasReference == old(hasReference)
    {
      var code := GetValue(settings, "com_reference", 0);
      ok := 0 <= code < 3;
      if ok {
        referenceMarker := MarkerAt(code);
      }
      direction := GetValue(settings, "direction", 1);
    }

    /** Save */
    method Save()
      modifies this
      ensures settings == Saved(old(settings), referenceMarker, direction)
      ensures direction == old(direction) && referenceMarker == old(referenceMarker)
      ensures ModuleLists() == old(ModuleLists()) && lastStage == old(lastStage)
      ensures messages == old(messages) && hasReference == old(hasReference)
    {
      settings := settings["com_reference" := MarkerIndex(referenceMarker)];
      if direction != DirNone {
        settings := settings["direction" := direction];
      }
    }

    /** SetReferenceMarker */
    method SetReferenceMarker(m: MarkerType)
      modifies this
      ensures referenceMarker == m
      ensures direction == old(direction) && settings == old(settings) && ModuleLists() == old(ModuleLists())
      ensures lastStage == old(lastStage) && messages == old(messages) && hasReference == old(hasReference)
    {
      referenceMarker := m;
    }

    /** onModeChange(m) */
    method OnModeChange(m: PluginMode)
      modifies this
      ensures ModuleLists() == Cleared(old(ModuleLists()), m)
      ensures direction == old(direction) && referenceMarker == old(referenceMarker) && settings == old(settings)
      ensures lastStage == old(lastStage) && messages == old(messages) && hasReference == old(hasReference)
    {
      match m {
        case Engine =>
          rcsList := [];
          wheelList := [];
        case Attitude =>
          engineList := [];
        case RCS =>
          engineList := [];
          wheelList := [];
        case None =>
          ClearAllLists();
        case Invalid =>
      }
    }

    /** clearAllLists */
    method ClearAllLists()
      modifies this
      ensures ModuleLists() == Lists([], [], [])
      ensures direction == old(direction) && referenceMarker == old(referenceMarker) && settings == old(settings)
      ensures lastStage == old(lastStage) && messages == old(messages) && hasReference == old(hasReference)
    {
      engineList := [];
      rcsList := [];
      wheelList := [];
    }

    /** events.SetMode(m), with this object's OnModeChange as the subscriber. */
    method SetMode(m: PluginMode)
      requires Valid()
      modifies this, events
      ensures Valid()
      ensures events.State() == AfterSetMode(old(events.State()), m)
      ensures ModuleLists() == Cleared(old(ModuleLists()), m)
      ensures direction == old(direction) && referenceMarker == old(referenceMarker) && settings == old(settings)
      ensures lastStage == old(lastStage) && messages == old(messages) && hasReference == old(hasReference)
    {
      events.SetMode(m);
      OnModeChange(events.mode);
    }

    /** events.SetPreviousMode(), with this object's OnModeChange as the subscriber. */
    method SetPreviousMode()
      requires Valid()
      modifies this, events
      ensures Valid()
      ensures events.State() == AfterSetPreviousMode(old(events.State()))
      ensures ModuleLists() == Cleared(old(ModuleLists()), old(events.lastMode))
      ensures direction == old(direction) && referenceMarker == old(referenceMarker) && settings == old(settings)
      ensures lastStage == old(lastStage) && messages == old(messages) && hasReference == old(hasReference)
    {
      events.SetPreviousMode();
      OnModeChange(events.mode);
    }

    /** switchDirection(dir) */
    method SwitchDirection(dir: Direction, rcsCount: nat, wheelCount: nat)
      requires Valid()
      modifies this, events
      ensures Valid()
      ensures Current() == AfterSwitchDirection(old(Current()), dir, rcsCount, wheelCount)
      ensures referenceMarker == old(referenceMarker) && settings == old(settings)
      ensures lastStage == old(lastStage) && hasReference == old(hasReference)
    {
      if events.mode != RCS && events.mode != Attitude {
        SetPreviousMode();
        if direction == dir {
          return;
        }
      }
      if direction == dir {
        SetMode(None);
        direction := DirNone;
      } else {
        if events.mode == None {
          // The second SetPreviousMode of the source, which AfterSwitchDirection keeps: under
          // Valid() the mode is RCS or Attitude by now (RestoredModeIsNotNone), so the branch
          // is never taken.
          assert false;
        }
        direction := dir;
        if events.mode == RCS {
          if rcsCount == 0 {
            messages := messages + [NoRcsMessage];
          }
        } else if events.mode == Attitude {
          if rcsCount == 0 && wheelCount == 0 {
            messages := messages + [NoAttitudeMessage];
          }
        }
      }
    }

    /**
     * doPlugingUpdate: refresh the lists of the current mode from the scans; in Engine mode
     * also the bottom-most stage. includeRcs and includeWheels are Settings.include_rcs and
     * Settings.include_wheels.
     */
    method DoPluginUpdate(scan: Scan, includeRcs: bool, includeWheels: bool)
      modifies this
      ensures ModuleLists() == Refreshed(old(ModuleLists()), events.mode, scan, includeRcs, includeWheels)
      ensures events.mode == Engine ==> IsBottomStage(engineList, lastStage)
      ensures events.mode != Engine ==> lastStage == old(lastStage)
      ensures direction == old(direction) && referenceMarker == old(referenceMarker) && settings == old(settings)
      ensures messages == old(messages) && hasReference == old(hasReference)
    {
      match events.mode {
        case RCS =>
          rcsList := scan.rcs;
        case Attitude =>
          if includeRcs {
            rcsList := scan.rcs;
          } else {
            rcsList := [];
          }
          if includeWheels {
            wheelList := scan.wheels;
          } else {
            wheelList := [];
          }
        case Engine =>
          var fx := UnpairedFx(scan.enginesFX, scan.multiMode);
          engineList := scan.engines + scan.multiMode + fx;
          assert engineList == EngineScan(scan);
          lastStage := BottomStage(engineList);
        case None =>
        case Invalid =>
      }
    }

    /**
     * Update, for one frame. startPod says whether the editor has a root part to take the
     * reference transform from; enabled is the Enabled property.
     */
    method Update(startPod: bool, enabled: bool, keys: Keys, scan: Scan, includeRcs: bool, includeWheels: bool)
      requires Valid()
      modifies this, events
      ensures Valid()
      ensures !old(hasReference) && !startPod ==>
                Current() == old(Current()) && lastStage == old(lastStage) && !hasReference
      ensures old(hasReference) || startPod ==>
                hasReference && Current() == AfterUpdate(old(Current()), enabled, keys, scan, includeRcs, includeWheels)
      ensures (old(hasReference) || startPod) && enabled && old(events.mode) == Engine ==>
                IsBottomStage(EngineScan(scan), lastStage)
      ensures !((old(hasReference) || startPod) && enabled && old(events.mode) == Engine) ==> lastStage == old(lastStage)
      ensures referenceMarker == old(referenceMarker) && settings == old(settings)
    {
      if !hasReference {
        if startPod {
          hasReference := true;
        } else {
          return;
        }
      }
      if enabled {
        DoPluginUpdate(scan, includeRcs, includeWheels);
        var dir := KeyDirection(keys);
        if dir != DirNone {
          SwitchDirection(dir, |scan.rcs|, |scan.wheels|);
        }
      } else {
        ClearAllLists();
      }
    }
  }

  /** The second SetPreviousMode of switchDirection (lines 437-439) never runs: the mode is never none there. */
  lemma RestoredModeIsNotNone(s: ModeState)
    requires IsDirectional(s.lastMode) && !IsDirectional(s.mode)
    ensures AfterSetPreviousMode(s).mode != None
  {
  }
}
