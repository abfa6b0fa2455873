/**
 * The mode and direction state of the plugin (Plugin/Events.cs, class Events): the current
 * mode, the mode to go back to, the direction, and the notifications raised when they change.
 *
 * `mode` and `direction` are properties stored in the settings; here they are fields of the
 * object. Raising a C# event calls its subscribers, so each raise is recorded in `log`, and
 * raising an event nobody subscribed to records nothing.
 */
module ModeEvents {
  import opened Types

  /** What the subscribers of Events hear, in order. */
  datatype Notification =
    | ModeChanged(mode: PluginMode)
    | DirectionChanged(direction: Direction)
    | SaveRequested
    | ConfigSaved

  /** Whether onModeChange, onDirectionChange and onSave have a subscriber. */
  datatype Subscribers = Subscribers(mode: bool, direction: bool, save: bool)

  datatype EventsState = EventsState(
    mode: PluginMode,
    direction: Direction,
    lastMode: PluginMode,
    subscribers: Subscribers,
    sceneHooked: bool,
    log: seq<Notification>)

  /** A new Events object: lastMode starts as RCS and the scene-change handler is registered. */
  function Initial(mode: PluginMode, direction: Direction, subscribers: Subscribers): (s: EventsState)
    ensures s.lastMode == RCS && s.log == []
  {
    EventsState(mode, direction, RCS, subscribers, true, [])
  }

  /** OnModeChange: the current mode, to the subscriber if there is one. */
  function ModeNotice(subscribers: Subscribers, m: PluginMode): (r: seq<Notification>)
    ensures r == [] || r == [ModeChanged(m)]
  {
    if subscribers.mode then [ModeChanged(m)] else []
  }

  /** OnDirectionChange: the current direction, to the subscriber if there is one. */
  function DirectionNotice(subscribers: Subscribers, d: Direction): (r: seq<Notification>)
    ensures r == [] || r == [DirectionChanged(d)]
  {
    if subscribers.direction then [DirectionChanged(d)] else []
  }

  /**
   * SetMode(requested): an outgoing RCS or Attitude mode is remembered in lastMode; an outgoing
   * mode without a name makes the requested mode be replaced by none. Then the mode is set and
   * announced.
   */
  function AfterSetMode(s: EventsState, requested: PluginMode): (r: EventsState)
    ensures r.direction == s.direction && r.subscribers == s.subscribers && r.sceneHooked == s.sceneHooked
  {
    var lastMode := if IsDirectional(s.mode) then s.mode else s.lastMode;
    var mode := if s.mode == Invalid then None else requested;
    s.(mode := mode, lastMode := lastMode, log := s.log + ModeNotice(s.subscribers, mode))
  }

  /** SetDirection(d): nothing happens when d is already the direction. */
  function AfterSetDirection(s: EventsState, d: Direction): (r: EventsState)
    ensures r.mode == s.mode && r.lastMode == s.lastMode && r.direction == d
  {
    if s.direction == d then s
    else s.(direction := d, log := s.log + DirectionNotice(s.subscribers, d))
  }

  /** SetPreviousMode(): back to the remembered mode, or to none when the outgoing mode has no name. */
  function AfterSetPreviousMode(s: EventsState): (r: EventsState)
    ensures s.mode != Invalid ==> r.mode == s.lastMode
    ensures s.mode == Invalid ==> r.mode == None
    ensures IsDirectional(s.mode) ==> r.lastMode == s.mode
    ensures r.direction == s.direction
  {
    AfterSetMode(s, s.lastMode)
  }

  /** OnGameSceneChange: ask the subscriber to save, write the settings file, unregister. */
  function AfterSceneChange(s: EventsState): (r: EventsState)
    ensures r.mode == s.mode && r.lastMode == s.lastMode && r.direction == s.direction
    ensures !r.sceneHooked
  {
    var save := if s.subscribers.save then [SaveRequested] else [];
    s.(sceneHooked := false, log := s.log + save + [ConfigSaved])
  }

  /** A call on an Events object, for reasoning about any sequence of them. */
  datatype Call =
    | CallSetMode(mode: PluginMode)
    | CallSetDirection(direction: Direction)
    | CallSetPreviousMode
    | CallSceneChange

  function Apply(s: EventsState, c: Call): EventsState
  {
    match c
    case CallSetMode(m) => AfterSetMode(s, m)
    case CallSetDirection(d) => AfterSetDirection(s, d)
    case CallSetPreviousMode => AfterSetPreviousMode(s)
    case CallSceneChange => AfterSceneChange(s)
  }

  function Replay(s: EventsState, calls: seq<Call>): EventsState
    decreases |calls|
  {
    if calls == [] then s else Replay(Apply(s, calls[0]), calls[1..])
  }

  class Events {
    /** Settings.plugin_mode */
    var mode: PluginMode
    /** Settings.direction */
    var direction: Direction
    var lastMode: PluginMode
    const subscribers: Subscribers
    /** Whether OnGameSceneChange is still registered with the game. */
    var sceneHooked: bool
    var log: seq<Notification>

    function State(): EventsState
      reads this
    {
      EventsState(mode, direction, lastMode, subscribers, sceneHooked, log)
    }

    ghost predicate Valid()
      reads this
    {
      IsDirectional(lastMode)
    }

    constructor (mode0: PluginMode, direction0: Direction, subscribers0: Subscribers)
      ensures State() == Initial(mode0, direction0, subscribers0)
      ensures Valid()
    {
      mode, direction := mode0, direction0;
      lastMode := RCS;
      subscribers := subscribers0;
      sceneHooked := true;
      log := [];
    }

    method OnModeChange()
      modifies this
      ensures State() == old(State()).(log := old(log) + ModeNotice(subscribers, mode))
    {
      if subscribers.mode {
        log := log + [ModeChanged(mode)];
      }
    }

    method OnDirectionChange()
      modifies this
      ensures State() == old(State()).(log := old(log) + DirectionNotice(subscribers, direction))
    {
      if subscribers.direction {
        log := log + [DirectionChanged(direction)];
      }
    }

    method OnGameSceneChange()
      modifies this
      ensures State() == AfterSceneChange(old(State()))
    {
      if subscribers.save {
        log := log + [SaveRequested];
      }
      log := log + [ConfigSaved];
      sceneHooked := false;
    }

    method SetMode(requested: PluginMode)
      requires Valid()
      modifies this
      ensures Valid()
      ensures State() == AfterSetMode(old(State()), requested)
    {
      var m := requested;
      match mode {
        case RCS => lastMode := mode;
        case Attitude => lastMode := mode;
        case Engine =>
        case None =>
        case Invalid => m := None;
      }
      mode := m;
      OnModeChange();
    }

    method SetDirection(d: Direction)
      modifies this
      ensures State() == AfterSetDirection(old(State()), d)
    {
      if direction == d {
        return;
      }
      direction := d;
      OnDirectionChange();
    }

    method SetPreviousMode()
      requires Valid()
      modifies this
      ensures Valid()
      ensures State() == AfterSetPreviousMode(old(State()))
    {
      SetMode(lastMode);
    }
  }

  // ---------------------------------------------------------------------------
  // Lemmas

  /** lastMode takes the outgoing mode exactly when that mode is RCS or Attitude, and is kept otherwise. */
  lemma SetModeRemembers(s: EventsState, requested: PluginMode)
    ensures var r := AfterSetMode(s, requested);
            (IsDirectional(s.mode) ==> r.lastMode == s.mode) &&
            (!IsDirectional(s.mode) ==> r.lastMode == s.lastMode)
  {
  }

  /** The requested mode is taken unless the outgoing mode has no name; then none is taken instead. */
  lemma SetModeTakesRequested(s: EventsState, requested: PluginMode)
    ensures s.mode != Invalid ==> AfterSetMode(s, requested).mode == requested
    ensures s.mode == Invalid ==> AfterSetMode(s, requested).mode == None
  {
  }

  /** SetMode announces the mode it set once, and only to a subscriber. */
  lemma SetModeNotifiesOnce(s: EventsState, requested: PluginMode)
    ensures var r := AfterSetMode(s, requested);
            (s.subscribers.mode ==> r.log == s.log + [ModeChanged(r.mode)]) &&
            (!s.subscribers.mode ==> r.log == s.log)
  {
  }

  /** Setting the current direction again changes nothing and announces nothing. */
  lemma SetSameDirectionIsNoOp(s: EventsState)
    ensures AfterSetDirection(s, s.direction) == s
  {
  }

  /** A new direction is set and announced once, and nothing else changes. */
  lemma SetNewDirectionNotifiesOnce(s: EventsState, d: Direction)
    requires d != s.direction
    ensures var r := AfterSetDirection(s, d);
            r == s.(direction := d, log := r.log) &&
            (s.subscribers.direction ==> r.log == s.log + [DirectionChanged(d)]) &&
            (!s.subscribers.direction ==> r.log == s.log)
  {
  }

  /** lastMode only ever holds RCS or Attitude, one call at a time. */
  lemma ApplyKeepsLastModeDirectional(s: EventsState, c: Call)
    requires IsDirectional(s.lastMode)
    ensures IsDirectional(Apply(s, c).lastMode)
  {
  }

  /** lastMode only ever holds RCS or Attitude, whatever the calls. */
  lemma {:induction false} ReplayKeepsLastModeDirectional(s: EventsState, calls: seq<Call>)
    requires IsDirectional(s.lastMode)
    ensures IsDirectional(Replay(s, calls).lastMode)
    decreases |calls|
  {
    if calls != [] {
      ApplyKeepsLastModeDirectional(s, calls[0]);
      ReplayKeepsLastModeDirectional(Apply(s, calls[0]), calls[1..]);
    }
  }

  /** From a new object, lastMode is RCS or Attitude after any sequence of calls. */
  lemma LastModeAlwaysDirectional(mode: PluginMode, direction: Direction, subscribers: Subscribers, calls: seq<Call>)
    ensures IsDirectional(Replay(Initial(mode, direction, subscribers), calls).lastMode)
  {
    ReplayKeepsLastModeDirectional(Initial(mode, direction, subscribers), calls);
  }

  /** SetPreviousMode goes back to RCS or Attitude, unless the outgoing mode has no name. */
  lemma PreviousModeIsDirectional(s: EventsState)
    requires IsDirectional(s.lastMode) && s.mode != Invalid
    ensures AfterSetPreviousMode(s).mode == s.lastMode
    ensures IsDirectional(AfterSetPreviousMode(s).mode)
  {
  }

  /** Leaving RCS or Attitude for any named mode and then calling SetPreviousMode comes back to it. */
  lemma PreviousModeRestores(s: EventsState, away: PluginMode)
    requires IsDirectional(s.mode) && away != Invalid
    ensures AfterSetPreviousMode(AfterSetMode(s, away)).mode == s.mode
  {
  }

  /** Setting a mode without a name and then calling SetPreviousMode ends in none, not in lastMode. */
  lemma PreviousAfterInvalidIsNone(s: EventsState)
    requires s.mode != Invalid
    ensures AfterSetMode(s, Invalid).mode == Invalid
    ensures AfterSetPreviousMode(AfterSetMode(s, Invalid)).mode == None
  {
  }

  /** A scene change asks for a save at most once and unregisters the handler. */
  lemma SceneChangeSavesOnce(s: EventsState)
    ensures var r := AfterSceneChange(s);
            !r.sceneHooked &&
            (s.subscribers.save ==> r.log == s.log + [SaveRequested, ConfigSaved]) &&
            (!s.subscribers.save ==> r.log == s.log + [ConfigSaved])
  {
  }
}
