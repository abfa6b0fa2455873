/**
 * The mode state used by Plugin/RCSBuildAid.cs (Plugin/RCSBuildAidEvents.cs, class
 * RCSBuildAidEvents): the earlier variant of Events, with a mode and lastMode only and no
 * fallback for a mode without a name.
 */
module BuildAidEvents {
  import opened Types

  datatype ModeState = ModeState(mode: PluginMode, lastMode: PluginMode, subscribed: bool, log: seq<PluginMode>)

  /** A new object: lastMode starts as RCS. */
  function Initial(mode: PluginMode, subscribed: bool): (s: ModeState)
    ensures s.lastMode == RCS && s.log == []
  {
    ModeState(mode, RCS, subscribed, [])
  }

  /** SetMode(requested): an outgoing RCS or Attitude mode is remembered; the requested mode is set and announced. */
  function AfterSetMode(s: ModeState, requested: PluginMode): (r: ModeState)
    ensures r.subscribed == s.subscribed && r.mode == requested
  {
    var lastMode := if IsDirectional(s.mode) then s.mode else s.lastMode;
    s.(mode := requested, lastMode := lastMode, log := s.log + (if s.subscribed then [requested] else []))
  }

  /** SetPreviousMode() */
  function AfterSetPreviousMode(s: ModeState): (r: ModeState)
    ensures r.mode == s.lastMode
  {
    AfterSetMode(s, s.lastMode)
  }

  class RCSBuildAidEvents {
    /** Settings.plugin_mode */
    var mode: PluginMode
    var lastMode: PluginMode
    /** Whether onModeChange has a subscriber. */
    const subscribed: bool
    /** The modes announced through onModeChange, in order. */
    var log: seq<PluginMode>

    function State(): ModeState
      reads this
    {
      ModeState(mode, lastMode, subscribed, log)
    }

    ghost predicate Valid()
      reads this
    {
      IsDirectional(lastMode)
    }

    constructor (mode0: PluginMode, subscribed0: bool)
      ensures State() == Initial(mode0, subscribed0)
      ensures Valid()
    {
      mode := mode0;
      lastMode := RCS;
      subscribed := subscribed0;
      log := [];
    }

    method OnModeChange()
      modifies this
      ensures State() == old(State()).(log := old(log) + if subscribed then [mode] else [])
    {
      if subscribed {
        log := log + [mode];
      }
    }

    method SetMode(requested: PluginMode)
      requires Valid()
      modifies this
      ensures Valid()
      ensures State() == AfterSetMode(old(State()), requested)
    {
      if mode == RCS || mode == Attitude {
        lastMode := mode;
      }
      mode := requested;
      OnModeChange();
    }

    method SetPreviousMode()
      requires Valid()
      modifies this
      ensures Valid()
      ensures State() == AfterSetPreviousMode(old(State()))
    {
      SetMode(lastMode);
    }
  }

  // ---------------------------------------------------------------------------
  // Lemmas

  /** lastMode changes exactly when the outgoing mode is RCS or Attitude, and then to that mode. */
  lemma SetModeRemembers(s: ModeState, requested: PluginMode)
    ensures var r := AfterSetMode(s, requested);
            (IsDirectional(s.mode) ==> r.lastMode == s.mode) &&
            (!IsDirectional(s.mode) ==> r.lastMode == s.lastMode)
  {
  }

  /** Nothing else changes: SetMode touches mode and lastMode, and announces the new mode once after setting it. */
  lemma SetModeFrame(s: ModeState, requested: PluginMode)
    ensures var r := AfterSetMode(s, requested);
            r == s.(mode := requested, lastMode := r.lastMode, log := r.log) &&
            (s.subscribed ==> r.log == s.log + [r.mode]) &&
            (!s.subscribed ==> r.log == s.log)
  {
  }

  /** lastMode only ever holds RCS or Attitude. */
  lemma SetModeKeepsLastModeDirectional(s: ModeState, requested: PluginMode)
    requires IsDirectional(s.lastMode)
    ensures IsDirectional(AfterSetMode(s, requested).lastMode)
  {
  }

  /** A call: SetMode(mode), or SetPreviousMode. */
  datatype ModeCall = To(mode: PluginMode) | Previous

  function Apply(s: ModeState, c: ModeCall): ModeState
  {
    match c
    case To(m) => AfterSetMode(s, m)
    case Previous => AfterSetPreviousMode(s)
  }

  function Replay(s: ModeState, calls: seq<ModeCall>): ModeState
    decreases |calls|
  {
    if calls == [] then s else Replay(Apply(s, calls[0]), calls[1..])
  }

  /** lastMode only ever holds RCS or Attitude, after any sequence of SetMode and SetPreviousMode calls. */
  lemma {:induction false} LastModeAlwaysDirectional(s: ModeState, calls: seq<ModeCall>)
    requires IsDirectional(s.lastMode)
    ensures IsDirectional(Replay(s, calls).lastMode)
    decreases |calls|
  {
    if calls != [] {
      SetModeKeepsLastModeDirectional(s, if calls[0].To? then calls[0].mode else s.lastMode);
      LastModeAlwaysDirectional(Apply(s, calls[0]), calls[1..]);
    }
  }

  /** Going from RCS or Attitude to any other mode and back with SetPreviousMode restores it. */
  lemma PreviousModeRestores(s: ModeState, away: PluginMode)
    requires IsDirectional(s.mode)
    ensures AfterSetPreviousMode(AfterSetMode(s, away)).mode == s.mode
  {
  }

  /** Attitude, then SetMode(Engine), then SetPreviousMode(): the mode is Attitude again. */
  lemma AttitudeEngineBack(subscribed: bool)
    ensures var s := AfterSetMode(Initial(Attitude, subscribed), Engine);
            s.mode == Engine && AfterSetPreviousMode(s).mode == Attitude
  {
  }
}
