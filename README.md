# RCSBuildAid core, modelled in Dafny

RCSBuildAid is a plugin for the vessel editor of Kerbal Space Program. It draws the forces and
torques of a craft's RCS thrusters, reaction wheels and engines. It also ships a release script
that pulls the notes of one version out of the changelog. This project models the parts of it
that are plain state and logic, and proves what they promise:

- `changelog.dfy` (module `Changelog`, `scripts/changelog.py`): the changelog section extractor.
  - It is a four-state line scanner (Init, Bullet, All, End) with an append-only accumulator.
  - Its three line patterns (target header, any version header, bullet) are exact predicates with
    Python `re.match` semantics: anchored at the start, `$` also before one final "\n", `.` never
    matching "\n", `\s` and `str.strip` using the same whitespace set.
  - `feed` is a loop over the lines of a file that stops at End. The class method is proved
    against a pure `Run` over the lines.
- `events.dfy` (module `ModeEvents`, `Plugin/Events.cs`): the mode and direction state.
  - It holds `mode`, `direction` and `lastMode`, the mode to go back to.
  - Notifications are recorded in a log, and after an outgoing mode without a
    name, SetMode sets none instead of the requested mode; a requested mode without a name is
    set as given.
- `legacy_events.dfy` (module `BuildAidEvents`, `Plugin/RCSBuildAidEvents.cs`): the earlier
  mode state that `Plugin/RCSBuildAid.cs` uses. It has `mode` and `lastMode` and no fallback.
- `build_aid.dfy` (module `BuildAid`, `Plugin/RCSBuildAid.cs`): the editor-side rules.
  - How a direction key combines with the mode, and which module lists a mode change clears.
  - What `Save` and `Load` store in the settings.
  - The per-frame list refresh of `doPlugingUpdate`, with its filtered FX engine list and its
    bottom-most engine stage.
  - `Update`'s key priority.
- `main_window.dfy` (module `MainWindow`, `Plugin/GUI/MainWindow.cs`): the window's buttons and label.
  - The direction button's cycling, with C# 32-bit `int` wrap-around.
  - The search for the next visible reference marker.
  - `timeFormat`'s truncating minutes and seconds.
- `types.dfy` (module `Types`): the enums shared by these files and the 32-bit `int`.

Each class holds the state its source class changes, in fields that its methods reassign.
Where the source keeps that state elsewhere (static fields, properties over the static
`Settings` class, a `Transform`), "Left out" says how it is held here. Every method states its
whole new state. Most do so through a pure function of the old state (`Run`, `AfterSetMode`,
`Cleared`, `Saved`, `Refreshed`, `AfterSwitchDirection`, `AfterUpdate`). The lemmas state the
source's rules about those functions.

## Model

| member | source | states |
|---|---|---|
| Changelog.StripLeadingV | scripts/changelog.py:16-19 | the result is a suffix of the version, everything removed is 'v', and the result does not start with 'v' |
| Changelog.IsTargetHeader | scripts/changelog.py:10 | a line that matches the target header starts with '=' and is at least as long as "= Version " followed by the pattern |
| Changelog.IsAnyVersionHeader | scripts/changelog.py:11 | a line that matches any version header starts with '=' and holds "= Version " and at least one digit or dot |
| Changelog.IsBullet | scripts/changelog.py:12 | a bullet line has a '*' right after its leading whitespace, so it is not blank |
| Changelog.LeadingVIgnored | scripts/changelog.py:16-19 | any number of leading 'v's selects the same pattern as none |
| Changelog.Strip | scripts/changelog.py:45 | the stripped line is empty exactly when the line is all whitespace; otherwise it starts and ends with a non-space |
| Changelog.StripIsMiddle | scripts/changelog.py:45 | the stripped line is the text between the leading whitespace and the trailing whitespace |
| Changelog.Transition | scripts/changelog.py:32-48 | one line appends nothing, the line, or the line and "\n"; the state never goes back to Init and stays End at End; Init is left exactly on the target header; outside Init only the line itself is appended, and only on entering or staying in All |
| Changelog.Run | scripts/changelog.py:26-30 | feeding lines appends at most one piece per line, plus the extra "\n" when starting in Init |
| Changelog.Text | scripts/changelog.py:50-52 | the changelog property is empty exactly when the joined lines are all whitespace |
| Changelog.ChangelogParser.constructor | scripts/changelog.py:9-14 | the pattern is the version without leading 'v's; the state is Init and the accumulator empty |
| Changelog.ChangelogParser.ParseLine | scripts/changelog.py:32-48 | the new state and the appended lines are those of one transition; the object invariant is kept |
| Changelog.ChangelogParser.Feed | scripts/changelog.py:21-30 | an empty path succeeds and changes nothing; a missing file fails and changes nothing; otherwise state and accumulator advance as the run over the file's lines, which stops at End |
| Changelog.ChangelogParser.Changelog | scripts/changelog.py:50-52 | the property is empty exactly when the parser is still in Init |
| Changelog.RunConcat | scripts/changelog.py:21-30 | feeding two documents one after the other is feeding their concatenation |
| Changelog.EndStopsReading | scripts/changelog.py:26-30 | from End no line is read: nothing is appended and the state stays End |
| Changelog.NeverBackToInit | scripts/changelog.py:33-48 | once the state has left Init it never returns, whatever the lines |
| Changelog.InitUntilHeader | scripts/changelog.py:33-37 | the parser stays in Init, having kept nothing, exactly while no line is the target header |
| Changelog.FirstHeaderOpensSection | scripts/changelog.py:33-37 | lines before the first target header are ignored; that header is kept with one "\n" after it, and the rest is scanned from Bullet |
| Changelog.TargetHeaderOpensSection | scripts/changelog.py:34-37 | in Init the target header is appended with "\n" and the state becomes Bullet |
| Changelog.BulletOpensItem | scripts/changelog.py:39-41 | in Bullet a bullet line is appended and the state becomes All |
| Changelog.HeaderEndsSection | scripts/changelog.py:42-43 | in Bullet a version header ends the section without being appended, and nothing after it is read |
| Changelog.BlankClosesItem | scripts/changelog.py:45-46 | in All a blank line is dropped and the state goes back to Bullet |
| Changelog.LineContinuesItem | scripts/changelog.py:47-48 | in All every other line, a version header included, is appended verbatim |
| Changelog.ProseIgnoredInBullet | scripts/changelog.py:38-43 | in Bullet a line that is neither a bullet nor a version header is dropped and the state stays Bullet |
| Changelog.BulletIsNoHeader | scripts/changelog.py:11-12 | a bullet line is never a version header, so in Bullet at most one of the two checks fires |
| Changelog.HeaderIsNotBlank | scripts/changelog.py:10-11 | a header line is never blank |
| Changelog.TextEmptyIffInit | scripts/changelog.py:32-52 | for a consistent parser the stripped text is empty exactly when the state is Init, because the header is always kept first |
| Changelog.Extract | scripts/changelog.py:32-52 | a fresh parser's changelog is empty exactly when no line is the target header |
| Changelog.StepKeepsConsistent | scripts/changelog.py:33-48 | one line keeps the invariant: in Init nothing is kept, otherwise the target header and "\n" come first |
| Changelog.RunKeepsConsistent | scripts/changelog.py:26-30 | any number of lines keep the invariant |
| Changelog.TargetHeaderNamesOneVersion | scripts/changelog.py:10-19 | a header line matches at most one version: the version is matched literally and up to the end of the line, so "1.2" does not select "1.2.3" |
| Changelog.JoinConcat | scripts/changelog.py:52 | joining a concatenation is concatenating the joins |
| Changelog.ExtractExample | scripts/changelog.py:10-52 | the section for "v2.0" of a small changelog is its header, the extra "\n", two items and a continuation line; blank lines are dropped and the "1.9" header ends it |
| ModeEvents.Initial | Plugin/Events.cs:23-32 | a new object has lastMode RCS and an empty log |
| ModeEvents.AfterSetMode | Plugin/Events.cs:68-87 | SetMode leaves direction, subscribers and the scene hook alone |
| ModeEvents.AfterSetDirection | Plugin/Events.cs:89-96 | SetDirection sets the direction and leaves the modes alone |
| ModeEvents.AfterSetPreviousMode | Plugin/Events.cs:98-101 | SetPreviousMode goes back to lastMode, or to none when the outgoing mode has no name; an outgoing RCS or Attitude becomes lastMode; the direction is kept |
| ModeEvents.AfterSceneChange | Plugin/Events.cs:58-66 | a scene change leaves the state alone and unregisters its handler |
| ModeEvents.Events.constructor | Plugin/Events.cs:23-32 | the new object is the initial state |
| ModeEvents.Events.SetMode | Plugin/Events.cs:68-87 | the new state is AfterSetMode of the old one, and lastMode stays RCS or Attitude |
| ModeEvents.Events.SetDirection | Plugin/Events.cs:89-96 | the new state is AfterSetDirection of the old one |
| ModeEvents.Events.SetPreviousMode | Plugin/Events.cs:98-101 | the new state is SetMode with lastMode |
| ModeEvents.Events.OnModeChange | Plugin/Events.cs:44-49 | the current mode is logged, only when there is a subscriber |
| ModeEvents.Events.OnDirectionChange | Plugin/Events.cs:51-56 | the current direction is logged, only when there is a subscriber |
| ModeEvents.Events.OnGameSceneChange | Plugin/Events.cs:58-66 | the save request, only with a subscriber, then the config save; the handler is unregistered |
| ModeEvents.SetModeRemembers | Plugin/Events.cs:70-78 | lastMode takes the outgoing mode exactly when it is RCS or Attitude, and is kept otherwise |
| ModeEvents.SetModeTakesRequested | Plugin/Events.cs:79-85 | the requested mode is set unless the outgoing mode has no name, and then none is set |
| ModeEvents.SetModeNotifiesOnce | Plugin/Events.cs:44-87 | SetMode announces the mode it set exactly once to a subscriber, and nothing without one |
| ModeEvents.SetSameDirectionIsNoOp | Plugin/Events.cs:91-93 | setting the current direction changes nothing and announces nothing |
| ModeEvents.SetNewDirectionNotifiesOnce | Plugin/Events.cs:94-95 | a new direction is set and announced once, and nothing else changes |
| ModeEvents.ReplayKeepsLastModeDirectional | Plugin/Events.cs:68-101 | lastMode stays RCS or Attitude after any sequence of calls |
| ModeEvents.LastModeAlwaysDirectional | Plugin/Events.cs:68-101 | from a new object, lastMode is RCS or Attitude after any sequence of calls |
| ModeEvents.PreviousModeIsDirectional | Plugin/Events.cs:98-101 | SetPreviousMode goes back to lastMode, which is RCS or Attitude, unless the outgoing mode has no name |
| ModeEvents.PreviousModeRestores | Plugin/Events.cs:68-101 | leaving RCS or Attitude for any named mode and calling SetPreviousMode comes back to it |
| ModeEvents.PreviousAfterInvalidIsNone | Plugin/Events.cs:68-101 | a mode without a name is set as requested, and SetPreviousMode from it gives none instead of lastMode |
| ModeEvents.SceneChangeSavesOnce | Plugin/Events.cs:58-66 | a scene change asks for a save at most once, then saves the config, then unregisters |
| BuildAidEvents.Initial | Plugin/RCSBuildAidEvents.cs:23 | lastMode starts as RCS |
| BuildAidEvents.AfterSetMode | Plugin/RCSBuildAidEvents.cs:39-51 | the new mode always equals the argument; there is no substitution |
| BuildAidEvents.AfterSetPreviousMode | Plugin/RCSBuildAidEvents.cs:53-56 | SetPreviousMode sets the mode to lastMode |
| BuildAidEvents.RCSBuildAidEvents.constructor | Plugin/RCSBuildAidEvents.cs:23 | the new object is the initial state: lastMode RCS and an empty log |
| BuildAidEvents.RCSBuildAidEvents.SetMode | Plugin/RCSBuildAidEvents.cs:39-51 | the new state is AfterSetMode of the old one, and lastMode stays RCS or Attitude |
| BuildAidEvents.RCSBuildAidEvents.SetPreviousMode | Plugin/RCSBuildAidEvents.cs:53-56 | the new state is SetMode with lastMode |
| BuildAidEvents.RCSBuildAidEvents.OnModeChange | Plugin/RCSBuildAidEvents.cs:32-37 | the current mode is logged, only when there is a subscriber |
| BuildAidEvents.SetModeRemembers | Plugin/RCSBuildAidEvents.cs:41-47 | lastMode changes exactly when the outgoing mode is RCS or Attitude, and then to that mode |
| BuildAidEvents.SetModeFrame | Plugin/RCSBuildAidEvents.cs:39-51 | only mode, lastMode and the log change, and the new mode is announced once after it is set |
| BuildAidEvents.LastModeAlwaysDirectional | Plugin/RCSBuildAidEvents.cs:23-56 | lastMode is RCS or Attitude after any sequence of SetMode and SetPreviousMode calls |
| BuildAidEvents.PreviousModeRestores | Plugin/RCSBuildAidEvents.cs:39-56 | leaving RCS or Attitude for any mode and calling SetPreviousMode comes back to it |
| BuildAidEvents.AttitudeEngineBack | Plugin/RCSBuildAidEvents.cs:39-56 | Attitude, then SetMode(Engine), then SetPreviousMode gives Attitude again |
| BuildAid.Cleared | Plugin/RCSBuildAid.cs:125-143 | Engine empties the RCS and wheel lists, Attitude the engine list, RCS the engine and wheel lists, none all three; the others are kept |
| BuildAid.ClearedIdempotent | Plugin/RCSBuildAid.cs:125-143 | announcing the same mode twice clears nothing more |
| BuildAid.BuildAid.OnModeChange | Plugin/RCSBuildAid.cs:125-143 | the lists become the cleared lists of the mode, and nothing else changes |
| BuildAid.BuildAid.SetMode | Plugin/RCSBuildAid.cs:433 | the events state is AfterSetMode of the old one and the lists are cleared for the mode set; nothing else changes |
| BuildAid.BuildAid.SetPreviousMode | Plugin/RCSBuildAid.cs:425 | the events state is AfterSetPreviousMode of the old one and the lists are cleared for lastMode; nothing else changes |
| BuildAid.BuildAid.ClearAllLists | Plugin/RCSBuildAid.cs:461-466 | all three lists are empty, and nothing else changes |
| BuildAid.Warning | Plugin/RCSBuildAid.cs:441-457 | the RCS message exactly in RCS mode without thrusters; the attitude message exactly in Attitude mode without thrusters or wheels; otherwise none |
| BuildAid.BuildAid.SwitchDirection | Plugin/RCSBuildAid.cs:421-459 | the new mode, direction, lists, log and messages are those of AfterSwitchDirection, which follows the source's branches, the second SetPreviousMode included; nothing else changes |
| BuildAid.SwitchOutcome | Plugin/RCSBuildAid.cs:421-459 | afterwards either mode and direction are none, or the mode is RCS or Attitude and the direction is the key's |
| BuildAid.SwitchFromOtherMode | Plugin/RCSBuildAid.cs:423-429 | outside RCS and Attitude the previous mode comes back, is announced and clears the lists; the key's direction is selected, with the warning only for a new key |
| BuildAid.SwitchSameKeyTurnsOff | Plugin/RCSBuildAid.cs:431-434 | in RCS or Attitude the current key turns mode and direction off, remembers the mode and empties every list |
| BuildAid.SwitchOtherKey | Plugin/RCSBuildAid.cs:435-457 | in RCS or Attitude another key sets only the direction, with the warning of the mode |
| BuildAid.SameKeyTwiceTurnsOff | Plugin/RCSBuildAid.cs:421-459 | a new key pressed twice selects its direction and then turns the plugin off |
| BuildAid.RestoredModeIsNotNone | Plugin/RCSBuildAid.cs:424-438 | once the previous mode has been restored it is never none, so the second restore never runs |
| BuildAid.KeyDirection | Plugin/RCSBuildAid.cs:320-333 | no direction unless a key went down; otherwise up, down, forward, back, left, right in that priority |
| BuildAid.Saved | Plugin/RCSBuildAid.cs:298-304 | the marker is always stored; the direction only when it is not none, and otherwise the stored one is kept; no other key changes |
| BuildAid.BuildAid.Save | Plugin/RCSBuildAid.cs:298-304 | the settings become the saved settings and nothing else changes |
| BuildAid.BuildAid.Load | Plugin/RCSBuildAid.cs:192-196 | the marker is read from "com_reference" (default 0) and reported when its code has no marker; the direction from "direction" (default 1) |
| BuildAid.BuildAid.constructor | Plugin/RCSBuildAid.cs:174-185 | settings loaded, empty lists, a new events object in its initial state with the handler subscribed |
| BuildAid.BuildAid.SetReferenceMarker | Plugin/RCSBuildAid.cs:114-118 | the reference marker is set, and nothing else changes |
| BuildAid.SaveLoadRoundTrip | Plugin/RCSBuildAid.cs:298-304 | after Save, Load reads back the marker, and the direction unless it was none, in which case the earlier stored value or the default 1 |
| BuildAid.SaveNeverStoresNone | Plugin/RCSBuildAid.cs:300-302 | Save never writes none as the direction |
| BuildAid.LoadedDirectionIsNotNone | Plugin/RCSBuildAid.cs:298-304 | on a settings file without a stored none, the direction loaded after Save is never none |
| BuildAid.Unpaired | Plugin/RCSBuildAid.cs:379-392 | the kept FX engines are no more than the FX engines, and none of them shares a part with a multi-mode engine |
| BuildAid.UnpairedMembers | Plugin/RCSBuildAid.cs:379-392 | an FX engine is kept exactly when no multi-mode engine shares its part |
| BuildAid.UnpairedFx | Plugin/RCSBuildAid.cs:379-392 | the nested loop keeps, in order, the FX engines whose part has no multi-mode engine |
| BuildAid.IsBottomStage | Plugin/RCSBuildAid.cs:399-406 | with no engines the bottom-most stage is exactly 0 |
| BuildAid.BottomStage | Plugin/RCSBuildAid.cs:399-406 | the stage is at least 0 and every engine's stage is at most it; it is 0 or some engine's stage |
| BuildAid.BottomStageUnique | Plugin/RCSBuildAid.cs:399-406 | those conditions determine the stage |
| BuildAid.EngineScan | Plugin/RCSBuildAid.cs:368-396 | the engine list holds exactly the engines, the multi-mode engines and the FX engines whose part has no multi-mode engine |
| BuildAid.Refreshed | Plugin/RCSBuildAid.cs:340-409 | the lists the mode does not work with are untouched; each list is kept, rescanned or emptied; in Engine mode the engine list is the engine scan |
| BuildAid.RefreshTwiceIsOnce | Plugin/RCSBuildAid.cs:340-409 | a second refresh from the same scans changes nothing |
| BuildAid.RefreshAfterModeChange | Plugin/RCSBuildAid.cs:125-409 | one frame after a change to a named mode, its lists come from the scans and all others are empty |
| BuildAid.BuildAid.DoPluginUpdate | Plugin/RCSBuildAid.cs:340-409 | the lists become the refreshed lists of the current mode; in Engine mode lastStage is the bottom-most stage of the new engine list, otherwise it is kept; nothing else changes |
| BuildAid.BuildAid.Update | Plugin/RCSBuildAid.cs:306-338 | nothing happens before a root part exists; then the reference is found and the new state is AfterUpdate of the old one, lastStage being the bottom-most engine stage exactly when enabled in Engine mode |
| BuildAid.UpdateDisabledClears | Plugin/RCSBuildAid.cs:335-337 | disabled, every list is emptied and nothing else changes |
| BuildAid.UpdateWithoutKeyRefreshes | Plugin/RCSBuildAid.cs:316-318 | enabled without a direction key, only the lists of the current mode are refreshed |
| BuildAid.UpdateWithKeyOutcome | Plugin/RCSBuildAid.cs:316-334 | enabled with a direction key, either mode and direction are none, or the mode is RCS or Attitude and the direction is the key's |
| BuildAid.KeyInEngineModeLeavesIt | Plugin/RCSBuildAid.cs:316-334 | in Engine mode a direction key brings the previous mode back, selects the key's direction and empties the fresh engine list |
| MainWindow.CycleUpOnAxis | Plugin/GUI/MainWindow.cs:222-236 | the left button gives a named direction exactly from 0 upwards except the largest int; 1 to 5 go up by one, 6 and none give 1 |
| MainWindow.CycleDownOnAxis | Plugin/GUI/MainWindow.cs:222-236 | the right button gives a named direction exactly up to 7 except the smallest int; 2 to 6 go down by one, 1 and none give 6 |
| MainWindow.CycleUpDownInverse | Plugin/GUI/MainWindow.cs:222-234 | on the six named directions the two buttons undo each other |
| MainWindow.CycleHasPeriodSix | Plugin/GUI/MainWindow.cs:222-234 | six clicks of the same button come back to the start |
| MainWindow.CycleDirection | Plugin/GUI/MainWindow.cs:222-234 | from none or a named direction either button gives a named direction; any other mouse button leaves the direction as it is |
| Types.Wrap32 | Plugin/GUI/MainWindow.cs:223-233 | the C# `int` result agrees with the exact one modulo 2^32, and equals it when that fits in 32 bits |
| MainWindow.DirectionButton | Plugin/GUI/MainWindow.cs:220-237 | a click sets the direction to the cycled one; without a click nothing changes |
| MainWindow.FirstVisible | Plugin/GUI/MainWindow.cs:258-276 | the search ends on a marker that is visible, or on none |
| MainWindow.FirstVisibleNearest | Plugin/GUI/MainWindow.cs:258-276 | the search from step k finds a visible marker exactly when one lies k or more steps away, and the nearest of them |
| MainWindow.NextReferenceNearest | Plugin/GUI/MainWindow.cs:248-280 | when a marker is visible the new reference is visible and the nearest visible one in the click's direction, the current marker counting as the farthest |
| MainWindow.NextReference | Plugin/GUI/MainWindow.cs:248-280 | when a marker is visible the new reference is visible; with no marker visible the reference stays |
| MainWindow.OnlyCurrentVisibleKeepsReference | Plugin/GUI/MainWindow.cs:258-276 | with only the current marker visible the third step lands on it, so the reference stays |
| MainWindow.AllVisibleCycles | Plugin/GUI/MainWindow.cs:258-276 | with all markers visible the left button goes CoM, DCoM, ACoM, CoM and the right button undoes it |
| MainWindow.SearchVisible | Plugin/GUI/MainWindow.cs:258-276 | the loop finds a marker exactly when the search does, and the same one |
| MainWindow.SelectNextReference | Plugin/GUI/MainWindow.cs:248-280 | the reference becomes the next visible marker, and nothing else changes |
| MainWindow.ReferenceAfterButton | Plugin/GUI/MainWindow.cs:239-246 | whenever a marker is visible the reference after the button is visible; without a click a visible reference stays |
| MainWindow.ReferenceButton | Plugin/GUI/MainWindow.cs:239-246 | a click, or a reference that is not visible, selects the next reference; otherwise nothing changes |
| MainWindow.TruncDivMod | Plugin/GUI/MainWindow.cs:284-285 | C# division: quotient times 60 plus remainder is the dividend, and the remainder has the dividend's sign and is smaller than 60 |
| MainWindow.FormatIntRoundTrip | Plugin/GUI/MainWindow.cs:286 | every int reads back from its "D" format |
| MainWindow.TimeFormat | Plugin/GUI/MainWindow.cs:282-287 | the label reads back as the minutes and seconds of C#'s truncating `/ 60` and `% 60` |
| MainWindow.LabelReadsBack | Plugin/GUI/MainWindow.cs:286 | any label "<x>m <y>s" reads back as x and y |
| MainWindow.TimeFormatRoundTrip | Plugin/GUI/MainWindow.cs:282-287 | minutes times 60 plus seconds, as the label shows them, is the time again |
| MainWindow.TimeFormatSeconds | Plugin/GUI/MainWindow.cs:282-287 | a time that is not negative shows its whole minutes and 0 to 59 seconds |

## Left out

- `scripts/changelog.py`: the `__main__` block (argument parsing, printing, exit codes) is not modelled. Opening the file is a lookup in a map from path to lines, and a missing file is the error `open()` raises.
- `Changelog.IsTargetHeader`: the source inserts the version into the regular expression with only '.' escaped, so any other metacharacter keeps its regular-expression meaning there: "1.0+" also selects "= Version 1.00", "1{2}" selects "= Version 11", and "^1" selects nothing. A version with an unbalanced `(`, `[` or `)` makes `re.compile` raise in the constructor. The model matches every character of the version literally and never fails, and so differs from the source for a version holding any metacharacter other than '.'.
- `Changelog.ChangelogParser.Feed`: Python splits a file into lines. Here the lines are given, each with its line terminator.
- Unity, the game and rendering are not modelled: `addForce`, the markers' game objects, `vesselForces.Marker`, GUI layout, `Enabled`'s editor-screen test and the part scans are not part of this model. The scans are parameters (`Scan`), and on-screen messages are a log.
- `Plugin/Events.cs`: the game's scene-change registration is a flag, and `Settings.SaveConfig` is a log entry. Event subscription is one flag per event, fixed at construction.
- `ModeEvents.Events`: `mode` and `direction` are properties over the static `Settings.plugin_mode` and `Settings.direction` in the source (Plugin/Events.cs:34-42); here they are fields of the object, so two objects do not share them.
- `BuildAidEvents.RCSBuildAidEvents`: `mode` is a property over `Settings.plugin_mode` in the source (Plugin/RCSBuildAidEvents.cs:27-30); here it is a field of the object.
- `Plugin/Events.cs`: the `Direction` enum it uses is not part of this model. Its values are the 32-bit codes of `Types`.
- `BuildAid.BuildAid.Load`: the settings file is a map from key to the `int` `Settings.GetValue` parses; a value that does not parse is modelled as an absent key. A marker code outside 0..2 is only reported, because the source fails later, when it looks the marker up.
- `BuildAid.BuildAid.constructor`: the marker is stated only for a code in 0..2, for the same reason.
- `BuildAid.BuildAid.SwitchDirection`: the RCS and wheel counts of its own scans are parameters.
- `BuildAid.BuildAid.Update`: the scans are made once per frame and passed in; `switchDirection`'s own scans are taken to count the same thrusters and wheels.
- `BuildAid.BuildAid`: the lists, `lastStage`, `events`, `direction` and `referenceMarker` are static fields and properties in the source (Plugin/RCSBuildAid.cs:35-81); here they are fields of one object.
- `BuildAid.BuildAid`: `referenceTransform` is held only as whether it has been found (`hasReference`); the transform and the vectors taken from it are not modelled.
- `BuildAid.BuildAid.DoPluginUpdate`: updating the lists in place, and the aliasing between `EngineList` and the scan's list, are not modelled; the lists are values.
- `MainWindow.TimeFormat`: the conversion of the float burn time to `int` happens before the model. The input is that `int`.
- `MainWindow.DirectionButton`: the button's label, the enum's name, is not modelled.
