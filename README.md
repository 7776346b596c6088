# One-thumb radial keyboard engine, modelled in Dafny

This model covers the engine behind the Steam Deck one-thumb radial keyboard. A thumb on the touch pad picks a sector of a radial menu by angle. Moving past an inner radius switches from group (sector) mode to letter mode, where the angle picks a key inside the sector. Lifting the thumb commits the key. A quick flick is a command instead of a pick:

- left is backspace;
- right is space;
- down cancels.

The model covers these pieces:

- **Router** (`router_spec.dfy`, `router.dfy`, `router_props.dfy`). The input router is the session state machine.
  - Its state is Idle, Hovering, CommitChar or SwipeCapture.
  - It holds the selection triple (sector, key, letter mode), the skip-commit flag set by `commit_char`, and the gesture context.
  - `RouterSpec` states each handler as a function over one `Session` value.
  - Class `Router.InputRouter` updates its fields in place. Each method is proved to move the session exactly as the matching function does.
  - `RouterProps` proves the session-level properties. Each message keeps the invariant: CommitChar is transient, and no key is selected outside letter mode. A gesture commits at most once. `commit_char` swallows the next touch-up. Clearing twice notifies once.
- **Swipe classifier** (`gesture.dfy`). It classifies the net motion since touch-down by distance, velocity and, on release only, duration. Lengths are compared through their squares.
- **Radial layout** (`layout.dfy`). This covers:
  - the configuration defaults;
  - the sector table built by the constructor, including the resize;
  - `angleToSector`, with its two normalisation loops, the floor and the clamps.
- **Virtual keyboard** (`uinput.dfy`). This covers:
  - the character-to-keystroke table as written (a letter sends KEY_A plus its alphabet index), beside a corrected table proved separately;
  - the keys initialisation registers, as written and corrected;
  - the event streams of `sendText` and `sendKey`;
  - the device with its lazy initialisation, its 2000 ms retry cooldown and its once-only error log.
- **Touchscreen source** (`touch_input.dfy`). This covers millimetre-to-unit normalisation, the drain loop over the libinput queue, and the start/stop guards.
- **Legacy state machine** (`legacy_fsm.dfy`).
- **Swipe-path buffer** (`swipe_path.dfy`).

External inputs become parameters:

- **Wall-clock time** is a millisecond parameter (`nowMs`, sample timestamps).
- **System calls** are replaced by their outcomes:
  - the descriptor `open` returns;
  - whether each ioctl succeeds;
  - the position at which a write first fails;
  - whether the libinput context and device could be created;
  - the events libinput delivers.
- **Layout queries** whose bodies are not part of this model are function-valued parameters of the router's configuration:
  - `angleForPoint`, `radiusForPoint`;
  - the two hysteresis queries;
  - `keyCount`, `keyAt`.

  The same holds for `atan2` in `angleToSector`.

The commit bridge, the haptics and the `selectionChanged` signal are traces (`commits`, `haptics`, `notices`) that the router appends to.

Where the system's design description and the code disagree, the model follows the code:

- **Error log.** The device logs its first failure only, for its whole life: `m_errorLogged` is never reset (UInputKeyboard.cpp:209-219). The description says the first failure after each state change is logged.
- **No early cancel.** There is no early cancel while the thumb moves. The router calls the recogniser's move classification and discards the result (InputRouter.cpp:173), so only the touch-up acts on a swipe.
- **No haptic on actions.** An explicit `action` message commits without commit feedback (InputRouter.cpp:246-262). Only touch-up commits and `commit_char` give a commit haptic.
- **State names.** The legacy `StateMachine` uses the seven states of its header (StateMachine.h:7-15). `stateToString` also names TrackGroup and TrackLetter, which that enum does not have.

## Model

| member | source | states |
|---|---|---|
| Layout.Resize | steamdeck-one-thumb-radial-keyboard/src/engine/RadialLayout.cpp:19 | QVector::resize: exactly n entries, the first ones kept, the rest default (empty) sectors |
| Layout.NormalizeAngle | steamdeck-one-thumb-radial-keyboard/src/engine/RadialLayout.cpp:29-34 | the normalised angle lies in [0, 2π) |
| Layout.NormalizeUnique | steamdeck-one-thumb-radial-keyboard/src/engine/RadialLayout.cpp:29-34 | whatever number of whole turns brings an angle into [0, 2π), the result is NormalizeAngle: the two loops have one possible outcome |
| Layout.SectorForAngle | steamdeck-one-thumb-radial-keyboard/src/engine/RadialLayout.cpp:36-44 | with n ≥ 1 sectors the index is in [0, n-1] |
| Layout.SectorSpan | steamdeck-one-thumb-radial-keyboard/src/engine/RadialLayout.cpp:36-37 | on a normalised angle neither clamp fires: the sector is the plain floor, and the angle lies inside that sector's span [s·w, (s+1)·w) |
| Layout.SectorMonotone | steamdeck-one-thumb-radial-keyboard/src/engine/RadialLayout.cpp:36-37 | the sector index never decreases as the normalised angle grows |
| Layout.TestAngles | steamdeck-one-thumb-radial-keyboard/tests/engine_tests.cpp:18-23 | with 8 sectors and no offset, atan2 values 0, -π/2 and π land in sectors 0, 6 and 4 |
| Layout.RadialLayout.constructor | steamdeck-one-thumb-radial-keyboard/src/engine/RadialLayout.cpp:7-20 | the list has exactly cfg.sectors entries; the first (up to eight) are labelled ETA, OIN, SHR, LUD, GCM, PFY, WBV, KJX with their seed keys; any further ones are empty |
| Layout.RadialLayout.Sectors | steamdeck-one-thumb-radial-keyboard/src/engine/RadialLayout.h:33 | sectors() is the configured sector count |
| Layout.RadialLayout.SectorList | steamdeck-one-thumb-radial-keyboard/src/engine/RadialLayout.h:34 | sectorList() is the stored list, unchanged |
| Layout.RadialLayout.AngleToSector | steamdeck-one-thumb-radial-keyboard/src/engine/RadialLayout.cpp:22-45 | with sectors ≥ 1 the result is in [0, sectors-1] and is the clamped floor of the normalised offset angle over the sector span; with sectors ≤ 0 it is sectors - 1 |
| Layout.TestPoints | steamdeck-one-thumb-radial-keyboard/tests/engine_tests.cpp:18-23 | the points (1.0, 0.5), (0.5, 0.0), (0.0, 0.5) map to sectors 0, 6, 4 through the loops of AngleToSector |
| Gesture.Classify | steamdeck-one-thumb-radial-keyboard/src/engine/GestureRecognizer.cpp:24-36 | Right iff a swipe with abs(dx) > abs(dy) and dx > 0; Left iff the same with dx < 0; Down iff a swipe with abs(dx) ≤ abs(dy) and dy > 0; upward motion is never classified |
| Gesture.MoveResult | steamdeck-one-thumb-radial-keyboard/src/engine/GestureRecognizer.cpp:17-37 | onTouchMove: None while inactive or with zero elapsed time; any direction it returns passes the distance and velocity tests |
| Gesture.UpResult | steamdeck-one-thumb-radial-keyboard/src/engine/GestureRecognizer.cpp:39-63 | onTouchUp: None while inactive, with zero elapsed time or beyond maxDurationMs; any direction it returns passes the distance and velocity tests |
| Gesture.UpIsCappedMove | steamdeck-one-thumb-radial-keyboard/src/engine/GestureRecognizer.cpp:47-49 | the up result is the move result within the duration cap and None beyond it; the move result does not depend on the cap |
| Gesture.MirrorSymmetry | steamdeck-one-thumb-radial-keyboard/src/engine/GestureRecognizer.cpp:29-30 | reflecting the motion left-to-right swaps Left and Right and keeps Down and None |
| Gesture.FasterKeepsSwipe | steamdeck-one-thumb-radial-keyboard/src/engine/GestureRecognizer.cpp:27-28 | a motion classified as a swipe stays the same swipe when it takes less (positive) time |
| Gesture.TestSwipeIsRight | steamdeck-one-thumb-radial-keyboard/tests/engine_tests.cpp:25-31 | from (0.5, 0.5) at 1000 ms to (0.8, 0.5) at 1100 ms is Right whenever minDistance ≤ 0.3, velocity ≤ 0.003 per ms and the cap is at least 100 ms |
| Gesture.DefaultsNeverSwipeInUnitSquare | steamdeck-one-thumb-radial-keyboard/src/engine/GestureRecognizer.h:16-20 | with the default 60-pixel distance no motion inside the unit square is ever a swipe, on move or on up |
| Gesture.DefaultsMissTestSwipe | steamdeck-one-thumb-radial-keyboard/tests/engine_tests.cpp:25-31 | the classification test run with the default thresholds gives None, not the Right it expects |
| Gesture.SwipeToString | steamdeck-one-thumb-radial-keyboard/src/engine/GestureRecognizer.cpp:69-81 | the name is "None" exactly for None |
| Gesture.SwipeNamesDistinct | steamdeck-one-thumb-radial-keyboard/src/engine/GestureRecognizer.cpp:69-81 | distinct directions have distinct names |
| Gesture.GestureRecognizer.constructor | steamdeck-one-thumb-radial-keyboard/src/engine/GestureRecognizer.cpp:7-9 | keeps the given thresholds; starts inactive |
| Gesture.GestureRecognizer.OnTouchDown | steamdeck-one-thumb-radial-keyboard/src/engine/GestureRecognizer.cpp:11-15 | active, with the sample as the start; a second down restarts from the new sample |
| Gesture.GestureRecognizer.OnTouchMove | steamdeck-one-thumb-radial-keyboard/src/engine/GestureRecognizer.cpp:17-37 | returns MoveResult of the current state and changes nothing |
| Gesture.GestureRecognizer.OnTouchUp | steamdeck-one-thumb-radial-keyboard/src/engine/GestureRecognizer.cpp:39-63 | returns UpResult of the state before the call and clears the active flag, so a second up returns None |
| RouterSpec.Clamp01 | steamdeck-one-thumb-radial-keyboard/src/engine/InputRouter.cpp:80-88 | the result is in [0, 1], equals the input on [0, 1], and is 0 below and 1 above |
| RouterSpec.ToLatin1 | steamdeck-one-thumb-radial-keyboard/src/engine/InputRouter.cpp:32-34 | QChar::toLatin1: below 256 the character itself; the result always fits in Latin-1 |
| RouterSpec.KeyOptionToAction | steamdeck-one-thumb-radial-keyboard/src/engine/InputRouter.cpp:19-36 | an action name wins: space, backspace, enter map to their actions (iff), an unknown name to NoKey, never a character; without a name a null character is NoKey (iff) and any other its Latin-1 character |
| RouterSpec.ActionNameWins | steamdeck-one-thumb-radial-keyboard/src/engine/InputRouter.cpp:19-31 | the character of an action key has no influence on its action |
| RouterSpec.KeycodeLabel | steamdeck-one-thumb-radial-keyboard/src/engine/InputRouter.cpp:38-55 | every label starts with "KEY_"; a lower-case letter is labelled KEY_ and its upper-case form |
| RouterSpec.ResolveKeyIndex | steamdeck-one-thumb-radial-keyboard/src/engine/InputRouter.cpp:214-221 | the committed key index is the letter-mode key when 0 ≤ key < keyCount and 0 otherwise; never negative, and below keyCount when there are keys |
| RouterSpec.ModeAfter | steamdeck-one-thumb-radial-keyboard/src/engine/InputRouter.cpp:265-277 | letter mode at radius ≥ 0.28, group mode below 0.25, and the mode is kept in the band between |
| RouterSpec.CharCommitFor | steamdeck-one-thumb-radial-keyboard/src/engine/InputRouter.cpp:116-127 | newline, backspace (U+0008) and space become the actions enter, backspace, space; any other character is committed as itself |
| RouterSpec.Transition | steamdeck-one-thumb-radial-keyboard/src/engine/InputRouter.cpp:354-367 | the state becomes next; a transition to the current state changes nothing; entering Idle from elsewhere resets the gesture context; nothing else changes |
| RouterSpec.ClearSelection | steamdeck-one-thumb-radial-keyboard/src/engine/InputRouter.cpp:325-334 | leaves (-1, -1, group) and Idle; exactly one notification iff there was a selection; commits, haptics, skip flag and recogniser untouched |
| RouterSpec.UpdateSelectionSpec | steamdeck-one-thumb-radial-keyboard/src/engine/InputRouter.cpp:264-305 | inside the 0.12 deadzone the selection is cleared; outside it the mode follows ModeAfter, the sector follows the hysteresis query, a new sector drops the key and adds one selection haptic, in letter mode the key follows its query, and outside letter mode the key is -1; the notifications appended are exactly: in the deadzone, one clear (-1, -1, Group) when anything was selected; outside it, (sector, -1, stage) when the sector changed, then (sector, key, Letter) when in letter mode the key changed; commits, skip flag and recogniser are untouched |
| RouterSpec.CommitVia | steamdeck-one-thumb-radial-keyboard/src/engine/InputRouter.cpp:240-243 | one commit and one commit haptic are appended, passing through CommitChar and ending in Idle; nothing else changes |
| RouterSpec.TouchDownStep | steamdeck-one-thumb-radial-keyboard/src/engine/InputRouter.cpp:159-167 | lowers the skip flag, starts the recogniser at the point and time, records the point, commits nothing, and ends Hovering outside the deadzone and Idle inside it |
| RouterSpec.TouchMoveStep | steamdeck-one-thumb-radial-keyboard/src/engine/InputRouter.cpp:169-178 | commits nothing, leaves the skip flag and the recogniser as they were, records the point, and outside the deadzone moves Idle to Hovering |
| RouterSpec.PickedAction | steamdeck-one-thumb-radial-keyboard/src/engine/InputRouter.cpp:209-228 | no sector or an empty sector gives NoKey; otherwise the action of the key at ResolveKeyIndex |
| RouterSpec.TouchUpSpec | steamdeck-one-thumb-radial-keyboard/src/engine/InputRouter.cpp:180-244 | every touch-up ends Idle with the recogniser inactive and the skip flag down, and appends at most one commit; a pending skip commits nothing and clears; otherwise Left commits backspace, Right space, Down cancels (no commit, cleared, cancel haptic), and no swipe commits the picked key if there is one |
| RouterSpec.CommitCharStep | steamdeck-one-thumb-radial-keyboard/src/engine/InputRouter.cpp:114-131 | an empty string does nothing; otherwise one commit of CharCommitFor of the first character with its haptic, Idle, the skip flag raised, and the selection untouched |
| RouterSpec.ActionStep | steamdeck-one-thumb-radial-keyboard/src/engine/InputRouter.cpp:246-262 | enter, space, backspace commit that one action, without haptic; cancel gives a cancel haptic and clears; any other name changes nothing |
| RouterSpec.HandleMessage | steamdeck-one-thumb-radial-keyboard/src/engine/InputRouter.cpp:90-157 | invalid JSON is answered with the error reply (iff) and changes nothing; touch_down and touch_move, and only they, get a selection reply carrying the new sector, key, stage and a cleared flag for a negative sector |
| RouterProps.StepPreservesValid | steamdeck-one-thumb-radial-keyboard/src/engine/InputRouter.cpp:90-157 | every message keeps the session invariant: the router is never left in CommitChar, and no key is selected outside letter mode |
| RouterProps.ClearIsIdempotent | steamdeck-one-thumb-radial-keyboard/src/engine/InputRouter.cpp:325-334 | a second clear changes nothing and notifies nothing |
| RouterProps.ClearNotifiesOnChange | steamdeck-one-thumb-radial-keyboard/src/engine/InputRouter.cpp:326-332 | a clear notifies once when there was a selection and never otherwise |
| RouterProps.AtMostOneCommitPerMessage | steamdeck-one-thumb-radial-keyboard/src/engine/InputRouter.cpp:90-157 | any message appends at most one commit and keeps the earlier ones |
| RouterProps.CommitCharThenTouchUpCommitsOnce | steamdeck-one-thumb-radial-keyboard/src/engine/InputRouter.cpp:114-131 | commit_char then touch-up commits exactly the character, whatever the swipe, and leaves the selection cleared, the skip flag down and the router Idle |
| RouterProps.TouchDownClearsSkip | steamdeck-one-thumb-radial-keyboard/src/engine/InputRouter.cpp:162 | a touch-down always lowers the skip flag |
| RouterProps.TouchUpEndsIdle | steamdeck-one-thumb-radial-keyboard/src/engine/InputRouter.cpp:180-244 | a touch-up message ends Idle on every path |
| RouterProps.TouchDownIsClamped | steamdeck-one-thumb-radial-keyboard/src/engine/InputRouter.cpp:100-104 | the point a touch-down records and hands to the recogniser lies in the unit square |
| RouterProps.Run | steamdeck-one-thumb-radial-keyboard/src/engine/InputRouter.cpp:90-157 | a sequence of messages keeps the session invariant |
| RouterProps.RunAppend | steamdeck-one-thumb-radial-keyboard/src/engine/InputRouter.cpp:90-157 | running two message sequences one after the other equals running their concatenation |
| RouterProps.MovesNeverCommit | steamdeck-one-thumb-radial-keyboard/src/engine/InputRouter.cpp:169-178 | any number of moves commits nothing and leaves the skip flag and the recogniser unchanged |
| RouterProps.OneCommitPerGesture | steamdeck-one-thumb-radial-keyboard/src/engine/InputRouter.cpp:159-244 | a whole gesture (down, moves, up) commits at most once and ends Idle |
| RouterProps.LeftFlickIsBackspace | steamdeck-one-thumb-radial-keyboard/src/engine/InputRouter.cpp:188-194 | with unit-square thresholds, a 0.3-unit left flick in 100 ms commits exactly one backspace rather than the key under the thumb |
| RouterProps.PixelDefaultsNeverSwipe | steamdeck-one-thumb-radial-keyboard/src/engine/InputRouter.cpp:75-78 | with the default pixel thresholds the router's touch-up never sees a swipe |
| Router.InputRouter.constructor | steamdeck-one-thumb-radial-keyboard/src/engine/InputRouter.cpp:75-78 | the corrected design of the third Findings row: starts Idle with no selection, no flag and empty traces, the recogniser built with the given thresholds |
| Router.InputRouter.AsWritten | steamdeck-one-thumb-radial-keyboard/src/engine/InputRouter.cpp:75-78 | the router as the code builds it: the default-constructed recogniser has the pixel thresholds 60 px, 0.6 px/ms, 220 ms; starts Idle with no selection, no flag and empty traces |
| Router.InputRouter.TransitionTo | steamdeck-one-thumb-radial-keyboard/src/engine/InputRouter.cpp:354-367 | moves the session as RouterSpec.Transition |
| Router.InputRouter.EnterTrackGroup | steamdeck-one-thumb-radial-keyboard/src/engine/InputRouter.cpp:307-314 | only letter mode is cleared |
| Router.InputRouter.EnterTrackLetter | steamdeck-one-thumb-radial-keyboard/src/engine/InputRouter.cpp:316-323 | only letter mode is set |
| Router.InputRouter.ClearSelection | steamdeck-one-thumb-radial-keyboard/src/engine/InputRouter.cpp:325-334 | moves the session as RouterSpec.ClearSelection |
| Router.InputRouter.CommitWithHaptic | steamdeck-one-thumb-radial-keyboard/src/engine/InputRouter.cpp:240-243 | moves the session as RouterSpec.CommitVia |
| Router.InputRouter.UpdateSelection | steamdeck-one-thumb-radial-keyboard/src/engine/InputRouter.cpp:264-305 | moves the session as RouterSpec.UpdateSelection |
| Router.InputRouter.HandleTouchDown | steamdeck-one-thumb-radial-keyboard/src/engine/InputRouter.cpp:159-167 | moves the session as RouterSpec.TouchDownStep |
| Router.InputRouter.HandleTouchMove | steamdeck-one-thumb-radial-keyboard/src/engine/InputRouter.cpp:169-178 | moves the session as RouterSpec.TouchMoveStep |
| Router.InputRouter.HandleTouchUp | steamdeck-one-thumb-radial-keyboard/src/engine/InputRouter.cpp:180-244 | moves the session as RouterSpec.TouchUpStep |
| Router.InputRouter.HandleAction | steamdeck-one-thumb-radial-keyboard/src/engine/InputRouter.cpp:246-262 | moves the session as RouterSpec.ActionStep |
| Router.InputRouter.HandleMessage | steamdeck-one-thumb-radial-keyboard/src/engine/InputRouter.cpp:90-157 | keeps the invariant, and the new session and the reply are those of RouterSpec.HandleMessage |
| LegacyFsm.Drive | steamdeck-one-thumb-radial-keyboard/src/engine/StateMachine.cpp:15-24 | driving a new machine through a list of requested transitions returns one transition per request, chained from Idle, each to its requested state with its reason, and leaves the machine where the last one led (Idle for none) |
| LegacyFsm.ChainedSnoc | steamdeck-one-thumb-radial-keyboard/src/engine/StateMachine.cpp:15-17 | a transition that starts where a chained trace ended keeps the trace chained |
| LegacyFsm.StateMachine.constructor | steamdeck-one-thumb-radial-keyboard/src/engine/StateMachine.cpp:7-9 | a new machine is Idle |
| LegacyFsm.StateMachine.CurrentState | steamdeck-one-thumb-radial-keyboard/src/engine/StateMachine.cpp:11-13 | state() reads the current state and changes nothing |
| LegacyFsm.StateMachine.TransitionTo | steamdeck-one-thumb-radial-keyboard/src/engine/StateMachine.cpp:15-24 | returns {old state, next, reason} and sets the state to next, also when next is the current state |
| LegacyFsm.StateTransitionsScenario | steamdeck-one-thumb-radial-keyboard/tests/engine_tests.cpp:33-40 | Idle, Touching, Committing are observed one step per call, and the transitions chain |
| LegacyFsm.SelfTransitionRecorded | steamdeck-one-thumb-radial-keyboard/src/engine/StateMachine.cpp:15-17 | a same-state transition is recorded with from == to |
| Swipe.SwipePath.constructor | steamdeck-one-thumb-radial-keyboard/src/engine/swipe/SwipePath.h:7-12 | a new path is empty |
| Swipe.SwipePath.Clear | steamdeck-one-thumb-radial-keyboard/src/engine/swipe/SwipePath.h:9 | the buffer is empty afterwards |
| Swipe.SwipePath.AddPoint | steamdeck-one-thumb-radial-keyboard/src/engine/swipe/SwipePath.h:10 | the point is appended at the end, the earlier points are unchanged, and the path is no longer empty |
| Swipe.SwipePath.Empty | steamdeck-one-thumb-radial-keyboard/src/engine/swipe/SwipePath.h:11 | true exactly when no point is stored |
| Swipe.Collect | steamdeck-one-thumb-radial-keyboard/src/engine/swipe/SwipePath.h:9-11 | clearing and adding points in order stores exactly those points, and the path is empty iff there were none |
| TouchInput.Bound | steamdeck-one-thumb-radial-keyboard/src/engine/TouchInputLibinput.cpp:147-148 | qBound lands in [lo, hi] and is the identity inside it |
| TouchInput.BoundIsClamp01 | steamdeck-one-thumb-radial-keyboard/src/engine/TouchInputLibinput.cpp:147-148 | qBound(0, v, 1) is the router's clamp01 |
| TouchInput.NormalizeAxis | steamdeck-one-thumb-radial-keyboard/src/engine/TouchInputLibinput.cpp:143-148 | the coordinate is in [0, 1]: mm over the dimension when that is positive and mm is within it, 0 for a non-positive dimension or a negative mm, 1 past the edge |
| TouchInput.Translate | steamdeck-one-thumb-radial-keyboard/src/engine/TouchInputLibinput.cpp:126-168 | a non-touch event emits nothing (iff); a touch event emits exactly its one signal |
| TouchInput.Touches | steamdeck-one-thumb-radial-keyboard/src/engine/TouchInputLibinput.cpp:126-128 | keeps every touch event of the queue and nothing that is not a touch event from the queue, no more than the queue held |
| TouchInput.TouchesAppend | steamdeck-one-thumb-radial-keyboard/src/engine/TouchInputLibinput.cpp:123-128 | filtering a queue in two parts gives the concatenation of the filtered parts, in order |
| TouchInput.DispatchIsSignalOfTouches | steamdeck-one-thumb-radial-keyboard/src/engine/TouchInputLibinput.cpp:123-171 | draining a queue emits one signal per touch event, in queue order, each the signal of that event |
| TouchInput.DispatchInUnitSquare | steamdeck-one-thumb-radial-keyboard/src/engine/TouchInputLibinput.cpp:147-165 | every emitted touchDown and touchMove position lies in the unit square |
| TouchInput.DispatchAppend | steamdeck-one-thumb-radial-keyboard/src/engine/TouchInputLibinput.cpp:123-171 | draining two queues in turn emits what draining their concatenation emits |
| TouchInput.RouterClampIsIdentity | steamdeck-one-thumb-radial-keyboard/src/engine/TouchInputLibinput.cpp:147-148 | the router's clamp leaves every emitted coordinate unchanged |
| TouchInput.TouchInputLibinput.constructor | steamdeck-one-thumb-radial-keyboard/src/engine/TouchInputLibinput.h:44-48 | inactive, 267 x 142 mm, nothing queued or emitted |
| TouchInput.TouchInputLibinput.IsActive | steamdeck-one-thumb-radial-keyboard/src/engine/TouchInputLibinput.h:24 | the active flag |
| TouchInput.TouchInputLibinput.Start | steamdeck-one-thumb-radial-keyboard/src/engine/TouchInputLibinput.cpp:47-79 | while active returns true and changes nothing; otherwise succeeds iff the context and the device are created, is active iff it succeeded, and a failed device add releases the context |
| TouchInput.TouchInputLibinput.Stop | steamdeck-one-thumb-radial-keyboard/src/engine/TouchInputLibinput.cpp:81-106 | leaves the source inactive with notifier, device and context released; while inactive changes nothing |
| TouchInput.TouchInputLibinput.SetDeviceDimensions | steamdeck-one-thumb-radial-keyboard/src/engine/TouchInputLibinput.cpp:108-112 | stores both dimensions and nothing else |
| TouchInput.TouchInputLibinput.EmitFor | steamdeck-one-thumb-radial-keyboard/src/engine/TouchInputLibinput.cpp:124-168 | one loop iteration emits Translate of the event and changes nothing else |
| TouchInput.TouchInputLibinput.OnReadyRead | steamdeck-one-thumb-radial-keyboard/src/engine/TouchInputLibinput.cpp:114-172 | without a context nothing happens; otherwise every pending and incoming event is consumed and destroyed in order, the queue ends empty, and the emitted signals are Dispatch of those events |
| UInput.LetterIndex | steamdeck-one-thumb-radial-keyboard/src/engine/UInputKeyboard.cpp:26-30 | a letter's alphabet index lies in [0, 25] |
| UInput.CharToKeySupported | steamdeck-one-thumb-radial-keyboard/src/engine/UInputKeyboard.cpp:24-63 | for the table as written and for the corrected table alike, a character has a stroke iff it is an ASCII letter, space, '.', ',', '?', newline or carriage return, and shift is held iff upper case or '?'; the two differ only in a letter's key, which the corrected table (the corrected half of the first Findings row) takes from the Linux key table |
| UInput.CharToKeyAsWritten | steamdeck-one-thumb-radial-keyboard/src/engine/UInputKeyboard.cpp:24-63 | charToKey as written, the table the device types with: a letter maps to KEY_A plus its alphabet index (shifted when upper case); other characters as CharToKey |
| UInput.AsWrittenMistypes | steamdeck-one-thumb-radial-keyboard/src/engine/UInputKeyboard.cpp:30 | as written, 'b' sends the stroke of 's', and 'v' that of ',' |
| UInput.AsWrittenRightOnlyForA | steamdeck-one-thumb-radial-keyboard/src/engine/UInputKeyboard.cpp:30 | as written, 'a' is the only lower-case letter sent on its own key |
| UInput.IndexOf | steamdeck-one-thumb-radial-keyboard/src/engine/UInputKeyboard.cpp:25-34 | the position of the first occurrence of a key in the letter table |
| UInput.LetterKeysDistinct | steamdeck-one-thumb-radial-keyboard/src/engine/UInputKeyboard.cpp:25-34 | no two letters share a key |
| UInput.CharToKeyRoundTrip | steamdeck-one-thumb-radial-keyboard/src/engine/UInputKeyboard.cpp:24-63 | corrected table: every supported character comes back from its stroke; a carriage return comes back as newline |
| UInput.LetterCharRoundTrip | steamdeck-one-thumb-radial-keyboard/src/engine/UInputKeyboard.cpp:25-34 | a letter comes back from its stroke |
| UInput.PunctuationRoundTrip | steamdeck-one-thumb-radial-keyboard/src/engine/UInputKeyboard.cpp:36-60 | space, '.', ',', '?' and the enter characters come back from their strokes, carriage return as newline |
| UInput.NotALetterKey | steamdeck-one-thumb-radial-keyboard/src/engine/UInputKeyboard.cpp:36-60 | codes outside 16..50, and enter, are no letter's key |
| UInput.LetterKeysRange | steamdeck-one-thumb-radial-keyboard/src/engine/UInputKeyboard.cpp:25-34 | every letter key lies in 16..50 and is not enter |
| UInput.LetterRoundTrip | steamdeck-one-thumb-radial-keyboard/src/engine/UInputKeyboard.cpp:25-34 | the stroke of the i-th letter types the i-th letter, in the case its shift says |
| UInput.IndexOfDistinct | steamdeck-one-thumb-radial-keyboard/src/engine/UInputKeyboard.cpp:25-34 | in a table without repeats, the position found is the position of the entry |
| UInput.KeyToCharRoundTrip | steamdeck-one-thumb-radial-keyboard/src/engine/UInputKeyboard.cpp:24-63 | corrected table: every stroke that types a character is that character's stroke |
| UInput.UpperIsShiftedLower | steamdeck-one-thumb-radial-keyboard/src/engine/UInputKeyboard.cpp:26-31 | an upper-case letter is its lower-case key with shift held |
| UInput.KeyBits | steamdeck-one-thumb-radial-keyboard/src/engine/UInputKeyboard.cpp:155-166 | the corrected registration (the corrected half of the second Findings row): every letter's Linux key and the extra keys |
| UInput.KeyBitsAsWritten | steamdeck-one-thumb-radial-keyboard/src/engine/UInputKeyboard.cpp:155-166 | the codes registered as written: exactly KEY_A..KEY_Z (30..44) and the nine extra keys |
| UInput.CodeRangeMembers | steamdeck-one-thumb-radial-keyboard/src/engine/UInputKeyboard.cpp:155-157 | a code is in the range lo..hi exactly when lo <= code <= hi |
| UInput.CodeRange | steamdeck-one-thumb-radial-keyboard/src/engine/UInputKeyboard.cpp:155-157 | the codes lo, lo + 1, ..., hi, in order |
| UInput.AsWrittenLettersUnregistered | steamdeck-one-thumb-radial-keyboard/src/engine/UInputKeyboard.cpp:155-157 | the KEY_A..KEY_Z range registers neither the key of 'q' nor that of 'b', and 'p' as written sends an unregistered code |
| UInput.StrokesRegistered | steamdeck-one-thumb-radial-keyboard/src/engine/UInputKeyboard.cpp:155-166 | with the corrected table and the corrected registration, every stroke, shift included, uses registered keys |
| UInput.TextEventsSnoc | steamdeck-one-thumb-radial-keyboard/src/engine/UInputKeyboard.cpp:102-124 | one more character appends exactly its events |
| UInput.TextEventsAppend | steamdeck-one-thumb-radial-keyboard/src/engine/UInputKeyboard.cpp:102-124 | the events of a concatenation are the events of its parts, in order |
| UInput.UnsupportedSkipped | steamdeck-one-thumb-radial-keyboard/src/engine/UInputKeyboard.cpp:104-108 | an unsupported character is skipped, and the text around it types as if it were absent |
| UInput.SyncedAppend | steamdeck-one-thumb-radial-keyboard/src/engine/UInputKeyboard.cpp:102-124 | two synced streams concatenate to a synced stream |
| UInput.HeldAppend | steamdeck-one-thumb-radial-keyboard/src/engine/UInputKeyboard.cpp:102-124 | the net presses of a concatenation add up |
| UInput.StrokeWellFormed | steamdeck-one-thumb-radial-keyboard/src/engine/UInputKeyboard.cpp:110-123 | a stroke's events follow every key event with a sync and release every key they press, shift included |
| UInput.TextWellFormed | steamdeck-one-thumb-radial-keyboard/src/engine/UInputKeyboard.cpp:102-124 | a text's events are synced and leave no key held |
| UInput.AllRegisteredAppend | steamdeck-one-thumb-radial-keyboard/src/engine/UInputKeyboard.cpp:102-124 | a concatenation uses registered keys only iff both parts do |
| UInput.StrokeCodes | steamdeck-one-thumb-radial-keyboard/src/engine/UInputKeyboard.cpp:110-123 | a stroke's events use registered keys only iff its key is registered, and the shift too when it holds shift |
| UInput.CharRegistered | steamdeck-one-thumb-radial-keyboard/src/engine/UInputKeyboard.cpp:30 | as written, a character sends registered keys only iff it is not a letter, or is one of 'a'..'o' (inside KEY_A..KEY_Z) or 'v', 'w', 'x' (whose codes 51, 52, 53 are the registered comma, dot and slash), in either case |
| UInput.TextRegistered | steamdeck-one-thumb-radial-keyboard/src/engine/UInputKeyboard.cpp:102-124 | as written, a text sends registered keys only iff each of its characters does |
| UInput.EveryCharSnoc | steamdeck-one-thumb-radial-keyboard/src/engine/UInputKeyboard.cpp:102-124 | every character of a text satisfies a property iff every one of its front and its last one do |
| UInput.KeyEventsHeld | steamdeck-one-thumb-radial-keyboard/src/engine/UInputKeyboard.cpp:84-95 | sendKey's events are synced; press-only leaves its 16-bit key held and press-release none |
| UInput.AfterLogUnavailable | steamdeck-one-thumb-radial-keyboard/src/engine/UInputKeyboard.cpp:209-219 | logs the failure only if none was ever logged, closes an open descriptor and sets fd to -1 (a closed device keeps its negative fd), and leaves the device unavailable |
| UInput.EnsureInitCases | steamdeck-one-thumb-radial-keyboard/src/engine/UInputKeyboard.cpp:127-189 | available: true and no change; within 2000 ms of the last attempt: false and no change; otherwise the attempt is stamped with now and succeeds iff every system call does; validity (available iff a descriptor is open, and then exactly KEY_A..KEY_Z and the extras registered, as written) is kept and success means availability |
| UInput.FailedInitThrottlesRetries | steamdeck-one-thumb-radial-keyboard/src/engine/UInputKeyboard.cpp:128-135 | after a failed attempt, every call within 2000 ms returns false and leaves the device alone |
| UInput.OnlyFirstErrorLogged | steamdeck-one-thumb-radial-keyboard/src/engine/UInputKeyboard.cpp:210-213 | however many attempts fail, at most one error is ever in the log, and a logged error stays the only one |
| UInput.Emit | steamdeck-one-thumb-radial-keyboard/src/engine/UInputKeyboard.cpp:191-203 | emitEvent: nothing without a descriptor; a good write appends the event; a failed one logs and closes |
| UInput.Delivered | steamdeck-one-thumb-radial-keyboard/src/engine/UInputKeyboard.cpp:191-203 | the events that reach the kernel: all of them, or those before the failing write |
| UInput.EmitAllClosed | steamdeck-one-thumb-radial-keyboard/src/engine/UInputKeyboard.cpp:192-194 | emitting without a descriptor changes nothing |
| UInput.EmitAllWrites | steamdeck-one-thumb-radial-keyboard/src/engine/UInputKeyboard.cpp:191-203 | without a failing write every event is written and nothing else changes |
| UInput.EmitAllDelivers | steamdeck-one-thumb-radial-keyboard/src/engine/UInputKeyboard.cpp:191-203 | the kernel receives exactly the events before the first failed write; a failure logs and closes, and nothing after it is written; validity is kept |
| UInput.EmitAllFails | steamdeck-one-thumb-radial-keyboard/src/engine/UInputKeyboard.cpp:199-202 | a failing write: the events before it are written, then the failure is logged and the descriptor closed |
| UInput.EmitAllFailsFirst | steamdeck-one-thumb-radial-keyboard/src/engine/UInputKeyboard.cpp:199-202 | when the first write fails, nothing is written and the device logs and closes |
| UInput.SameLogAfterWrite | steamdeck-one-thumb-radial-keyboard/src/engine/UInputKeyboard.cpp:209-219 | logging a failure does not depend on what was written before |
| UInput.EmitAllAppend | steamdeck-one-thumb-radial-keyboard/src/engine/UInputKeyboard.cpp:191-203 | emitting two streams in turn is emitting their concatenation |
| UInput.EmitTextStep | steamdeck-one-thumb-radial-keyboard/src/engine/UInputKeyboard.cpp:102-124 | emitting one more character's events continues the text's stream |
| UInput.EmitAllSnoc | steamdeck-one-thumb-radial-keyboard/src/engine/UInputKeyboard.cpp:191-203 | emitting a, then b at the following positions, is emitting a + b |
| UInput.SendTextDelivers | steamdeck-one-thumb-radial-keyboard/src/engine/UInputKeyboard.cpp:97-125 | sendText writes the text's events, with the table as written, up to the first failed write when the device is or becomes available, and nothing otherwise; validity is kept, and without a failure the device stays available |
| UInput.SendKeyDelivers | steamdeck-one-thumb-radial-keyboard/src/engine/UInputKeyboard.cpp:84-95 | sendKey writes its press (and release) up to the first failed write when the device is or becomes available, and nothing otherwise; validity is kept |
| UInput.UInputKeyboard.constructor | steamdeck-one-thumb-radial-keyboard/src/engine/UInputKeyboard.cpp:67-71 | no descriptor, unavailable, nothing logged, written or closed |
| UInput.UInputKeyboard.Available | steamdeck-one-thumb-radial-keyboard/src/engine/UInputKeyboard.cpp:80-82 | the availability flag |
| UInput.UInputKeyboard.LogUnavailable | steamdeck-one-thumb-radial-keyboard/src/engine/UInputKeyboard.cpp:209-219 | moves the device as AfterLogUnavailable |
| UInput.UInputKeyboard.EnsureInitialized | steamdeck-one-thumb-radial-keyboard/src/engine/UInputKeyboard.cpp:127-189 | returns and moves the device as EnsureInit, registering the codes as written |
| UInput.UInputKeyboard.RegisterKeys | steamdeck-one-thumb-radial-keyboard/src/engine/UInputKeyboard.cpp:155-166 | the loop over the codes KEY_A to KEY_Z, then the extras: adds exactly KeyBitsAsWritten to the registered codes and changes nothing else |
| UInput.UInputKeyboard.EmitEvent | steamdeck-one-thumb-radial-keyboard/src/engine/UInputKeyboard.cpp:191-203 | moves the device as Emit |
| UInput.UInputKeyboard.EmitEvents | steamdeck-one-thumb-radial-keyboard/src/engine/UInputKeyboard.cpp:110-123 | moves the device as EmitAll of the events |
| UInput.UInputKeyboard.SendKey | steamdeck-one-thumb-radial-keyboard/src/engine/UInputKeyboard.cpp:84-95 | moves the device as AfterSendKey |
| UInput.UInputKeyboard.SendText | steamdeck-one-thumb-radial-keyboard/src/engine/UInputKeyboard.cpp:97-125 | moves the device as AfterSendText |
| UInput.UInputKeyboard.TypeChar | steamdeck-one-thumb-radial-keyboard/src/engine/UInputKeyboard.cpp:103-123 | emits the events of the character's stroke with the table as written (none when unsupported) and returns the position after them |
| UInput.UInputKeyboard.TypeText | steamdeck-one-thumb-radial-keyboard/src/engine/UInputKeyboard.cpp:102-124 | the loop emits TextEvents of the whole text |
| UInput.UInputKeyboard.Destroy | steamdeck-one-thumb-radial-keyboard/src/engine/UInputKeyboard.cpp:73-78 | an open descriptor is closed; nothing else changes |

## Left out

- Transport: the socket server, the read-line loop, the overlay UI and the control CLI are I/O and are not part of this model.
- JSON: parsing and serialisation are a foreign library. Messages arrive decoded (`RouterSpec.Message`, with invalid JSON one variant). Replies leave as records (`RouterSpec.Reply`). A field missing from a message is taken as its decoded default.
- Logging: every log call is left out. `actionLabel`, `stateName`, `InputRouter` reset-context logging and the legacy `stateToString` only build log text. `keycodeLabel` is modelled because its label is computed.
- Haptics and the commit bridge: they only log. They appear only as the `haptics` and `commits` traces.
- Wall clocks: `QDateTime` and `QElapsedTimer` are replaced by explicit millisecond timestamps.
- System calls: `open`, `ioctl`, `write`, `close` and the libinput calls are replaced by their outcomes, given as parameters. The uinput device ids and name are not modelled.
- Layout queries: the bodies of `angleForPoint`, `radiusForPoint`, the two hysteresis queries, `keyCount`, `keyAt` and `defaultKey` are not part of this model. The router takes them as function parameters with no contract. The router's own layout configuration is `RouterSpec.RouterLayoutConfig`; it has no effect once the queries are parameters.
- The legacy router path: the branches compiled only with the legacy-router flag in `enterTrackGroup`/`enterTrackLetter` are left out.
- Floating point: doubles are real numbers, so rounding is not modelled. `hypot` is never computed; lengths are compared through their squares. π is the real 3.141592653589793. `atan2` is a parameter.
- Layout.RadialLayout.constructor: requires a non-negative sector count, because resizing a QVector to a negative size is undefined.
- Layout.RadialLayout.AngleToSector: with a non-positive sector count, the model returns the clamped result an IEEE division gives (sectors - 1) without modelling the infinite or negative span itself.
- Gesture.GestureRecognizer: the `thresholds()` accessor is the constant field `thresholds`.
- Gesture.GestureRecognizer.OnTouchMove: the header declares the handlers on a bare point and times them with a `QElapsedTimer`; the router and the test pass a sample with its own timestamp, and the model follows them.
- Router.InputRouter.constructor: takes the recogniser's thresholds as a parameter, which the source does not; it stands for the corrected design of the third Findings row. Router.InputRouter.AsWritten is the router as the code builds it, with the pixel defaults that RouterProps.PixelDefaultsNeverSwipe shows never swipe.
- RouterSpec.CommitCharStep: commits the first Unicode scalar of the string. Qt's `at(0)` is the first UTF-16 code unit, so for a character outside the Basic Multilingual Plane the source commits its high surrogate alone; the model does not capture that.
- Layout.RadialLayout.constructor: the key list each seed sector gets from its `QChar` initialiser (`{"ETA", QChar('e')}`, RadialLayout.cpp:9-18) is the parameter `seedKeys`; how that brace initialiser converts the character into a key list is not modelled.
- UInput.CharToKey and UInput.CharToKeyAsWritten: handle the ASCII letters only. The source lower-cases with Qt first, so a few non-ASCII letters that Qt lower-cases to ASCII (KELVIN SIGN, LATIN CAPITAL I WITH DOT ABOVE) would also map there.
- UInput.UInputKeyboard.Destroy: `ioctl(UI_DEV_DESTROY)` is left out with the other system calls; only the close is recorded.

## Findings

| source | as written | input that shows it | evidently intended | confidence | as-written member | corrected member |
|---|---|---|---|---|---|---|
| steamdeck-one-thumb-radial-keyboard/src/engine/UInputKeyboard.cpp:30 | a letter's key code is KEY_A + (c - 'a') | 'b' gives code 31, which is KEY_S; only 'a' gets its own key | each letter sends its own Linux key code (KEY_B is 48, KEY_Q is 16, ...) | not executed | UInput.AsWrittenMistypes | UInput.CharToKeyRoundTrip |
| steamdeck-one-thumb-radial-keyboard/src/engine/UInputKeyboard.cpp:155-157 | the letters are registered as the code range KEY_A..KEY_Z (30..44) | 'q' (KEY_Q = 16) and 'b' (KEY_B = 48) are never registered | every letter key the table sends is registered | not executed | UInput.AsWrittenLettersUnregistered | UInput.StrokesRegistered |
| steamdeck-one-thumb-radial-keyboard/src/engine/GestureRecognizer.h:16-20 | the default thresholds are 60 px, 0.6 px/ms and 220 ms, while the router feeds unit-square coordinates | a flick from (0.5, 0.5) to (0.8, 0.5) in 100 ms, as in the classification test, gives None, not Right | thresholds in the units the router feeds; the test expects Right for this motion | not executed | Gesture.DefaultsMissTestSwipe | Gesture.TestSwipeIsRight |

The device follows the code as written: `sendText` types with `CharToKeyAsWritten` and initialisation registers `KEY_A..KEY_Z` and the extras (`KeyBitsAsWritten`), so `UInput.TextRegistered` states which texts reach only registered keys. The corrected table (`CharToKey`, `KeyToChar`) and the corrected registration (`KeyBits`) are proved beside it, but the device does not use them. The router's touch-up likewise runs with whatever thresholds it is built with: `Router.InputRouter.AsWritten` uses the pixel defaults, and the unnamed constructor takes the thresholds as a parameter.
