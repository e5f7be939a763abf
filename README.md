# AR wayfinding navigation core, in Dafny

This project models the navigation logic of an AR wayfinding app built in Unity
and driven by a Flutter front end. It proves properties of that model. Five
components are modelled:

- **PathInstructionGenerator** (`path_instruction_generator.dfy`, with its
  specification in `instruction_spec.dfy`). It is the turn-by-turn
  instruction state machine.
  - A start seeds a session on a corner list and emits a forced
    instruction.
  - Each throttled tick does five things in order: it tests for arrival at
    the last corner, advances the target corner by at most one, classifies
    the heading as straight, left or right, debounces instruction changes by
    dwell time, and throttles distance updates.
  - Results are published to the shared `NavigationState` snapshot. A hard
    reset clears both the session and the snapshot.
  - The class keeps the component's fields. Each method is proved to
    compute a pure function of the old state (`Generate`, `Debounce`,
    `Throttle`, `SendNow`, `Observe`, `RemainingDistance`, `CornerHash`).
    The lemmas about those functions state what a tick and a start do.
- **NodeDatabase** (`node_database.dfy`, with string normalisation in
  `text.dfy`). It is the node registry.
  - It builds an id map and a display-name map. Keys are
    `ToLowerInvariant().Trim()` of the field, blank fields are skipped, and
    the first node with a key wins.
  - Lookups are by id, and by id-then-name.
  - `NearestNode` is an argmin over squared distance; a tie goes to the
    earliest node.
- **CalibrationHelper** (`calibration.dfy`). It is the one-shot alignment of
  the AR session origin to a node: a horizontal move, a yaw-only turn, and
  the static calibrated flag.
- **LineNavigator** (`line_navigator.dfy`). It is the path cache. It holds
  the corners returned by the NavMesh planner, each lifted by 0.05. The file
  also covers the remaining-distance sum, clearing and copy-out.
- **FlutterUnityReceiver** (`receiver.dfy`). It is the command router. It
  covers the dispatch of `calibrate`, `start_navigation`, `stop_navigation`
  and `get_navigation_state`, the resolution of the start and destination
  nodes, and the tail of `StartNavigationWhenReady`, which draws the path
  and starts the instructor.

Unity's vector math is a `Geometry` value of uninterpreted functions:
`Vector3.Distance`, `normalized` (after `ProjectOnPlane` onto the floor),
`SignedAngle` about the up axis, `Quaternion.FromToRotation`,
`Vector3.GetHashCode`, and `Transform.forward` as a function of the
transform's rotation. The classes receive it as a constant. The one thing
assumed about it is that a distance is never negative (the `Length` type in
`spatial.dfy`). The NavMesh is a `NavMesh` value made of `samplePosition`
and `calculatePath`. `Time.time` and `Time.deltaTime` are method parameters.

Behaviours of the code that the model keeps and the lemmas make explicit:

- Near the destination, every tick sets `Arrived` and a zero distance again.
  There is no once-only guard (`ArrivalTick`).
- The remaining distance is measured before the target corner advances, so
  it counts the corner just reached.
- The forced first tick of a start can already advance the target to corner
  2 (`StartTick`).
- A start does not clear `Arrived`: only a hard reset does.
- A candidate that reverts to the last sent instruction stays pending, with
  its original start time. If it comes back after `flipDebounceTime` has
  passed since then, it is published at once (`RevertPublishesNothing`).
- An instruction text embeds its distance rounded to one decimal. The
  debounce therefore compares (kind, rounded distance) pairs, and a change of
  0.1 m alone is a new candidate.
- `LineNavigator.DrawPathBetween` records the destination id before it tries
  to plan, so the id changes even when planning fails.

## Model

| member | source | states |
|---|---|---|
| Spatial.Wrap32 | Assets/Scripts/PathInstructionGenerator.cs:233-238 | the result is a 32-bit signed int congruent to the input modulo 2^32, which is C#'s unchecked int arithmetic |
| Spatial.PathLengthSnoc | Assets/Scripts/PathInstructionGenerator.cs:248-253 | a path one corner longer is one segment longer, which is the step of each summing loop |
| Spatial.PathLengthNonNegative | Assets/Scripts/LineNavigator.cs:154-159 | a path's length is never negative |
| Spatial.Round1Close | Assets/Scripts/PathInstructionGenerator.cs:260 | the "0.0" text of a distance parses back to within 0.05 of it, and is non-negative for a non-negative distance |
| Text.ToLowerInvariant | Scripts/NodeDatabase.cs:55 | keeps the length and lower-cases each character |
| Text.LowerCharKeepsWhiteSpace | Scripts/NodeDatabase.cs:55 | lower-casing neither creates nor removes white space, and is idempotent per character |
| Text.TrimStartIsSuffix | Scripts/NodeDatabase.cs:55 | TrimStart drops exactly a white-space prefix, and what it keeps does not start with white space |
| Text.TrimEndIsPrefix | Scripts/NodeDatabase.cs:55 | TrimEnd drops exactly a white-space suffix, and what it keeps does not end with white space |
| Text.TrimEmptyIffBlank | Scripts/NodeDatabase.cs:53-55 | Trim gives "" exactly for an all-white-space string, and otherwise gives a string with no white space at either end |
| Text.KeyEmptyIffBlank | Scripts/NodeDatabase.cs:53-55 | the normalised key is empty exactly when the field is blank, so the blank guard is what keeps "" out of the maps |
| Text.KeyIsKey | Scripts/NodeDatabase.cs:55 | a normalised key is lower-case and trimmed |
| Text.KeyOfKey | Scripts/NodeDatabase.cs:94 | normalising a key that is already lower-case and trimmed returns it unchanged |
| Text.KeyIdempotent | Scripts/NodeDatabase.cs:94-103 | normalising twice is normalising once, so a query spelt as a stored key finds that key |
| NodeRegistry.IndexIsFirstMatch | Scripts/NodeDatabase.cs:48-80 | looking a key up in the built map gives the first live node whose normalised field is that key: on a duplicate key the first node wins, and null nodes and blank fields are skipped |
| NodeRegistry.FirstWithIsFirst | Scripts/NodeDatabase.cs:48-80 | a lookup finds nothing exactly when no node matches; what it finds matches, sits at an index of the node array, and no earlier node matches |
| NodeRegistry.IndexKeysAreKeys | Scripts/NodeDatabase.cs:53-78 | every key in either map is non-empty, lower-case and trimmed, and maps to a node whose normalised field is that key |
| NodeRegistry.NearestScanIsFirstNearest | Scripts/NodeDatabase.cs:119-135 | the scan finds nothing exactly when no live node is closer than float.MaxValue; otherwise it finds a live node at minimal squared distance, and every earlier live node is strictly farther (ties go to the earliest) |
| NodeRegistry.NearestAmong | Scripts/NodeDatabase.cs:119-135 | the loop computes the scan, so its result is the first nearest live node, or null when there is none |
| NodeRegistry.NodeDatabase.constructor | Scripts/NodeDatabase.cs:6-10 | starts with an empty node array and empty id and name maps, which are already the indexes of that array |
| NodeRegistry.NodeDatabase.Refresh | Scripts/NodeDatabase.cs:26-34 | takes the scene's node array and rebuilds both maps from it |
| NodeRegistry.NodeDatabase.BuildDictionaries | Scripts/NodeDatabase.cs:40-83 | clears both maps and refills them, so afterwards they are the id and name indexes of the node array and the array is unchanged |
| NodeRegistry.NodeDatabase.FindNodeById | Scripts/NodeDatabase.cs:89-96 | null for a blank id, otherwise the first node whose normalised id is the normalised query |
| NodeRegistry.NodeDatabase.FindByNameOrId | Scripts/NodeDatabase.cs:98-112 | the id match when there is one, else the name match, else null, and null for a blank value; the result is a node of the array |
| NodeRegistry.NodeDatabase.NearestNode | Scripts/NodeDatabase.cs:114-136 | refreshes from the scene only when the array is empty, then returns the first nearest live node |
| Calibration.Offset | Scripts/CalibrationHelper.cs:45-52 | the offset has y = 0 and carries the node's position to the camera's x and z at the node's height |
| Calibration.YawAlignmentIgnoresHeight | Scripts/CalibrationHelper.cs:57-66 | the yaw rotation zeroes the y of both forwards before normalising them, so changing either forward's height leaves the rotation the same |
| Calibration.CalibrationHelper.constructor | Scripts/CalibrationHelper.cs:6 | a new helper starts not calibrated |
| Calibration.CalibrationHelper.IsCalibrated | Scripts/CalibrationHelper.cs:8 | reports the calibrated flag, which AlignNodeToCamera sets on success and ResetCalibration clears |
| Calibration.CalibrationHelper.AlignNodeToCamera | Scripts/CalibrationHelper.cs:14-78 | when already calibrated, or the camera, origin, database or node (found by id) is missing, nothing changes; otherwise the origin moves by the offset with its y kept, turns by the yaw rotation from the node's flat forward to the camera's flat forward (its forward becoming that of the new rotation), and the flag is set |
| Calibration.CalibrationHelper.ResetCalibration | Scripts/CalibrationHelper.cs:83-87 | clears the flag unconditionally |
| PathCache.PlannedCorners | Assets/Scripts/LineNavigator.cs:79-107 | the planner's answer is kept only if both ends sample onto the NavMesh and it has at least 2 corners |
| PathCache.Lifted | Assets/Scripts/LineNavigator.cs:113-115 | same length; each corner keeps x and z and has y raised by 0.05 |
| PathCache.LiftedFlatAll | Assets/Scripts/LineNavigator.cs:113-115 | lifting changes no floor position, so no flat distance the instruction engine measures |
| PathCache.LineNavigator.constructor | Assets/Scripts/LineNavigator.cs:22-25 | starts with no valid path, an empty corner array and no destination id |
| PathCache.LineNavigator.DrawPathBetween | Assets/Scripts/LineNavigator.cs:63-121 | succeeds exactly when both transforms exist and the planner gives at least 2 corners. A null end or start changes nothing. Otherwise the destination id is set before planning. A failure keeps the cached corners and flag. Success caches a fresh array of the lifted corners and sets the flag |
| PathCache.LineNavigator.GetRemainingDistance | Assets/Scripts/LineNavigator.cs:149-160 | 0 without a valid path, otherwise the distance to the first corner plus the length of the cached path; never negative |
| PathCache.LineNavigator.ClearPath | Assets/Scripts/LineNavigator.cs:165-176 | no valid path, an empty corner array, no destination id |
| PathCache.LineNavigator.GetCurrentPathCorners | Assets/Scripts/LineNavigator.cs:181-184 | a fresh array with the cached corners, so writes to it never reach the cache |
| InstructionSpec.ClassifyKinds | Assets/Scripts/PathInstructionGenerator.cs:163-175 | straight exactly when abs(angle) < turnThresholdDeg, left exactly when it is not straight and (angle > 0) differs from invertTurnDirections, and the metres are within 0.05 of the distance to the target |
| InstructionSpec.ClassifyInvertMirrors | Assets/Scripts/PathInstructionGenerator.cs:170-171 | flipping invertTurnDirections swaps every left and right and keeps straight |
| InstructionSpec.ClassifyOppositeAngleMirrors | Assets/Scripts/PathInstructionGenerator.cs:164-174 | negating the angle mirrors the instruction, except at angle 0 with a threshold ≤ 0 |
| InstructionSpec.RemainingDistanceNonNegative | Assets/Scripts/PathInstructionGenerator.cs:242-255 | the remaining distance is never negative |
| InstructionSpec.GenerateKeepsInvariant | Assets/Scripts/PathInstructionGenerator.cs:121-204 | a tick keeps the corners and a target in [1, n-1], and the last sent distance stays -1 or non-negative |
| InstructionSpec.GenerateKeepsSession | Assets/Scripts/PathInstructionGenerator.cs:121-204 | a tick keeps the session navigable, keeps its corners and arrival distance, raises the target by at most one, and never clears arrived |
| InstructionSpec.AdvanceIffNearTarget | Assets/Scripts/PathInstructionGenerator.cs:132-148 | the target advances exactly when the user is beyond the arrival distance, the target is not the last corner, and the user is within advanceCornerDistance of it |
| InstructionSpec.ArrivalTick | Assets/Scripts/PathInstructionGenerator.cs:132-138 | within the arrival distance the session is unchanged and the snapshot gains only arrived and a zero distance; beyond it arrived is left as it was |
| InstructionSpec.AdvanceRestartsDwell | Assets/Scripts/PathInstructionGenerator.cs:140-189 | after an advance, any pending candidate dates from this tick |
| InstructionSpec.ForcedTickEmits | Assets/Scripts/PathInstructionGenerator.cs:177-181 | a forced tick does not depend on the clock, and away from the destination it publishes the instruction and the rounded remaining distance and records both as sent |
| InstructionSpec.DebounceSpec | Assets/Scripts/PathInstructionGenerator.cs:183-196 | an instruction equal to the last sent changes nothing; any other is published (and the pending cleared) once it has been pending for flipDebounceTime; otherwise it is the pending candidate, with the time it first became one |
| InstructionSpec.FreshCandidateWaits | Assets/Scripts/PathInstructionGenerator.cs:185-191 | with a positive dwell time, a new candidate is never published in the tick that first sees it |
| InstructionSpec.RevertPublishesNothing | Assets/Scripts/PathInstructionGenerator.cs:183-196 | a change that reverts on the next tick publishes nothing, and the reverted candidate stays pending with its first time |
| InstructionSpec.ThrottledDistanceDecreases | Assets/Scripts/PathInstructionGenerator.cs:198-203 | once a distance has been sent, the throttle replaces it only by one at least distanceUpdateStep smaller |
| InstructionSpec.TickDistanceReports | Assets/Scripts/PathInstructionGenerator.cs:183-203 | in a non-forced tick, a published instruction brings the remaining distance with it; otherwise the distance changes exactly when an update is due |
| InstructionSpec.SentDistanceIsSentinelOrDistance | Assets/Scripts/PathInstructionGenerator.cs:198-203 | the last sent distance stays either the -1 sentinel or a non-negative distance |
| InstructionSpec.StartTick | Assets/Scripts/PathInstructionGenerator.cs:95-106 | the forced first tick leaves the target at corner 1 or 2 with nothing pending; at the destination it only signals arrival; otherwise it publishes an instruction with the remaining distance from corner 1 |
| InstructionSpec.CornerHash | Assets/Scripts/PathInstructionGenerator.cs:231-240 | the fingerprint is a 32-bit signed int |
| InstructionSpec.CornerHashByCodes | Assets/Scripts/PathInstructionGenerator.cs:236-237 | the fingerprint depends only on the corners' hash codes, in order |
| InstructionEngine.NavigationState.constructor | Assets/Scripts/PathInstructionGenerator.cs:226-228 | the snapshot starts as "", -1 and false |
| InstructionEngine.PathInstructionGenerator.constructor | Assets/Scripts/PathInstructionGenerator.cs:47-50 | Awake leaves a stopped, fully reset generator and a cleared snapshot |
| InstructionEngine.PathInstructionGenerator.StartNavigation | Assets/Scripts/PathInstructionGenerator.cs:69-107 | a null user, null corners or fewer than 2 corners change nothing, and so does a start that repeats the running session's destination and fingerprint. Otherwise the new session (running, its user, destination and fingerprint, timer 0) is seeded and then advanced by one forced tick |
| InstructionEngine.PathInstructionGenerator.BeginSession | Assets/Scripts/PathInstructionGenerator.cs:86-102 | seeds the session: the user, the corners, the destination and fingerprint, target 1, timer 0, running, nothing sent or pending, and the given arrival distance if positive or else the default |
| InstructionEngine.PathInstructionGenerator.StopNavigation | Assets/Scripts/PathInstructionGenerator.cs:109-115 | leaves a reset generator and a cleared snapshot, keeps arriveDistance (HardReset does not write it), and changes nothing when not running |
| InstructionEngine.PathInstructionGenerator.Update | Assets/Scripts/PathInstructionGenerator.cs:52-63 | when not running, nothing changes. Below updateInterval only the timer grows. Once it is reached the timer restarts and one non-forced tick runs |
| InstructionEngine.PathInstructionGenerator.GenerateInstruction | Assets/Scripts/PathInstructionGenerator.cs:121-204 | the new session and snapshot are Generate of the old ones; the run fields and timer are kept |
| InstructionEngine.PathInstructionGenerator.AdvanceTarget | Assets/Scripts/PathInstructionGenerator.cs:140-148 | advances exactly when the target is not the last corner and the user is within advanceCornerDistance of it, and then clears the pending candidate |
| InstructionEngine.PathInstructionGenerator.DebounceInstruction | Assets/Scripts/PathInstructionGenerator.cs:183-196 | computes Debounce on the session and snapshot |
| InstructionEngine.PathInstructionGenerator.ThrottleDistance | Assets/Scripts/PathInstructionGenerator.cs:198-203 | computes Throttle on the session and snapshot |
| InstructionEngine.PathInstructionGenerator.HardReset | Assets/Scripts/PathInstructionGenerator.cs:210-229 | every field HardReset writes goes back to its reset value: not running, no user, no corners, index 0, timer 0, no destination or fingerprint, nothing sent or pending, snapshot "", -1, false; arriveDistance, which it does not write, is kept |
| InstructionEngine.PathInstructionGenerator.ComputeCornerHash | Assets/Scripts/PathInstructionGenerator.cs:231-240 | the loop computes the fingerprint CornerHash |
| InstructionEngine.PathInstructionGenerator.ComputeRemainingDistance | Assets/Scripts/PathInstructionGenerator.cs:242-255 | the loop computes RemainingDistance: to the clamped target corner, then along the rest of the flattened path |
| InstructionEngine.PathInstructionGenerator.SendInstructionNow | Assets/Scripts/PathInstructionGenerator.cs:257-263 | publishes the instruction and the rounded distance, and records both as sent |
| InstructionEngine.PathInstructionGenerator.SendEventImmediate | Assets/Scripts/PathInstructionGenerator.cs:265-287 | an instruction event sets the text, a distance event sets the parsed distance, an arrived event sets the flag, and nothing else changes |
| Receiver.RouteRoundTrip | Assets/Scripts/FlutterUnityReceiver.cs:94-116 | every action the receiver distinguishes is what the command for it routes to |
| Receiver.RouteClassifies | Assets/Scripts/FlutterUnityReceiver.cs:80-116 | a command is ignored exactly when it is missing or its action is null or empty, and is reported unknown exactly when its action is none of the four names |
| Receiver.ByNameOrIdRegistered | Scripts/NodeDatabase.cs:98-112 | a resolved node is in the node array and matches the query by id or by name |
| Receiver.PlanStartResolves | Assets/Scripts/FlutterUnityReceiver.cs:164-181 | navigation goes ahead exactly when calibrated and the destination resolves; the start is the resolved start name if any, else the nearest node |
| Receiver.FlutterUnityReceiver.constructor | Assets/Scripts/FlutterUnityReceiver.cs:23-30 | the receiver holds the registry, path cache, instructor, calibration and AR transforms it is given |
| Receiver.FlutterUnityReceiver.OnMessage | Assets/Scripts/FlutterUnityReceiver.cs:76-117 | a poll is answered with the snapshot; calibrate and start_navigation are deferred until AR tracks; stop runs at once with its full effect; anything else, including an ignored or unknown command, touches nothing |
| Receiver.FlutterUnityReceiver.HandleCalibrate | Assets/Scripts/FlutterUnityReceiver.cs:149-158 | an empty or null node id changes nothing; otherwise the effect is that of AlignNodeToCamera |
| Receiver.FlutterUnityReceiver.StartNavigation | Assets/Scripts/FlutterUnityReceiver.cs:164-181 | nothing unless calibrated and the destination resolves. The start is the resolved start name, or else the nearest node to the camera, after a refresh if the registry is empty. The result is the coroutine to launch |
| Receiver.FlutterUnityReceiver.StartNavigationWhenReady | Assets/Scripts/FlutterUnityReceiver.cs:183-201 | with no start, or a start never sampled onto the NavMesh, nothing happens. Otherwise the path is drawn, and only when drawing succeeds is the instructor started on the cached lifted corners, with the destination's id and -1 |
| Receiver.FlutterUnityReceiver.StopNavigation | Assets/Scripts/FlutterUnityReceiver.cs:203-208 | the path is cleared, the instructor is stopped with a cleared snapshot and its arrive distance kept, and calibration is reset |
| Receiver.FlutterUnityReceiver.RespondNavigationState | Assets/Scripts/FlutterUnityReceiver.cs:210-226 | the reply is the cleared snapshot whenever no session runs, and shows an instruction only while one runs |

## Left out

- Unity geometry (`Vector3.Distance`, `normalized`, `ProjectOnPlane`, `SignedAngle`, `Quaternion.FromToRotation`, `GetHashCode`) is uninterpreted. Only the non-negativity of distances is assumed, and no geometric fact is proved.
- Floating point: every `float` is a real, and there is no single-precision rounding.
- Round1: `ToString("0.0")` followed by `float.TryParse` is modelled as rounding half away from zero to one decimal, and it always parses. Culture-dependent decimal separators are not modelled.
- `Vector3.GetHashCode` is taken from the geometry oracle. Only the unchecked 32-bit fold around it is modelled.
- Text.ToLowerInvariant: lower-cases ASCII and Latin-1 letters only. `char.IsWhiteSpace` is the Unicode White_Space set.
- Coroutines and readiness waits are not modelled: `EnsureSubscribed`, `RunWhenARReady` and the AR-session gate. `OnMessage` returns the deferred action rather than starting a coroutine.
- The NavMesh sampling wait in `StartNavigationWhenReady` is not modelled as a loop. A start the NavMesh never samples means the coroutine never gets past the wait, so nothing happens.
- A null start node passed to `StartNavigationWhenReady` throws in the source. The model does nothing in that case.
- Exceptions from a missing `arCamera` in `StartNavigation`, or a missing `arOrigin` or its camera in `StartNavigationWhenReady`, end the call early, so the model makes no further change.
- JSON parsing and the transport to Flutter (`JsonUtility`, `UnityMessageManager`, `UnityFlutterBridge`) are not modelled. A command that fails to parse is `None`. The poll reply is the snapshot, not its JSON text.
- Rendering, the line renderer and `ApplyPathToLine`, and every `Debug.Log` call are left out.
- The source file of `NavigationState` is not among the modelled files. A small class with the three fields the generator writes and the receiver reads stands in for it.
- Assets/Scripts/Node.cs has no behaviour. A node is a record of its id, display name, position and forward. A null or destroyed entry of the array `Refresh` reads is `None`.
- Destroyed Unity objects are not modelled beyond that. A node destroyed after `Refresh` stays in the maps as its record, so the `if (!node)` and `if (!destNode)` refusals in CalibrationHelper and FlutterUnityReceiver never fire for it. The generator's `user` camera cannot be destroyed while a session runs: the invariant keeps it non-null, so `Update`'s early return for a destroyed camera does not arise.
- Calibration.CalibrationHelper.AlignNodeToCamera: every `Transform` is an independent record. The AR camera is a child of the session origin in Unity, but here it does not follow the origin. Moving and turning the origin leaves `arCamera`'s position and forward unchanged, so calibration's effect on later camera readings is not captured. That covers `NearestNode` on the camera position and the instructor's user pose.
- The receiver's collaborators (`nodeDatabase`, `lineNavigator`, `instructor`) are taken as always present. `Awake`'s `FindObjectOfType` lookups are not modelled.
- `CalibrationHelper`'s `FindObjectOfType<NodeDatabase>()` is a parameter that may be null. The receiver passes its own registry.
- A null node array in `NodeDatabase` is modelled as the empty sequence. Both give empty maps.
- `hysteresisAngle` is declared by the component but never read, so it only appears in `Tuning`.
- `OnDisable` and the subscription flag are left out.
