# Drone and camera path tools

This project models the three path-handling state machines of a small three.js city viewer:

- **The camera-path recorder and player** (`path_recorder.js`). A key toggles recording. While recording, each frame may append a time-stamped keyframe of the main camera's pose, at least 0.1 s after the previous one. A GUI switch starts playback. Playback walks the keyframes segment by segment with a clamped interpolation factor and stops at the last keyframe. The bee model and the secondary camera follow the main camera at a fixed offset.
- **The waypoint editor** (`path_maker.js`). The operator flies a camera with the keyboard and the mouse and drops waypoint markers ("spheres") at the camera position. Lines join consecutive markers. Clicking a marker removes it by identity. Clicking a line inserts a marker into the first segment that passes a collinearity test. After each removal or insertion the first and last markers are recoloured and every line is rebuilt; adding a marker appends one line and turns only the previous last marker red.
- **The drone tour** (`main.js`). A drone flies forever round a fixed table of six waypoints, two seconds per leg, with a cursor that wraps. A GUI list chooses the orbit, third-person or first-person camera. The latter two follow the drone.

The files are:

- `geometry.dfy` (module `Geometry`): vectors, quaternions, Euler angles, linear interpolation, `min`/`max`/clamp, and the engine maths the tools call into. That maths is the `Engine` datatype of functions: the interior of spherical interpolation, the Euler/quaternion conversions and the distance.
- `path_recorder.dfy` (module `PathRecorder`): each handler is a function on the value `RecorderState` of the viewer's variables, and the lemmas are about those functions. The class `Recorder` holds the variables as fields. Each handler method changes them in place and ensures `State() == Handler(old(State()), ...)`; `FollowTheMainCamera` instead states the new pose of the object it moves.
- `path_maker.dfy` (module `PathMaker`): the classes `Sphere`, `Line` and `Editor`. `Editor` keeps `sphereArray` and `lineArray` as sequences of objects, which it filters, splices and rebuilds. Its invariant: the markers are distinct, line `i` joins marker `i` to marker `i + 1`, and everything listed is in the scene. The colour rules are proved on sequences of colours.
- `drone_tour.dfy` (module `DroneTour`): the waypoint cursor, the leg timing, the camera switch and the class `DroneScene`.

Times and coordinates are exact reals. Clock readings and frame deltas are parameters of the step methods.

## Model

| member | source | states |
|---|---|---|
| Geometry.Add | main.js:262 | the sum of two vectors, componentwise: each component of the result minus the first vector's is the second vector's |
| Geometry.Lerp | path_recorder.js:254 | `lerpVectors` returns the start at factor 0 and the end at factor 1 |
| Geometry.Slerp | path_recorder.js:255 | `slerpQuaternions` returns the start at factor 0 and the end at factor 1; other factors use the engine's formula |
| Geometry.Min | path_recorder.js:251 | `Math.min`: the result is below both arguments and is one of them |
| Geometry.Max | path_maker.js:78 | `Math.max`: the result is above both arguments and is one of them |
| Geometry.Clamp | path_maker.js:78 | the clamped value lies in the range, equals the input inside it and the nearer bound outside it |
| PathRecorder.Initial | path_recorder.js:20-24 | at start-up the recorder is neither recording nor playing, the path is empty, and the index is 0; the last sample time and the accumulator, set at lines 218 and 239, are 0 too |
| PathRecorder.InitialInv | path_recorder.js:20-24 | the start-up state satisfies the recorder invariant |
| PathRecorder.ToggleAsWritten | path_recorder.js:205-216 | the 't'/'T' key flips `recording`; starting a recording empties the path, stopping keeps it; playback, the index, the last sample time and the accumulator are untouched; other keys change nothing |
| PathRecorder.Toggle | path_recorder.js:205-216 | as the handler as written, except that starting a recording also switches playback off; the last sample time is not reset |
| PathRecorder.TogglePreservesInv | path_recorder.js:205-216 | the corrected toggle keeps the invariant: spaced keyframes, last keyframe at the last sample time, recording and playback exclusive, and a current segment while playing |
| PathRecorder.Samples | path_recorder.js:222-227 | no ensures of its own: the guard of a sample, recording and at least 0.1 s since the last one; `Record`'s contract states what it decides |
| PathRecorder.Record | path_recorder.js:221-236 | exactly one keyframe with the camera pose and the clock is appended, and the last sample time set, iff recording and at least 0.1 s have passed; earlier keyframes are kept; otherwise nothing changes |
| PathRecorder.RecordPreservesInv | path_recorder.js:227-233 | sampling keeps consecutive keyframes at least 0.1 s apart and the last one at the last sample time |
| PathRecorder.SpacedTimesIncrease | path_recorder.js:227-233 | in a recorded path, keyframe `j` is at least `(j - i) * 0.1` s after keyframe `i`, so keyframe times strictly increase |
| PathRecorder.SetPlayback | path_recorder.js:117-128 | switching on sets playing, index 0 and not recording, whatever the path length, and keeps the accumulator; switching off clears only `playingBack` |
| PathRecorder.SetPlaybackPreservesInv | path_recorder.js:117-128 | the playback switch keeps the invariant |
| PathRecorder.Factor | path_recorder.js:250-251 | the factor `min(acc / duration, 1)` lies in [0, 1] for a non-negative accumulator; it is 1 exactly when the accumulator covers the duration, and below 1 it is the accumulator's share of the duration |
| PathRecorder.Playback | path_recorder.js:241-269 | no ensures of its own: one playback frame; `PlaybackIdle`, `PlaybackPreservesInv`, `PlaybackAdvances`, `PlaybackReachesKeyframe` and `PlaybackStartsOnKeyframe` state its behaviour, and `Recorder.PlaybackPath` is proved equal to it |
| PathRecorder.PlaybackIdle | path_recorder.js:242 | a playback frame changes nothing unless playback is on with at least two keyframes, and never changes the path, the recording flag or the last sample time |
| PathRecorder.SegmentDurationPositive | path_recorder.js:250 | while playing, the current segment lasts at least 0.1 s, so the factor's division is defined |
| PathRecorder.PlaybackPreservesInv | path_recorder.js:241-269 | a playback frame keeps the invariant; in particular the index stays on an existing segment while playing |
| PathRecorder.PlaybackAdvances | path_recorder.js:257-267 | once the accumulated time covers the segment, the index goes up by exactly one, the accumulator becomes 0, and playback stays on iff another segment follows (no looping); otherwise the index stays and the time accumulates |
| PathRecorder.PlaybackReachesKeyframe | path_recorder.js:251-255 | when the factor reaches 1 the camera is exactly on the next keyframe's pose |
| PathRecorder.PlaybackStartsOnKeyframe | path_recorder.js:251-255 | a segment played from accumulator 0 with no elapsed time puts the camera on the current keyframe's pose |
| PathRecorder.Tick | path_recorder.js:284-299 | one animation frame (controller unless playing, sample, playback) keeps the invariant |
| PathRecorder.TickKeepsModesApart | path_recorder.js:294-299 | while recording, a frame only appends to the path and leaves the playback index alone; while not recording, the path is unchanged |
| PathRecorder.ToggleAsWrittenStrandsCursor | path_recorder.js:205-216 | a concrete run: restarting a recording during playback leaves playback on with index 1 over a two-keyframe path, breaking the invariant; the corrected toggle keeps it |
| PathRecorder.Recorder.constructor | path_recorder.js:20-24 | the recorder starts in the start-up state |
| PathRecorder.Recorder.OnKeyDown | path_recorder.js:205-216 | the keydown listener performs the corrected toggle on the fields and keeps the invariant |
| PathRecorder.Recorder.RecordMainCameraPath | path_recorder.js:221-236 | the fields change exactly as `Record` says, and the invariant is kept |
| PathRecorder.Recorder.OnPlaybackChange | path_recorder.js:117-128 | the fields change exactly as `SetPlayback` says, and the invariant is kept |
| PathRecorder.Recorder.PlaybackPath | path_recorder.js:241-269 | the fields change exactly as `Playback` says, and the invariant is kept |
| PathRecorder.Recorder.FollowTheMainCamera | path_recorder.js:194-203 | a missing object is left alone; otherwise its position becomes the camera position plus the offset and its rotation the camera's |
| PathRecorder.Recorder.Animate | path_recorder.js:284-310 | one frame changes the fields as `Tick` says, and the bee and the secondary camera end at the camera position plus the offset, with the camera's rotation |
| PathMaker.SetKey | path_maker.js:98-120 | 'w', 's', 'a', 'd', 'Shift' and 'Control' each set only their own flag (forward, backward, left, right, up, down) to the pressed or released value; any other key leaves the flags unchanged |
| PathMaker.ReleaseUndoesPress | path_maker.js:98-120 | releasing a key after pressing it equals releasing it; from a state where it was up, press then release gives back that state |
| PathMaker.Displacement | path_maker.js:123-130 | with no key held the camera does not move; on each axis opposite keys cancel; alone, right moves +0.1 in x, left -0.1, up +0.1 in y, down -0.1, backward +0.1 in z and forward -0.1 |
| PathMaker.LinesJoinAppend | path_maker.js:155-161 | appending a marker and a line from the previous last marker keeps "line `i` joins markers `i` and `i + 1`, one line per pair" |
| PathMaker.Without | path_maker.js:195 | no ensures of its own: the identity filter; `WithoutKeeps`, `WithoutSet`, `WithoutAbsent`, `WithoutRemovesOne` and `WithoutKeepsDistinct` state its behaviour |
| PathMaker.WithoutKeeps | path_maker.js:195 | every marker the identity filter keeps was in the path and is not the clicked one |
| PathMaker.WithoutSet | path_maker.js:195 | the filter keeps exactly the markers other than the clicked one |
| PathMaker.WithoutAbsent | path_maker.js:195 | filtering out a marker that is not in the path changes nothing |
| PathMaker.WithoutRemovesOne | path_maker.js:188-195 | when the clicked marker occurs once, at index `k`, the filter removes exactly index `k` and keeps the others in order |
| PathMaker.WithoutKeepsDistinct | path_maker.js:195 | filtering keeps the markers distinct |
| PathMaker.OnSegment | path_maker.js:230 | no ensures of its own: the collinearity test, going through the point is less than 0.01 longer than going straight, with the distance left to the engine |
| PathMaker.FirstOnSegmentFrom | path_maker.js:225-234 | the search from index `i` returns 0 or an index from `i` to the last marker; `FirstOnSegmentFromIsFirst` says which |
| PathMaker.InsertIndex | path_maker.js:224-234 | the insertion index is 0 or an index from 1 to the last marker; `InsertIndexIsFirstMatch` says which |
| PathMaker.FirstOnSegmentFromIsFirst | path_maker.js:224-234 | the search from index `i` returns the first passing segment at or after `i`, or 0 when none passes |
| PathMaker.InsertIndexIsFirstMatch | path_maker.js:224-234 | the insertion index is the first `i` in `1..n-1` whose segment passes the collinearity test, and 0 when none passes |
| PathMaker.FindInsertIndex | path_maker.js:224-234 | the search loop with its early exit returns that first-match index |
| PathMaker.AddColours | path_maker.js:137-149 | no ensures of its own: the recolouring of `addSphere`; `AddColoursRecolours` and `AddKeepsStandard` state it |
| PathMaker.AddColoursRecolours | path_maker.js:137-149 | adding a marker appends one colour, green for the first marker and yellow otherwise, turns the previous last marker red once there were two, and keeps the other colours |
| PathMaker.FixEnds | path_maker.js:198-203 | no ensures of its own: the recolouring after a removal or insertion; `FixEndsRecolours`, `RemoveKeepsStandard`, `MidInsertStaysYellow` and `DefaultInsertKeepsOldFirstGreen` state it |
| PathMaker.FixEndsRecolours | path_maker.js:198-203 | fixing the ends keeps the length, turns the first colour green and, with two or more markers, the last yellow, and keeps every other colour |
| PathMaker.AddKeepsStandard | path_maker.js:137-149 | adding markers one by one keeps first green, last yellow and the middle red |
| PathMaker.RemoveKeepsStandard | path_maker.js:195-203 | removing any marker from that colouring and fixing the ends gives the same colouring for one marker fewer |
| PathMaker.MidInsertStaysYellow | path_maker.js:236-242 | a marker inserted in the middle stays yellow, since only the ends are recoloured |
| PathMaker.DefaultInsertKeepsOldFirstGreen | path_maker.js:224-242 | an insertion at the default index 0 makes the new marker green and leaves the old first marker green too |
| PathMaker.Editor.constructor | path_maker.js:6-20 | the editor starts with no markers and no lines, at (0, 1.6, 5), unrotated, mouse up with the last mouse position (0, 0), no keys held |
| PathMaker.Editor.CreateLine | path_maker.js:167-173 | exactly one new line from `start` to `end` is appended and added to the scene; marker colours are unchanged |
| PathMaker.Editor.AddSphere | path_maker.js:133-164 | exactly one new marker at the camera position is appended; exactly one line to it is appended when there was a previous marker, and none otherwise; colours change as `AddColours` says; the invariant is kept |
| PathMaker.Editor.AppendMarker | path_maker.js:137-155 | the previous last marker turns red once there were two, and a new marker, green if first and yellow otherwise, is appended at the camera position |
| PathMaker.Editor.Push | path_maker.js:155 | `push` appends the marker and keeps the others and their colours |
| PathMaker.Editor.SetColour | path_maker.js:145 | replacing one marker's material changes that marker's colour only |
| PathMaker.Editor.RecreateLines | path_maker.js:251-264 | every old line leaves the scene, and afterwards there are exactly `max(0, n - 1)` new lines, line `i` joining markers `i` and `i + 1`; colours are unchanged |
| PathMaker.Editor.ClearLines | path_maker.js:253-256 | every listed line leaves the scene and the list is emptied |
| PathMaker.Editor.JoinMarkers | path_maker.js:259-263 | the loop creates one new line per adjacent pair of markers, in order |
| PathMaker.Editor.OnMouseClick | path_maker.js:176-248 | a marker hit removes that marker; lines are looked at only when no marker was hit, and a line hit inserts a marker at the first-match index; in both cases the scene loses the old lines (and the removed marker) and gains exactly the new lines (and the inserted marker); a click hitting neither changes nothing |
| PathMaker.Editor.RemoveSphere | path_maker.js:187-206 | the clicked marker leaves the scene and the path, the others stay in order, the ends are recoloured, the lines are rebuilt and the invariant is kept; the scene is the old one less the marker and the old lines, plus the new lines |
| PathMaker.Editor.TakeOutMarker | path_maker.js:188-203 | the clicked marker leaves the scene and the path, and the first marker turns green and the last, when there are two, yellow |
| PathMaker.Editor.InsertSphere | path_maker.js:211-246 | the length grows by one, a new marker at the clicked point sits at the first-match index, the others keep their order, only the ends are recoloured, the lines are rebuilt and the invariant is kept; the scene is the old one plus the new marker, less the old lines, plus the new lines |
| PathMaker.Editor.SpliceNewMarker | path_maker.js:212-242 | a new yellow marker enters the scene and is spliced in at the first-match index, and the ends are recoloured |
| PathMaker.Editor.SpliceIn | path_maker.js:216-236 | a new yellow marker at the clicked point enters the scene and is spliced in at the first-match index, the others keeping their order and colours |
| PathMaker.Editor.Splice | path_maker.js:236 | `splice(index, 0, sphere)` puts the marker at `index` and keeps the others, their order and their colours |
| PathMaker.Editor.FixEndColours | path_maker.js:198-203 | the first marker turns green and, when there are two or more, the last turns yellow; the others keep their colour |
| PathMaker.Editor.OnKeyDown | path_maker.js:98-109 | movement keys set their flag; 'p' appends one marker at the camera position and, when there was a marker, one line to it, with the scene gaining exactly those and colours as `AddColours` says; 'o' resets the rotation; other keys keep the markers, lines, scene and colours; the camera position and mouse state are never touched |
| PathMaker.Editor.OnKeyUp | path_maker.js:111-120 | movement keys clear their flag |
| PathMaker.Editor.MoveCamera | path_maker.js:123-130 | the camera moves by the displacement of the held keys |
| PathMaker.Editor.ResetCameraRotation | path_maker.js:267-271 | the rotation becomes (0, 0, 0) |
| PathMaker.Editor.OnMouseDown | path_maker.js:61-65 | the button is down and the mouse position is remembered |
| PathMaker.Editor.OnMouseUp | path_maker.js:86-88 | the button is up |
| PathMaker.Editor.OnMouseMove | path_maker.js:67-84 | the rotation changes only while the button is down: yaw by the horizontal drag, and pitch by the vertical drag clamped to [-pi/2, pi/2]; the pitch always stays in that range |
| DroneTour.Factor | main.js:225-226 | `min(elapsed / 2000, 1)` lies in [0, 1] for non-negative elapsed time and is 1 exactly when at least 2000 ms have elapsed |
| DroneTour.NextPointIndex | main.js:240-243 | the advanced cursor is within the table; it is 0 exactly when the next index would be past the end, and the next index otherwise |
| DroneTour.Advance | main.js:240-244 | the cursor after `k` finished legs is within the table; `AdvanceCountsUp`, `AdvanceCompose`, `AdvanceWraps` and `TourLoops` say where |
| DroneTour.AdvanceCountsUp | main.js:240-243 | within one round the cursor counts up by one per leg |
| DroneTour.AdvanceCompose | main.js:240-244 | `a` legs then `b` legs are `a + b` legs |
| DroneTour.AdvanceWraps | main.js:240-243 | after the last waypoint the cursor returns to the first |
| DroneTour.LegsBetween | main.js:240-243 | getting from one waypoint to another takes fewer legs than there are waypoints |
| DroneTour.ReachesWaypoint | main.js:237-245 | from any waypoint the cursor reaches any other after `LegsBetween` legs |
| DroneTour.TourLoops | main.js:237-245 | after one leg per waypoint the cursor is back where it started, and every waypoint is reached within one round: the tour loops forever |
| DroneTour.SelectCamera | main.js:114-126 | a result other than the active camera is the camera whose name was chosen |
| DroneTour.SelectCameraByName | main.js:114-126 | choosing 'Orbit', 'ThirdPerson' or 'FirstPerson' activates that camera, whichever was active |
| DroneTour.SelectCameraIgnoresUnknown | main.js:114-126 | any other value leaves the active camera unchanged |
| DroneTour.DroneScene.constructor | main.js:69-74 | once the drone is loaded the tour starts at waypoint 0 from the drone's pose; the first update at factor 0 leaves the drone in place with its rotation passed through the engine's quaternion conversion; the orbit camera is the default view |
| DroneTour.DroneScene.MoveToNextPoint | main.js:211-249 | a cursor past the table wraps to 0, the leg starts from the drone's current pose at the current clock, and the first update leaves the drone at that pose |
| DroneTour.DroneScene.UpdatePosition | main.js:224-246 | the drone is placed between the leg's start pose and its waypoint by the factor; the leg is over exactly when 2 s have elapsed, and then the drone is on the waypoint |
| DroneTour.DroneScene.Frame | main.js:224-246 | while a leg lasts, the cursor and the leg's start stay put; when it is over, the cursor advances by one modulo the table length and the next leg starts from the reached waypoint |
| DroneTour.DroneScene.OnCameraChange | main.js:114-126 | the active camera changes as `SelectCamera` says |
| DroneTour.DroneScene.Animate | main.js:258-268 | the third-person camera sits at the drone position plus (0, 5, 10); the first-person camera takes the drone's position and rotation; only the active one moves |

## Left out

- Rendering, scene set-up, lights, GLTF model loading, window resizing, mouse capture, the orbit and first-person controllers' own updates, the animation mixer and `lookAt`: these are library calls and I/O. The controller's effect on the main camera is the `controlled` pose passed to `Recorder.Animate`.
- `requestAnimationFrame` and `THREE.Clock`: clock readings and deltas are parameters. In `main.js` a leg that ends calls the next leg's first update synchronously and re-reads the clock; the model uses the same reading for both.
- Floating point: coordinates, times and angles are exact reals. The interior of spherical interpolation, the Euler/quaternion conversions and Euclidean distance are abstract functions of an `Engine` value. Only their end-point behaviour (factor 0 and 1) is used.
- Camera orientation in the recorder: the engine keeps a camera's Euler rotation and its quaternion in step; the model keeps the quaternion only.
- The ray caster: `Editor.OnMouseClick` receives the markers and lines hit, nearest first, and the point on each line hit. Screen-to-ray maths is not modelled.
- Console logging and the 'p' key logger of `main.js` (lines 80-89): display only.
- The GUI fields bound to the orbit camera in `main.js` (lines 132-151) and to the main camera's position and quaternion in `path_recorder.js` (lines 137-144): they display those values and also let the user edit them; the model leaves this GUI input and display out.
- The first-person/third-person/orbital camera list of `path_recorder.js` (lines 100-114): besides choosing what is rendered, it switches the first-person and orbit controllers on and off, so with 'Third Person' or 'Orbital' chosen the first-person controller no longer moves the main camera that the recorder samples. The model sees this only through the `controlled` pose passed to `Recorder.Animate`.
- The marker and line geometry and materials other than the three marker colours; line colour.
- The drone being absent before its model loads: `DroneScene` is made by the load callback, as the tour starts there.
- The lab08 shader demos are not part of this model: they only build scenes and set shader uniforms.
- Recorder behaviour follows the code: the toggle does not reset the last sample time, playback is switched on even with fewer than two keyframes, and starting playback does not reset the accumulator.
- PathRecorder.Recorder.OnKeyDown: uses the corrected toggle, which also stops playback when a recording starts; the handler as written is `ToggleAsWritten` (see Findings).

## Findings

| source | as written | input that shows it | evidently intended | confidence | as-written member | corrected member |
|---|---|---|---|---|---|---|
| path_recorder.js:205-216 | pressing 't' during playback starts a recording (emptying the path) but leaves playback on with its current index | record 3 keyframes, stop, switch playback on, play one segment (index 1), press 't', let two samples be taken: playback is on over 2 keyframes with index 1, so `playbackPath` reads `path[2]`, past the end | starting a recording stops playback, as starting playback stops recording | not executed; follows from the handler and the frame loop as written | PathRecorder.ToggleAsWrittenStrandsCursor | PathRecorder.TogglePreservesInv |
