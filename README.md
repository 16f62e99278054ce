# Touch-table tracker: a Dafny model of its sequential core

This project models the sequential logic of an optical touch table. A camera looks down at a
surface. Dark blobs on it are tracked as objects with a lifecycle, and their outlines are streamed
to a consumer over a TCP socket. The model covers three pieces:

- **TouchTableTracker**, the per-object lifecycle NASENT → BORN → ALIVE → DEAD. Timing works from
  two timestamps. `startedDying == 0` means "not dying". The thresholds are the fixed 0.2 s settle
  time and 0.5 s fade time. The tracker also keeps an exponentially smoothed position and a trail
  of at most 50 points, and evicts the oldest point first. The rect tracker decides which of
  `setup`/`update`/`kill`/`terminate` to call; it is not part of this model, so the order of calls
  is arbitrary input (`TrackerLifecycle.Call`, `TrackerLifecycle.Run`).
- **TouchTableThread**'s calibration quad, the four points `pts_src` (`ptsSrc` here). It can be
  reset to the frame corners or replaced when exactly four points are given. The point nearest the
  cursor can be picked and dragged, and the quad re-committed. The model also has the segmentation
  parameters, the calibration-mode flag, and the per-frame contour message with the socket's
  connected flag.
- **ofApp**: setup order (`reset_Circle` before `loadParam`), the per-frame forwarding of the GUI
  values, the mouse handlers that act only in calibration mode, and how the quad and the
  parameters are saved and loaded.

Modules: `Geometry` and `Optional` hold the shared value types. `TrackerLifecycle` models
src/touchTableTracker.cpp:1-115 with its header. `ContourWire` holds the message structure and its
serialiser. `TableThread` models the rest of src/touchTableTracker.cpp. `TouchApp` models
src/ofApp.cpp.

Conventions:
- Floats are `real`.
- `ofGetElapsedTimef()` becomes an argument `now`.
- `cv::Rect` is a record whose centre is `(x + width/2, y + height/2)`.
- The homography is a 3x3 matrix (`Matrix`, nine reals row by row). `cv::getPerspectiveTransform`
  is a function `solver` of type `PerspectiveSolver` that the thread is constructed with and that
  is otherwise unconstrained. The contracts say which quads a matrix was computed from, and
  nothing about its entries.
- Picking compares squared distances. The square root is monotone, so the chosen index is the
  one the source's `length()` comparison chooses.
- A field that a C++ constructor leaves uninitialised stays unassigned in the Dafny constructor,
  so nothing about its value is assumed. These are the tracker's `state`, and the thread's `w`,
  `h`, parameters, `isCalibMode`, `pickedCircle` and `socketConnected`.

Where the written design and the code differ, the model follows the code:
- BORN requires strictly more than 0.2 s to have passed since setup, not "at least" 0.2 s.
- DEAD after dying requires strictly more than 0.5 s, not "at least" 0.5 s.
- `setParam` is declared with a fifth `int br` parameter but defined with four. The model follows
  the definition.

## Model

| member | source | states |
|---|---|---|
| `TrackerLifecycle.Tracker.constructor` | src/touchTableTracker.h:41-44 | a fresh tracker has startedDying == 0, startedNasent == 0, dyingTime == 0.5, nasentTime == 0.2, zero positions and an empty trail; its state is left unconstrained |
| `TrackerLifecycle.Tracker.Setup` | src/touchTableTracker.cpp:3-11 | the new state is the setup transition of the old one (SetupSpec); the trail bound holds |
| `TrackerLifecycle.Tracker.Update` | src/touchTableTracker.cpp:13-41 | the new state is the update transition of the old one (UpdateSpec); the trail stays within 50 points |
| `TrackerLifecycle.Tracker.Kill` | src/touchTableTracker.cpp:43-61 | the new state is the kill transition of the old one (KillSpec); the trail bound holds |
| `TrackerLifecycle.Tracker.Terminate` | src/touchTableTracker.cpp:110-115 | the new state is the terminate transition (TerminateSpec); the trail bound holds |
| `TrackerLifecycle.SetupStartsNasent` | src/touchTableTracker.cpp:3-11 | after setup: NASENT, cur == smooth == box centre, empty trail, startedNasent == now, dying timer and thresholds kept |
| `TrackerLifecycle.NasentUpdateOnlyAges` | src/touchTableTracker.cpp:32-40 | update on NASENT changes only the state: BORN iff now - startedNasent > nasentTime (strict), else still NASENT |
| `TrackerLifecycle.MatchedUpdateRefreshes` | src/touchTableTracker.cpp:15-31 | update on BORN or ALIVE gives ALIVE in the same call, clears the dying timer, sets cur to the centre, smooth to the midpoint of old smooth and cur, and appends smooth to the trail |
| `TrackerLifecycle.PushTrailEvictsOldest` | src/touchTableTracker.cpp:26-30 | a trail of at most 50 stays at most 50; below 50 the point is appended; at 50 vertex 0 is dropped and the point appended |
| `TrackerLifecycle.KillCases` | src/touchTableTracker.cpp:43-61 | kill: non-ALIVE goes to DEAD; ALIVE and not dying starts the timer at now; ALIVE and dying for more than dyingTime goes to DEAD; otherwise nothing changes |
| `TrackerLifecycle.TerminateEnds` | src/touchTableTracker.cpp:110-115 | terminate from any state gives DEAD, dead == true and an empty trail |
| `TrackerLifecycle.StepForward` | src/touchTableTracker.h:33-39 | update, kill and terminate never lower the state in the order NASENT < BORN < ALIVE < DEAD, and DEAD absorbs |
| `TrackerLifecycle.StepKeepsTrailBound` | src/touchTableTracker.cpp:20-31 | every call keeps the trail within 50 points |
| `TrackerLifecycle.RunKeepsTrailBound` | src/touchTableTracker.cpp:26-30 | for any sequence of calls the trail never exceeds 50 points |
| `TrackerLifecycle.RunForward` | src/touchTableTracker.cpp:13-61 | for any sequence of calls without setup the state only moves forward, and DEAD is never left |
| `TrackerLifecycle.RunKeepsNasentStamp` | src/touchTableTracker.cpp:13-61 | without setup, startedNasent and both thresholds never change |
| `TrackerLifecycle.LeavesNasentOnlyByAging` | src/touchTableTracker.cpp:32-60 | a NASENT tracker that later is BORN or ALIVE got there through an update made strictly more than nasentTime after setup (a kill would have sent it to DEAD) |
| `TrackerLifecycle.DiesOnlyAfterFade` | src/touchTableTracker.cpp:15-61 | an ALIVE tracker that reaches DEAD through updates and kills does so at a kill made while the dying timer ran, strictly more than dyingTime after it started |
| `TrackerLifecycle.ScenarioSettleThenAlive` | src/touchTableTracker.cpp:3-41 | setup at t0, update at t0+0.1 is NASENT, at t0+0.3 BORN, the next update ALIVE at the box centre |
| `TrackerLifecycle.ScenarioFadeOut` | src/touchTableTracker.cpp:43-61 | an ALIVE tracker killed at t (not 0) and again at t+0.6 is DEAD, but at t+0.5 it is still ALIVE |
| `ContourWire.VerticesOf` | src/touchTableTracker.cpp:419-427 | one vertex per contour point, in order, each (w/2 - x, h/2 - y) |
| `ContourWire.EntriesOf` | src/touchTableTracker.cpp:413-431 | one entry per contour, in finder order, holding that contour's vertices |
| `ContourWire.MessageOf` | src/touchTableTracker.cpp:412-433 | the message has as many contours as the finder, each with as many vertices as its contour, vertex j of contour k being point j of contour k re-centred |
| `ContourWire.CentredInverts` | src/touchTableTracker.cpp:424-425 | the vertex transform is its own inverse: applying it again recovers the pixel position |
| `ContourWire.MessageRecoversContours` | src/touchTableTracker.cpp:415-431 | a consumer reading the message back gets exactly the finder's contours, in order, with their vertices in order |
| `ContourWire.EmptyFrame` | src/touchTableTracker.cpp:412-435 | with no contours the text is exactly `{"contours":[]}` followed by a newline, for any frame size and number rendering |
| `ContourWire.FrameIsOneLine` | src/touchTableTracker.cpp:435 | the text ends with the appended newline and, when no number renders with a newline, has no other newline |
| `ContourWire.ScenarioCentrePixel` | src/touchTableTracker.cpp:421-435 | a single-pixel contour at the frame centre is sent as the one vertex (0, 0) |
| `ContourWire.Dump` | src/touchTableTracker.cpp:433-435 | the dump is one JSON object: it opens with `{"contours":[` and closes with `]}` |
| `ContourWire.Frame` | src/touchTableTracker.cpp:435 | the text sent is the dump followed by exactly one final newline |
| `TableThread.Nearest` | src/touchTableTracker.cpp:299-313 | the scan with strict `cls > d` ends on the lowest index of least distance to the cursor |
| `TableThread.FirstNearestUnique` | src/touchTableTracker.cpp:306 | only one index is the lowest one of least distance, so the pick is determined |
| `TableThread.Moved` | src/touchTableTracker.cpp:291-297 | dragging rewrites only the picked point, to cursor + offset; with nothing picked (negative index) the quad is unchanged |
| `TableThread.MoveAtPickCursorKeepsQuad` | src/touchTableTracker.cpp:291-313 | dragging at the cursor that made the pick leaves the quad unchanged |
| `TableThread.TableThread.constructor` | src/touchTableTracker.h:56-61 | a fresh thread has the identity matrix, an empty quad, a zero offset and the given perspective solver; the mode, the pick, the frame size, the parameters and the connected flag are unconstrained |
| `TableThread.TableThread.GetWindowSize` | src/touchTableTracker.cpp:143-147 | stores the frame size |
| `TableThread.TableThread.SetParam` | src/touchTableTracker.cpp:171-188 | stores the four parameters and gives the rect tracker persistence 30 and maximum distance 60 |
| `TableThread.TableThread.SetPerspective` | src/touchTableTracker.cpp:315-344 | with other than 4 points the quad and the matrix are unchanged; with 4 the quad is exactly those points and the matrix is derived from them against the corners (0,0), (w-1,0), (w-1,h-1), (0,h-1) |
| `TableThread.TableThread.ResetCircle` | src/touchTableTracker.cpp:235-243 | the quad becomes the frame corners and the matrix is derived from them |
| `TableThread.TableThread.SetCalib` | src/touchTableTracker.cpp:346-349 | re-commit: the quad is unchanged and, holding 4 points, the matrix is derived from it |
| `TableThread.TableThread.SetCalibMode` | src/touchTableTracker.cpp:245-254 | sets the mode; the pick is cleared to -1 exactly when the mode changes |
| `TableThread.TableThread.PickClosestPoint` | src/touchTableTracker.cpp:299-313 | the pick is an index in 0..3, the lowest one nearest the cursor, and the offset is that point minus the cursor |
| `TableThread.TableThread.MoveClosestPoint` | src/touchTableTracker.cpp:291-297 | the quad becomes Moved(old quad, pick, cursor, offset) |
| `TableThread.TableThread.GetCalibMode` | src/touchTableTracker.cpp:256-259 | reports true exactly when the thread is in calibration mode |
| `TableThread.TableThread.SetupSocket` | src/touchTableTracker.cpp:351-405 | the connected flag is the outcome of the connection attempt |
| `TableThread.TableThread.BuildContourMessage` | src/touchTableTracker.cpp:412-433 | the push-back loops build exactly MessageOf(contours, w, h) |
| `TableThread.TableThread.SendContourData` | src/touchTableTracker.cpp:407-452 | disconnected: nothing is produced and it stays disconnected; connected: the text is the message's dump plus a newline, and the flag afterwards is whether the send succeeded |
| `TouchApp.Flatten` | src/ofApp.cpp:201-208 | the quad becomes 8 numbers with point i at positions 2i and 2i+1 |
| `TouchApp.Unflatten` | src/ofApp.cpp:185-189 | 4 points with point i read from positions 2i and 2i+1 |
| `TouchApp.QuadRoundTrip` | src/ofApp.cpp:185-208 | reading back a saved quad gives the same 4 points |
| `TouchApp.RectRoundTrip` | src/ofApp.cpp:185-208 | saving a loaded quad gives back the first 8 numbers of the file |
| `TouchApp.ParamsRoundTrip` | src/ofApp.cpp:192-212 | the four parameters are saved and read under the same four distinct keys (including "maxArearaduis") and come back unchanged |
| `TouchApp.DocRoundTrip` | src/ofApp.cpp:176-216 | a saved document is readable, and loading it gives back the quad and the parameters |
| `TouchApp.App.GetWindowSize` | src/ofApp.cpp:3-7 | stores the frame size |
| `TouchApp.App.Setup` | src/ofApp.cpp:10-43 | GUI defaults, then reset to corners, then load: with no file the quad is the frame corners and the parameters the defaults; with a file the quad and parameters are the saved ones; the thread uses the given solver, and the matrix is its value on the quad and the frame corners |
| `TouchApp.App.Update` | src/ofApp.cpp:46-62 | the thread gets the GUI's calibration flag (pick cleared on a change) and parameters; the quad, matrix and socket are untouched; afterwards the pick is in range whenever calibrating |
| `TouchApp.App.MousePressed` | src/ofApp.cpp:134-140 | in calibration mode the nearest corner is picked and only the pick and its offset change; outside it nothing changes |
| `TouchApp.App.MouseDragged` | src/ofApp.cpp:125-131 | in calibration mode the picked corner is dragged and only the quad changes; outside it nothing changes |
| `TouchApp.App.MouseReleased` | src/ofApp.cpp:143-149 | in calibration mode the quad is re-committed and only the matrix is recomputed; outside it nothing changes |
| `TouchApp.App.LoadParam` | src/ofApp.cpp:176-196 | a file that does not open changes nothing; otherwise the quad goes through the exactly-4 path of setPerspective and the parameters come from their keys; only the quad, the matrix and the four parameters change |
| `TouchApp.App.SaveParam` | src/ofApp.cpp:198-216 | the saved document is the flattened quad and the parameters under their keys |
| `TouchApp.SaveThenRestart` | src/ofApp.cpp:90-98 | what `exit` saves through `saveParam` (src/ofApp.cpp:198-216), the next run's `setup` restores through `loadParam` (src/ofApp.cpp:38-41): the same quad, the matrix the same solver derives from it, the same parameters |

## Left out

- Threading: `threadedFunction` (its loop, `lock`/`unlock`, `ofSleepMillis`), `startThread`/`stopThread`/`waitForThread`, and the atomicity of `socketConnected`. The model is sequential.
- Pixel work: `cvtColor`, `inRange`, `warpPerspective`, `GaussianBlur`, `findContours` and the `toOf`/`toCv` conversions. They are external image algorithms; the contour finder's output is an input of `SendContourData`.
- `adjustGamma`: a lookup table computed with floating-point `pow`, which reals cannot model.
- The arithmetic of `cv::getPerspectiveTransform`: the solver is an arbitrary function, so the model can neither prove nor refute that the frame corners mapped onto themselves give `Identity3`. `ResetCircle`'s matrix is only known to be the solver's value on the corners.
- Detection-to-track matching: it lives in the rect tracker of the ofxCv library, which is not part of this model. `SetParam` only records the persistence (30) and maximum distance (60) it would forward.
- The contour finder's `setThreshold`/`setMinAreaRadius`/`setMaxAreaRadius` calls in `setParam`: the finder is not part of this model. The stored fields are.
- Sockets: the system calls of `setupSocket`, `send` and `close`. Whether connecting and sending succeed are inputs, and only their effect on the connected flag is modelled. Partial sends are not modelled.
- Number formatting: nlohmann's float-to-text rendering is the parameter `num` of the serialiser.
- Colours and drawing: `draw`, `drawSrcCircle`, `getCameraImage`, the `ofRandom` colour that `setup` and `update` assign, the GUI panel setup, `keyPressed` and the camera calls (`setCamera`, `cam.setup`, the pixel copy in `update`). They are rendering, UI and device handling.
- The GUI panel's own writes to the parameter values: the `App` methods hold for any values.
- `exit`: it stops the thread and waits for it (`stopThread`, `waitForThread(true)`), then calls `saveParam`. Only the `saveParam` part is modelled, as `SaveParam` and `SaveThenRestart`.
- The file streams of `loadParam`/`saveParam` and the text of data.json: a file is `Option<Doc>`, with `None` for one that does not open.
- A malformed data.json (fewer than 8 numbers or a key missing): nlohmann throws and the exception escapes `setup`. `LoadParam` requires a well-formed document instead.
- 32-bit float rounding of timestamps, differences, centres and the smoothed position: all are exact reals.
- The `z` component of `cur` and `smooth`: it is always 0.
- The follower base class's `dead` flag before `terminate` and the tracker's label: the base class is not part of this model, so the constructor leaves `dead` unconstrained.
- A drag before any pick or mode change: `pickedCircle` is then uninitialised memory. The source writes only when that value is above -1, so it may write out of bounds (a value of 4 or more) or move an arbitrary corner (0 to 3). `MoveClosestPoint` requires the pick to be below the quad size. The mouse handlers require `Synced()`, which `Update` establishes. openFrameworks calls `update` before it delivers the first input event.
