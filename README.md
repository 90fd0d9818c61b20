# GLCameras camera control, modelled in Dafny

These files model the camera-control core of the GLCameras demos.

- **Vector camera.** A six-degrees-of-freedom camera with flight and first-person behaviours. It keeps an eye position and three local axes. It moves either by fixed steps or by integrating a velocity. That velocity ramps up to a maximum while a key is held and decays back to rest when released. The camera writes its view and projection matrices cell by cell.
- **Third-person orbit camera.** It looks at a target from an offset. Each frame it turns that offset by recorded angular rates and rebuilds its view through lookAt.
- **Input state machines.** The SDL keyboard and mouse of the repository's input files (the Win32 input class the demos include is not among them):
  - double-buffered key and button states with press-edge detection;
  - a weighted-average smoothing filter over the last ten mouse offsets;
  - the wheel reading;
  - a recentre request that waits until the window centre is known.
- **Host rules of the two Win32 demos.**
  - The first-person/flight demo: the movement keys, with the velocity reset on a fresh press; the collision box; the tuning keys; and the rotation dispatch.
  - The ball demo: the floor clip; the W/S/A/D rules; the chase-camera heading; and the spring-constant keys.
  - Both demos: the shared frame timer, which averages recent frame times and discards spikes; and the frames-per-second counter.

Every scalar is a `real`, so the branches and clamps hold exactly.

Library operations are fields of a `Geometry.MathLib` value, uninterpreted:
- the inverse square root behind normalisation;
- tan, atan and asin;
- rotation about an axis;
- the cells of glm::lookAt;
- the quaternion orbit;
- the quaternion library's normalisation.

Dot and cross products are defined directly. Matrices are `array2<real>` indexed `[column, row]`, as glm indexes them. Reads of SDL and Win32 state arrive as parameters: key snapshots, button states, the cursor position, window sizes, performance-counter values, and whether the swap-interval extension exists.

The three copies of the input code share one model, `Input`:
- utilities/input.*;
- GLCamera1/input.cpp;
- GLCamera2/input.*.

The table cites the utilities copy. The same members model these lines of the other copies:
- the GLCamera1 copy: key buffers at GLCamera1/input.cpp:36-44 and 58-66; attach at 92-118; the filter at 132-167; the wheel, centre and snap at 214-258;
- the GLCamera2 copy: GLCamera2/input.cpp:42-47, 68-82, 86-111, 124-158, 183-192 and 194-245.

GLCamera2/input.hpp differs in its key predicates and buffer size, and those are kept side by side (see Findings). The two demos' frame timers and frame counters are the same code: the table cites GLCamera2/main.cpp, and GLThirdPersonCamera2/main.cpp:435-484 and 963-980 match line for line.

Files:
- `geometry.dfy`: vectors and the view/projection matrix layouts.
- `camera.dfy`: the vector camera.
- `third_person_camera.dfy`: the orbit camera.
- `input.dfy`: keyboard and mouse.
- `frame_clock.dfy`: frame timer and frame counter.
- `camera_demo.dfy`: the GLCamera2 host.
- `ball_demo.dfy`: the GLThirdPersonCamera2 host.

## Model

| member | source | states |
|---|---|---|
| Geometry.Clamp | GLCamera2/main.cpp:721-725 | a value is forced into [lo, hi] by the two tests in source order; inside the range it is unchanged |
| Geometry.NormalizeKeepsOrthogonal | GLCamera1/camera.cpp:329-333 | normalising a vector keeps it orthogonal to anything it was orthogonal to |
| Geometry.ViewTransformIsCameraCoordinates | GLCamera1/camera.cpp:339-357 | the view matrix sends a point to its offset from the eye measured along each camera axis, with w = 1; the eye goes to the origin |
| Geometry.PerspectiveScalesCarryAspect | GLCamera1/camera.cpp:103-107 | where tan undoes atan, the horizontal-fov perspective puts aspect/tan(fovx/2) in [0][0] and aspect²/tan(fovx/2) in [1][1] |
| Geometry.ProjectionMapsClipPlanes | GLCamera1/camera.cpp:119-127 | the depth terms send the near plane to -1 and the far plane to +1 |
| VectorCamera.Accelerated | GLCamera1/camera.cpp:262-265 | the ramped velocity is limited to [-max, max] and is unchanged inside it |
| VectorCamera.Decelerated | GLCamera1/camera.cpp:270-276 | decay moves a component towards 0 without crossing it; its magnitude drops by the step or reaches 0 |
| VectorCamera.AxisVelocity | GLCamera1/camera.cpp:256-277 | with a direction, the new component lies in [-max, max]; without one, it decays towards rest keeping its sign |
| VectorCamera.DecayReachesRest | GLCamera1/camera.cpp:266-277 | with a positive step, n decays bring a component exactly to 0 once n·step reaches its magnitude |
| VectorCamera.RestStaysAtRest | GLCamera1/camera.cpp:270-276 | a component at rest stays at rest under any number of decays |
| VectorCamera.AxisDisplacement | GLCamera1/camera.cpp:219-239 | the per-axis displacement is v·dt + a·dt²/2, except 0 when the axis has no direction and exactly zero velocity |
| VectorCamera.Forwards | GLCamera1/camera.cpp:68-76 | the first-person forward direction has no y component; in flight it is the view direction |
| VectorCamera.FirstPersonStepKeepsHeight | GLCamera1/camera.cpp:65-82 | a first-person move changes the height only by dy and by the x axis's own tilt, never by the forward amount |
| VectorCamera.ClampPitch | GLCamera1/camera.cpp:180-190 | the accumulated pitch ends in [-90, 90]; the applied pitch is the change of the accumulator; in range nothing is clamped |
| VectorCamera.FlightAxes | GLCamera1/camera.cpp:150-175 | heading, then pitch, then roll, each about the current axis; a zero angle skips its step, so the axes it would turn stay |
| VectorCamera.FirstPersonAxes | GLCamera1/camera.cpp:194-206 | heading turns about the world y axis, then pitch about the current x axis; with no angles the axes stay |
| VectorCamera.Orthogonalize | GLCamera1/camera.cpp:329-333 | the regenerated axes are mutually orthogonal, and z is the normalised old z |
| VectorCamera.Camera.constructor | GLCamera1/camera.cpp:25-48 | a flight camera at the origin looking down -z, at rest, with the default planes and identity matrices |
| VectorCamera.Camera.UpdateViewMatrix | GLCamera1/camera.cpp:326-358 | the view matrix is rebuilt from the axes and eye; with orthogonalisation the axes are regenerated and viewDir = -z; nothing else changes |
| VectorCamera.Camera.LookAt | GLCamera1/camera.cpp:52-56 | as written, only the accumulated pitch changes, re-read from cell [1][2] of the current view matrix; the target plays no part |
| VectorCamera.Camera.SetPosition | GLCamera1/camera.hpp:190-193 | only the eye changes, and the view matrix is rebuilt without touching the axes |
| VectorCamera.Camera.Move | GLCamera1/camera.cpp:58-83 | the eye moves dx along x, dy along world y and dz forwards; nothing else changes |
| VectorCamera.Camera.MoveAlong | GLCamera1/camera.cpp:85-95 | the eye moves by direction·amount component-wise; nothing else changes |
| VectorCamera.Camera.Perspective | GLCamera1/camera.cpp:97-133 | every projection cell is written as laid out, and fovx, aspect and both planes are stored |
| VectorCamera.Camera.RotateFlight | GLCamera1/camera.cpp:150-175 | the axes become FlightAxes of the old axes |
| VectorCamera.Camera.RotateFirstPerson | GLCamera1/camera.cpp:177-207 | the accumulator is clamped as ClampPitch says, and the axes turn by the clamped pitch |
| VectorCamera.Camera.Rotate | GLCamera1/camera.cpp:135-148 | the behaviour's rotation followed by orthogonalisation and a rebuilt view matrix; eye, velocity and planes stay |
| VectorCamera.Camera.StepAxis | GLCamera1/camera.cpp:256-277 | the branch-by-branch update of one component equals AxisVelocity |
| VectorCamera.Camera.UpdateVelocity | GLCamera1/camera.cpp:251-324 | each component is updated from its own axis only |
| VectorCamera.Camera.UpdatePosition | GLCamera1/camera.cpp:209-249 | with a nonzero old velocity the eye moves by the displacement of that old velocity; at rest the eye and the view matrix stay; the velocity is always updated |
| VectorCamera.Camera.SetBehavior | GLCamera1/camera.hpp:171-179 | the behaviour is stored; only flight to first person rebuilds the view as lookAt(eye, eye - z, world y); axes, eye and pitch are never touched |
| VectorCamera.Camera.SetAcceleration | GLCamera1/camera.hpp:167-169 | only the acceleration is assigned |
| VectorCamera.Camera.SetCurrentVelocity | GLCamera1/camera.hpp:181-183 | only the current velocity is assigned |
| VectorCamera.Camera.SetVelocity | GLCamera1/camera.hpp:195-197 | only the maximum velocity is assigned |
| VectorCamera.Camera.GetAcceleration | GLCamera1/camera.hpp:143 | returns the stored acceleration |
| VectorCamera.Camera.GetBehavior | GLCamera1/camera.hpp:145 | returns the stored behaviour |
| VectorCamera.Camera.GetCurrentVelocity | GLCamera1/camera.hpp:147 | returns the stored current velocity |
| VectorCamera.Camera.GetPosition | GLCamera1/camera.hpp:149 | returns the eye |
| VectorCamera.Camera.GetProjectionMatrix | GLCamera1/camera.hpp:151 | returns the projection matrix itself |
| VectorCamera.Camera.GetVelocity | GLCamera1/camera.hpp:153 | returns the stored maximum velocity |
| VectorCamera.Camera.GetViewDirection | GLCamera1/camera.hpp:155 | returns the view direction |
| VectorCamera.Camera.GetViewMatrix | GLCamera1/camera.hpp:157 | returns the view matrix itself |
| VectorCamera.Camera.GetXAxis | GLCamera1/camera.hpp:159 | returns the x axis |
| VectorCamera.Camera.GetYAxis | GLCamera1/camera.hpp:161 | returns the y axis |
| VectorCamera.Camera.GetZAxis | GLCamera1/camera.hpp:163 | returns the z axis |
| VectorCamera.RampReachesLimit | GLCamera2/main.cpp:71-76 | with the demo's acceleration 8 and speed 2, one second of pressing reaches ±2, and 1/8 s of release halves it |
| OrbitCamera.ThirdPersonCamera.constructor | GLThirdPersonCamera1/third_person_camera.cpp:34-55 | zero rates, default planes, eye, target and offset at the origin, world axes, identity matrices |
| OrbitCamera.ThirdPersonCamera.LookAtTarget | GLThirdPersonCamera1/third_person_camera.cpp:61-64 | only the target changes |
| OrbitCamera.ThirdPersonCamera.LookAt | GLThirdPersonCamera1/third_person_camera.cpp:66-103 | eye and target stored, offset = eye - target, axes from the offset and up, viewDir = -z, rows 0-2 of the view written; row 3 keeps the identity's |
| OrbitCamera.ThirdPersonCamera.Perspective | GLThirdPersonCamera1/third_person_camera.cpp:105-139 | the projection cells are written and fovx, znear, zfar stored; the aspect is not |
| OrbitCamera.ThirdPersonCamera.Rotate | GLThirdPersonCamera1/third_person_camera.cpp:141-148 | only the two rates are recorded |
| OrbitCamera.ThirdPersonCamera.Update | GLThirdPersonCamera1/third_person_camera.cpp:150-185 | the offset is turned by rate·dt, the eye is target + turned offset, the new offset is exactly the turned one, the target and rates stay |
| Input.Keyboard.constructor | utilities/input.cpp:41-44 | both key buffers are zero |
| Input.Keyboard.Update | utilities/input.cpp:46-51 | after the swap the previous state is the old current one and the current one is the fresh snapshot |
| Input.KeyDownXorUp | utilities/input.hpp:31-33 | exactly one of keyDown and keyUp holds |
| Input.KeyPressedIsDownEdge | utilities/input.hpp:35 | keyPressed is down now and up before, so it implies keyDown |
| Input.KeyUpAsWrittenIsKeyDown | GLCamera2/input.hpp:31-33 | as written, GLCamera2's keyUp equals its keyDown on every key |
| Input.HeldKeyReadsUpAsWritten | GLCamera2/input.hpp:33 | a key whose state is 1 reads as both down and up |
| Input.KeyUpIntendedIsNotDown | GLCamera2/input.hpp:31-33 | the corrected keyUp holds exactly when keyDown does not |
| Input.GLCamera2AgreesOnBinaryStates | GLCamera2/input.hpp:31-35 | on 0/1 state bytes GLCamera2's keyDown, corrected keyUp and keyPressed agree with the utilities' predicates |
| Input.ButtonPredicates | utilities/input.hpp:58-64 | buttonPressed is down now and up before; buttonUp is not buttonDown |
| Input.ShiftInMovesPairsBack | utilities/input.cpp:124-131 | the new pair is at the front and every older entry moves back one pair, the oldest dropped |
| Input.WeightTotalAtLeastOne | utilities/input.cpp:134-145 | with a weight of at least 0 the filter's divisor (the sum of the weights) is at least 1 |
| Input.ZeroWeightKeepsNewest | utilities/input.cpp:138-142 | with weight 0 the total is 1 and the weighted sum is the newest entry |
| Input.ConstantHistorySum | utilities/input.cpp:138-142 | a constant history sums to that constant times the total weight |
| Input.ConstantHistoryFilter | utilities/input.cpp:138-145 | filtering a steady movement reproduces it exactly |
| Input.ZeroWeightFilter | utilities/input.cpp:138-145 | with weight 0 the filter passes the newest offset through |
| Input.WeightedSumBounds | utilities/input.cpp:138-142 | entries within [lo, hi] bound the weighted sum by lo and hi times the total weight |
| Input.FilterStaysWithinHistory | utilities/input.cpp:133-145 | with a weight of at least 0 the filtered value lies between the smallest and largest remembered entry |
| Input.HalfTowardZero | utilities/input.cpp:97-98 | C++ integer halving: the remainder is 0 or ±1, on the side of the dividend's sign |
| Input.SnapUnit | utilities/input.cpp:217-218 | an offset is 0 exactly when its magnitude is at most 1; larger offsets are kept |
| Input.WheelReading | utilities/input.cpp:196 | the reading times 120 is the delta since the last read; it is 0 exactly when nothing arrived |
| Input.Mouse.constructor | utilities/input.hpp:101-117 | detached, filtering on, cursor visible, weight 0.2, counters, positions, history and buttons zero |
| Input.Mouse.Attach | utilities/input.cpp:76-101 | no window: false and nothing changes; otherwise true, filtered pair, history and button buffers zeroed, pointers reset, centre = size halved toward zero |
| Input.Mouse.Detach | utilities/input.cpp:103-112 | the window is forgotten; the cursor flag survives |
| Input.Mouse.HideCursor | utilities/input.cpp:150-162 | the visibility flag is the opposite of the request |
| Input.Mouse.HandleMsg | utilities/input.cpp:148 | the delta is accumulated |
| Input.Mouse.MoveTo | utilities/input.cpp:164-169 | the current position is the target |
| Input.Mouse.MoveToWindowCenter | utilities/input.cpp:171-178 | with both centre coordinates nonzero the cursor goes to the centre; otherwise the position stays and a recentre is pending |
| Input.Mouse.SetWeightModifier | utilities/input.cpp:180 | only the weight is assigned |
| Input.Mouse.SmoothMouse | utilities/input.cpp:182 | only the filtering flag is assigned |
| Input.Mouse.ShiftHistory | utilities/input.cpp:124-131 | the history becomes ShiftIn of the old one: the new pair in front, each older pair one slot back, the oldest dropped |
| Input.Mouse.WeightedAverages | utilities/input.cpp:133-142 | over any history of (x, y) pairs, the loop's sums are the weighted sums of both axes and the total weight, pair i weighing weight^i |
| Input.Mouse.PerformMouseFiltering | utilities/input.cpp:114-146 | the history is shifted, and the filtered pair is the weighted average of the new history |
| Input.Mouse.UpdateButtons | utilities/input.cpp:186-192 | the previous buttons are the old current ones, and the current ones are the fresh states |
| Input.Mouse.UpdateWheel | utilities/input.cpp:196-197 | the reading is the delta since the last read, which is then marked read |
| Input.Mouse.UpdateCentre | utilities/input.cpp:203-210 | the centre is recomputed, and a pending recentre is retried and stays pending while a centre coordinate is 0 |
| Input.Mouse.UpdateOffset | utilities/input.cpp:213-224 | the position is the cursor's; the offset (y up) is snapped and, with filtering on, replaced by the filtered value of the shifted history |
| Input.Mouse.Update | utilities/input.cpp:184-225 | one input frame: buttons, wheel, centre, recentre, offset as above; a second read of the wheel with no new message gives 0 |
| FrameClock.Pushed | GLCamera2/main.cpp:418-419 | the new frame time is in front and every older one moves back, the oldest dropped |
| FrameClock.SumOfConstant | GLCamera2/main.cpp:427-428 | n equal samples sum to n times their value |
| FrameClock.MeanOfConstant | GLCamera2/main.cpp:425-431 | a steady frame time is reported exactly |
| FrameClock.SumBounds | GLCamera2/main.cpp:427-428 | samples within [lo, hi] sum to between n·lo and n·hi |
| FrameClock.MeanWithinSamples | GLCamera2/main.cpp:425-431 | the reported time lies between the smallest and largest sample |
| FrameClock.FrameTimer.constructor | GLCamera2/main.cpp:391-399 | the zero-initialised statics: no samples, mean 0, not initialised |
| FrameClock.FrameTimer.Average | GLCamera2/main.cpp:425-431 | the summing loop divided by the count is the mean of the samples in use |
| FrameClock.FrameTimer.GetElapsedTimeInSeconds | GLCamera2/main.cpp:385-434 | a sample within a second of the mean is pushed and the count grows to at most 50; a spike is discarded and the reported time is the previous one; the result is the new mean |
| FrameClock.FrameRate.constructor | GLCamera2/main.cpp:1054-1055 | both counters start at 0 |
| FrameClock.FrameRate.UpdateFrameRate | GLCamera2/main.cpp:1052-1069 | more than a second accumulated reports the frames and resets both counters; otherwise the frame is counted |
| CameraDemo.AxisInput | GLCamera2/main.cpp:450-538 | a direction component is +1, 0 or -1: 0 exactly when both or neither key is down |
| CameraDemo.VelocityAfterPresses | GLCamera2/main.cpp:445-538 | each press edge overwrites the velocity with the frame-start value minus its axis, so the last group with an edge decides |
| CameraDemo.HeldKeysKeepVelocity | GLCamera2/main.cpp:450-463 | keys held over from the last frame make no edge and leave the velocity alone |
| CameraDemo.OppositeKeysCancel | GLCamera2/main.cpp:450-478 | W and S together give no forward movement |
| CameraDemo.ClampToBounds | GLCamera2/main.cpp:716-738 | the clamped position is in the box, an in-box position is unchanged, and below the minimum gives the minimum |
| CameraDemo.ClampToBoundsIdempotent | GLCamera2/main.cpp:716-739 | clamping twice is clamping once |
| CameraDemo.ClampToBoundsIsNearest | GLCamera2/main.cpp:716-739 | the clamped position is the nearest point of the box along every axis |
| CameraDemo.DemoBoundsWellFormed | GLCamera2/main.cpp:591-592 | an example: the demo's box is well formed and contains the starting position |
| CameraDemo.RaiseRotationSpeed | GLCamera2/main.cpp:765-771 | '+' adds 0.01 and caps at 1 |
| CameraDemo.LowerRotationSpeed | GLCamera2/main.cpp:773-779 | '-' subtracts 0.01 and resets to 0.01 at or below 0, so the speed stays positive |
| CameraDemo.RaiseWeight | GLCamera2/main.cpp:781-787 | '.' adds 0.1 and caps at 1 |
| CameraDemo.LowerWeight | GLCamera2/main.cpp:789-795 | ',' subtracts 0.1 and floors at 0 |
| CameraDemo.TunedRotationSpeed | GLCamera2/main.cpp:765-779 | the rotation speed stays in (0, 1] under any presses |
| CameraDemo.TunedWeight | GLCamera2/main.cpp:781-795 | the mouse weight stays in [0, 1] under any presses |
| CameraDemo.TunedWeightKeepsFilterDefined | GLCamera2/main.cpp:781-795 | a weight in [0, 1] keeps the mouse filter's divisor at least 1 |
| CameraDemo.RotationInputs | GLCamera2/main.cpp:1016-1033 | first person has no roll; flight yaws by -direction.x·100·dt, and with a nonzero rotation speed rolls exactly when the mouse moved sideways |
| CameraDemo.TranslationDirection | GLCamera2/main.cpp:1031-1035 | in flight the sideways component is dropped before the camera moves |
| CameraDemo.FlightSideKeysYaw | GLCamera2/main.cpp:1025-1031 | in flight, D yaws the camera right and never moves it sideways |
| CameraDemo.SetUpCamera | GLCamera2/main.cpp:580-589 | a first-person camera at CAMERA_POS with the demo's projection, acceleration and velocity |
| CameraDemo.Host.constructor | GLCamera2/main.cpp:580-595 | the camera set up as above, no flight, no help, no vertical sync, rotation speed 0.2, no keys latched, the cursor hidden |
| CameraDemo.Host.PollKey | GLCamera2/main.cpp:450-463 | the latch follows the key; a fresh press resets the current velocity |
| CameraDemo.Host.GetMovementDirection | GLCamera2/main.cpp:436-539 | the direction is MovementDirection of the keys, the latches are the keys, and the velocity is VelocityAfterPresses of the edges |
| CameraDemo.Host.PerformCameraCollisionDetection | GLCamera2/main.cpp:716-740 | the eye becomes ClampToBounds of the old eye, in the box, and nothing else changes |
| CameraDemo.Host.EnableVerticalSync | GLCamera2/main.cpp:337-352 | the flag follows the request only when the swap-interval extension exists |
| CameraDemo.Host.ProcessToggles | GLCamera2/main.cpp:756-763 | H, M and V each toggle their flag when pressed (V only with the extension) |
| CameraDemo.Host.TuneRotationSpeed | GLCamera2/main.cpp:765-779 | the in-place clamps equal TunedRotationSpeed |
| CameraDemo.Host.TuneWeight | GLCamera2/main.cpp:781-795 | the in-place clamps equal TunedWeight |
| CameraDemo.Host.ToggleFlight | GLCamera2/main.cpp:797-812 | SPACE toggles flight; landing also puts the camera back at eye height |
| CameraDemo.Host.ProcessUserInput | GLCamera2/main.cpp:742-813 | all the tuning keys, with the invariant kept: flight flag mirrors the behaviour, speed in (0, 1], weight in [0, 1], camera in the box |
| CameraDemo.Host.UpdateCamera | GLCamera2/main.cpp:1006-1039 | after the turn, the move and the clamp, the camera is in the box, its behaviour, planes and speeds are unchanged, and the cursor is recentred or the request left pending |
| CameraDemo.Host.UpdateFrame | GLCamera2/main.cpp:1041-1050 | the invariant holds from frame to frame |
| BallDemo.ClipBallToFloor | GLThirdPersonCamera2/main.cpp:332-351 | the requested speed when the predicted position is strictly inside the floor's boundaries, 0 otherwise |
| BallDemo.StoppedBallStays | GLThirdPersonCamera2/main.cpp:341-342 | at speed 0 the predicted position is the current one |
| BallDemo.ClippedBallStaysOnFloor | GLThirdPersonCamera2/main.cpp:332-351 | for a ball on the floor, the position predicted at the clipped speed stays on the floor, whatever was requested |
| BallDemo.BallStartsOnFloor | GLThirdPersonCamera2/main.cpp:563 | an example: the starting position is on the floor, and each boundary is 1024/2 - 20 = 492 |
| BallDemo.KeyControls | GLThirdPersonCamera2/main.cpp:917-933 | S wins over W and A over D; each held group sets its speed, pitch or heading, and none held gives 0 |
| BallDemo.CameraHeading | GLThirdPersonCamera2/main.cpp:949 | the camera turns with the ball unless it rolls backwards |
| BallDemo.LaterKeysOverride | GLThirdPersonCamera2/main.cpp:917-949 | all four keys held roll the ball backwards turning left, and the camera turns against it |
| BallDemo.BallStepProperties | GLThirdPersonCamera2/main.cpp:936-949 | for a ball on the floor, the position predicted at the frame's clipped speed stays on the floor; the camera is mirrored exactly when the ball reverses or there is no turn; a stopped ball turns the camera with it |
| BallDemo.UpdateBall | GLThirdPersonCamera2/main.cpp:910-951 | the sequential key tests, the clip and the camera heading equal BallStep |
| BallDemo.RaiseSpringConstant | GLThirdPersonCamera2/main.cpp:690-696 | '+' adds 0.1 and caps at 100 |
| BallDemo.LowerSpringConstant | GLThirdPersonCamera2/main.cpp:698-704 | '-' subtracts 0.1 and floors at 1 |
| BallDemo.TunedSpringConstant | GLThirdPersonCamera2/main.cpp:690-704 | a spring constant in [1, 100] stays there under any presses |
| BallDemo.SpringLimitsAreFixedPoints | GLThirdPersonCamera2/main.cpp:690-704 | the limits are fixed points, and away from them '+' then '-' returns to the start |
| BallDemo.BallHost.constructor | GLThirdPersonCamera2/main.cpp:615 | no help, vertical sync off, and the spring camera's settings as given |
| BallDemo.BallHost.EnableVerticalSync | GLThirdPersonCamera2/main.cpp:387-402 | the flag follows the request only when the swap-interval extension exists |
| BallDemo.BallHost.ProcessUserInput | GLThirdPersonCamera2/main.cpp:668-705 | H and V toggle, SPACE toggles the spring system, the spring constant is TunedSpringConstant and stays in [1, 100] |
| BallDemo.BallHost.UpdateFrame | GLThirdPersonCamera2/main.cpp:954-961 | the presses, the frame counter and the ball step in order; for a ball on the floor, the predicted position at the clipped speed stays on the floor |

## Left out

- Window, context and rendering code are out: WinMain, the window procedure, InitGL, textures, fonts, display lists and the Render functions. So are ToggleFullScreen, ESC posting WM_CLOSE, LimitFrameRate, SetProcessorAffinity and ExtensionSupported. They are Win32/WGL/GL I/O. The swap-interval call is a `swapControl` flag.
- The SDL and Win32 reads are parameters: SDL_GetKeyboardState/GetKeyboardState, SDL_GetMouseState, SDL_GetWindowSize, and QueryPerformanceCounter/Frequency. The cursor warp, the ShowCursor loops and the fmt::print diagnostics are left out (GLCamera2/input.cpp:233-239).
- Library maths is uninterpreted, and nothing is proved that depends on its internals: rotation matrices, the inverse square root, tan/atan/asin, glm::lookAt, the Quaternion class and Vector3::normalize. In particular there are no length-preservation or orthonormality results for the turned axes.
- IEEE float rounding, NaN and infinities are out, as is 32-bit integer overflow: scalars are exact reals and ints unbounded.
- The third-person camera's `m_orientation` quaternion is left out: the identity set at third_person_camera.cpp:54 and the fromMatrix call at :102. Nothing in the core reads it.
- The ball demo's Entity3D ball and its spring camera are not part of this model, because their headers are not in the repository. The ball's position and forward vector are parameters. The ball's actual displacement is Entity3D's: it moves after the frame's orient and rotate calls (GLThirdPersonCamera2/main.cpp:940-942). So the model does not show that the ball lands where `BallDemo.ClipBallToFloor` predicted; the floor results are about that prediction. `BallDemo.UpdateBall` returns the speed, heading, pitch and camera heading that the host hands them. The spring settings are host fields.
- The demo mains include a Win32 input.h (GLCamera2/main.cpp:54, GLThirdPersonCamera2/main.cpp:70), with `attach(hWnd)`, `handleMsg(hWnd, msg, wParam, lParam)` and `Keyboard::KEY_*` codes. That Win32 input class is not part of this model. `CameraDemo.Host` drives `Input.Mouse`, modelled from the SDL copies, in its place, and the keys reach the hosts as booleans.
- GLCamera2/main.cpp drives a camera class whose header is not part of this model. The host rules drive `VectorCamera.Camera`, which has the same interface and behaviour names.
- The collision box is constant: its bounds are constants equal to the values Init sets (GLCamera2/main.cpp:591-592), not globals.
- GLCamera1/input.hpp is not part of this model. The GLCamera1 copy is modelled through the shared `Input` members, with its 256-byte key buffers. Its Win32 keyboard message handler is commented out in the source.
- GLCamera2's Mouse constructor leaves the button-buffer pointers unset until attach. The model starts them on the first buffer, as the utilities copy does.
- The getters of Mouse (cursorIsVisible, isMouseSmoothing, the distances, xPos/yPos, weightModifier, wheelPos) are plain field reads of the `Input.Mouse` fields and have no members of their own.
- Input.Mouse.PerformMouseFiltering: requires the sum of the weights to be nonzero. The source divides unconditionally, and only weight -1 makes the sum 0. The demos keep the weight in [0, 1] (`CameraDemo.TunedWeightKeepsFilterDefined`). Input.Mouse.Update and Input.Mouse.UpdateOffset carry the same requirement when filtering is on.
- VectorCamera.Camera.Perspective: requires the aspect and the two tangents it divides by to be nonzero, and the planes to differ. The same holds for OrbitCamera.ThirdPersonCamera.Perspective. The source divides unconditionally, and a zero there gives an infinity in float.
- FrameClock.FrameTimer.GetElapsedTimeInSeconds: requires a nonzero counter frequency on the first call, which the source divides by.
- CameraDemo.Host.UpdateCamera: states its invariant, the unchanged camera fields, the view-matrix layout and the recentre. It does not state the closed form of the new axes and eye, which is the composition of the Rotate, UpdatePosition and clamp contracts it calls.
- CameraDemo.Host.UpdateFrame: states only the invariant between frames. Each step's own contract gives the rest.
- BallDemo.BallHost.constructor: takes the spring camera's initial settings as parameters, because their defaults live in the spring camera class.
- The key-to-action mapping is represented by booleans per key group. Examples are W or UP, and '+' on either keyboard. The keyboard scancodes and the Keyboard singleton are not threaded through the hosts.

## Findings

| source | as written | input that shows it | evidently intended | confidence | as-written member | corrected member |
|---|---|---|---|---|---|---|
| GLCamera2/input.hpp:33 | keyUp tests `1 == state`, the same test as keyDown | any key whose current state byte is 1 (held down) reads as both down and up | keyUp is the negation of keyDown: the utilities copy tests `== 0`, which on SDL's 0/1 states is `1 != state` | not executed | Input.HeldKeyReadsUpAsWritten | Input.KeyUpIntendedIsNotDown |
