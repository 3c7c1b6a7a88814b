# Haptic collision simulator — a Dafny model

The program is a small interactive demo. A circular cursor moves with the arrow keys in an 800×600 window. Four fixed rectangular obstacles stand in its way. When the cursor bumps into one, the move is undone and a connected gamepad vibrates at that obstacle's intensity. Otherwise a connected gamepad is told to stop vibrating. When the window closes, one last stop request is sent.

This project models:

- the circle-versus-rectangle test `checkCollision`, by closest-point clamping (module `Geometry`);
- the vibration requests `setVibration` / `stopVibration`, as values, and the conversion of an intensity to a 16-bit motor speed (module `Haptics`);
- the `Obstacle` record and the demo's fixed scene: four obstacles, the cursor's radius, speed and start (module `Scene`);
- the game loop (module `GameLoop`). A class `Game` holds what `main` keeps across frames: the cursor object, whose position changes in place, the constant obstacle list, the speed and the window's open flag. Its methods do what each frame does, in the same order, with the obstacle scan as a loop with an early exit. Each method is proved against specification functions: `Step` for one frame and `Simulate` for a run of frames;
- the properties of that loop (module `LoopProperties`).

The window, the keyboard and the gamepad are inputs. Each frame receives a `FrameInput`: the window events polled at its start, the set of keys held down, and whether the gamepad answers. The program asks the gamepad for its connection at most once per frame: on a hit before vibrating, otherwise before stopping. So one flag per frame is exact. Vibration requests are returned as a sequence of `HapticCommand` values instead of being sent.

Coordinates and intensities are exact reals. The program computes in single-precision floats, whose rounding is not modelled.

Two consequences of the code are worth stating on their own:

- The test compares squared lengths (`HapticCollisionSim.cpp:52`), so a negative radius collides exactly as its absolute value would from the same centre (`Geometry.NegativeRadiusActsAsAbsolute`). Only a radius of exactly zero reduces to a point-in-rectangle test (`Geometry.ZeroRadiusIsPointInRect`).
- Holding Up from the start, the cursor climbs 5 per frame and stops at y = 255. There its centre is 20 units and its top edge 5 units below the bottom edge of the wall at y = 250. The next step would leave the circle exactly touching the wall, and touching counts as a hit (`LoopProperties.HoldingUpStopsBelowWall`).

## Model

| member | source | states |
|---|---|---|
| `Geometry.Clamp` | interactivewindow/HapticCollisionSim.cpp:44-45 | `max(lo, min(v, hi))` lies in `[lo, hi]` when that interval is non-empty, is `v` itself when `v` is inside, and is `lo` when `hi < lo` |
| `Geometry.ClampIsNearest` | interactivewindow/HapticCollisionSim.cpp:44-45 | on one axis the clamped value is at least as near to the centre as any value of the interval |
| `Geometry.ClosestPoint` | interactivewindow/HapticCollisionSim.cpp:43-45 | the clamped point lies in the rectangle when its size is non-negative, and is the centre itself when the centre is inside |
| `Geometry.ClosestPointIsNearest` | interactivewindow/HapticCollisionSim.cpp:43-49 | no point of the rectangle is nearer to the centre than the clamped point |
| `Geometry.CheckCollisionIffTouches` | interactivewindow/HapticCollisionSim.cpp:33-53 | for a rectangle of non-negative size, the clamping test holds exactly when some point of the rectangle is within one radius of the centre `pos + (r, r)` (both directions) |
| `Geometry.CircleCentre` | interactivewindow/HapticCollisionSim.cpp:41 | no contract of its own: the centre is the position moved one radius right and one radius down; the collision lemmas below state its effect |
| `Geometry.CheckCollision` | interactivewindow/HapticCollisionSim.cpp:33-53 | no contract of its own: the squared distance from the centre to the clamped point is at most the squared radius; `CheckCollisionIffTouches`, `CentreInsideCollides`, `ZeroRadiusIsPointInRect`, `NegativeRadiusActsAsAbsolute`, `BelowBottomEdge` and `SeparatedOnAxis` state what it means |
| `Geometry.CentreInsideCollides` | interactivewindow/HapticCollisionSim.cpp:41-52 | a circle whose centre is inside the rectangle collides whatever its radius |
| `Geometry.ZeroRadiusIsPointInRect` | interactivewindow/HapticCollisionSim.cpp:36-52 | with radius 0 the test holds exactly when the position lies in the rectangle |
| `Geometry.NegativeRadiusActsAsAbsolute` | interactivewindow/HapticCollisionSim.cpp:41-52 | a negative radius collides exactly as its absolute value does from the same centre |
| `Geometry.BelowBottomEdge` | interactivewindow/HapticCollisionSim.cpp:44-52 | a centre below the bottom edge and within its horizontal extent collides exactly when its gap to the edge is at most the radius, so a tangent circle collides |
| `Geometry.SeparatedOnAxis` | interactivewindow/HapticCollisionSim.cpp:44-52 | a gap wider than the radius between the centre and the rectangle on either axis rules a collision out |
| `Haptics.StopVibration` | interactivewindow/HapticCollisionSim.cpp:28-30 | stopping is a vibration request whose two motor speeds are both 0 |
| `Haptics.MotorSpeed` | interactivewindow/HapticCollisionSim.cpp:23-24 | for every intensity whose scaled value truncates into 16 bits, the motor speed lies in `[0, 65535]` and is `intensity * 65535` truncated toward zero |
| `Haptics.MotorSpeedEnds` | interactivewindow/HapticCollisionSim.cpp:23-24 | intensity 0 gives speed 0 and intensity 1 gives full speed 65535 |
| `Haptics.MotorSpeedMonotone` | interactivewindow/HapticCollisionSim.cpp:23-24 | a stronger intensity never gives a slower motor |
| `Scene.Obstacle` | interactivewindow/HapticCollisionSim.cpp:56-69 | no contract of its own: the record with size, position, fill colour, vibration intensity, bounciness and category; `Scene.Hits` applies the collision test to it |
| `Scene.InitialObstacles` | interactivewindow/HapticCollisionSim.cpp:87-100 | no contract of its own: the four obstacles in declaration order; `Scene.InitialObstaclesWellFormed` and `LoopProperties.InitialCursorIsClear` state their properties |
| `Scene.CursorRadius` | interactivewindow/HapticCollisionSim.cpp:78-80 | no contract of its own: radius 15, with `Scene.CursorSpeed` 5 and `Scene.CursorStart` (400, 300); `LoopProperties.InitialCursorIsClear` states the start is clear |
| `Scene.InitialObstaclesWellFormed` | interactivewindow/HapticCollisionSim.cpp:87-100 | the four obstacles have non-negative sizes and intensities in `[0, 1]` |
| `GameLoop.Moved` | interactivewindow/HapticCollisionSim.cpp:117-128 | no contract of its own: each held arrow key adds its own step; `OppositeKeysCancel`, `AxesAreIndependent` and `DiagonalIsNotNormalised` state its properties |
| `GameLoop.ClosesWindow` | interactivewindow/HapticCollisionSim.cpp:110-130 | no contract of its own: a close event or Escape held; `Game.PollEvents`, `Game.Frame` and `ClosingFrameRunsToTheEnd` state its role |
| `GameLoop.Step` | interactivewindow/HapticCollisionSim.cpp:114-153 | no contract of its own: one frame as a function of its start position; `StepRevertsOnCollision`, `FirstHitWins`, `StepCommand`, `StepKeepsClear` and `Game.Frame` state its properties |
| `GameLoop.Simulate` | interactivewindow/HapticCollisionSim.cpp:106-166 | no contract of its own: the loop over a finite sequence of frames, then the final stop once closed; `SimulateKeepsClear`, `ExitEndsWithStop`, `DisconnectedGetsOnlyFinalStop`, `ConnectedGetsOnePerFrame` and `Game.Run` state its properties |
| `GameLoop.Cursor.constructor` | interactivewindow/HapticCollisionSim.cpp:78-80 | the new cursor has the given radius and position |
| `GameLoop.Cursor.Move` | interactivewindow/HapticCollisionSim.cpp:118-127 | the position is the old one plus the offset, as each arrow key's `move` does |
| `GameLoop.Cursor.SetPosition` | interactivewindow/HapticCollisionSim.cpp:145 | the position is the given one, as the revert on a hit does |
| `GameLoop.FirstCollisionFrom` | interactivewindow/HapticCollisionSim.cpp:136-147 | from index `k` on, the result is the lowest index of a colliding obstacle, or none when none from `k` on collides |
| `GameLoop.FirstCollision` | interactivewindow/HapticCollisionSim.cpp:136-148 | the scan finds nothing exactly when no obstacle collides; otherwise it stops at a colliding obstacle with no colliding obstacle before it |
| `GameLoop.SimulateAdvance` | interactivewindow/HapticCollisionSim.cpp:106-153 | running one more frame of an open run moves the remainder of the run on by one frame and appends that frame's request to those already sent |
| `GameLoop.SimulateFinish` | interactivewindow/HapticCollisionSim.cpp:106-166 | a run whose window is closed or whose frames are used up leaves the cursor and the window as they are, and adds the final stop exactly when the window is closed |
| `GameLoop.Game.constructor` | interactivewindow/HapticCollisionSim.cpp:74-103 | the window is open, the cursor starts at (400, 300) with radius 15 and speed 5, and the obstacles are the four of the scene |
| `GameLoop.Game.PollEvents` | interactivewindow/HapticCollisionSim.cpp:108-112 | after draining the events the window is open exactly when it was open and no event was a close event |
| `GameLoop.Game.HandleKeys` | interactivewindow/HapticCollisionSim.cpp:117-131 | the successive moves for the held arrow keys leave the cursor at the `Moved` position; Escape closes the window |
| `GameLoop.Game.CollisionPass` | interactivewindow/HapticCollisionSim.cpp:133-153 | on the first hit the cursor is put back at the previous position and a connected gamepad gets that obstacle's intensity on both motors; with no hit the cursor stays moved and a connected gamepad gets a stop |
| `GameLoop.Game.Frame` | interactivewindow/HapticCollisionSim.cpp:106-153 | one loop pass leaves the cursor and the request where `Step` says, and the window open exactly when it was open and the frame had neither a close event nor Escape |
| `GameLoop.Game.Run` | interactivewindow/HapticCollisionSim.cpp:106-166 | the loop over frames, followed by the final stop once the window is closed, leaves the cursor, the window and the requests sent where `Simulate` says |
| `LoopProperties.OppositeKeysCancel` | interactivewindow/HapticCollisionSim.cpp:117-128 | Left with Right, or Up with Down, leaves that axis unchanged |
| `LoopProperties.AxesAreIndependent` | interactivewindow/HapticCollisionSim.cpp:117-128 | each axis moves by `-speed`, 0 or `speed`, and only its own two keys decide which |
| `LoopProperties.DiagonalIsNotNormalised` | interactivewindow/HapticCollisionSim.cpp:117-128 | one key on each axis moves a full step on both, twice the squared length of a single-key step |
| `LoopProperties.StepRevertsOnCollision` | interactivewindow/HapticCollisionSim.cpp:114-147 | a frame collides exactly when some obstacle touches the moved cursor; then the cursor ends exactly where it started, otherwise at the moved position |
| `LoopProperties.FirstHitWins` | interactivewindow/HapticCollisionSim.cpp:136-146 | when obstacle `i` is the first to collide, a connected gamepad gets its intensity on both motors and a disconnected one gets nothing |
| `LoopProperties.LaterObstaclesNotExamined` | interactivewindow/HapticCollisionSim.cpp:136-147 | replacing every obstacle after the first hit leaves the frame's outcome unchanged |
| `LoopProperties.StepCommand` | interactivewindow/HapticCollisionSim.cpp:141-152 | a disconnected gamepad gets no request in a frame; a connected one gets one request, and a stop when nothing was hit |
| `LoopProperties.ClosingFrameRunsToTheEnd` | interactivewindow/HapticCollisionSim.cpp:108-131 | a close event or Escape does not change what its own frame does to the cursor or the gamepad |
| `LoopProperties.StepKeepsClear` | interactivewindow/HapticCollisionSim.cpp:114-147 | a cursor clear of every obstacle at the start of a frame is clear of every obstacle at its end |
| `LoopProperties.SimulateKeepsClear` | interactivewindow/HapticCollisionSim.cpp:106-153 | the same holds after any number of frames |
| `LoopProperties.ExitEndsWithStop` | interactivewindow/HapticCollisionSim.cpp:106-166 | once the loop has ended, the last request sent is a stop |
| `LoopProperties.DisconnectedGetsOnlyFinalStop` | interactivewindow/HapticCollisionSim.cpp:141-166 | a gamepad never connected gets nothing while the loop runs and exactly one stop after it ends, since that stop is not guarded by the connection check |
| `LoopProperties.ConnectedGetsOnePerFrame` | interactivewindow/HapticCollisionSim.cpp:134-153 | while the window stays open, a connected gamepad gets exactly one request per frame |
| `LoopProperties.InitialCursorIsClear` | interactivewindow/HapticCollisionSim.cpp:78-100 | the cursor at (400, 300) with radius 15 touches none of the four obstacles |
| `LoopProperties.DemoNeverRestsInsideAnObstacle` | interactivewindow/HapticCollisionSim.cpp:78-153 | from the demo's start, whatever the inputs, the cursor never ends a frame inside an obstacle |
| `LoopProperties.UpFrameBelowWall` | interactivewindow/HapticCollisionSim.cpp:87-147 | one frame of holding Up below the solid wall: the cursor rises by 5 unless that would bring it within one radius of the wall, in which case it stays and a connected gamepad gets intensity 0.7 |
| `LoopProperties.Climb` | interactivewindow/HapticCollisionSim.cpp:106-147 | when each frame of holding Up climbs one step until nine steps and then stays, any number of such frames leaves the window open and the cursor at `min(m + n, 9)` steps |
| `LoopProperties.HoldingUpStopsBelowWall` | interactivewindow/HapticCollisionSim.cpp:80-147 | holding Up from (400, 300) the cursor climbs 5 per frame for nine frames and then stays at y = 255 for good, with the window still open |

## Left out

- Window creation, the 60 frames-per-second cap, and all drawing (clearing, drawing the obstacles and the cursor, presenting the frame). The windowing library's code is not part of this model, and drawing changes no state the model tracks.
- The gamepad library calls that query the connection and set the motors. Connection is a per-frame input, and vibration requests are returned as values. The controller index is not modelled, because only controller 0 is ever used.
- Floating-point arithmetic. Positions, sizes, the radius and intensities are exact reals. Float rounding in the collision test and in the cursor's moves is not captured. For example, a left step followed by a right step always cancels exactly here.
- The colour, `isBouncy` and category fields of an obstacle are kept as data only. Only drawing uses the colour, and nothing reads the other two.
- The real loop may run forever. `Game.Run` and `Simulate` take a finite sequence of frames. If the frames run out while the window is still open, the run ends without the final stop, because the program would still be running.
- Haptics.MotorSpeed: requires that `intensity * 65535`, truncated toward zero, fits in 16 unsigned bits (for example intensity 1.00001 still does). Outside that range the program's float-to-16-bit conversion is undefined. Every intensity the program passes lies in `[0, 1]` (`Scene.InitialObstaclesWellFormed`). A vibration request records the two intensities passed to `setVibration`; `MotorSpeed` gives the motor speeds derived from them.
