# Drone-show simulation kernel in Dafny

This project models the per-frame simulation kernel of a WebXR drone simulator. The simulator flies a formation of fifty small drones as one group. The group can be grabbed with a controller or a pinching hand. It can be resized with both grips. It can be flown with the thumb sticks, and it can be sent home with the B button. The model covers:

- the start-up and landing sequences;
- the formation animation;
- collision against detected real-world planes, the floor and training obstacles;
- the bookkeeping of detected planes.

The state is one immutable record, `SimState.Sim`, over `real`. Every per-frame routine of the source is a pure function from `Sim` (plus what the frame supplies) to `Sim`.

Some inputs are passed in as parameters:

- The clock (`Date.now()`) and random draws (`Math.random()`).
- Square root, `sin`, `cos`, `atan2` and quaternion rotation are the fields of a `Geometry.MathLib` record. Their laws are collected in the ghost predicate `Geometry.Lawful`:
  - roots are non-negative and square back;
  - `|sin|, |cos| <= 1`;
  - rotation preserves length and is undone by the inverse rotation.

  A contract that needs a law says so as `Lawful(m) ==> …`.
- A three.js bounding-box measurement is a parameter of the member that uses it.

Modules, one per concern of the source:

| module | file | source |
|---|---|---|
| `Geometry` | geometry.dfy | vector and angle helpers used everywhere |
| `SimState` | state.dfy | src/state.js |
| `Drone` | drone.dfy | src/drone.js |
| `Collision` | collision.dfy | `checkPlaneCollision`, src/physics.js |
| `Physics` | physics.dfy | free fall, hover, return to hover, src/physics.js |
| `Input` | input.dfy | the XR frame: input sources, grip poses, hands |
| `Formations` | formation.dfy | `updateFormationAnimation`, src/main.js |
| `Sequences` | sequences.dfy | start-up, lift start and deceleration, src/controls.js and src/main.js |
| `Flight` | flight.dfy | `updateGamepadMovement`, src/main.js |
| `Controls` | controls.dfy | buttons, resize, grab and release, src/controls.js |
| `Homing` | autoreturn.dfy | `updateAutoReturn`, src/controls.js |
| `Planes` | planes.dfy | `updatePlanes`, shadow meshes, `positionDrone`, src/vr.js |

## Model

| member | source | states |
|---|---|---|
| SimState.Initial | src/state.js:156-264 | The initial lifecycle is pre-start-up idle: not complete, not starting, not shutting down, not landed, multiplier 0, no lift, descent or deceleration timestamps. Nobody holds or resizes the drone. The tuning is the base tuning, with friction equal to angular friction. |
| Drone.SpeedMultiplier | src/drone.js:157 | The speed multiplier is 0.05 at level 1 and 4.0 at level 30, and stays in that band between them. |
| Drone.SpeedMultiplierIncreasing | src/drone.js:157 | A higher speed level always gives a strictly larger multiplier. |
| Drone.SizeMultiplier | src/drone.js:161-163 | The size multiplier lies in [0.5, 2.0]. Inside the band it is the exact square root of scale/0.3. |
| Drone.SizedFriction | src/drone.js:172-179 | Friction adjusted by the size lies in [0.90, 0.98]. It equals base + (size−1)·0.04 whenever that is in the band. |
| Drone.TuneSpeeds | src/drone.js:155-179 | maxSpeed and acceleration are the base values times the speed multiplier and the clamped size multiplier. Both frictions are the base values adjusted by 0.04 per unit of size multiplier and clamped to [0.90, 0.98]. Nothing else in the tuning changes. |
| Drone.UpdateMaxSpeed | src/drone.js:155-188 | maxSpeed and acceleration are the base values times the speed multiplier and the size multiplier, and both frictions are the size-adjusted base values. So maxSpeed/acceleration equals baseMaxSpeed/baseAcceleration. Both frictions are in [0.90, 0.98] and equal each other. Level 1 at size 1 gives 5 % of the base speed. The auto-return speed becomes 1.5·maxSpeed only while auto-returning. Nothing else changes. |
| Drone.UpdateMaxSpeedIdempotent | src/drone.js:155-188 | The update reads only the speed level, the scale and base values it never writes, so a second application changes nothing. |
| Drone.FasterAtHigherLevel | src/drone.js:155-166 | At the same scale, a higher speed level gives a strictly higher maxSpeed and acceleration. |
| Drone.CollisionRadius | src/drone.js:117-122 | The horizontal radius is half the larger horizontal extent. The vertical radius is 1.1 times half the height. Both are non-negative for a non-negative box. |
| Drone.UpdateDroneScale | src/drone.js:130-152 | Without a drone nothing changes. Otherwise the stored scale is never below 0.01: it is the requested scale, or 0.01 when the request is smaller. The radii come from the measured box, and the speed ratio is kept. |
| Drone.GridPositions | src/drone.js:198-213 | There are fifty start positions, all at height 0. Each lies within half the jitter of its 10×5 grid cell. |
| Drone.KPositions | src/drone.js:218-232 | The K table has 18+16+16 = 50 entries, all with z = 0. The stem is at x = −0.12. The upper arm is at y ≥ 0.02 and the lower arm at y ≤ −0.02. |
| Drone.Personalities | src/drone.js:235-241 | Every inertia lies in [0.5, 1.5) and every reaction delay in [0, 0.5). |
| Drone.LoadDroneModel | src/drone.js:191-303 | Fifty followers start at their originals with y = 0 and zero velocity, with personalities in range. The group is at (0, 0, −2), and the stored `currentDroneScale` is 0.03, the scale each follower is drawn at. The collision radii come from the measured box. |
| Collision.EdgeCrosses | src/physics.js:30-36 | An edge reports a crossing only when it straddles the point's z and its endpoints' z differ, so the division is never by zero. |
| Collision.InsidePolygon | src/physics.js:29-37 | The loop's result is the parity of crossing edges. A polygon with fewer than two vertices never contains the point. |
| Collision.OutsideZRangeNotInside | src/physics.js:30-37 | A point whose z lies outside the polygon's z-range is never inside. |
| Collision.Latch | src/physics.js:61-63 | A collision sets the flag, and plays the crash sound only if the flag was clear. |
| Collision.LatchStepTransitive | src/physics.js:61-63 | The latch discipline composes across the plane, floor and obstacle passes. |
| Collision.PlaneVelocityResponse | src/physics.js:53-59 | A velocity not moving into the plane on the drone's side is untouched. |
| Collision.PlaneResponseReflects | src/physics.js:53-59 | Against a unit normal, an inward component becomes −0.5 times itself, and tangential components are kept. |
| Collision.PushResponseReflects | src/physics.js:169-172 | Against a unit push direction, a component against the push becomes −0.5 times itself. Any other component is kept. |
| Collision.EffectiveRadius | src/physics.js:21-23 | The vertical radius is used when \|normal.y\| > 0.7, the horizontal one otherwise. |
| Collision.PlanePass | src/physics.js:14-67 | A plane corrects the drone only when \|signed distance\| < effective radius and the point is inside the polygon. The correction moves the position and, when there is one, the hover anchor by the same vector along the normal. The velocity gets the plane response, and the flag is latched only for a push over 1 mm. |
| Collision.PlanePushReachesRadius | src/physics.js:39-51 | For an unmoved drone and a unit plane normal, the corrected drone ends exactly at the effective radius from the plane, on the side it started on. |
| Collision.FloorPass | src/physics.js:78-113 | Below the vertical radius, y and the anchor's y are raised by the gap. A negative vertical velocity becomes −0.5 times itself; a non-negative one is untouched. |
| Collision.FloorLiftsToRadius | src/physics.js:80-97 | An unmoved drone below the radius ends exactly at the radius. |
| Collision.CubeLocalPush | src/physics.js:133-158 | Inside the radius-grown box all three overlaps are positive. The push is along the axis with the smallest overlap, by exactly that overlap, away from the centre. |
| Collision.CubePass | src/physics.js:123-177 | Only a drone within reach is pushed, along the rotated push axis. |
| Collision.PoleLocal | src/physics.js:183-224 | Contact means horizontally within reach and inside or near the shaft's height. The push is radial beside the shaft, or from the nearest end point otherwise. |
| Collision.PolePushIsUnit | src/physics.js:205-227 | Whenever the pole push is applied, its local direction has unit length. |
| Collision.PolePushReachesSurface | src/physics.js:209-216 | Beside the shaft, the push is horizontal and brings the drone exactly to the reach distance. |
| Collision.TorusLocal | src/physics.js:250-266 | There is contact iff the distance to the centre circle of the tube is below tube radius + horizontal radius. The push amount is the positive shortfall. |
| Collision.TorusPass | src/physics.js:248-296 | The corrected torus response: the push is applied once to the position and to the anchor, with the unit-direction velocity response. |
| Collision.TorusCorrectedResponse | src/physics.js:278-289 | The corrected response reverses an inward component to −0.5 times itself, and moves position and anchor by the same push. |
| Collision.TorusPassAsWritten | src/physics.js:278-289 | On a torus contact with push a along the world direction D, the position moves by a·D, the anchor by a²·D, and the velocity responds to the length-a vector a·D. Without contact nothing changes. The latch discipline holds. |
| Collision.ScaledPush | src/physics.js:280-293 | The as-written tail: position moved by a·D, anchor moved by a²·D, velocity response against a·D, collision found and latched. |
| Collision.TorusAsWrittenResponse | src/physics.js:278-289 | As written, an inward velocity component keeps 1 − 1.5·a² of itself instead of reversing. |
| Collision.TorusAsWrittenCounterexample | src/physics.js:278-289 | Take a torus contact with push 0.1 along a unit world direction d, a velocity of −d and an anchor. The as-written pass leaves a velocity component of −0.985 along d and moves the anchor by 0.01·d. The corrected pass gives +0.5 and moves the anchor by 0.1·d. Both move the position alike. |
| Collision.ObstaclePass | src/physics.js:116-123 | Objects not flagged as obstacles, and unknown shapes, are ignored. A torus uses the corrected pass. |
| Collision.CheckPlaneCollision | src/physics.js:6-305 | Without a placed drone the result is false and nothing changes. With one, the result is true exactly when the snapshot touches a detected plane (within the effective radius and inside the polygon), the floor (y below the vertical radius) or an obstacle; without contact the only change is the cleared collision flag. The crash sound fires at most once per call, and only on a false→true transition. A set flag is cleared only by a call finding no collision, and such a call always clears it. Only position, anchor, flight velocity, the flag and the sound count change. |
| Collision.PlanesPassHit | src/physics.js:14-67 | The planes pass finds a collision exactly when some plane is touched, and changes nothing when none is. |
| Collision.ObstaclePassHit | src/physics.js:115-293 | One obstacle reports a collision exactly when it is a flagged cube, pole or torus whose test reports contact, and changes nothing otherwise. |
| Collision.ObstaclesPassHit | src/physics.js:115-293 | The obstacles pass finds a collision exactly when some obstacle is touched, and changes nothing when none is. |
| Collision.ResolverHits | src/physics.js:6-305 | Planes, floor and obstacles in sequence find a collision exactly when one of them is touched; without contact the body is unchanged. |
| Collision.FloorOnlyScene | src/physics.js:80-102 | With no planes or obstacles, a drone below the radius collides, ends at the radius, and has its downward velocity reflected to half. |
| Physics.LandingFold | src/physics.js:318-354 | The landing height is at least the floor rest height. It is at least every supporting plane's rest height, and it comes from a supporting plane or the floor. |
| Physics.LandingHeight | src/physics.js:318-354 | The landing height is at least the vertical radius. When it is above it, it is within 1 cm above the drone. |
| Physics.PreStartupStep | src/physics.js:308-447 | The step is a no-op when not placed, starting, started, lifting, descending, decelerating, spinning, grabbed, returning or landed. Otherwise the drone ends at or above the landing height. At most one crash sound fires, on a false→true transition. |
| Physics.LandStep | src/physics.js:392-420 | At or below the landing height the drone is set onto it. Downward velocity is reflected to −0.5 times itself, horizontal velocity keeps 70 %, and a crash sound fires only for an impact faster than 0.5 with the flag clear. |
| Physics.DampSpin | src/physics.js:428-434 | A spin faster than 0.01 loses 15 %; a slower one stops. The spin never grows. |
| Physics.HoverMultiplier | src/physics.js:463-465 | The hover amplitude multiplier lies in [0.3, 2.0]. |
| Physics.HoverOffsetBound | src/physics.js:466-472 | The hover offset stays within 16, 12 and 8 mm per axis. |
| Physics.HoverStep | src/physics.js:450-484 | Hovering runs only for a started, free, placed drone. It keeps the drone within the offset bound of its anchor and touches neither the lifecycle nor the velocity. |
| Physics.Ease | src/physics.js:497 | The ease 1−(1−p)³ is 0 at 0 and 1 at 1, and lies in [0, 1] on [0, 1]. |
| Physics.EaseMonotone | src/physics.js:497 | The ease is non-decreasing on [0, 1]. |
| Physics.ReturnToHoverStep | src/physics.js:487-508 | Progress grows by returnSpeed·0.016 and is capped at 1. The return ends exactly when progress reaches 1. |
| Physics.ReturnProgressLinear | src/physics.js:490 | After n ≤ 62 frames from 0 the progress is exactly n·0.016. |
| Physics.ReturnTakes63Frames | src/state.js:239-240 | With returnSpeed = 1/1.0, the return is still running after 62 frames and finished, at progress 1, after 63. |
| Formations.TargetPositionsA | src/main.js:334-339 | Index 1 targets the K table; every other index falls back to the original grid. |
| Formations.ResetFollowers | src/controls.js:121-129 | Every follower gets zero velocity, a fresh reaction delay and hasArrived = false. Position, rotation and inertia are kept. |
| Formations.DrawParams | src/main.js:385-400 | New flight parameters start not arrived, and their draws stay in the documented ranges. |
| Formations.FormationFriction | src/main.js:472-476 | The formation friction stays in [0.88, 0.96], and near the target it is the base value reduced. |
| Formations.CapVelocity | src/main.js:462-468 | A velocity over the speed cap is scaled down to it; one within it is kept. |
| Formations.Steer | src/main.js:443-487 | A steering follower moves by its new velocity, which is bounded by the cap times the friction. |
| Formations.Snap | src/main.js:436-441 | A snapped follower sits exactly on its target with zero velocity and hasArrived = true. |
| Formations.Classify | src/main.js:404-441 | The per-follower branch is exactly one of: reaction delay, 8 s timeout, arrived wobble, arrival snap (distSq < 0.012²), steering. |
| Formations.DelayedBob | src/main.js:404-407 | During the reaction delay only y bobs, by at most 0.3·wobbleAmp. |
| Formations.Hover | src/main.js:421-426 | An arrived follower stays within wobbleAmp of its target on x and z, and within half of it on y. |
| Formations.FollowerStep | src/main.js:376-488 | Each follower follows the branch its classification names. A timeout or arrival snaps it. |
| Formations.SettledMeansArrived | src/main.js:411-441 | A follower that after a step is neither waiting out its delay nor steering has flight parameters marked arrived. |
| Formations.FinishTick | src/main.js:490-495 | The animation flag is cleared exactly when no follower is delayed or steering, and the start time is cleared with it. |
| Formations.FormationTick | src/main.js:348-496 | Nothing happens unless animating with followers. Drone, lifecycle, flight and grab state are untouched. |
| Formations.TimeoutEndsAnimation | src/main.js:490-495 | Once more than 8 s have passed and every delay has elapsed, one tick ends the animation. |
| Sequences.RampProgress | src/controls.js:228-250 | Ramp progress is elapsed/2000 below 2 s and exactly 1 from then on. |
| Sequences.SpinUpMultiplier | src/controls.js:228-250 | The spin-up multiplier min(elapsed/2000, 1) lies in [0, 1], and is 1 exactly from 2 s. |
| Sequences.StartOnEdge | src/controls.js:199-206 | Start-up begins only on an X rising edge while not complete, not starting, not shutting down and placed. It sets starting and clears landed; otherwise the lifecycle is untouched. |
| Sequences.XFormationSwitch | src/controls.js:255-276 | The X formation advances modulo 5 and starts animating. The A formation is reset to 0/not animating, and every follower is reset. |
| Sequences.StartupSequence | src/controls.js:186-285 | Nothing happens without a session or drone sound. Only the starting and landed flags change in the lifecycle, and starting is set only on a qualifying X edge. |
| Sequences.HeldXIsInert | src/controls.js:199-255 | A held X button triggers neither start-up nor a formation switch. |
| Sequences.LiftSequence | src/main.js:242-278 | Only the first frame of a lift with a frame and a reference space acts. It records the drone's position as the start point. The target is y+0.1 when the drone is at or above the right controller, else the controller's y, so it lies strictly above the start height. With no right grip pose the lift is aborted. Nothing outside the lifecycle changes. |
| Sequences.LiftStartsOnce | src/main.js:242-278 | The start point is taken once: after the first frame the lift is no longer waiting for it, and every later frame leaves the state unchanged. |
| Sequences.Level | src/main.js:289-300 | Levelling never increases a tilt and never flips its sign. Yaw is kept. |
| Sequences.DecelerationMultiplier | src/main.js:284-314 | The deceleration multiplier is 1 − min(elapsed/2000, 1), lies in [0, 1], and is 0 exactly from 2 s. |
| Sequences.DecelerationSlowsDown | src/main.js:284-314 | The deceleration multiplier never increases with time. |
| Sequences.DecelerationStep | src/main.js:281-331 | At progress 1 the shutdown ends with multiplier 0 and hasLanded = true. Before that, only the multiplier changes in the lifecycle. In every frame of the shutdown the drone and the followers are levelled by 15 %. |
| Flight.StuckCheck | src/main.js:538-556 | Stuck iff collision is enabled, a previous y exists, \|Δy\| < 0.005 and more than 500 ms have passed. Memory resets on movement and is untouched when collision is off. |
| Flight.SyntheticInput | src/main.js:580 | The autopilot input lies in [0.3, 1]: 0.3 up to an error of 0.15, then 2·error, then 1. |
| Flight.LiftControl | src/main.js:534-601 | Within 0.02 of the target, or when stuck, lift completes: startup complete, multiplier 1, input 0, hover time 0, anchor at the drone. Otherwise the input is in [0.3, 1]. |
| Flight.DescentControl | src/main.js:604-672 | When stuck, deceleration starts at the current height with zero velocity. Above 0.02 the input lies in [−1, −0.3]. Otherwise deceleration starts at landing height 0. |
| Flight.StickFold | src/main.js:676-703 | Each stick value is unchanged or past the dead zone. Raw values equal the used values, and unit axes give unit sticks. |
| Flight.LastRightStickWins | src/main.js:682-686 | With several right sources past the dead zone, the last one's strafe is used. |
| Flight.ClampSpeed | src/main.js:729-731 | A velocity no faster than maxSpeed is kept; a faster one is rescaled to maxSpeed. |
| Flight.Thrust | src/main.js:706-734 | After clamping and friction, \|velocity\| ≤ maxSpeed. |
| Flight.SpinStep | src/main.js:764-768 | Angular velocity is clamped to ±maxAngularSpeed before friction, so its magnitude stays within it. With no input it only decays. |
| Flight.TiltStep | src/main.js:774-781 | Each tilt component closes 5 % of its gap to the target tilt. |
| Flight.Place | src/main.js:736-761 | While decelerating the drone is held at the landing height with zero velocity. While lifting or descending it moves with the velocity. Otherwise only the anchor moves. |
| Flight.GamepadStep | src/main.js:523-782 | Flight is skipped while grabbed, resizing, returning or auto-returning, and before start-up unless lifting or descending. Otherwise speed and spin stay within their limits, and grab, tuning and return state are untouched. |
| Controls.FormationASwitch | src/controls.js:109-133 | The A formation index becomes (i+1) mod 5 and starts animating. The X formation is reset to 0/not animating, and every follower is reset. |
| Controls.BPress | src/controls.js:139-170 | In first-person view B does nothing. Otherwise it starts auto-return toward the grip pose at 1.5·maxSpeed in the horizontal phase, or cancels a running one. |
| Controls.AButtonTurn | src/controls.js:107-134 | Only an A rising edge switches the formation. The button memory follows the button. |
| Controls.BButtonTurn | src/controls.js:137-176 | Only a B rising edge toggles auto-return. The button memory follows the button. |
| Controls.RightControllerButtons | src/controls.js:93-178 | The buttons are inert without a placed drone, before start-up, or while held or resized. Lifecycle, grab and drone are untouched. |
| Controls.HeldAIsInert | src/controls.js:109 | A held A button changes neither the formation nor the followers. |
| Controls.BTogglesAutoReturn | src/controls.js:139-170 | Two B presses start and then cancel auto-return, leaving the horizontal phase. |
| Controls.ResizeScale | src/controls.js:330-333 | The new scale times the initial distance equals the initial scale times the current distance. |
| Controls.ResizeReturnsToStart | src/controls.js:330-333 | At the initial distance the scale is the initial scale. |
| Controls.SizeChange | src/controls.js:288-343 | No resize while grabbed, starting or shutting down. The resize flag is set exactly while both grips are held. The first frame records distance and scale, and later frames rescale by the distance ratio, never below 0.01. |
| Controls.ReleaseVelocity | src/controls.js:490-492 | The free-fall velocity times 0.016, added to the previous position, gives the release position. |
| Controls.ThrowSpin | src/controls.js:493-497 | Each angular component lies in [−1.5, 1.5]. |
| Controls.Release | src/controls.js:481-497 | After start-up, return to hover starts with progress 0 from the current position. Otherwise the drone is thrown with the release velocity and spin. |
| Controls.ControllerRelease | src/controls.js:474-499 | Clears the controller grab, then releases. |
| Controls.HandRelease | src/controls.js:601-626 | Clears the hand grab, then releases. |
| Controls.ReleaseStartsReturn | src/controls.js:481-488 | After start-up, either release starts return to hover from the current position. |
| Controls.GrabSource | src/controls.js:353-441 | A grip rising edge within 0.08 m grabs. Releasing the grabbing source lets go. A source that does neither changes only its own hand's grip memory. Hand grab and resize flags are untouched. |
| Controls.OtherSourcesIdle | src/controls.js:351-441 | While a controller holds the drone, sources of the other hand that do not grab leave everything but the grip memories alone. |
| Controls.GrabbedAfterSources | src/controls.js:351-441 | After the source loop of a frame in which source i grabs and no later source grabs, the drone is held by source i's hand, with the smoothed point at its grip and the offset from the grip to the unmoved drone. |
| Controls.HoldFold | src/controls.js:351-441 | A controller that keeps its grip pressed keeps holding the drone through the source loop, provided no source of the other hand grabs. |
| Controls.ControllerFollow | src/controls.js:443-470 | While a controller holds the drone and reports a grip pose, the smoothed point moves 30 % toward the grip. The drone sits at that point plus the grab offset, with both velocities zero. Without a holder or a pose nothing changes. |
| Controls.ReadGrips | src/controls.js:300-318 | Without a frame and a reference space the reading is left as it was. Starting from a consistent reading, a grip reported as pressed always comes with its position. |
| Controls.HeldAt | src/controls.js:444-467 | While held the drone is at the held point, and velocity and angular velocity are zeroed every frame. |
| Controls.ControllerGrab | src/controls.js:346-471 | Refused while a hand grab or resize is active, or while starting or shutting down. Afterwards at most one holder is active. |
| Controls.ControllerGrabKeepsPosition | src/controls.js:346-470 | In a live frame with one source per hand, a grip rising edge within 0.08 m on source i grabs the drone, whatever the sources before it do, provided no later source grabs. On that frame the drone does not jump: the smoothed point starts at the grip and the offset is taken from it. The drone is now held by that controller, is no longer landed, and has zero velocity and angular velocity. |
| Controls.ControllerHoldZeroes | src/controls.js:443-470 | On each frame where the holding controller keeps its grip pressed and reports a pose, and no other controller grabs, the drone stays held by it. The drone sits at the smoothed point plus the grab offset, and velocity and angular velocity are zeroed. |
| Controls.HandSlot | src/controls.js:511-596 | A pinch within 0.08 m takes the drone; the hand grab is level-triggered. Opening the grabbing hand lets go. A hand that neither takes, lets go nor holds changes nothing. Controller and resize flags are untouched. |
| Controls.HandFollow | src/controls.js:565-594 | The smoothed hand moves 30 % toward the pinch. The drone follows at the grab offset with zero velocity. |
| Controls.HandGrab | src/controls.js:502-598 | Refused while a controller grab or resize is active, while starting or shutting down, or without a frame (a missing reference space does not matter). Afterwards at most one holder is active. |
| Controls.HandGrabTakes | src/controls.js:510-596 | In a live frame, the first tracked hand that pinches within 0.08 m of a drone no hand holds takes it. The drone stays where it was, with zero velocity and angular velocity, and is no longer landed; later hand slots change nothing. |
| Homing.Turn | src/controls.js:66-69 | A turn step changes the yaw by at most 0.1·π. |
| Homing.TurnShrinksError | src/controls.js:66-84 | The wrapped heading error after a turn step is exactly 0.9 times the wrapped error before. |
| Homing.HorizontalMove | src/controls.js:25-39 | The horizontal step moves by min(speed, distance), so it never overshoots, and it keeps the height. |
| Homing.VerticalMove | src/controls.js:48-52 | The vertical step moves by min(speed, \|dy\|) toward the target without crossing it. |
| Homing.FinishHoming | src/controls.js:71-78 | Completion sets the yaw exactly to the target, clears auto-return, resets the phase to horizontal, and zeroes both velocities. |
| Homing.AutoReturnStep | src/controls.js:13-85 | Each phase advances (horizontal→vertical→rotation→done) when its residual is below 0.05. Otherwise it steps: the horizontal gap shrinks by min(speed, gap) at constant height, the height gap by min(speed, \|gap\|) without crossing the target, and the heading turns a tenth of the way. Auto-return ends only from the rotation phase. |
| Homing.HorizontalPhase | src/controls.js:16-40 | Hands over to the vertical phase exactly when the horizontal gap is under 0.05; otherwise it makes the horizontal move. |
| Homing.VerticalPhase | src/controls.js:41-53 | Hands over to the rotation phase exactly when the height gap is under 0.05; otherwise it makes the vertical move. |
| Homing.PhasesAdvanceInOrder | src/controls.js:16-85 | A step never moves the phase backwards or skips a phase. |
| Geometry.WrapAngle | src/controls.js:36-37 | The wrapped heading error lies in [−π, π] and equals the input there. |
| Geometry.WrapAngleCoterminal | src/controls.js:36-37 | Wrapping differs from the input by a whole number of turns. |
| Geometry.RotatedUpIsUnit | src/physics.js:17 | A plane normal, the up vector turned by the plane's rotation, has unit length under the rotation laws. |
| Planes.Lookup | src/vr.js:762-777 | A key is found iff it is in the table, with the stored data. |
| Planes.Prune | src/vr.js:734-746 | Keeps exactly the entries whose key is kept, with their data, and keeps keys unique. |
| Planes.Upsert | src/vr.js:762-781 | A new key is inserted with position, rotation, polygon and orientation. An existing one gets position, rotation and polygon, and keeps its orientation. Other keys are unchanged. |
| Planes.FanIndices | src/vr.js:810-813 | Fewer than 3 vertices give nothing. Otherwise there are exactly n−2 triangles (0, i, i+1), all indices < n. |
| Planes.BuildFan | src/vr.js:810-813 | The source's loop builds exactly the fan triangulation. |
| Planes.ShadowVertices | src/vr.js:798-807 | One vertex per polygon point. Undoing the 2 mm lift, the move and the rotation gives the local point (x, 0, z) back. |
| Planes.ShadowsAfter | src/vr.js:773-792 | Only the stored plane's mesh may change, and only when its polygon has at least 3 points. An existing mesh is never removed. |
| Planes.StorePlanes | src/vr.js:749-787 | The keys become the old ones plus those of planes with a pose. Every stored plane the frame reports without a pose, or does not report, keeps its data and mesh. |
| Planes.UnposedNotPosed | src/vr.js:750-751 | In a frame listing each plane once, a plane reported without a pose is not among the posed planes. |
| Planes.StoredPlaneHasPose | src/vr.js:750-781 | After storing, every frame plane with a pose holds that pose and polygon. |
| Planes.UpdatePlanes | src/vr.js:730-788 | With no detected planes nothing changes. Every entry absent from the frame is removed with its shadow. Every plane with a pose is present with its pose and polygon. A plane reported without a pose keeps its stored entry and shadow (or stays absent). Keys stay unique. |
| Planes.UnposedKept | src/vr.js:734-751 | A stored plane the frame reports without a pose survives the pruning and is skipped by the store, so its entry and shadow are unchanged. |
| Planes.LowestHorizontal | src/vr.js:890-904 | The result is the lowest y among horizontal planes, attained by one of them, and is absent iff there is none. |
| Planes.FloorHeight | src/vr.js:888-910 | The floor height is 0 without horizontal planes, and otherwise at most every horizontal plane's y. |
| Planes.PositionDrone | src/vr.js:863-946 | No-op once placed, or without session, drone or frame. Without a right grip pose the drone stays unplaced. Otherwise it is placed at the first right grip, facing the camera heading. |
| Planes.PlacedOnce | src/vr.js:871-873 | Once placed, later calls leave the state unchanged. |

## Left out

- Rendering, audio, haptics, UI text and `console.log`. The crash sound is modelled only as a counter (`crashSounds`).
- Session start-up, depth sensing, first-person camera handling and VR scene building. The seeded random generator of the training obstacles is not modelled either: its double-precision product exceeds 2^53.
- The start-up spin-up timer (`setInterval`/`setTimeout`). It is modelled only as `Sequences.SpinUpMultiplier`, min(elapsed/2000, 1). The start of lift it schedules is represented by `liftStartTime` being set.
- Quaternion slerps and attitude integration. This covers the free-fall tumble orientation, the grab rotation following, the return-to-hover rotation slerp and the levelling of the start-up attitude. Positions, velocities and yaw are modelled; these rotations are not.
- Floating-point rounding: all arithmetic is over `real`.
- `Drone.LoadDroneModel`: the rendered scales are not modelled. Each follower is drawn at scale 0.03 (src/drone.js:256) inside a group of scale 1, while `currentDroneScale` is stored as 0.03 (src/drone.js:276). `updateDroneScale` writes its value to the group's scale (src/drone.js:139), on top of the followers' 0.03. So the stored scale and the group's rendered scale differ until the first resize. The measured bounding box is a parameter, so the model cannot show the effect on it.
- `Controls.ControllerGrabKeepsPosition` and `Controls.ControllerHoldZeroes`: stated for frames with at most one input source per hand, as WebXR reports one controller or tracked hand per side.
- The per-frame copy of the drone's position into `dronePreviousPosition` (src/main.js:145-148). `previousPosition` is a parameter of the state that the model never updates; the release velocity is computed from whatever value it holds.
- Input-source identity. The source compares input-source and hand objects by reference. The model identifies the grabbing controller by handedness and the grabbing hand by its slot index.
- `Sequences.StartupSequence`: draws one set of reaction delays per call, not one per switched formation.
- Formation animation for the X-button formations: no animator for them appears in the source, so only the switch is modelled.
- `Controls.SizeChange`: a recorded initial distance of 0 leaves the scale unchanged. The source would divide by zero there.
- `Collision.CheckPlaneCollision`: the resolver uses the corrected torus response (`Collision.TorusPass`), not the as-written one of src/physics.js:280-289. The as-written pass is modelled separately as `Collision.TorusPassAsWritten`, and the Findings table compares the two.
- `Collision.ObstaclePass`: a torus goes to the corrected `Collision.TorusPass`, for the reason given in the previous line.
- `Homing.AutoReturnStep`: assumes the drone has a hover anchor, as every caller leaves it. The source copies into it unconditionally.
- `Planes.FloorHeight`: the source computes the floor height during placement but uses it only in a log line, so placement does not depend on it.
- `Planes.UpdatePlanes`: requires each frame plane to appear once, as a WebXR plane set guarantees. Plane identity is a number rather than an object reference.
- `Flight.Thrust` and `Flight.GamepadStep`: the speed bound holds under the `Lawful` laws of square root and rotation, and is stated as an implication on them.
- `Collision.PlanePushReachesRadius`: requires the rotated plane normal to be a unit vector rather than the whole `Lawful` law set; `Geometry.RotatedUpIsUnit` derives the former from the latter.
- The state setters of src/state.js: each is a single-field record update `s.(f := v)`, which by construction changes nothing else.
- When `checkPlaneCollision` and `updatePlanes` run within a frame: their callers are not part of this model. Each is modelled as a per-frame function.

## Findings

| source | as written | input that shows it | evidently intended | confidence | as-written member | corrected member |
|---|---|---|---|---|---|---|
| src/physics.js:280-289 | `pushDir.multiplyScalar(pushAmount)` scales the push direction in place. The anchor then moves by amount², and the velocity response uses a direction of length `amount`: an inward component keeps 1 − 1.5·amount² of itself. | Push 0.1 along a unit direction d, e.g. +x, with velocity −d, e.g. (−1, 0, 0). The velocity component along d becomes −0.985 instead of +0.5, and the anchor moves 0.01 while the position moves 0.1. | Move position and anchor by the same push and reflect an inward component to −0.5, as the cube and pole cases do. | not executed | Collision.TorusAsWrittenCounterexample | Collision.TorusCorrectedResponse |
