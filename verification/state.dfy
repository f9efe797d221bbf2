/** The simulation state record of the drone simulator: every module variable
    the per-frame kernel reads or writes, its initial value and the constants
    it is tuned with (src/state.js). A setter of the source is a single-field
    update `s.(field := v)` of this record. */
module SimState {
  import opened Geometry

  /** Which controller a gamepad input source belongs to. */
  datatype Hand = Right | Left

  /** `Object3D.rotation` as Euler angles; `y` is the heading (yaw). */
  datatype Euler = Euler(x: real, y: real, z: real)

  /** `userData.physicsTilt`: the smoothed pitch/roll from stick input. */
  datatype Tilt = Tilt(x: real, z: real)

  /** The main drone group: its position, attitude and the hover anchor
      `userData.basePosition`, which the source creates lazily. */
  datatype DroneBody = DroneBody(
    position: Vec3,
    rotation: Euler,
    basePosition: Option<Vec3>,
    physicsTilt: Option<Tilt>)

  /** Per-follower parameters drawn lazily on the first formation tick. */
  datatype FlightParams = FlightParams(
    speedMultiplier: real,
    accelMultiplier: real,
    wobbleFreq: real,
    wobbleAmp: real,
    wobblePhase: real,
    driftX: real,
    driftZ: real,
    hasArrived: bool)

  /** One of the fifty small drones of the formation. */
  datatype Follower = Follower(
    position: Vec3,
    rotation: Euler,
    velocity: Vec3,
    inertia: real,
    reactionDelay: real,
    params: Option<FlightParams>)

  /** Start-up, lift, descent and deceleration bookkeeping. Timestamps are
      `Date.now()` milliseconds, `None` standing for the source's `null`. */
  datatype Lifecycle = Lifecycle(
    isStartupComplete: bool,
    isStartingUp: bool,
    propellerSpeedMultiplier: real,
    liftStartTime: Option<int>,
    liftStartPos: Option<Vec3>,
    liftTargetHeight: Option<real>,
    liftLastY: Option<real>,
    liftStuckStartTime: Option<int>,
    isShuttingDown: bool,
    descentStartTime: Option<int>,
    decelerationStartTime: Option<int>,
    descentLastY: Option<real>,
    descentStuckStartTime: Option<int>,
    landingHeight: Option<real>,
    hasLanded: bool)

  /** Manual-flight velocity and yaw rate, and the free-fall velocities used
      before start-up. */
  datatype Motion = Motion(
    velocity: Vec3,
    angularVelocity: real,
    physicsVelocity: Vec3,
    physicsAngularVelocity: Vec3)

  /** Flight parameters derived from the speed level and the drone's size. */
  datatype Tuning = Tuning(
    speedLevel: int,
    currentDroneScale: real,
    radiusHorizontal: real,
    radiusVertical: real,
    acceleration: real,
    maxSpeed: real,
    friction: real,
    angularAcceleration: real,
    maxAngularSpeed: real,
    angularFriction: real,
    tiltAmount: real,
    stickDeadzone: real)

  /** Grab and two-hand resize state. Controller input sources are identified
      by handedness and tracked hands by their slot (0 for `hand1`, 1 for `hand2`). */
  datatype GrabState = GrabState(
    isGrabbedByController: bool,
    grabbingSource: Option<Hand>,
    isGrabbedByHand: bool,
    grabbingHand: Option<nat>,
    grabOffset: Vec3,
    rightGripPressed: bool,
    leftGripPressed: bool,
    bothGripsPressed: bool,
    initialControllerDistance: real,
    initialDroneScale: real,
    smoothedHandPosition: Vec3,
    smoothedControllerPosition: Vec3)

  /** The eased return to hover after a release. */
  datatype ReturnState = ReturnState(
    isReturningToHover: bool,
    returnProgress: real,
    returnStartPosition: Vec3)

  datatype AutoPhase = Horizontal | Vertical | Rotation

  /** The B-button auto-return machine. */
  datatype AutoReturn = AutoReturn(
    isAutoReturning: bool,
    target: Vec3,
    speed: real,
    phase: AutoPhase)

  /** A-button and X-button formation state and the target tables. */
  datatype Formation = Formation(
    index: int,
    animating: bool,
    startTime: Option<int>,
    indexX: int,
    animatingX: bool,
    startTimeX: Option<int>,
    animationTimeX: real,
    originalPositions: seq<Vec3>,
    kPositions: seq<Vec3>)

  /** Button memories used for rising-edge detection. */
  datatype Buttons = Buttons(
    rightA: bool,
    rightB: bool,
    leftX: bool,
    leftXForFormation: bool)

  /** A point of a detected plane's polygon, in the plane's local XZ frame. */
  datatype Point2 = Point2(x: real, z: real)

  datatype PlaneOrientation = HorizontalPlane | VerticalPlane

  /** What the simulator stores per detected plane. */
  datatype PlaneData = PlaneData(
    position: Vec3,
    rotation: Quat,
    polygon: seq<Point2>,
    orientation: PlaneOrientation)

  /** One entry of the detected-plane map; `id` stands for the `XRPlane` key. */
  datatype PlaneEntry = PlaneEntry(id: nat, data: PlaneData)

  /** The shadow-receiving mesh of a horizontal plane: world vertices and the
      triangle index list. */
  datatype ShadowMesh = ShadowMesh(vertices: seq<Vec3>, indices: seq<nat>)

  datatype Shape =
    | Cube(size: real)
    | Pole(radius: real, height: real)
    | Torus(outerRadius: real, tubeRadius: real)
    | OtherShape

  /** A VR training obstacle. */
  datatype Obstacle = Obstacle(isObstacle: bool, position: Vec3, rotation: Quat, shape: Shape)

  /** The whole simulation state. `droneLoaded` stands for `state.drone !== null`
      and `droneSoundReady` for `state.droneSound !== null`; `crashSounds` counts
      the crash-sound events. */
  datatype Sim = Sim(
    xrSession: bool,
    droneLoaded: bool,
    dronePositioned: bool,
    isMrMode: bool,
    isFpvMode: bool,
    droneSoundReady: bool,
    drone: DroneBody,
    followers: seq<Follower>,
    life: Lifecycle,
    motion: Motion,
    tuning: Tuning,
    grab: GrabState,
    ret: ReturnState,
    auto: AutoReturn,
    form: Formation,
    buttons: Buttons,
    planes: seq<PlaneEntry>,
    shadows: map<nat, ShadowMesh>,
    obstacles: seq<Obstacle>,
    isColliding: bool,
    isCollisionEnabled: bool,
    crashSounds: nat,
    hoverTime: real,
    previousPosition: Vec3)

  /** The fixed frame step every per-frame integrator uses, in seconds. */
  const FrameDt: real := 0.016

  const BaseAcceleration: real := 0.001
  const BaseMaxSpeed: real := 0.015
  const BaseFriction: real := 0.965
  const BaseAngularAcceleration: real := 0.0015
  const BaseMaxAngularSpeed: real := 0.06
  const BaseAngularFriction: real := 0.965
  const TiltSmoothing: real := 0.05
  const HandSmoothingFactor: real := 0.3
  const ControllerSmoothingFactor: real := 0.3
  const ReturnDuration: real := 1.0
  const ReturnSpeed: real := 1.0 / ReturnDuration
  const InitialScale: real := 0.03

  /** Before start-up: nothing is running, nothing is scheduled and the drone
      has not landed. */
  predicate PreStartupIdle(l: Lifecycle) {
    && !l.isStartupComplete && !l.isStartingUp && !l.isShuttingDown && !l.hasLanded
    && l.propellerSpeedMultiplier == 0.0
    && l.liftStartTime.None? && l.descentStartTime.None? && l.decelerationStartTime.None?
  }

  /** At most one of controller grab, hand grab and two-grip resize is active. */
  predicate SingleHolder(g: GrabState) {
    && !(g.isGrabbedByController && g.isGrabbedByHand)
    && !(g.isGrabbedByController && g.bothGripsPressed)
    && !(g.isGrabbedByHand && g.bothGripsPressed)
  }

  /** Nobody holds or resizes the drone. */
  predicate NoHolder(g: GrabState) {
    !g.isGrabbedByController && !g.isGrabbedByHand && !g.bothGripsPressed
  }

  /** Tuning derived from the base constants, before any size or speed change. */
  predicate BaseTuning(t: Tuning) {
    && t.acceleration == BaseAcceleration && t.maxSpeed == BaseMaxSpeed
    && t.friction == BaseFriction && t.angularFriction == BaseAngularFriction
    && t.friction == t.angularFriction
  }

  const InitialLifecycle: Lifecycle :=
    Lifecycle(false, false, 0.0, None, None, None, None, None,
              false, None, None, None, None, None, false)

  const InitialGrab: GrabState :=
    GrabState(false, None, false, None, Zero, false, false, false, 0.0, InitialScale, Zero, Zero)

  const InitialTuning: Tuning :=
    Tuning(10, InitialScale, 0.15, 0.05, BaseAcceleration, BaseMaxSpeed, BaseFriction,
           BaseAngularAcceleration, BaseMaxAngularSpeed, BaseAngularFriction, 0.6, 0.15)

  /** The module variables as the source initialises them, before any session. */
  function Initial(): (s: Sim)
    ensures PreStartupIdle(s.life)
    ensures NoHolder(s.grab) && s.grab.grabbingSource.None? && s.grab.grabbingHand.None?
    ensures BaseTuning(s.tuning)
    ensures !s.ret.isReturningToHover && !s.auto.isAutoReturning && !s.isColliding
    ensures s.isCollisionEnabled && !s.dronePositioned
  {
    Sim(
      false, false, false, false, false, false,
      DroneBody(Zero, Euler(0.0, 0.0, 0.0), None, None),
      [],
      InitialLifecycle,
      Motion(Zero, 0.0, Zero, Zero),
      InitialTuning,
      InitialGrab,
      ReturnState(false, 0.0, Zero),
      AutoReturn(false, Zero, 0.02, Horizontal),
      Formation(0, false, None, 0, false, None, 0.0, [], []),
      Buttons(false, false, false, false),
      [], map[], [],
      false, true, 0, 0.0, Zero)
  }
}
