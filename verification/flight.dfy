/** Manual flight (`updateGamepadMovement`, src/main.js:523-782): the lift
    and descent autopilots with their stuck detection, the thumb-stick read,
    and the integration of velocity, position, yaw rate and visual tilt. */
module Flight {
  import opened Geometry
  import opened SimState
  import opened Input
  import opened Sequences

  // ---------------------------------------------------------------------
  // Gate (src/main.js:524-526)
  // ---------------------------------------------------------------------

  /** Manual flight is skipped without a session, a positioned drone, while
      the drone is held, resized, returning or auto-returning, and before
      start-up unless a lift or a descent is running. */
  predicate FlightSkipped(s: Sim) {
    || !s.xrSession || !s.droneLoaded || !s.dronePositioned
    || (!s.life.isStartupComplete && s.life.liftStartTime.None? && s.life.descentStartTime.None?)
    || s.grab.isGrabbedByController || s.grab.isGrabbedByHand || s.ret.isReturningToHover
    || s.auto.isAutoReturning || s.grab.bothGripsPressed
  }

  // ---------------------------------------------------------------------
  // Stuck detection (src/main.js:538-556, 622-640)
  // ---------------------------------------------------------------------

  /** Height change below which the drone counts as not moving. */
  const StuckTolerance: real := 0.005
  /** How long the drone must not move before it counts as stuck, in ms. */
  const StuckTimeout: int := 500
  /** Height error within which a lift or descent has arrived. */
  const HeightTolerance: real := 0.02

  /** The stuck detector's memory after a probe, and its verdict. */
  datatype StuckProbe = StuckProbe(lastY: Option<real>, since: Option<int>, stuck: bool)

  /** One probe of the detector shared by lift and descent: with collisions
      off it does nothing; the first probe records the height and the time;
      a probe that finds the drone moved restarts the clock; one that finds it
      still reports stuck once more than 500 ms have passed since the clock
      started (a missing start time reads as 0, as `null` does in the source). */
  function StuckCheck(enabled: bool, lastY: Option<real>, since: Option<int>, y: real, now: int): (r: StuckProbe)
    ensures r.stuck <==> enabled && lastY.Some? && Abs(y - lastY.value) < StuckTolerance
                         && now - since.GetOr(0) > StuckTimeout
    ensures !enabled ==> r.lastY == lastY && r.since == since
    ensures enabled && (lastY.None? || Abs(y - lastY.value) >= StuckTolerance) ==>
              r.lastY == Some(y) && r.since == Some(now)
    ensures lastY.Some? && Abs(y - lastY.value) < StuckTolerance ==> r.lastY == lastY && r.since == since
  {
    if !enabled then StuckProbe(lastY, since, false)
    else
      match lastY
      case None => StuckProbe(Some(y), Some(now), false)
      case Some(last) =>
        if Abs(y - last) < StuckTolerance then StuckProbe(lastY, since, now - since.GetOr(0) > StuckTimeout)
        else StuckProbe(Some(y), Some(now), false)
  }

  /** Starting from a fresh detector, the second probe reports stuck exactly
      when the drone stayed within 5 mm and more than half a second passed. */
  lemma StuckAfterHalfSecond(y1: real, now1: int, y2: real, now2: int)
    ensures var p1 := StuckCheck(true, None, None, y1, now1);
            var p2 := StuckCheck(true, p1.lastY, p1.since, y2, now2);
            !p1.stuck && (p2.stuck <==> Abs(y2 - y1) < StuckTolerance && now2 - now1 > StuckTimeout)
  {
  }

  // ---------------------------------------------------------------------
  // Lift and descent autopilots (src/main.js:534-672)
  // ---------------------------------------------------------------------

  /** `Math.min(Math.max(err * 2, 0.3), 1)`: the synthetic stick input. */
  function SyntheticInput(err: real): (u: real)
    ensures 0.3 <= u <= 1.0
    ensures err <= 0.15 ==> u == 0.3
    ensures 0.15 <= err <= 0.5 ==> u == 2.0 * err
    ensures err >= 0.5 ==> u == 1.0
  {
    Min(Max(err * 2.0, 0.3), 1.0)
  }

  /** The synthetic input is the doubled error clamped to [0.3, 1]. */
  lemma SyntheticInputIsClamp(err: real)
    ensures SyntheticInput(err) == Clamp(2.0 * err, 0.3, 1.0)
  {
  }

  /** The height the autopilots steer: the hover anchor's, else the drone's. */
  function CurrentY(s: Sim): real {
    if s.drone.basePosition.Some? then s.drone.basePosition.value.y else s.drone.position.y
  }

  /** A state together with the vertical input the autopilots produced. */
  datatype Controlled = Controlled(sim: Sim, inputY: real)

  /** A lift runs once its start time, start point and target are all set. */
  predicate LiftActive(s: Sim) {
    s.life.liftStartTime.Some? && s.life.liftStartPos.Some? && s.life.liftTargetHeight.Some?
  }

  /** Start-up finished: lift bookkeeping cleared, start-up complete, full power. */
  predicate LiftDone(l: Lifecycle) {
    && l.liftStartTime.None? && l.liftStartPos.None? && l.liftTargetHeight.None?
    && l.liftLastY.None? && l.liftStuckStartTime.None?
    && l.isStartupComplete && !l.isStartingUp && l.propellerSpeedMultiplier == 1.0
  }

  /** The anchor snapped onto the drone, if there is an anchor. */
  function AnchorAtDrone(d: DroneBody): (r: DroneBody)
    ensures r.position == d.position && r.rotation == d.rotation && r.physicsTilt == d.physicsTilt
    ensures r.basePosition.Some? <==> d.basePosition.Some?
    ensures r.basePosition.Some? ==> r.basePosition.value == d.position
  {
    if d.basePosition.Some? then d.(basePosition := Some(d.position)) else d
  }

  /** Ending the lift, whether it arrived or got stuck. */
  function CompleteLift(s: Sim): (r: Sim)
    ensures LiftDone(r.life)
    ensures r.life.descentStartTime == s.life.descentStartTime
    ensures r.life.decelerationStartTime == s.life.decelerationStartTime
    ensures r.drone == AnchorAtDrone(s.drone) && r.hoverTime == 0.0
    ensures r.motion == s.motion && r.grab == s.grab && r.tuning == s.tuning
  {
    s.(life := s.life.(liftStartTime := None, liftStartPos := None, liftTargetHeight := None,
                       liftLastY := None, liftStuckStartTime := None, isStartupComplete := true,
                       isStartingUp := false, propellerSpeedMultiplier := 1.0),
       drone := AnchorAtDrone(s.drone),
       hoverTime := 0.0)
  }

  /** The probe of the lift's stuck detector this frame. */
  function LiftProbe(s: Sim, now: int): StuckProbe {
    StuckCheck(s.isCollisionEnabled, s.life.liftLastY, s.life.liftStuckStartTime, CurrentY(s), now)
  }

  /** The lift block: a stuck drone or one within 2 cm of the target ends the
      lift with start-up complete; otherwise the autopilot pushes upwards
      with an input in [0.3, 1], also when the drone is above the target. */
  function LiftControl(s: Sim, now: int): (r: Controlled)
    ensures !LiftActive(s) ==> r == Controlled(s, 0.0)
    ensures LiftActive(s) ==>
              var err := s.life.liftTargetHeight.value - CurrentY(s);
              var p := LiftProbe(s, now);
              && ((p.stuck || Abs(err) <= HeightTolerance) ==>
                    LiftDone(r.sim.life) && r.inputY == 0.0 && r.sim.hoverTime == 0.0
                    && r.sim.drone == AnchorAtDrone(s.drone))
              && (!(p.stuck || Abs(err) <= HeightTolerance) ==>
                    && 0.3 <= r.inputY <= 1.0
                    && r.sim.life == s.life.(liftLastY := p.lastY, liftStuckStartTime := p.since)
                    && r.sim.drone == s.drone)
    ensures r.sim.motion == s.motion && r.sim.grab == s.grab && r.sim.tuning == s.tuning
    ensures r.sim.ret == s.ret && r.sim.auto == s.auto
    ensures r.sim.life.descentStartTime == s.life.descentStartTime
    ensures r.sim.life.decelerationStartTime == s.life.decelerationStartTime
    ensures r.sim.followers == s.followers
  {
    if !LiftActive(s) then Controlled(s, 0.0)
    else
      var err := s.life.liftTargetHeight.value - CurrentY(s);
      var p := LiftProbe(s, now);
      var probed := s.(life := s.life.(liftLastY := p.lastY, liftStuckStartTime := p.since));
      if p.stuck || Abs(err) <= HeightTolerance then Controlled(CompleteLift(probed), 0.0)
      else Controlled(probed, SyntheticInput(err))
  }

  /** A descent runs from its start until the deceleration takes over. */
  predicate DescentActive(s: Sim) {
    s.life.descentStartTime.Some? && s.life.decelerationStartTime.None?
  }

  /** Descent bookkeeping cleared and the deceleration started at `now`,
      landing at `height`. */
  predicate Landing(l: Lifecycle, now: int, height: real) {
    && l.descentStartTime.None? && l.descentLastY.None? && l.descentStuckStartTime.None?
    && l.decelerationStartTime == Some(now) && l.landingHeight == Some(height)
  }

  /** Handing over from the descent to the deceleration. */
  function BeginLanding(l: Lifecycle, now: int, height: real): (r: Lifecycle)
    ensures Landing(r, now, height)
    ensures r.liftStartTime == l.liftStartTime && r.isStartupComplete == l.isStartupComplete
    ensures r.propellerSpeedMultiplier == l.propellerSpeedMultiplier
  {
    l.(descentStartTime := None, descentLastY := None, descentStuckStartTime := None,
       decelerationStartTime := Some(now), landingHeight := Some(height))
  }

  /** The descent's attitude levelling: pitch and roll lose 10 % per frame. */
  function LevelForDescent(s: Sim): (r: Sim)
    ensures r.drone.rotation == Level(s.drone.rotation, 0.1)
    ensures r.followers == LevelFollowers(s.followers, 0.1)
    ensures r.drone.position == s.drone.position && r.drone.basePosition == s.drone.basePosition
    ensures r.life == s.life && r.motion == s.motion && r.grab == s.grab && r.tuning == s.tuning
  {
    s.(drone := s.drone.(rotation := Level(s.drone.rotation, 0.1)),
       followers := LevelFollowers(s.followers, 0.1))
  }

  /** The probe of the descent's stuck detector this frame. */
  function DescentProbe(s: Sim, now: int): StuckProbe {
    StuckCheck(s.isCollisionEnabled, s.life.descentLastY, s.life.descentStuckStartTime, CurrentY(s), now)
  }

  /** Stuck during the descent: land where the drone is and stop it. */
  function StuckLanding(s: Sim, now: int, height: real): (r: Sim)
    ensures Landing(r.life, now, height)
    ensures r.life.propellerSpeedMultiplier == s.life.propellerSpeedMultiplier
    ensures r.motion.velocity == Zero && r.drone == AnchorAtDrone(s.drone)
    ensures r.followers == s.followers && r.grab == s.grab && r.tuning == s.tuning
  {
    s.(life := BeginLanding(s.life, now, height),
       drone := AnchorAtDrone(s.drone),
       motion := s.motion.(velocity := Zero))
  }

  /** The descent block: it levels the attitude; a stuck drone starts the
      deceleration at its current height; otherwise the propellers run at
      full power and the autopilot pushes downwards with an input in
      [−1, −0.3] until the anchor is within 2 cm of the floor at height 0,
      where the deceleration starts with landing height 0. */
  function DescentControl(s: Sim, now: int, inputY: real): (r: Controlled)
    ensures !DescentActive(s) ==> r == Controlled(s, inputY)
    ensures DescentActive(s) ==>
              var y := CurrentY(s);
              var p := DescentProbe(s, now);
              && r.sim.drone.rotation == Level(s.drone.rotation, 0.1)
              && r.sim.followers == LevelFollowers(s.followers, 0.1)
              && (p.stuck ==> Landing(r.sim.life, now, y) && r.sim.motion.velocity == Zero
                              && r.inputY == inputY)
              && (!p.stuck && y > HeightTolerance ==>
                    && r.sim.life == s.life.(descentLastY := p.lastY, descentStuckStartTime := p.since,
                                             propellerSpeedMultiplier := 1.0)
                    && -1.0 <= r.inputY <= -0.3 && r.sim.motion == s.motion)
              && (!p.stuck && y <= HeightTolerance ==>
                    Landing(r.sim.life, now, 0.0) && r.sim.life.propellerSpeedMultiplier == 1.0
                    && r.inputY == inputY && r.sim.motion == s.motion)
    ensures r.sim.drone.position == s.drone.position
    ensures r.sim.life.liftStartTime == s.life.liftStartTime
    ensures r.sim.life.isStartupComplete == s.life.isStartupComplete
    ensures r.sim.grab == s.grab && r.sim.tuning == s.tuning && r.sim.ret == s.ret && r.sim.auto == s.auto
    ensures r.sim.motion.angularVelocity == s.motion.angularVelocity
  {
    if !DescentActive(s) then Controlled(s, inputY)
    else
      var y := CurrentY(s);
      var p := DescentProbe(s, now);
      var lev := LevelForDescent(s);
      var probed := lev.(life := lev.life.(descentLastY := p.lastY, descentStuckStartTime := p.since));
      if p.stuck then Controlled(StuckLanding(probed, now, y), inputY)
      else
        var powered := probed.(life := probed.life.(propellerSpeedMultiplier := 1.0));
        if y > HeightTolerance then Controlled(powered, -SyntheticInput(y))
        else Controlled(powered.(life := BeginLanding(powered.life, now, 0.0)), inputY)
  }

  // ---------------------------------------------------------------------
  // Thumb sticks (src/main.js:675-704)
  // ---------------------------------------------------------------------

  /** The stick inputs of one frame: strafe, climb, forward, turn, and the
      raw strafe and forward deflections that drive the tilt. */
  datatype Sticks = Sticks(x: real, y: real, z: real, turn: real, rawX: real, rawZ: real)

  /** A source whose gamepad has the four axes the sticks are read from. */
  predicate HasSticks(src: InputSource) {
    src.gamepad.Some? && |src.gamepad.value.axes| >= 4
  }

  /** A right-hand source whose horizontal stick is past the dead zone. */
  predicate RightStrafes(src: InputSource, dz: real) {
    HasSticks(src) && src.handedness == Some(Right) && Abs(src.gamepad.value.axes[2]) > dz
  }

  /** One source's sticks. The right stick strafes and climbs (pushing up
      reads negative), the left stick turns and flies forward; an axis inside
      the dead zone leaves the input as it was. */
  function StickSource(st: Sticks, src: InputSource, dz: real): (r: Sticks)
    ensures RightStrafes(src, dz) ==> r.x == src.gamepad.value.axes[2] && r.rawX == r.x
    ensures !RightStrafes(src, dz) ==> r.x == st.x && r.rawX == st.rawX
    ensures !HasSticks(src) ==> r == st
    ensures r.y == st.y || Abs(r.y) > dz
    ensures r.z == st.z || Abs(r.z) > dz
    ensures r.turn == st.turn || Abs(r.turn) > dz
    ensures st.rawZ == st.z ==> r.rawZ == r.z
    ensures SourceInUnit(src) && SticksInUnit(st) ==> SticksInUnit(r)
  {
    if !HasSticks(src) then st
    else
      var a := src.gamepad.value.axes;
      if src.handedness == Some(Right) then
        var st1 := if Abs(a[2]) > dz then st.(x := a[2], rawX := a[2]) else st;
        if Abs(a[3]) > dz then st1.(y := -a[3]) else st1
      else if src.handedness == Some(Left) then
        var st1 := if Abs(a[2]) > dz then st.(turn := -a[2]) else st;
        if Abs(a[3]) > dz then st1.(z := a[3], rawZ := a[3]) else st1
      else st
  }

  /** Every axis of the source's gamepad lies in [−1, 1]. */
  predicate SourceInUnit(src: InputSource) {
    src.gamepad.Some? ==> forall j :: 0 <= j < |src.gamepad.value.axes| ==> -1.0 <= src.gamepad.value.axes[j] <= 1.0
  }

  /** Every stick axis of every source lies in [−1, 1]. */
  predicate AxesInUnit(srcs: seq<InputSource>) {
    forall i :: 0 <= i < |srcs| ==> SourceInUnit(srcs[i])
  }

  /** All six stick inputs lie in [−1, 1]. */
  predicate SticksInUnit(st: Sticks) {
    && -1.0 <= st.x <= 1.0 && -1.0 <= st.y <= 1.0 && -1.0 <= st.z <= 1.0
    && -1.0 <= st.turn <= 1.0 && -1.0 <= st.rawX <= 1.0 && -1.0 <= st.rawZ <= 1.0
  }

  /** The scan over all input sources in order; a later source overrides an
      earlier one on the same axis. Each input either keeps its initial value
      or is a deflection past the dead zone, inputs stay in [−1, 1] when the
      axes do, and the raw deflections agree with strafe and forward. */
  function StickFold(st: Sticks, srcs: seq<InputSource>, dz: real): (r: Sticks)
    ensures r.x == st.x || Abs(r.x) > dz
    ensures r.y == st.y || Abs(r.y) > dz
    ensures r.z == st.z || Abs(r.z) > dz
    ensures r.turn == st.turn || Abs(r.turn) > dz
    ensures st.rawX == st.x ==> r.rawX == r.x
    ensures st.rawZ == st.z ==> r.rawZ == r.z
    ensures AxesInUnit(srcs) && SticksInUnit(st) ==> SticksInUnit(r)
    decreases |srcs|
  {
    if |srcs| == 0 then st
    else
      var front := srcs[..|srcs| - 1];
      var prev := StickFold(st, front, dz);
      assert AxesInUnit(srcs) ==> SourceInUnit(srcs[|srcs| - 1]);
      StickSource(prev, srcs[|srcs| - 1], dz)
  }

  /** The last right-hand source that strafes decides the strafe input. */
  lemma {:induction false} LastRightStickWins(st: Sticks, srcs: seq<InputSource>, dz: real, i: nat)
    requires i < |srcs| && RightStrafes(srcs[i], dz)
    requires forall k :: i < k < |srcs| ==> !RightStrafes(srcs[k], dz)
    ensures StickFold(st, srcs, dz).x == srcs[i].gamepad.value.axes[2]
    decreases |srcs|
  {
    if i < |srcs| - 1 {
      var front := srcs[..|srcs| - 1];
      assert front[i] == srcs[i];
      forall k | i < k < |front| ensures !RightStrafes(front[k], dz) {
        assert front[k] == srcs[k];
      }
      LastRightStickWins(st, front, dz, i);
    }
  }

  // ---------------------------------------------------------------------
  // Integration (src/main.js:706-781)
  // ---------------------------------------------------------------------

  /** A body-frame direction turned by the yaw, flattened and normalized. */
  function Heading(m: MathLib, yaw: real, local: Vec3): Vec3 {
    Normalize(m, Flatten(m.rotate(YawQuat(m, yaw), local)))
  }

  /** The speed limit: a velocity longer than `max` is rescaled to length
      `max` in the same direction; a slower one is kept. */
  function ClampSpeed(m: MathLib, v: Vec3, max: real): (r: Vec3)
    ensures Lawful(m) && max >= 0.0 ==> Norm2(r) <= max * max
    ensures Length(m, v) <= max ==> r == v
    ensures Length(m, v) > max ==> r == Scale(Normalize(m, v), max)
  {
    ClampSpeedBound(m, v, max);
    if Length(m, v) > max then Scale(Normalize(m, v), max) else v
  }

  lemma ClampSpeedBound(m: MathLib, v: Vec3, max: real)
    ensures Lawful(m) && max >= 0.0 && Length(m, v) > max ==> Norm2(Scale(Normalize(m, v), max)) <= max * max
    ensures Lawful(m) && max >= 0.0 && Length(m, v) <= max ==> Norm2(v) <= max * max
  {
    if Lawful(m) && max >= 0.0 {
      LengthBelow(m, v, max);
      if Length(m, v) > max {
        Norm2NonNegative(v);
        NormalizeUnit(m, v);
        Norm2Scale(Normalize(m, v), max);
      }
    }
  }

  /** Scaling by a factor in [0, 1] never lengthens a vector. */
  lemma ShrinkNorm(v: Vec3, f: real)
    requires 0.0 <= f <= 1.0
    ensures Norm2(Scale(v, f)) <= Norm2(v)
  {
    Norm2Scale(v, f);
    Norm2NonNegative(v);
    assert f * f <= 1.0 by { assert f * f <= f * 1.0; }
    assert f * f * Norm2(v) <= 1.0 * Norm2(v);
  }

  /** The speed limit: with a lawful library and friction in [0, 1], the
      velocity's length is at most the maximum speed. */
  ghost predicate SpeedCapped(m: MathLib, t: Tuning, v: Vec3) {
    Lawful(m) && t.maxSpeed >= 0.0 && 0.0 <= t.friction <= 1.0 ==> Norm2(v) <= t.maxSpeed * t.maxSpeed
  }

  /** The new velocity: climb, forward and strafe thrust, the speed limit,
      then friction. With friction in [0, 1] the result never exceeds the
      maximum speed. */
  function Thrust(m: MathLib, s: Sim, st: Sticks): (v: Vec3)
    ensures SpeedCapped(m, s.tuning, v)
  {
    var t := s.tuning;
    var v0 := s.motion.velocity;
    var climb := v0.(y := v0.y + st.y * t.acceleration);
    var forward := Scale(Heading(m, s.drone.rotation.y, Vec3(0.0, 0.0, -1.0)), st.z * t.acceleration);
    var strafe := Scale(Heading(m, s.drone.rotation.y, Vec3(-1.0, 0.0, 0.0)), st.x * t.acceleration);
    var raw := Add(Add(climb, forward), strafe);
    CappedWithFriction(m, raw, t.maxSpeed, t.friction);
    Scale(ClampSpeed(m, raw, t.maxSpeed), t.friction)
  }

  /** Clamping then applying a friction in [0, 1] keeps any velocity within the maximum speed. */
  lemma CappedWithFriction(m: MathLib, v: Vec3, max: real, fr: real)
    ensures Lawful(m) && max >= 0.0 && 0.0 <= fr <= 1.0 ==> Norm2(Scale(ClampSpeed(m, v, max), fr)) <= max * max
  {
    FrictionKeepsBound(m, ClampSpeed(m, v, max), fr, max);
  }

  lemma FrictionKeepsBound(m: MathLib, v: Vec3, fr: real, max: real)
    ensures 0.0 <= fr <= 1.0 && Norm2(v) <= max * max ==> Norm2(Scale(v, fr)) <= max * max
  {
    if 0.0 <= fr <= 1.0 {
      ShrinkNorm(v, fr);
    }
  }

  /** The yaw rate: stick input accelerates it, it is clamped to the maximum
      rate, then damped. It stays within the maximum rate, and without input
      a rate already inside the limit just decays by the friction factor. */
  function SpinStep(w: real, turn: real, acc: real, max: real, fr: real): (r: real)
    ensures max >= 0.0 && 0.0 <= fr <= 1.0 ==> Abs(r) <= max
    ensures turn == 0.0 && Abs(w) <= max ==> r == w * fr
  {
    var clamped := Max(-max, Min(max, w + turn * acc));
    SpinBound(clamped, max, fr);
    clamped * fr
  }

  lemma SpinBound(c: real, max: real, fr: real)
    ensures Abs(c) <= max && 0.0 <= fr <= 1.0 ==> Abs(c * fr) <= max
  {
    if Abs(c) <= max && 0.0 <= fr <= 1.0 {
      if c >= 0.0 {
        assert c * fr <= c * 1.0;
        assert c * fr >= 0.0;
      } else {
        assert (-c) * fr <= (-c) * 1.0;
        assert (-c) * fr >= 0.0;
      }
    }
  }

  /** The visual tilt eases 5 % of the way towards the stick-driven target:
      the remaining gap shrinks to 95 % on each axis. */
  function TiltStep(t: Option<Tilt>, rawX: real, rawZ: real, amount: real): (r: Tilt)
    ensures var t0 := t.GetOr(Tilt(0.0, 0.0));
            && r.x - (-rawZ * amount) == (t0.x - (-rawZ * amount)) * (1.0 - TiltSmoothing)
            && r.z - rawX * amount == (t0.z - rawX * amount) * (1.0 - TiltSmoothing)
  {
    var t0 := t.GetOr(Tilt(0.0, 0.0));
    var tx := -rawZ * amount;
    var tz := rawX * amount;
    Tilt(t0.x + (tx - t0.x) * TiltSmoothing, t0.z + (tz - t0.z) * TiltSmoothing)
  }

  /** Moving the drone with velocity `v`: during the deceleration the drone
      stops and is pinned to the landing height (0 if unset); during a lift
      or descent the drone itself moves and the anchor follows; otherwise
      only the hover anchor moves. A missing anchor starts at the drone. */
  function Place(s: Sim, v: Vec3): (r: Sim)
    ensures r.drone.basePosition.Some?
    ensures s.life.decelerationStartTime.Some? ==>
              var h := s.life.landingHeight.GetOr(0.0);
              && r.motion.velocity == Zero && r.drone.position.y == h && r.drone.basePosition.value.y == h
              && r.drone.position.x == s.drone.position.x && r.drone.position.z == s.drone.position.z
    ensures s.life.decelerationStartTime.None? && (s.life.liftStartTime.Some? || s.life.descentStartTime.Some?) ==>
              r.motion.velocity == v && r.drone.position == Add(s.drone.position, v)
              && r.drone.basePosition == Some(r.drone.position)
    ensures s.life.decelerationStartTime.None? && s.life.liftStartTime.None? && s.life.descentStartTime.None? ==>
              && r.motion.velocity == v && r.drone.position == s.drone.position
              && r.drone.basePosition == Some(Add(s.drone.basePosition.GetOr(s.drone.position), v))
    ensures r.life == s.life && r.grab == s.grab && r.tuning == s.tuning && r.ret == s.ret && r.auto == s.auto
    ensures r.drone.rotation == s.drone.rotation && r.drone.physicsTilt == s.drone.physicsTilt
    ensures r.motion.angularVelocity == s.motion.angularVelocity
  {
    var base := s.drone.basePosition.GetOr(s.drone.position);
    if s.life.decelerationStartTime.Some? then
      var h := s.life.landingHeight.GetOr(0.0);
      s.(motion := s.motion.(velocity := Zero),
         drone := s.drone.(position := s.drone.position.(y := h), basePosition := Some(base.(y := h))))
    else if s.life.liftStartTime.Some? || s.life.descentStartTime.Some? then
      var p := Add(s.drone.position, v);
      s.(motion := s.motion.(velocity := v), drone := s.drone.(position := p, basePosition := Some(p)))
    else
      s.(motion := s.motion.(velocity := v), drone := s.drone.(basePosition := Some(Add(base, v))))
  }

  /** Yaw rate, heading and tilt after the position update. */
  function Attitude(s: Sim, st: Sticks): (r: Sim)
    ensures r.motion.angularVelocity == SpinStep(s.motion.angularVelocity, st.turn, s.tuning.angularAcceleration,
                                                 s.tuning.maxAngularSpeed, s.tuning.angularFriction)
    ensures r.drone.rotation == s.drone.rotation.(y := s.drone.rotation.y + r.motion.angularVelocity)
    ensures r.drone.physicsTilt == Some(TiltStep(s.drone.physicsTilt, st.rawX, st.rawZ, s.tuning.tiltAmount))
    ensures r.drone.position == s.drone.position && r.drone.basePosition == s.drone.basePosition
    ensures r.motion.velocity == s.motion.velocity
    ensures r.life == s.life && r.grab == s.grab && r.tuning == s.tuning && r.ret == s.ret && r.auto == s.auto
  {
    var t := s.tuning;
    var w := SpinStep(s.motion.angularVelocity, st.turn, t.angularAcceleration, t.maxAngularSpeed, t.angularFriction);
    s.(motion := s.motion.(angularVelocity := w),
       drone := s.drone.(rotation := s.drone.rotation.(y := s.drone.rotation.y + w),
                         physicsTilt := Some(TiltStep(s.drone.physicsTilt, st.rawX, st.rawZ, t.tiltAmount))))
  }

  /** The sticks are read only when no lift, descent or deceleration runs. */
  predicate SticksLive(s: Sim) {
    s.life.liftStartTime.None? && s.life.descentStartTime.None? && s.life.decelerationStartTime.None?
  }

  /** The inputs of the frame after the autopilots ran. */
  function FrameSticks(s: Sim, f: Frame, inputY: real): (st: Sticks)
    ensures !SticksLive(s) ==> st == Sticks(0.0, inputY, 0.0, 0.0, 0.0, 0.0)
    ensures st.rawX == st.x && st.rawZ == st.z
    ensures SticksLive(s) && AxesInUnit(f.sources) && -1.0 <= inputY <= 1.0 ==> SticksInUnit(st)
  {
    var init := Sticks(0.0, inputY, 0.0, 0.0, 0.0, 0.0);
    if SticksLive(s) then StickFold(init, f.sources, s.tuning.stickDeadzone) else init
  }

  /** The bounds every integrated frame keeps: an anchor and a tilt exist,
      the speed and the yaw rate are within their limits (given a lawful
      library and friction factors in [0, 1]), and while the deceleration
      runs the drone stands still at its landing height. */
  ghost predicate FlightBounds(m: MathLib, t: Tuning, r: Sim) {
    && r.drone.basePosition.Some? && r.drone.physicsTilt.Some?
    && SpeedCapped(m, t, r.motion.velocity)
    && (t.maxAngularSpeed >= 0.0 && 0.0 <= t.angularFriction <= 1.0 ==>
          Abs(r.motion.angularVelocity) <= t.maxAngularSpeed)
    && (r.life.decelerationStartTime.Some? ==>
          r.motion.velocity == Zero
          && r.drone.position.y == r.life.landingHeight.GetOr(0.0)
          && r.drone.basePosition.value.y == r.drone.position.y)
  }

  /** Velocity, position and attitude integration for the given inputs. */
  function Integrate(m: MathLib, s: Sim, st: Sticks): (r: Sim)
    ensures FlightBounds(m, s.tuning, r)
    ensures r.life == s.life && r.grab == s.grab && r.tuning == s.tuning
    ensures r.ret == s.ret && r.auto == s.auto
  {
    IntegrateKeepsBounds(m, s, st);
    Attitude(Place(s, Thrust(m, s, st)), st)
  }

  lemma IntegrateKeepsBounds(m: MathLib, s: Sim, st: Sticks)
    ensures FlightBounds(m, s.tuning, Attitude(Place(s, Thrust(m, s, st)), st))
  {
    PlacedKeepsBounds(m, s, Thrust(m, s, st), st);
  }

  /** Placing any velocity within the maximum speed and turning keeps the flight bounds. */
  lemma PlacedKeepsBounds(m: MathLib, s: Sim, v: Vec3, st: Sticks)
    requires SpeedCapped(m, s.tuning, v)
    ensures FlightBounds(m, s.tuning, Attitude(Place(s, v), st))
  {
    PlaceKeepsBounds(m, s, v);
    AttitudeKeepsBounds(m, s.tuning, Place(s, v), st);
  }

  /** The part of the flight bounds that placing establishes: an anchor, the
      speed limit, and a standstill at the landing height while decelerating. */
  ghost predicate PlacedBounds(m: MathLib, t: Tuning, p: Sim) {
    && p.drone.basePosition.Some?
    && SpeedCapped(m, t, p.motion.velocity)
    && (p.life.decelerationStartTime.Some? ==>
          p.motion.velocity == Zero
          && p.drone.position.y == p.life.landingHeight.GetOr(0.0)
          && p.drone.basePosition.value.y == p.drone.position.y)
  }

  lemma PlaceKeepsBounds(m: MathLib, s: Sim, v: Vec3)
    requires SpeedCapped(m, s.tuning, v)
    ensures PlacedBounds(m, s.tuning, Place(s, v))
  {
    var p := Place(s, v);
    if s.life.decelerationStartTime.Some? {
      assert p.motion.velocity == Zero;
      StillIsCapped(m, s.tuning);
    } else {
      assert p.motion.velocity == v;
    }
  }

  lemma StillIsCapped(m: MathLib, t: Tuning)
    ensures SpeedCapped(m, t, Zero)
  {
    ZeroBelowSquare(t.maxSpeed);
  }

  lemma ZeroBelowSquare(x: real)
    ensures Norm2(Zero) <= x * x
  {
    assert Norm2(Zero) == 0.0;
    SquareNonNegative(x);
  }

  lemma SquareNonNegative(x: real)
    ensures x * x >= 0.0
  {
    if x < 0.0 {
      assert x * x == (-x) * (-x);
    }
  }

  /** Turning keeps what placing established and bounds the yaw rate. */
  lemma AttitudeKeepsBounds(m: MathLib, t: Tuning, p: Sim, st: Sticks)
    requires p.tuning == t && PlacedBounds(m, t, p)
    ensures FlightBounds(m, t, Attitude(p, st))
  {
  }

  /** `updateGamepadMovement`: one frame of manual flight. */
  function GamepadStep(m: MathLib, s: Sim, f: Frame, now: int): (r: Sim)
    ensures FlightSkipped(s) ==> r == s
    ensures !FlightSkipped(s) ==> FlightBounds(m, s.tuning, r)
    ensures r.grab == s.grab && r.tuning == s.tuning && r.ret == s.ret && r.auto == s.auto
  {
    if FlightSkipped(s) then s
    else
      var lifted := LiftControl(s, now);
      var descended := DescentControl(lifted.sim, now, lifted.inputY);
      Integrate(m, descended.sim, FrameSticks(descended.sim, f, descended.inputY))
  }
}
