/** Free fall before start-up, the hover animation and the eased return to
    hover after a release (src/physics.js:308-508). Attitude slerps are not
    modelled; every positional and velocity update is. */
module Physics {
  import opened Geometry
  import opened SimState
  import opened Collision

  // ---------------------------------------------------------------------
  // Landing height (src/physics.js:318-354)
  // ---------------------------------------------------------------------

  /** Height at which the drone rests on a plane: its origin plus the
      vertical radius. */
  function RestHeight(plane: PlaneData, radV: real): real {
    plane.position.y + radV
  }

  /** A plane the falling drone may land on: roughly horizontal
      (|normal.y| >= 0.7), under the drone's footprint, and no more than 1 cm
      above the drone's resting height. */
  predicate Supports(m: MathLib, plane: PlaneData, pos: Vec3, radV: real) {
    var n := m.rotate(plane.rotation, Up);
    var local := m.rotate(Invert(plane.rotation), Sub(pos, plane.position));
    && !(Abs(n.y) < 0.7)
    && Inside(plane.polygon, Point2(local.x, local.z))
    && RestHeight(plane, radV) <= pos.y + 0.01
  }

  /** The scan over the detected planes, keeping the highest supporting rest
      height above the current candidate. */
  function LandingFold(m: MathLib, planes: seq<PlaneEntry>, pos: Vec3, radV: real, current: real): (r: real)
    ensures r >= current
    ensures forall i :: 0 <= i < |planes| && Supports(m, planes[i].data, pos, radV) ==>
              RestHeight(planes[i].data, radV) <= r
    ensures r == current || exists i :: 0 <= i < |planes| && Supports(m, planes[i].data, pos, radV)
                                        && RestHeight(planes[i].data, radV) == r
    decreases |planes|
  {
    if |planes| == 0 then current
    else
      var p := planes[0].data;
      var next := if Supports(m, p, pos, radV) && RestHeight(p, radV) > current then RestHeight(p, radV) else current;
      var r := LandingFold(m, planes[1..], pos, radV, next);
      assert forall i :: 1 <= i < |planes| ==> planes[i] == planes[1..][i - 1];
      r
  }

  /** The landing height: the floor (height 0) plus the vertical radius, or
      the highest supporting plane's rest height if that is higher. */
  function LandingHeight(m: MathLib, s: Sim): (r: real)
    ensures r >= s.tuning.radiusVertical
    ensures forall i :: 0 <= i < |s.planes| && Supports(m, s.planes[i].data, s.drone.position, s.tuning.radiusVertical) ==>
              RestHeight(s.planes[i].data, s.tuning.radiusVertical) <= r
    ensures r > s.tuning.radiusVertical ==> r <= s.drone.position.y + 0.01
  {
    LandingFold(m, s.planes, s.drone.position, s.tuning.radiusVertical, 0.0 + s.tuning.radiusVertical)
  }

  // ---------------------------------------------------------------------
  // Free fall (src/physics.js:308-447)
  // ---------------------------------------------------------------------

  const Gravity: real := -9.8

  /** Whether free fall is suspended: no drone or not placed, started or
      starting, a lift/descent/deceleration scheduled, propellers turning,
      held, returning, or already landed. */
  predicate FreeFallSuspended(s: Sim) {
    || !s.droneLoaded || !s.dronePositioned
    || s.life.isStartupComplete || s.life.isStartingUp
    || s.life.liftStartTime.Some? || s.life.descentStartTime.Some? || s.life.decelerationStartTime.Some?
    || s.life.propellerSpeedMultiplier > 0.0
    || s.grab.isGrabbedByController || s.grab.isGrabbedByHand
    || s.ret.isReturningToHover || s.auto.isAutoReturning
    || s.life.hasLanded
  }

  /** Whether the drone is resting: within 1 cm of the landing height and
      slower than 5 cm/s. */
  predicate Settled(m: MathLib, s: Sim, land: real) {
    Abs(s.drone.position.y - land) < 0.01 && Length(m, s.motion.physicsVelocity) < 0.05
  }

  /** The vertical velocity after one frame of gravity. */
  function FallVelocity(s: Sim): Vec3 {
    s.motion.physicsVelocity.(y := s.motion.physicsVelocity.y + Gravity * FrameDt)
  }

  /** One free-fall frame. `r1`, `r2` are the two random draws of the tumble
      kick a bounce gives. */
  function PreStartupStep(m: MathLib, s: Sim, r1: real, r2: real): (r: Sim)
    ensures FreeFallSuspended(s) ==> r == s
    ensures !FreeFallSuspended(s) ==> r.drone.position.y >= LandingHeight(m, s)
    ensures !FreeFallSuspended(s) && Settled(m, s, LandingHeight(m, s)) ==>
              && r.drone.position.y == LandingHeight(m, s)
              && r.motion.physicsVelocity == Zero && r.motion.physicsAngularVelocity == Zero
    ensures !FreeFallSuspended(s) && !Settled(m, s, LandingHeight(m, s))
              && s.drone.position.y + FallVelocity(s).y * FrameDt <= LandingHeight(m, s) ==>
              && r.drone.position.y == LandingHeight(m, s)
              && (FallVelocity(s).y < 0.0 ==> r.motion.physicsVelocity.y == -0.5 * FallVelocity(s).y)
              && (FallVelocity(s).y >= 0.0 ==> r.motion.physicsVelocity.y == FallVelocity(s).y)
    ensures !FreeFallSuspended(s) && !Settled(m, s, LandingHeight(m, s))
              && s.drone.position.y + FallVelocity(s).y * FrameDt > LandingHeight(m, s) ==>
              && r.drone.position == Add(s.drone.position, Scale(FallVelocity(s), FrameDt))
              && r.motion.physicsVelocity == FallVelocity(s)
              && !r.isColliding
    ensures r.crashSounds <= s.crashSounds + 1
    ensures r.crashSounds == s.crashSounds + 1 ==> !s.isColliding && r.isColliding
    ensures r == s.(drone := s.drone.(position := r.drone.position),
                    motion := s.motion.(physicsVelocity := r.motion.physicsVelocity,
                                        physicsAngularVelocity := r.motion.physicsAngularVelocity),
                    isColliding := r.isColliding, crashSounds := r.crashSounds)
  {
    if FreeFallSuspended(s) then s
    else
      var land := LandingHeight(m, s);
      if Settled(m, s, land) then
        s.(drone := s.drone.(position := s.drone.position.(y := land)),
           motion := s.motion.(physicsVelocity := Zero, physicsAngularVelocity := Zero))
      else
        var v := FallVelocity(s);
        var pos := Add(s.drone.position, Scale(v, FrameDt));
        var ang := s.motion.physicsAngularVelocity;
        var landed := LandStep(s, pos, v, ang, land, r1, r2);
        landed.(motion := landed.motion.(physicsAngularVelocity := DampSpin(m, landed.motion.physicsAngularVelocity)))
  }

  /** The ground test after integration: a drone at or below the landing
      height is put on it, a downward velocity bounces at half speed with a
      random tumble (the crash sound plays for an impact over 0.5 m/s),
      horizontal and angular velocities lose 30 %; otherwise, and after a
      non-downward contact, the collision flag is cleared. */
  function LandStep(s: Sim, pos: Vec3, v: Vec3, ang: Vec3, land: real, r1: real, r2: real): (r: Sim)
    ensures pos.y <= land ==> r.drone.position == pos.(y := land)
    ensures pos.y <= land && v.y < 0.0 ==> r.motion.physicsVelocity.y == -v.y * 0.5
    ensures pos.y <= land && v.y >= 0.0 ==> r.motion.physicsVelocity.y == v.y && !r.isColliding
    ensures pos.y <= land ==> r.motion.physicsVelocity.x == v.x * 0.7 && r.motion.physicsVelocity.z == v.z * 0.7
    ensures pos.y > land ==> r.drone.position == pos && r.motion.physicsVelocity == v
                             && r.motion.physicsAngularVelocity == ang && !r.isColliding
    ensures r.crashSounds == s.crashSounds + (if pos.y <= land && v.y < 0.0 && -v.y > 0.5 && !s.isColliding then 1 else 0)
    ensures r == s.(drone := s.drone.(position := r.drone.position),
                    motion := s.motion.(physicsVelocity := r.motion.physicsVelocity,
                                        physicsAngularVelocity := r.motion.physicsAngularVelocity),
                    isColliding := r.isColliding, crashSounds := r.crashSounds)
  {
    if pos.y <= land then
      var impact := Abs(v.y);
      var bounced := v.y < 0.0;
      var vy := if bounced then -v.y * 0.5 else v.y;
      var kicked := if bounced then Vec3(ang.x + (r1 - 0.5) * 1.0, ang.y, ang.z + (r2 - 0.5) * 1.0) else ang;
      var crash := bounced && impact > 0.5 && !s.isColliding;
      var colliding := if bounced then (if crash then true else s.isColliding) else false;
      s.(drone := s.drone.(position := pos.(y := land)),
         motion := s.motion.(physicsVelocity := Vec3(v.x * 0.7, vy, v.z * 0.7),
                             physicsAngularVelocity := Scale(kicked, 0.7)),
         isColliding := colliding,
         crashSounds := if crash then s.crashSounds + 1 else s.crashSounds)
    else
      s.(drone := s.drone.(position := pos),
         motion := s.motion.(physicsVelocity := v, physicsAngularVelocity := ang),
         isColliding := false)
  }

  /** Spin decay: a spin faster than 0.01 rad/s loses 15 % per frame; a slower
      one stops. */
  function DampSpin(m: MathLib, ang: Vec3): (r: Vec3)
    ensures Length(m, ang) > 0.01 ==> r == Scale(ang, 0.85)
    ensures Length(m, ang) <= 0.01 ==> r == Zero
    ensures Norm2(r) <= Norm2(ang)
  {
    Norm2Scale(ang, 0.85);
    Norm2NonNegative(ang);
    if Length(m, ang) > 0.01 then Scale(ang, 0.85) else Zero
  }

  // ---------------------------------------------------------------------
  // Hover animation (src/physics.js:450-484)
  // ---------------------------------------------------------------------

  /** Whether the hover animation runs this frame. */
  predicate Hovering(s: Sim) {
    && s.droneLoaded && s.dronePositioned && s.life.isStartupComplete
    && !s.grab.isGrabbedByController && !s.grab.isGrabbedByHand
    && !s.ret.isReturningToHover && !s.auto.isAutoReturning
  }

  /** The hover amplitude multiplier `sqrt(scale / 0.3)` clamped to [0.3, 2.0]. */
  function HoverMultiplier(m: MathLib, scale: real): (r: real)
    ensures 0.3 <= r <= 2.0
  {
    Clamp(m.sqrt(scale / 0.3), 0.3, 2.0)
  }

  /** The hover offset at time `t`. */
  function HoverOffset(m: MathLib, t: real, k: real): Vec3 {
    Vec3(m.sin(t * 0.8) * 0.008 * k, m.sin(t * 1.2) * 0.006 * k, m.cos(t * 0.9) * 0.004 * k)
  }

  /** `|sin(a) * c * k| <= c * 2` for the clamped multiplier. */
  lemma WaveBound(w: real, c: real, k: real)
    requires -1.0 <= w <= 1.0 && c >= 0.0 && 0.3 <= k <= 2.0
    ensures -(c * 2.0) <= w * c * k <= c * 2.0
  {
    assert -1.0 * (c * k) <= w * (c * k) <= 1.0 * (c * k);
    assert c * k <= c * 2.0;
  }

  /** Under lawful primitives the offset stays within 16, 12 and 8 mm per axis. */
  lemma HoverOffsetBound(m: MathLib, t: real, k: real)
    requires 0.3 <= k <= 2.0
    ensures Lawful(m) ==>
              var off := HoverOffset(m, t, k);
              && Abs(off.x) <= 0.016 && Abs(off.y) <= 0.012 && Abs(off.z) <= 0.008
  {
    if Lawful(m) {
      var off := HoverOffset(m, t, k);
      var a := m.sin(t * 0.8);
      assert off.x == a * 0.008 * k;
      WaveBound(a, 0.008, k);
      assert -0.016 <= off.x <= 0.016;
      var b := m.sin(t * 1.2);
      assert off.y == b * 0.006 * k;
      WaveBound(b, 0.006, k);
      assert -0.012 <= off.y <= 0.012;
      var c := m.cos(t * 0.9);
      assert off.z == c * 0.004 * k;
      WaveBound(c, 0.004, k);
      assert -0.008 <= off.z <= 0.008;
    }
  }

  /** One hover frame: the clock advances by one frame, the anchor is created
      from the position if missing, and the drone is placed at the anchor
      plus an offset of at most 16 mm, 12 mm and 8 mm on x, y and z. */
  function HoverStep(m: MathLib, s: Sim): (r: Sim)
    ensures !Hovering(s) ==> r == s
    ensures Hovering(s) ==>
              && r.hoverTime == s.hoverTime + FrameDt
              && r.drone.basePosition == Some(s.drone.basePosition.GetOr(s.drone.position))
              && r.drone.physicsTilt == Some(s.drone.physicsTilt.GetOr(Tilt(0.0, 0.0)))
    ensures Hovering(s) && Lawful(m) ==>
              var base := s.drone.basePosition.GetOr(s.drone.position);
              && Abs(r.drone.position.x - base.x) <= 0.016
              && Abs(r.drone.position.y - base.y) <= 0.012
              && Abs(r.drone.position.z - base.z) <= 0.008
    ensures r.life == s.life && r.motion == s.motion && r.grab == s.grab
  {
    if !Hovering(s) then s
    else
      var t := s.hoverTime + FrameDt;
      var base := s.drone.basePosition.GetOr(s.drone.position);
      var k := HoverMultiplier(m, s.tuning.currentDroneScale);
      var off := HoverOffset(m, t, k);
      var tilt := s.drone.physicsTilt.GetOr(Tilt(0.0, 0.0));
      HoverOffsetBound(m, t, k);
      s.(hoverTime := t,
         drone := s.drone.(position := Add(base, off),
                           basePosition := Some(base),
                           physicsTilt := Some(tilt),
                           rotation := s.drone.rotation.(x := tilt.x + m.sin(t * 0.7) * 0.008 * k,
                                                         z := tilt.z + m.cos(t * 0.85) * 0.008 * k)))
  }

  // ---------------------------------------------------------------------
  // Return to hover (src/physics.js:487-508)
  // ---------------------------------------------------------------------

  /** The cubic ease-out `1 - (1 - p)^3`: from 0 at p = 0 to 1 at p = 1,
      staying in [0, 1] in between. */
  function Ease(p: real): (e: real)
    ensures p == 0.0 ==> e == 0.0
    ensures p == 1.0 ==> e == 1.0
    ensures 0.0 <= p <= 1.0 ==> 0.0 <= e <= 1.0
  {
    var q := 1.0 - p;
    if 0.0 <= p <= 1.0 then
      CubeInUnit(q);
      1.0 - q * q * q
    else 1.0 - q * q * q
  }

  lemma CubeInUnit(q: real)
    requires 0.0 <= q <= 1.0
    ensures 0.0 <= q * q * q <= 1.0
  {
    assert 0.0 <= q * q <= 1.0 by { assert q * q <= q * 1.0; }
    assert q * q * q <= q * q * 1.0;
  }

  /** The ease is non-decreasing on [0, 1]. */
  lemma EaseMonotone(p: real, p2: real)
    requires 0.0 <= p <= p2 <= 1.0
    ensures Ease(p) <= Ease(p2)
  {
    var q := 1.0 - p;
    var q2 := 1.0 - p2;
    assert 0.0 <= q2 <= q;
    assert q2 * q2 <= q * q by { assert q2 * q2 <= q2 * q; assert q2 * q <= q * q; }
    assert q2 * q2 * q2 <= q * q * q by {
      assert q2 * q2 * q2 <= q2 * q2 * q;
      assert q2 * q2 * q <= q * q * q;
    }
  }

  /** One return frame: progress grows by `returnSpeed * 0.016`, is capped at
      1 and clears the flag there; the anchor follows the position and the
      flight velocities are zeroed. */
  function ReturnToHoverStep(s: Sim): (r: Sim)
    ensures !s.ret.isReturningToHover || !s.droneLoaded || !s.dronePositioned ==> r == s
    ensures s.ret.isReturningToHover && s.droneLoaded && s.dronePositioned ==>
              && r.ret.returnProgress == Min(s.ret.returnProgress + ReturnSpeed * FrameDt, 1.0)
              && (r.ret.isReturningToHover <==> s.ret.returnProgress + ReturnSpeed * FrameDt < 1.0)
              && r.ret.returnProgress <= 1.0
              && r.drone.basePosition == Some(s.drone.position)
              && r.motion.velocity == Zero && r.motion.angularVelocity == 0.0
              && r.drone.position == s.drone.position
              && r.ret.returnStartPosition == s.ret.returnStartPosition
  {
    if !s.ret.isReturningToHover || !s.droneLoaded || !s.dronePositioned then s
    else
      var p := s.ret.returnProgress + ReturnSpeed * FrameDt;
      var done := p >= 1.0;
      s.(ret := s.ret.(returnProgress := if done then 1.0 else p, isReturningToHover := !done),
         drone := s.drone.(basePosition := Some(s.drone.position)),
         motion := s.motion.(velocity := Zero, angularVelocity := 0.0))
  }

  /** `n` consecutive return frames. */
  function ReturnFrames(s: Sim, n: nat): Sim
    decreases n
  {
    if n == 0 then s else ReturnFrames(ReturnToHoverStep(s), n - 1)
  }

  lemma {:induction false} ReturnProgressLinear(s: Sim, n: nat)
    requires s.ret.isReturningToHover && s.droneLoaded && s.dronePositioned
    requires s.ret.returnProgress == 0.0 && n <= 62
    ensures var r := ReturnFrames(s, n);
            && r.ret.isReturningToHover && r.ret.returnProgress == n as real * FrameDt
            && r.droneLoaded && r.dronePositioned
  {
    if n > 0 {
      ReturnProgressLinear(s, n - 1);
      ReturnFramesSplit(s, n - 1);
    }
  }

  lemma {:induction false} ReturnFramesSplit(s: Sim, n: nat)
    ensures ReturnFrames(s, n + 1) == ReturnToHoverStep(ReturnFrames(s, n))
    decreases n
  {
    if n > 0 {
      ReturnFramesSplit(ReturnToHoverStep(s), n - 1);
    }
  }

  /** With return speed 1/1.0 the return started at progress 0 is still
      running after 62 frames and has completed, at progress exactly 1, after 63. */
  lemma ReturnTakes63Frames(s: Sim)
    requires s.ret.isReturningToHover && s.droneLoaded && s.dronePositioned
    requires s.ret.returnProgress == 0.0
    ensures ReturnFrames(s, 62).ret.isReturningToHover
    ensures !ReturnFrames(s, 63).ret.isReturningToHover
    ensures ReturnFrames(s, 63).ret.returnProgress == 1.0
  {
    ReturnProgressLinear(s, 62);
    ReturnFramesSplit(s, 62);
  }
}
