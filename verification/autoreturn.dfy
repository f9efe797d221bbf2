/** The B-button auto-return (`updateAutoReturn`, src/controls.js:13-85): fly
    horizontally above the target, then to its height, then turn to face the
    way the camera looks. */
module Homing {
  import opened Geometry
  import opened SimState
  import opened Input

  /** A phase ends once its residual is below this. */
  const PhaseTolerance: real := 0.05
  /** Fraction of the heading error corrected per frame. */
  const TurnGain: real := 0.1

  /** The auto-return runs only for a placed drone. */
  predicate Homing(s: Sim) {
    s.auto.isAutoReturning && s.droneLoaded && s.dronePositioned
  }

  /** From the drone to the point above or below the target at the drone's height. */
  function HorizontalGap(s: Sim): (g: Vec3)
    ensures g.y == 0.0
  {
    Sub(Vec3(s.auto.target.x, s.drone.position.y, s.auto.target.z), s.drone.position)
  }

  /** One frame of turning towards `target`: the heading error, wrapped into
      [−π, π], is corrected by 10 %. */
  function Turn(yaw: real, target: real): (r: real)
    ensures -Pi * TurnGain <= r - yaw <= Pi * TurnGain
  {
    yaw + WrapAngle(target - yaw) * TurnGain
  }

  // ---------------------------------------------------------------------
  // Heading convergence
  // ---------------------------------------------------------------------

  lemma AtLeastOne(n: int, c: real)
    requires n >= 1 && c >= 0.0
    ensures (n as real) * c >= c
  {
    assert (n as real) * c - c == ((n - 1) as real) * c;
  }

  /** Shifting an angle of at least −0.9π by a positive number of turns leaves [−π, π]. */
  lemma ShiftedAbove(x: real, n: int)
    requires n >= 1 && x >= -0.9 * Pi
    ensures x + 2.0 * Pi * (n as real) > Pi
  {
    AtLeastOne(n, 2.0 * Pi);
    assert 2.0 * Pi * (n as real) == (n as real) * (2.0 * Pi);
  }

  /** An angle within 0.9π of zero is the only representative of its class in [−π, π]. */
  lemma UniqueRepresentative(x: real, n: int)
    requires -0.9 * Pi <= x <= 0.9 * Pi
    ensures -Pi <= x + 2.0 * Pi * (n as real) <= Pi ==> n == 0
  {
    if n >= 1 {
      ShiftedAbove(x, n);
    } else if n <= -1 {
      ShiftedAbove(-x, -n);
      assert 2.0 * Pi * ((-n) as real) == -(2.0 * Pi * (n as real));
    }
  }

  /** Each turn removes exactly a tenth of the wrapped heading error, so the
      heading converges on the target without overshooting it. */
  lemma {:induction false} TurnShrinksError(yaw: real, target: real)
    ensures WrapAngle(target - Turn(yaw, target)) == (1.0 - TurnGain) * WrapAngle(target - yaw)
  {
    var e := WrapAngle(target - yaw);
    WrapAngleCoterminal(target - yaw);
    var k := WrapTurns(target - yaw);
    assert target - yaw == e - 2.0 * Pi * (k as real);
    var d := target - Turn(yaw, target);
    assert d == 0.9 * e - 2.0 * Pi * (k as real);
    WrapAngleCoterminal(d);
    var j := WrapTurns(d);
    assert WrapAngle(d) == 0.9 * e + 2.0 * Pi * ((j - k) as real);
    UniqueRepresentative(0.9 * e, j - k);
  }

  // ---------------------------------------------------------------------
  // The three phases
  // ---------------------------------------------------------------------

  /** The root of a square of a non-negative number is that number. */
  lemma RootOf(m: MathLib, x: real, a: real)
    requires Lawful(m) && a >= 0.0 && x == a * a
    ensures m.sqrt(x) == a
  {
    var r := m.sqrt(x);
    assert x >= 0.0;
    assert r >= 0.0 && r * r == a * a;
    SquareMonotone(r, a);
  }

  /** The horizontal move: step by `min(speed, distance)` along the unit
      direction to the point above the target, keep the height, and turn
      towards the direction of travel. */
  function HorizontalMove(m: MathLib, s: Sim): (r: Sim)
    ensures r.drone.position.y == s.drone.position.y
    ensures r.drone.basePosition == Some(r.drone.position)
    ensures r.auto == s.auto && r.motion == s.motion && r.life == s.life && r.grab == s.grab
    ensures Lawful(m) && s.auto.speed >= 0.0 && Length(m, HorizontalGap(s)) > 0.0 ==>
              var dist := Length(m, HorizontalGap(s));
              Length(m, HorizontalGap(r)) == dist - Min(s.auto.speed, dist)
  {
    var gap := HorizontalGap(s);
    var dist := Length(m, gap);
    var u := Normalize(m, gap);
    var step := Min(s.auto.speed, dist);
    var p := s.drone.position;
    var p2 := p.(x := p.x + u.x * step, z := p.z + u.z * step);
    var yaw := Turn(s.drone.rotation.y, m.atan2(u.x, u.z));
    var r := s.(drone := s.drone.(position := p2, basePosition := Some(p2),
                                  rotation := s.drone.rotation.(y := yaw)));
    HorizontalNoOvershoot(m, s, r, step);
    r
  }

  lemma HorizontalNoOvershoot(m: MathLib, s: Sim, r: Sim, step: real)
    requires r.auto == s.auto && r.drone.position.y == s.drone.position.y
    requires var u := Normalize(m, HorizontalGap(s));
             && r.drone.position.x == s.drone.position.x + u.x * step
             && r.drone.position.z == s.drone.position.z + u.z * step
    requires step == Min(s.auto.speed, Length(m, HorizontalGap(s)))
    ensures Lawful(m) && s.auto.speed >= 0.0 && Length(m, HorizontalGap(s)) > 0.0 ==>
              Length(m, HorizontalGap(r)) == Length(m, HorizontalGap(s)) - step
  {
    var gap := HorizontalGap(s);
    var u := Normalize(m, gap);
    if Lawful(m) && s.auto.speed >= 0.0 && Length(m, gap) > 0.0 {
      assert u.y == 0.0 by {
        assert u == Scale(gap, 1.0 / Length(m, gap));
      }
      assert HorizontalGap(r) == Sub(gap, Scale(u, step));
      StepAlong(m, gap, step);
    }
  }

  /** Stepping `step` along the unit direction of `gap`, for a step no longer
      than the gap, shortens the gap by exactly `step`. */
  lemma StepAlong(m: MathLib, gap: Vec3, step: real)
    requires Lawful(m) && Length(m, gap) > 0.0 && 0.0 <= step <= Length(m, gap)
    ensures Length(m, Sub(gap, Scale(Normalize(m, gap), step))) == Length(m, gap) - step
  {
    var d := Length(m, gap);
    LengthSquared(m, gap);
    var u := Normalize(m, gap);
    assert u == Scale(gap, 1.0 / d);
    var rest := Sub(gap, Scale(u, step));
    RestNorm(gap, d, step);
    RootOf(m, Norm2(rest), d - step);
  }

  /** The squared length of the rest of a gap of length `d` after a step of `step` along it. */
  lemma RestNorm(gap: Vec3, d: real, step: real)
    requires d > 0.0 && 0.0 <= step <= d && Norm2(gap) == d * d
    ensures Norm2(Sub(gap, Scale(Scale(gap, 1.0 / d), step))) == (d - step) * (d - step)
  {
    var c := 1.0 / d;
    var k := 1.0 - c * step;
    SubScaled(gap, c, step);
    assert k * d == d - step by {
      assert c * d == 1.0;
    }
    ScaledNorm(gap, k, d);
  }

  /** Scaling a vector of length `d` by `k` gives squared length `(k*d)²`. */
  lemma ScaledNorm(v: Vec3, k: real, d: real)
    requires Norm2(v) == d * d
    ensures Norm2(Scale(v, k)) == (k * d) * (k * d)
  {
    Norm2Scale(v, k);
    assert k * k * (d * d) == (k * d) * (k * d);
  }

  lemma SubScaled(v: Vec3, c: real, t: real)
    ensures Sub(v, Scale(Scale(v, c), t)) == Scale(v, 1.0 - c * t)
  {
    var l := Sub(v, Scale(Scale(v, c), t));
    var k := 1.0 - c * t;
    assert l.x == v.x * k by {
      ScaledComponent(v.x, c, t);
    }
    assert l.y == v.y * k by {
      ScaledComponent(v.y, c, t);
    }
    assert l.z == v.z * k by {
      ScaledComponent(v.z, c, t);
    }
  }

  lemma ScaledComponent(x: real, c: real, t: real)
    ensures x - x * c * t == x * (1.0 - c * t)
  {
  }

  /** The vertical move: step by `min(speed, distance)` towards the target height. */
  function VerticalMove(s: Sim): (r: Sim)
    ensures r.drone.position == s.drone.position.(y := r.drone.position.y)
    ensures r.drone.basePosition == Some(r.drone.position)
    ensures r.auto == s.auto && r.motion == s.motion && r.life == s.life && r.grab == s.grab
    ensures s.auto.speed >= 0.0 ==>
              var before := s.auto.target.y - s.drone.position.y;
              var after := s.auto.target.y - r.drone.position.y;
              && Abs(after) == Abs(before) - Min(s.auto.speed, Abs(before))
              && (before > 0.0 ==> after >= 0.0) && (before < 0.0 ==> after <= 0.0)
  {
    var before := s.auto.target.y - s.drone.position.y;
    var step := Min(s.auto.speed, Abs(before));
    var p := s.drone.position.(y := s.drone.position.y + Sign(before) * step);
    s.(drone := s.drone.(position := p, basePosition := Some(p)))
  }

  /** The end of the auto-return: facing `heading`, stopped, anchored where it is. */
  function FinishHoming(s: Sim, heading: real): (r: Sim)
    ensures !r.auto.isAutoReturning && r.auto.phase == Horizontal
    ensures r.drone.rotation == s.drone.rotation.(y := heading)
    ensures r.drone.position == s.drone.position && r.drone.basePosition == Some(s.drone.position)
    ensures r.motion == s.motion.(velocity := Zero, angularVelocity := 0.0)
    ensures r.life == s.life && r.grab == s.grab
  {
    s.(auto := s.auto.(isAutoReturning := false, phase := Horizontal),
       drone := s.drone.(rotation := s.drone.rotation.(y := heading), basePosition := Some(s.drone.position)),
       motion := s.motion.(velocity := Zero, angularVelocity := 0.0))
  }

  /** The heading the camera looks along, from its flattened forward vector. */
  function CameraYaw(m: MathLib, f: Frame): real {
    m.atan2(f.cameraHeading.x, f.cameraHeading.z)
  }

  /** `updateAutoReturn`. Each phase hands over to the next once its residual
      is under 5 cm (or 0.05 rad); the last one snaps the heading, ends the
      auto-return and stops the drone. */
  function AutoReturnStep(m: MathLib, s: Sim, f: Frame): (r: Sim)
    ensures !Homing(s) ==> r == s
    ensures Homing(s) && s.auto.phase == Horizontal ==>
              (r.auto.phase == Vertical <==> Length(m, HorizontalGap(s)) < PhaseTolerance)
    ensures Homing(s) && s.auto.phase == Vertical ==>
              (r.auto.phase == Rotation <==> Abs(s.auto.target.y - s.drone.position.y) < PhaseTolerance)
    ensures Homing(s) && s.auto.phase == Rotation ==>
              (!r.auto.isAutoReturning <==> Abs(WrapAngle(CameraYaw(m, f) - s.drone.rotation.y)) < PhaseTolerance)
    ensures Homing(s) && s.auto.phase == Rotation ==>
              r.drone.rotation.y == if r.auto.isAutoReturning then Turn(s.drone.rotation.y, CameraYaw(m, f)) else CameraYaw(m, f)
    ensures r.auto.isAutoReturning != s.auto.isAutoReturning ==>
              Homing(s) && s.auto.phase == Rotation && r.motion.velocity == Zero
    ensures Homing(s) && s.auto.phase == Horizontal && Length(m, HorizontalGap(s)) >= PhaseTolerance ==>
              var dist := Length(m, HorizontalGap(s));
              && r.auto == s.auto && r.drone.position.y == s.drone.position.y
              && (Lawful(m) && s.auto.speed >= 0.0 ==>
                    Length(m, HorizontalGap(r)) == dist - Min(s.auto.speed, dist))
    ensures Homing(s) && s.auto.phase == Vertical && Abs(s.auto.target.y - s.drone.position.y) >= PhaseTolerance ==>
              var before := s.auto.target.y - s.drone.position.y;
              && r.auto == s.auto && r.drone.position == s.drone.position.(y := r.drone.position.y)
              && (s.auto.speed >= 0.0 ==>
                    Abs(s.auto.target.y - r.drone.position.y) == Abs(before) - Min(s.auto.speed, Abs(before)))
  {
    if !Homing(s) then s
    else
      match s.auto.phase
      case Horizontal => HorizontalPhase(m, s)
      case Vertical => VerticalPhase(s)
      case Rotation => RotationPhase(s, CameraYaw(m, f))
  }

  /** Horizontal phase: hand over to the vertical phase once within the
      tolerance, otherwise move towards the target. */
  function HorizontalPhase(m: MathLib, s: Sim): (r: Sim)
    requires s.auto.phase == Horizontal
    ensures r.auto.phase == Vertical <==> Length(m, HorizontalGap(s)) < PhaseTolerance
    ensures r.auto.phase == Vertical || r.auto == s.auto
    ensures r.auto.isAutoReturning == s.auto.isAutoReturning
    ensures Length(m, HorizontalGap(s)) >= PhaseTolerance ==> r == HorizontalMove(m, s)
  {
    if Length(m, HorizontalGap(s)) < PhaseTolerance then s.(auto := s.auto.(phase := Vertical))
    else HorizontalMove(m, s)
  }

  /** Vertical phase: hand over to the rotation phase once within the
      tolerance, otherwise climb or sink towards the target. */
  function VerticalPhase(s: Sim): (r: Sim)
    requires s.auto.phase == Vertical
    ensures r.auto.phase == Rotation <==> Abs(s.auto.target.y - s.drone.position.y) < PhaseTolerance
    ensures r.auto.phase == Rotation || r.auto == s.auto
    ensures r.auto.isAutoReturning == s.auto.isAutoReturning
    ensures Abs(s.auto.target.y - s.drone.position.y) >= PhaseTolerance ==> r == VerticalMove(s)
  {
    if Abs(s.auto.target.y - s.drone.position.y) < PhaseTolerance then s.(auto := s.auto.(phase := Rotation))
    else VerticalMove(s)
  }

  /** Rotation phase: finish once the heading error is within the tolerance,
      otherwise turn a tenth of the way. */
  function RotationPhase(s: Sim, target: real): (r: Sim)
    requires s.auto.isAutoReturning
    ensures !r.auto.isAutoReturning <==> Abs(WrapAngle(target - s.drone.rotation.y)) < PhaseTolerance
    ensures r.auto.isAutoReturning ==> r.auto == s.auto
    ensures !r.auto.isAutoReturning ==> r.auto.phase == Horizontal && r.motion.velocity == Zero
    ensures r.drone.rotation.y == if r.auto.isAutoReturning then Turn(s.drone.rotation.y, target) else target
  {
    if Abs(WrapAngle(target - s.drone.rotation.y)) < PhaseTolerance then FinishHoming(s, target)
    else s.(drone := s.drone.(rotation := s.drone.rotation.(y := Turn(s.drone.rotation.y, target))))
  }

  lemma PhasesAdvanceInOrder(m: MathLib, s: Sim, f: Frame)
    ensures var r := AutoReturnStep(m, s, f);
            || r.auto.phase == s.auto.phase
            || (s.auto.phase == Horizontal && r.auto.phase == Vertical)
            || (s.auto.phase == Vertical && r.auto.phase == Rotation)
            || (s.auto.phase == Rotation && r.auto.phase == Horizontal && !r.auto.isAutoReturning)
  {
    var r := AutoReturnStep(m, s, f);
  }
}
