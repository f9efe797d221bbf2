/** Derived flight parameters, scaling, collision radii and the tables built
    when the formation is loaded (src/drone.js). */
module Drone {
  import opened Geometry
  import opened SimState

  /** The speed-level multiplier: affine in the level, 5 % at level 1 and
      400 % at level 30. */
  function SpeedMultiplier(level: int): (r: real)
    ensures level == 1 ==> r == 0.05
    ensures level == 30 ==> r == 4.0
    ensures 1 <= level <= 30 ==> 0.05 <= r <= 4.0
  {
    0.05 + (level - 1) as real * (4.0 - 0.05) / 29.0
  }

  /** A higher speed level always means a larger multiplier. */
  lemma SpeedMultiplierIncreasing(a: int, b: int)
    requires a < b
    ensures SpeedMultiplier(a) < SpeedMultiplier(b)
  {
  }

  /** The size multiplier `sqrt(scale / 0.3)`, clamped to [0.5, 2.0]. Inside
      the band it is the exact root. */
  function SizeMultiplier(m: MathLib, scale: real): (r: real)
    ensures 0.5 <= r <= 2.0
    ensures Lawful(m) && 0.075 <= scale <= 1.2 ==> r * r == scale / 0.3
  {
    RootInBand(m, scale / 0.3);
    Clamp(m.sqrt(scale / 0.3), 0.5, 2.0)
  }

  /** The root of a value in [0.25, 4] lies in [0.5, 2]. */
  lemma RootInBand(m: MathLib, x: real)
    ensures Lawful(m) && 0.25 <= x <= 4.0 ==> 0.5 <= m.sqrt(x) <= 2.0
  {
    if Lawful(m) && 0.25 <= x <= 4.0 {
      var r := m.sqrt(x);
      assert r >= 0.0 && r * r == x;
      SquareMonotone(r, 0.5);
      SquareMonotone(r, 2.0);
    }
  }

  /** A friction coefficient adjusted by 0.04 per unit of size multiplier and
      clamped to [0.90, 0.98]. */
  function SizedFriction(base: real, sizeMult: real): (r: real)
    ensures 0.90 <= r <= 0.98
    ensures 0.90 <= base + (sizeMult - 1.0) * 0.04 <= 0.98 ==> r == base + (sizeMult - 1.0) * 0.04
  {
    Clamp(base + (sizeMult - 1.0) * 0.04, 0.90, 0.98)
  }

  /** The flight tuning `updateMaxSpeed` writes: maximum speed and
      acceleration are the base values times the speed and size multipliers,
      and both frictions are the base values adjusted for the size. */
  function TuneSpeeds(m: MathLib, t: Tuning): (r: Tuning)
    ensures var k := SpeedMultiplier(t.speedLevel) * SizeMultiplier(m, t.currentDroneScale);
            r.maxSpeed == BaseMaxSpeed * k && r.acceleration == BaseAcceleration * k
    ensures var size := SizeMultiplier(m, t.currentDroneScale);
            r.friction == SizedFriction(BaseFriction, size) && r.angularFriction == SizedFriction(BaseAngularFriction, size)
    ensures r == t.(maxSpeed := r.maxSpeed, acceleration := r.acceleration,
                    friction := r.friction, angularFriction := r.angularFriction)
  {
    var speedMult := SpeedMultiplier(t.speedLevel);
    var sizeMult := SizeMultiplier(m, t.currentDroneScale);
    t.(maxSpeed := BaseMaxSpeed * speedMult * sizeMult, acceleration := BaseAcceleration * speedMult * sizeMult,
       friction := SizedFriction(BaseFriction, sizeMult),
       angularFriction := SizedFriction(BaseAngularFriction, sizeMult))
  }

  /** `updateMaxSpeed`: maximum speed and acceleration share one multiplier,
      both frictions move with the size, and the auto-return speed follows
      the new maximum only while auto-returning. Nothing else changes. */
  function UpdateMaxSpeed(m: MathLib, s: Sim): (r: Sim)
    ensures var k := SpeedMultiplier(s.tuning.speedLevel) * SizeMultiplier(m, s.tuning.currentDroneScale);
            r.tuning.maxSpeed == BaseMaxSpeed * k && r.tuning.acceleration == BaseAcceleration * k
    ensures var size := SizeMultiplier(m, s.tuning.currentDroneScale);
            && r.tuning.friction == SizedFriction(BaseFriction, size)
            && r.tuning.angularFriction == SizedFriction(BaseAngularFriction, size)
    ensures r.tuning.maxSpeed * BaseAcceleration == r.tuning.acceleration * BaseMaxSpeed
    ensures 0.90 <= r.tuning.friction <= 0.98 && 0.90 <= r.tuning.angularFriction <= 0.98
    ensures r.tuning.friction == r.tuning.angularFriction
    ensures (s.tuning.speedLevel == 1 && SizeMultiplier(m, s.tuning.currentDroneScale) == 1.0) ==>
              r.tuning.maxSpeed == 0.05 * BaseMaxSpeed
    ensures s.auto.isAutoReturning ==> r.auto == s.auto.(speed := 1.5 * r.tuning.maxSpeed)
    ensures !s.auto.isAutoReturning ==> r.auto == s.auto
    ensures r.tuning == s.tuning.(maxSpeed := r.tuning.maxSpeed, acceleration := r.tuning.acceleration,
                                  friction := r.tuning.friction, angularFriction := r.tuning.angularFriction)
    ensures r == s.(tuning := r.tuning, auto := r.auto)
  {
    var t := TuneSpeeds(m, s.tuning);
    var auto := if s.auto.isAutoReturning then s.auto.(speed := t.maxSpeed * 1.5) else s.auto;
    s.(tuning := t, auto := auto)
  }

  /** The update reads only the speed level, the scale and the base values,
      none of which it writes, so applying it twice is applying it once. */
  lemma UpdateMaxSpeedIdempotent(m: MathLib, s: Sim)
    ensures UpdateMaxSpeed(m, UpdateMaxSpeed(m, s)) == UpdateMaxSpeed(m, s)
  {
    var t := UpdateMaxSpeed(m, s).tuning;
    assert t.speedLevel == s.tuning.speedLevel && t.currentDroneScale == s.tuning.currentDroneScale;
    assert TuneSpeeds(m, t) == t;
  }

  /** At the same scale, a higher speed level gives a strictly higher maximum
      speed and acceleration. */
  lemma {:induction false} FasterAtHigherLevel(m: MathLib, t: Tuning, level: int)
    requires t.speedLevel < level
    ensures var lo := TuneSpeeds(m, t);
            var hi := TuneSpeeds(m, t.(speedLevel := level));
            lo.maxSpeed < hi.maxSpeed && lo.acceleration < hi.acceleration
  {
    var size := SizeMultiplier(m, t.currentDroneScale);
    var lo := TuneSpeeds(m, t);
    var hi := TuneSpeeds(m, t.(speedLevel := level));
    SpeedMultiplierIncreasing(t.speedLevel, level);
    SpeedsOrdered(lo.maxSpeed, hi.maxSpeed, lo.acceleration, hi.acceleration,
                  SpeedMultiplier(t.speedLevel), SpeedMultiplier(level), size);
  }

  lemma SpeedsOrdered(v: real, w: real, p: real, q: real, a: real, b: real, c: real)
    requires a < b && c > 0.0
    requires v == BaseMaxSpeed * (a * c) && w == BaseMaxSpeed * (b * c)
    requires p == BaseAcceleration * (a * c) && q == BaseAcceleration * (b * c)
    ensures v < w && p < q
  {
    ScaledLess(a, b, c);
  }

  lemma ScaledLess(a: real, b: real, c: real)
    requires a < b && c > 0.0
    ensures BaseMaxSpeed * (a * c) < BaseMaxSpeed * (b * c)
    ensures BaseAcceleration * (a * c) < BaseAcceleration * (b * c)
  {
    assert a * c < b * c;
  }

  /** The horizontal and vertical collision radii of a bounding box of the
      given size. */
  datatype Radii = Radii(horizontal: real, vertical: real)

  /** `calculateDroneBoundingBox`: the horizontal radius is half the larger
      horizontal extent; the vertical radius is half the height plus 10 %. */
  function CollisionRadius(size: Vec3): (r: Radii)
    ensures r.horizontal >= size.x / 2.0 && r.horizontal >= size.z / 2.0
    ensures r.horizontal == size.x / 2.0 || r.horizontal == size.z / 2.0
    ensures r.vertical * 2.0 == size.y * 1.1
    ensures size.x >= 0.0 && size.y >= 0.0 && size.z >= 0.0 ==> r.horizontal >= 0.0 && r.vertical >= 0.0
  {
    Radii(Max(size.x, size.z) / 2.0, (size.y / 2.0) * 1.1)
  }

  /** The smallest scale the drone may be given. */
  const MinScale: real := 0.01

  /** `updateDroneScale`. `measuredBox` is the size three.js measures for the
      rescaled drone. Without a drone nothing happens; otherwise the stored
      scale is the requested one raised to at least 0.01, the radii are
      recomputed and the speed parameters re-derived. */
  function UpdateDroneScale(m: MathLib, s: Sim, newScale: real, measuredBox: Vec3): (r: Sim)
    ensures !s.droneLoaded ==> r == s
    ensures s.droneLoaded ==> r.tuning.currentDroneScale >= MinScale
    ensures s.droneLoaded && newScale >= MinScale ==> r.tuning.currentDroneScale == newScale
    ensures s.droneLoaded && newScale < MinScale ==> r.tuning.currentDroneScale == MinScale
    ensures s.droneLoaded ==>
              r.tuning.radiusHorizontal == CollisionRadius(measuredBox).horizontal
              && r.tuning.radiusVertical == CollisionRadius(measuredBox).vertical
    ensures s.droneLoaded ==> r.tuning.maxSpeed * BaseAcceleration == r.tuning.acceleration * BaseMaxSpeed
    ensures r.life == s.life && r.grab == s.grab && r.drone == s.drone
  {
    if !s.droneLoaded then s
    else
      var scale := if newScale < MinScale then MinScale else newScale;
      UpdateMaxSpeed(m, Rescaled(s, scale, CollisionRadius(measuredBox)))
  }

  /** The scale and radii written before the speed parameters are re-derived. */
  function Rescaled(s: Sim, scale: real, radii: Radii): (r: Sim)
    ensures r.tuning.currentDroneScale == scale
    ensures r.tuning.radiusHorizontal == radii.horizontal && r.tuning.radiusVertical == radii.vertical
    ensures r.life == s.life && r.grab == s.grab && r.drone == s.drone && r.auto == s.auto
  {
    s.(tuning := s.tuning.(currentDroneScale := scale,
                           radiusHorizontal := radii.horizontal,
                           radiusVertical := radii.vertical))
  }

  /** Number of followers in the formation. */
  const DroneCount: nat := 50

  /** Spacing of the start-up grid and the random jitter around each cell. */
  const Spacing: real := 0.08
  const Jitter: real := 0.02

  /** A draw of `Math.random()`. */
  predicate UnitDraw(r: real) { 0.0 <= r < 1.0 }

  predicate UnitDraws(draws: seq<real>) { forall i :: 0 <= i < |draws| ==> UnitDraw(draws[i]) }

  /** Grid cell of follower `i`: ten columns per row, centred on the origin. */
  function GridCell(i: nat): (c: Point2)
    requires i < DroneCount
    ensures -4.5 <= c.x <= 4.5 && -2.0 <= c.z <= 2.0
  {
    Point2((i % 10) as real - 4.5, (i / 10) as real - 2.0)
  }

  /** The jittered start-up grid: follower `i` uses draws `2i` and `2i+1`. Every
      position lies at height 0 within half the jitter of its cell centre. */
  function GridPositions(draws: seq<real>): (r: seq<Vec3>)
    requires |draws| >= 2 * DroneCount && UnitDraws(draws)
    ensures |r| == DroneCount
    ensures forall i :: 0 <= i < |r| ==> r[i].y == 0.0
    ensures forall i :: 0 <= i < |r| ==>
              Abs(r[i].x - GridCell(i).x * Spacing) <= Jitter / 2.0
              && Abs(r[i].z - GridCell(i).z * Spacing) <= Jitter / 2.0
  {
    seq(DroneCount, i requires 0 <= i < DroneCount =>
      Vec3(GridCell(i).x * Spacing + (draws[2 * i] - 0.5) * Jitter,
           0.0,
           GridCell(i).z * Spacing + (draws[2 * i + 1] - 0.5) * Jitter))
  }

  /** The "K" formation: an 18-drone stem at x = -0.12, then two 16-drone arms
      leaving (-0.10, +-0.02) with slope +-15/22; every target lies in the z = 0 plane. */
  function KPositions(): (r: seq<Vec3>)
    ensures |r| == 18 + 16 + 16 == DroneCount
    ensures forall i :: 0 <= i < |r| ==> r[i].z == 0.0
    ensures forall i :: 0 <= i < 18 ==> r[i].x == -0.12
    ensures forall i :: 18 <= i < |r| ==> -0.10 <= r[i].x <= 0.12
    ensures forall i :: 18 <= i < 34 ==> r[i].y >= 0.02
    ensures forall i :: 34 <= i < |r| ==> r[i].y <= -0.02
  {
    seq(DroneCount, i requires 0 <= i < DroneCount => KPosition(i))
  }

  function KPosition(i: nat): Vec3
    requires i < DroneCount
  {
    if i < 18 then Vec3(-0.12, 0.17 - i as real * 0.02, 0.0)
    else if i < 34 then
      var t := (i - 18) as real / 15.0;
      Vec3(-0.10 + t * 0.22, 0.02 + t * 0.15, 0.0)
    else
      var t := (i - 34) as real / 15.0;
      Vec3(-0.10 + t * 0.22, -0.02 - t * 0.15, 0.0)
  }

  /** Personality of one follower. */
  datatype Personality = Personality(inertia: real, reactionDelay: real)

  /** Personalities: inertia `0.5 + r` in [0.5, 1.5) and reaction delay `r/2`
      seconds in [0, 0.5), from draws `2i` and `2i+1`. */
  function Personalities(draws: seq<real>): (r: seq<Personality>)
    requires |draws| >= 2 * DroneCount && UnitDraws(draws)
    ensures |r| == DroneCount
    ensures forall i :: 0 <= i < |r| ==> 0.5 <= r[i].inertia < 1.5 && 0.0 <= r[i].reactionDelay < 0.5
  {
    seq(DroneCount, i requires 0 <= i < DroneCount =>
      Personality(0.5 + draws[2 * i], draws[2 * i + 1] * 0.5))
  }

  /** `loadDroneModel`: fifty followers on the jittered grid with y = 0, zero
      velocity, their personalities and no flight parameters yet; the originals
      are the grid positions and the K table is installed. The first 100 draws
      jitter the grid, the next 100 give the personalities. */
  function LoadDroneModel(m: MathLib, s: Sim, draws: seq<real>, measuredBox: Vec3): (r: Sim)
    requires |draws| >= 4 * DroneCount && UnitDraws(draws)
    ensures r.droneLoaded && r.drone.position == Vec3(0.0, 0.0, -2.0)
    ensures |r.followers| == DroneCount == |r.form.originalPositions| == |r.form.kPositions|
    ensures forall i :: 0 <= i < |r.followers| ==>
              && r.followers[i].position == r.form.originalPositions[i]
              && r.followers[i].position.y == 0.0
              && r.followers[i].velocity == Zero
              && r.followers[i].params.None?
              && 0.5 <= r.followers[i].inertia < 1.5
              && 0.0 <= r.followers[i].reactionDelay < 0.5
    ensures r.tuning.currentDroneScale == InitialScale
    ensures r.tuning.radiusVertical * 2.0 == measuredBox.y * 1.1
  {
    var grid := GridPositions(draws[..2 * DroneCount]);
    var people := Personalities(draws[2 * DroneCount..]);
    var followers := seq(DroneCount, i requires 0 <= i < DroneCount =>
      Follower(grid[i], Euler(0.0, 0.0, 0.0), Zero, people[i].inertia, people[i].reactionDelay, None));
    var radii := CollisionRadius(measuredBox);
    var loaded := s.(
      droneLoaded := true,
      drone := DroneBody(Vec3(0.0, 0.0, -2.0), Euler(0.0, 0.0, 0.0), None, None),
      followers := followers,
      form := s.form.(originalPositions := grid, kPositions := KPositions()),
      tuning := s.tuning.(currentDroneScale := InitialScale,
                          radiusHorizontal := radii.horizontal, radiusVertical := radii.vertical));
    UpdateMaxSpeed(m, loaded)
  }
}
