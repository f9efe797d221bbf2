/** The collision resolver `checkPlaneCollision` (src/physics.js:6-305).

    The drone's world position is read once, at the start of the call, and
    every test of that call uses this snapshot `p0`; the corrections of the
    detected planes, the floor and the obstacles accumulate on the live
    position, hover anchor and flight velocity. The passes are therefore
    modelled as a left fold of a `Body` through planes, floor and obstacles. */
module Collision {
  import opened Geometry
  import opened SimState

  /** What the resolver reads and writes while folding over the surfaces.
      `hit` is the source's `hasCollision`. */
  datatype Body = Body(
    position: Vec3,
    basePosition: Option<Vec3>,
    velocity: Vec3,
    isColliding: bool,
    crashSounds: nat,
    hit: bool)

  /** The position correction, applied to the position and, when it exists,
      to the hover anchor. */
  function Shift(b: Body, offset: Vec3): (r: Body)
    ensures r.position == Add(b.position, offset)
    ensures b.basePosition.Some? <==> r.basePosition.Some?
    ensures b.basePosition.Some? ==> r.basePosition.value == Add(b.basePosition.value, offset)
    ensures r.velocity == b.velocity && r.isColliding == b.isColliding
    ensures r.crashSounds == b.crashSounds && r.hit == b.hit
  {
    b.(position := Add(b.position, offset),
       basePosition := if b.basePosition.Some? then Some(Add(b.basePosition.value, offset)) else None)
  }

  /** The crash-sound edge latch: sets `isColliding` and plays the sound only
      when the flag was clear. */
  function Latch(b: Body): (r: Body)
    ensures r.isColliding
    ensures r.crashSounds == b.crashSounds + (if b.isColliding then 0 else 1)
    ensures r.position == b.position && r.basePosition == b.basePosition
    ensures r.velocity == b.velocity && r.hit == b.hit
  {
    if b.isColliding then b else b.(isColliding := true, crashSounds := b.crashSounds + 1)
  }

  /** How a call's output relates to its input with respect to the latch: the
      sound count grows by one exactly when the flag went from clear to set,
      a set flag stays set, a collision once found stays found, and the flag is
      only set on a collision. */
  ghost predicate LatchStep(a: Body, b: Body) {
    && b.crashSounds == a.crashSounds + (if !a.isColliding && b.isColliding then 1 else 0)
    && (a.isColliding ==> b.isColliding)
    && (a.hit ==> b.hit)
    && (b.isColliding && !a.isColliding ==> b.hit)
  }

  lemma LatchStepTransitive(a: Body, b: Body, c: Body)
    requires LatchStep(a, b) && LatchStep(b, c)
    ensures LatchStep(a, c)
  {
  }

  // ---------------------------------------------------------------------
  // Crossing-number point-in-polygon test (src/physics.js:29-37)
  // ---------------------------------------------------------------------

  /** The vertex the loop pairs with vertex `i`: `j` starts at the last
      vertex and then trails `i` by one. */
  function Prev(n: nat, i: nat): (j: nat)
    requires i < n
    ensures j < n
    ensures i == 0 ==> j == n - 1
    ensures i > 0 ==> j + 1 == i
  {
    if i == 0 then n - 1 else i - 1
  }

  /** Whether the edge from vertex `j` to vertex `i` straddles the horizontal
      line through `p` (one end strictly beyond `p.z`, the other not). */
  predicate Straddles(poly: seq<Point2>, i: nat, j: nat, p: Point2)
    requires i < |poly| && j < |poly|
  {
    (poly[i].z > p.z) != (poly[j].z > p.z)
  }

  /** The ray-crossing test of one edge. The division is evaluated only when
      the edge straddles, and then its end points differ in z, so it is never
      a division by zero. */
  function EdgeCrosses(poly: seq<Point2>, i: nat, j: nat, p: Point2): (c: bool)
    requires i < |poly| && j < |poly|
    ensures c ==> Straddles(poly, i, j, p) && poly[i].z != poly[j].z
    ensures !Straddles(poly, i, j, p) ==> !c
  {
    Straddles(poly, i, j, p)
    && p.x < (poly[j].x - poly[i].x) * (p.z - poly[i].z) / (poly[j].z - poly[i].z) + poly[i].x
  }

  /** Number of edges among the first `k` iterations whose test succeeds. */
  function CrossCount(poly: seq<Point2>, p: Point2, k: nat): (c: nat)
    requires k <= |poly|
    ensures c <= k
  {
    if k == 0 then 0
    else CrossCount(poly, p, k - 1) + (if EdgeCrosses(poly, k - 1, Prev(|poly|, k - 1), p) then 1 else 0)
  }

  /** The point is inside when an odd number of edges cross. */
  predicate Inside(poly: seq<Point2>, p: Point2) {
    CrossCount(poly, p, |poly|) % 2 == 1
  }

  /** The source's loop: toggles `inside` once per crossing edge. */
  method InsidePolygon(poly: seq<Point2>, p: Point2) returns (inside: bool)
    ensures inside == Inside(poly, p)
    ensures |poly| < 2 ==> !inside
  {
    inside := false;
    var n := |poly|;
    if n == 0 {
      return;
    }
    var i := 0;
    var j := n - 1;
    while i < n
      invariant 0 <= i <= n
      invariant i < n ==> j == Prev(n, i)
      invariant inside == (CrossCount(poly, p, i) % 2 == 1)
    {
      var intersect := EdgeCrosses(poly, i, j, p);
      if intersect {
        inside := !inside;
      }
      j := i;
      i := i + 1;
    }
    if n == 1 {
      assert !Straddles(poly, 0, 0, p);
    }
  }

  /** All vertices lie strictly beyond `p.z`, or none does. */
  predicate OutsideZRange(poly: seq<Point2>, p: Point2) {
    (forall i :: 0 <= i < |poly| ==> poly[i].z > p.z)
    || (forall i :: 0 <= i < |poly| ==> poly[i].z <= p.z)
  }

  lemma {:induction false} NoCrossingOutsideZRange(poly: seq<Point2>, p: Point2, k: nat)
    requires k <= |poly| && OutsideZRange(poly, p)
    ensures CrossCount(poly, p, k) == 0
  {
    if k > 0 {
      NoCrossingOutsideZRange(poly, p, k - 1);
      var j := Prev(|poly|, k - 1);
      assert !Straddles(poly, k - 1, j, p);
    }
  }

  /** A point whose z lies outside the polygon's z-range is never inside. */
  lemma OutsideZRangeNotInside(poly: seq<Point2>, p: Point2)
    requires OutsideZRange(poly, p)
    ensures !Inside(poly, p)
  {
    NoCrossingOutsideZRange(poly, p, |poly|);
  }

  // ---------------------------------------------------------------------
  // Velocity responses
  // ---------------------------------------------------------------------

  /** Removes 1.5 times the given normal component, reflecting it to -0.5 times itself. */
  function Cancel(v: Vec3, n: Vec3, along: real): Vec3 {
    Sub(v, Scale(n, along * 1.5))
  }

  /** Plane response (src/physics.js:53-59): only a component pointing into
      the plane, judged by the side `d` the drone is on, is cancelled. */
  function PlaneVelocityResponse(v: Vec3, n: Vec3, d: real): (r: Vec3)
    ensures !((d > 0.0 && Dot(v, n) < 0.0) || (d < 0.0 && Dot(v, n) > 0.0)) ==> r == v
  {
    var vn := Dot(v, n);
    if (d > 0.0 && vn < 0.0) || (d < 0.0 && vn > 0.0) then Cancel(v, n, vn) else v
  }

  /** Obstacle response (src/physics.js:169-172, 237-240): only a component
      against the push direction is cancelled. */
  function PushVelocityResponse(v: Vec3, dir: Vec3): (r: Vec3)
    ensures Dot(v, dir) >= 0.0 ==> r == v
  {
    var along := Dot(v, dir);
    if along < 0.0 then Cancel(v, dir, along) else v
  }

  /** Against a unit normal, cancelling 1.5 times the normal component leaves
      -0.5 times it and keeps every component orthogonal to the normal. */
  lemma CancelHalves(v: Vec3, n: Vec3, t: Vec3)
    requires Norm2(n) == 1.0
    ensures Dot(Cancel(v, n, Dot(v, n)), n) == -0.5 * Dot(v, n)
    ensures Dot(t, n) == 0.0 ==> Dot(Cancel(v, n, Dot(v, n)), t) == Dot(v, t)
  {
    var a := Dot(v, n);
    CancelAlong(v, n, a, n, 1.0);
    if Dot(t, n) == 0.0 {
      DotCommutes(t, n);
      CancelAlong(v, n, a, t, 0.0);
    }
  }

  lemma DotCommutes(a: Vec3, b: Vec3)
    ensures Dot(a, b) == Dot(b, a)
  {
  }

  /** Plane response, for a unit normal: a component moving into the plane
      becomes -0.5 times itself, any other velocity is untouched, and the
      components along the plane are kept. */
  lemma PlaneResponseReflects(v: Vec3, n: Vec3, d: real, t: Vec3)
    requires Norm2(n) == 1.0
    ensures var r := PlaneVelocityResponse(v, n, d);
      && ((d > 0.0 && Dot(v, n) < 0.0) || (d < 0.0 && Dot(v, n) > 0.0) ==> Dot(r, n) == -0.5 * Dot(v, n))
      && (Dot(t, n) == 0.0 ==> Dot(r, t) == Dot(v, t))
      && (Dot(r, n) != Dot(v, n) ==> (d > 0.0 && Dot(v, n) < 0.0) || (d < 0.0 && Dot(v, n) > 0.0))
  {
    CancelHalves(v, n, t);
  }

  /** Obstacle response, for a unit direction: a component against the push
      becomes -0.5 times itself; the others are untouched. */
  lemma PushResponseReflects(v: Vec3, dir: Vec3, t: Vec3)
    requires Norm2(dir) == 1.0
    ensures var r := PushVelocityResponse(v, dir);
      && (Dot(v, dir) < 0.0 ==> Dot(r, dir) == -0.5 * Dot(v, dir))
      && (Dot(t, dir) == 0.0 ==> Dot(r, t) == Dot(v, t))
      && Dot(r, dir) >= 0.0
  {
    CancelHalves(v, dir, t);
  }

  /** Push the body by `amount` along `dir`, respond with the velocity and
      latch: the common tail of the cube, pole and (corrected) torus cases. */
  function ApplyPush(b: Body, dir: Vec3, amount: real): (r: Body)
    ensures r.position == Add(b.position, Scale(dir, amount))
    ensures r.velocity == PushVelocityResponse(b.velocity, dir)
    ensures r.hit && r.isColliding
    ensures LatchStep(b, r)
  {
    Latch(Shift(b, Scale(dir, amount)).(velocity := PushVelocityResponse(b.velocity, dir), hit := true))
  }

  // ---------------------------------------------------------------------
  // Detected planes (src/physics.js:14-67)
  // ---------------------------------------------------------------------

  /** The collision radius used against a plane: vertical for a roughly
      horizontal plane (|normal.y| > 0.7), horizontal otherwise. */
  function EffectiveRadius(n: Vec3, radH: real, radV: real): (r: real)
    ensures Abs(n.y) > 0.7 ==> r == radV
    ensures Abs(n.y) <= 0.7 ==> r == radH
  {
    if Abs(n.y) > 0.7 then radV else radH
  }

  /** Signed distance of `p` from the plane through `origin` with normal `n`. */
  function SignedDistance(p: Vec3, origin: Vec3, n: Vec3): real {
    Dot(Sub(p, origin), n)
  }

  /** The source's `distance > 0 ? 1 : -1`: a point on the plane is pushed
      against the normal. */
  function PushSide(d: real): (r: real)
    ensures r == 1.0 || r == -1.0
    ensures r * d == Abs(d) || (d == 0.0 && r == -1.0)
  {
    if d > 0.0 then 1.0 else -1.0
  }

  /** The test and correction of one detected plane. */
  /** The point is within the effective radius of the plane and, in the
      plane's own frame, inside its polygon. */
  predicate PlaneContact(m: MathLib, radH: real, radV: real, p0: Vec3, plane: PlaneData) {
    var n := m.rotate(plane.rotation, Up);
    var local := m.rotate(Invert(plane.rotation), Sub(p0, plane.position));
    Abs(SignedDistance(p0, plane.position, n)) < EffectiveRadius(n, radH, radV)
    && Inside(plane.polygon, Point2(local.x, local.z))
  }

  function PlanePass(m: MathLib, radH: real, radV: real, p0: Vec3, plane: PlaneData, b: Body): (r: Body)
    ensures LatchStep(b, r)
    ensures var n := m.rotate(plane.rotation, Up);
            var d := SignedDistance(p0, plane.position, n);
            && (!PlaneContact(m, radH, radV, p0, plane) ==> r == b)
            && (PlaneContact(m, radH, radV, p0, plane) ==>
                  && r.hit
                  && r.position == Add(b.position, Scale(n, (EffectiveRadius(n, radH, radV) - Abs(d)) * PushSide(d)))
                  && (b.basePosition.Some? <==> r.basePosition.Some?)
                  && (b.basePosition.Some? ==>
                        r.basePosition.value == Add(b.basePosition.value, Scale(n, (EffectiveRadius(n, radH, radV) - Abs(d)) * PushSide(d))))
                  && r.velocity == PlaneVelocityResponse(b.velocity, n, d)
                  && (r.isColliding && !b.isColliding <==> EffectiveRadius(n, radH, radV) - Abs(d) > 0.001 && !b.isColliding))
  {
    var n := m.rotate(plane.rotation, Up);
    var d := SignedDistance(p0, plane.position, n);
    var effR := EffectiveRadius(n, radH, radV);
    if Abs(d) < effR then
      var local := m.rotate(Invert(plane.rotation), Sub(p0, plane.position));
      if Inside(plane.polygon, Point2(local.x, local.z)) then
        var push := effR - Abs(d);
        var moved := Shift(b, Scale(n, push * PushSide(d))).(velocity := PlaneVelocityResponse(b.velocity, n, d), hit := true);
        if push > 0.001 && !moved.isColliding then Latch(moved) else moved
      else b
    else b
  }

  /** Plane correction, for a drone not yet moved in this call: the normal is
      a unit vector, so the drone ends exactly one effective radius from the
      plane, on the side it started on (the far side if it was on the plane). */
  lemma PlanePushReachesRadius(m: MathLib, radH: real, radV: real, plane: PlaneData, b: Body)
    requires Norm2(m.rotate(plane.rotation, Up)) == 1.0
    ensures var p0 := b.position;
            var n := m.rotate(plane.rotation, Up);
            var d := SignedDistance(p0, plane.position, n);
            var effR := EffectiveRadius(n, radH, radV);
            var r := PlanePass(m, radH, radV, p0, plane, b);
            PlaneContact(m, radH, radV, p0, plane) ==>
              SignedDistance(r.position, plane.position, n) == effR * PushSide(d)
  {
    var p0 := b.position;
    var n := m.rotate(plane.rotation, Up);
    var d := SignedDistance(p0, plane.position, n);
    var effR := EffectiveRadius(n, radH, radV);
    var k := (effR - Abs(d)) * PushSide(d);
    var r := PlanePass(m, radH, radV, p0, plane, b);
    if PlaneContact(m, radH, radV, p0, plane) {
      assert r.position == Add(p0, Scale(n, k));
      ShiftedDistance(p0, plane.position, n, k);
      PushSideReaches(d, effR);
    }
  }

  /** Moving a point by `k` along a unit normal moves its signed distance by `k`. */
  lemma ShiftedDistance(p: Vec3, origin: Vec3, n: Vec3, k: real)
    requires Norm2(n) == 1.0
    ensures SignedDistance(Add(p, Scale(n, k)), origin, n) == SignedDistance(p, origin, n) + k
  {
    assert Sub(Add(p, Scale(n, k)), origin) == Add(Sub(p, origin), Scale(n, k));
    DotAddLeft(Sub(p, origin), Scale(n, k), n);
    UnitScaledDot(n, k);
  }

  lemma DotAddLeft(a: Vec3, b: Vec3, c: Vec3)
    ensures Dot(Add(a, b), c) == Dot(a, c) + Dot(b, c)
  {
  }

  /** Adding the missing distance on the drone's side lands exactly at the radius. */
  lemma PushSideReaches(d: real, effR: real)
    requires Abs(d) < effR
    ensures d + (effR - Abs(d)) * PushSide(d) == effR * PushSide(d)
  {
    if d > 0.0 {
      assert PushSide(d) == 1.0;
    } else {
      assert PushSide(d) == -1.0;
    }
  }

  /** The planes in map insertion order. */
  function PlanesPass(m: MathLib, radH: real, radV: real, p0: Vec3, planes: seq<PlaneEntry>, b: Body): (r: Body)
    ensures LatchStep(b, r)
    ensures (forall i :: 0 <= i < |planes| ==> PlanePass(m, radH, radV, p0, planes[i].data, b) == b) ==> r == b
    decreases |planes|
  {
    if |planes| == 0 then b
    else
      var b1 := PlanePass(m, radH, radV, p0, planes[0].data, b);
      PlanesPass(m, radH, radV, p0, planes[1..], b1)
  }

  // ---------------------------------------------------------------------
  // Floor (src/physics.js:78-113)
  // ---------------------------------------------------------------------

  /** The fixed floor at height 0: a drone whose snapshot is lower than the
      vertical radius is raised by the difference, a downward velocity is
      reflected with half its speed, and the latch fires for a push over 1 mm. */
  function FloorPass(radV: real, p0: Vec3, b: Body): (r: Body)
    ensures LatchStep(b, r)
    ensures p0.y >= radV ==> r == b
    ensures p0.y < radV ==>
              && r.hit
              && r.position == Add(b.position, Vec3(0.0, radV - p0.y, 0.0))
              && (b.basePosition.Some? ==> r.basePosition == Some(Add(b.basePosition.value, Vec3(0.0, radV - p0.y, 0.0))))
              && (b.velocity.y < 0.0 ==> r.velocity == b.velocity.(y := -b.velocity.y * 0.5))
              && (b.velocity.y >= 0.0 ==> r.velocity == b.velocity)
              && (r.isColliding && !b.isColliding <==> radV - p0.y > 0.001 && !b.isColliding)
  {
    if p0.y < radV then
      var push := radV - p0.y;
      var moved := Shift(b, Vec3(0.0, push, 0.0));
      var v := if b.velocity.y < 0.0 then b.velocity.(y := -b.velocity.y * 0.5) else b.velocity;
      var bounced := moved.(velocity := v, hit := true);
      if push > 0.001 && !bounced.isColliding then Latch(bounced) else bounced
    else b
  }

  /** For a drone not yet moved in this call, the floor pass leaves it exactly
      at the vertical radius. */
  lemma FloorLiftsToRadius(radV: real, b: Body)
    ensures var r := FloorPass(radV, b.position, b);
            && r.position.y >= radV
            && (b.position.y < radV ==> r.position.y == radV)
            && (b.velocity.y < 0.0 && b.position.y < radV ==> r.velocity.y == -0.5 * b.velocity.y && r.velocity.y > 0.0)
  {
  }

  // ---------------------------------------------------------------------
  // Obstacles (src/physics.js:116-297)
  // ---------------------------------------------------------------------

  /** The push of an oriented cube, in the cube's frame: the smallest overlap
      along the axis of least penetration, the direction the drone lies in
      along that axis. */
  datatype LocalPush = LocalPush(dir: Vec3, amount: real)

  function Overlap(coord: real, half: real, minDist: real): real {
    half + minDist - Abs(coord)
  }

  /** Whether the drone's local position lies in the box grown by `minDist`. */
  predicate InCubeReach(local: Vec3, half: real, minDist: real) {
    && Max(0.0, Abs(local.x) - half) < minDist
    && Max(0.0, Abs(local.y) - half) < minDist
    && Max(0.0, Abs(local.z) - half) < minDist
  }

  /** Cube push selection (src/physics.js:143-158). Inside the grown box all
      three overlaps are positive; the push uses the smallest of them (ties go
      to x, then y), by exactly that amount, along one local axis. */
  function CubeLocalPush(local: Vec3, half: real, minDist: real): (r: LocalPush)
    requires InCubeReach(local, half, minDist)
    ensures var ox := Overlap(local.x, half, minDist);
            var oy := Overlap(local.y, half, minDist);
            var oz := Overlap(local.z, half, minDist);
            && ox > 0.0 && oy > 0.0 && oz > 0.0
            && r.amount > 0.0
            && r.amount <= ox && r.amount <= oy && r.amount <= oz
            && (r.amount == ox || r.amount == oy || r.amount == oz)
            && ((r.dir == Vec3(Sign(local.x), 0.0, 0.0) && r.amount == ox)
                || (r.dir == Vec3(0.0, Sign(local.y), 0.0) && r.amount == oy)
                || (r.dir == Vec3(0.0, 0.0, Sign(local.z)) && r.amount == oz))
  {
    var ox := Overlap(local.x, half, minDist);
    var oy := Overlap(local.y, half, minDist);
    var oz := Overlap(local.z, half, minDist);
    if ox <= oy && ox <= oz then LocalPush(Vec3(Sign(local.x), 0.0, 0.0), ox)
    else if oy <= ox && oy <= oz then LocalPush(Vec3(0.0, Sign(local.y), 0.0), oy)
    else LocalPush(Vec3(0.0, 0.0, Sign(local.z)), oz)
  }

  /** The cube case: a drone within reach is pushed out along the rotated
      axis of least penetration, its velocity responds, and the latch fires
      whatever the push size. */
  function CubePass(m: MathLib, radH: real, p0: Vec3, o: Obstacle, size: real, b: Body): (r: Body)
    ensures LatchStep(b, r)
    ensures var local := m.rotate(Invert(o.rotation), Sub(p0, o.position));
            && (!InCubeReach(local, size / 2.0, radH) ==> r == b)
            && (InCubeReach(local, size / 2.0, radH) ==>
                  var push := CubeLocalPush(local, size / 2.0, radH);
                  && r == ApplyPush(b, m.rotate(o.rotation, push.dir), push.amount)
                  && r.hit && r.isColliding)
  {
    var local := m.rotate(Invert(o.rotation), Sub(p0, o.position));
    if InCubeReach(local, size / 2.0, radH) then
      var push := CubeLocalPush(local, size / 2.0, radH);
      ApplyPush(b, m.rotate(o.rotation, push.dir), push.amount)
    else b
  }

  /** The pole's test result in its own frame: whether there is contact, and
      the push to apply (applied only if positive along a non-degenerate
      direction). */
  datatype PoleContact = PoleContact(hit: bool, dir: Vec3, amount: real)

  /** Pole contact (src/physics.js:183-224): horizontally within reach and
      within, or near, the pole's height. Alongside the shaft the push is
      horizontal; beyond an end it points away from the end's axis point. */
  function PoleLocal(m: MathLib, local: Vec3, radius: real, height: real, radH: real, radV: real): (r: PoleContact)
    ensures var half := height / 2.0;
            var hd := m.sqrt(local.x * local.x + local.z * local.z);
            var insideH := -half <= local.y <= half;
            && (r.hit <==> hd < radius + radH && (insideH || Abs(local.y) - half < radV))
            && (r.hit && insideH ==> r.dir == Normalize(m, Vec3(local.x, 0.0, local.z)) && r.amount == radius + radH - hd)
            && (!r.hit ==> r.amount == 0.0 && r.dir == Zero)
  {
    var minDist := radius + radH;
    var half := height / 2.0;
    var clampedY := Max(-half, Min(half, local.y));
    var hd := m.sqrt(local.x * local.x + local.z * local.z);
    var yDist := Abs(local.y) - half;
    var insideH := local.y >= -half && local.y <= half;
    var nearH := yDist < radV;
    if hd < minDist && (insideH || nearH) then
      if insideH then
        PoleContact(true, Normalize(m, Vec3(local.x, 0.0, local.z)), minDist - hd)
      else
        var toEnd := Vec3(local.x, local.y - clampedY, local.z);
        var dl := Length(m, toEnd);
        if dl > 0.001 then PoleContact(true, Normalize(m, toEnd), minDist - dl)
        else PoleContact(true, Zero, 0.0)
    else PoleContact(false, Zero, 0.0)
  }

  /** Pushing a non-zero vector along its own direction by `target - |h|`
      leaves it with length `target`. */
  lemma PushAlongReaches(m: MathLib, h: Vec3, target: real)
    requires Lawful(m) && Norm2(h) > 0.0
    ensures Norm2(Add(h, Scale(Normalize(m, h), target - Length(m, h)))) == target * target
  {
    var hd := Length(m, h);
    LengthSquared(m, h);
    PositiveRoot(hd, Norm2(h));
    assert Normalize(m, h) == Scale(h, 1.0 / hd);
    PushAlongScaled(h, hd, target);
  }

  /** A non-negative root of a positive number is positive. */
  lemma PositiveRoot(r: real, x: real)
    requires r >= 0.0 && r * r == x && x > 0.0
    ensures r > 0.0
  {
    if r == 0.0 {
      assert false;
    }
  }

  /** The push along `h` divided by its length `hd`, with the square root
      already taken. */
  lemma PushAlongScaled(h: Vec3, hd: real, target: real)
    requires hd > 0.0 && Norm2(h) == hd * hd
    ensures Norm2(Add(h, Scale(Scale(h, 1.0 / hd), target - hd))) == target * target
  {
    FoldComponent(h.x, hd, target);
    FoldComponent(h.y, hd, target);
    FoldComponent(h.z, hd, target);
    assert Add(h, Scale(Scale(h, 1.0 / hd), target - hd)) == Scale(h, target / hd);
    ScaledToTarget(h, hd, target);
  }

  lemma ScaledToTarget(h: Vec3, hd: real, target: real)
    requires hd != 0.0 && Norm2(h) == hd * hd
    ensures Norm2(Scale(h, target / hd)) == target * target
  {
    Norm2Scale(h, target / hd);
    RatioSquared(target, hd);
  }

  lemma FoldComponent(x: real, hd: real, target: real)
    requires hd != 0.0
    ensures x + x * (1.0 / hd) * (target - hd) == x * (target / hd)
  {
    calc {
      x + x * (1.0 / hd) * (target - hd);
      x + x * (target / hd) - x * (hd / hd);
      x * (target / hd);
    }
  }

  lemma RatioSquared(target: real, hd: real)
    requires hd != 0.0
    ensures (target / hd) * (target / hd) * (hd * hd) == target * target
  {
    calc {
      (target / hd) * (target / hd) * (hd * hd);
      ((target / hd) * hd) * ((target / hd) * hd);
      target * target;
    }
  }

  /** Whenever the pole push is applied its local direction is a unit vector. */
  lemma PolePushIsUnit(m: MathLib, local: Vec3, radius: real, height: real, radH: real, radV: real)
    requires Lawful(m)
    ensures var c := PoleLocal(m, local, radius, height, radH, radV);
            c.amount > 0.0 && Length(m, c.dir) > 0.001 ==> Norm2(c.dir) == 1.0
  {
    var c := PoleLocal(m, local, radius, height, radH, radV);
    var half := height / 2.0;
    if c.amount > 0.0 && Length(m, c.dir) > 0.001 {
      if -half <= local.y <= half {
        var h := Vec3(local.x, 0.0, local.z);
        NormalizeNonZero(m, h);
        NormalizeUnit(m, h);
      } else {
        var toEnd := Vec3(local.x, local.y - Max(-half, Min(half, local.y)), local.z);
        NormalizeNonZero(m, toEnd);
        NormalizeUnit(m, toEnd);
      }
    }
  }

  /** Alongside the shaft the applied push is horizontal and brings the
      drone's horizontal distance from the axis to exactly `radius + radH`. */
  lemma PolePushReachesSurface(m: MathLib, local: Vec3, radius: real, height: real, radH: real, radV: real)
    requires Lawful(m)
    ensures var c := PoleLocal(m, local, radius, height, radH, radV);
            c.hit && -(height / 2.0) <= local.y <= height / 2.0 && c.amount > 0.0 && Length(m, c.dir) > 0.001 ==>
              c.dir.y == 0.0
              && Norm2(Add(Vec3(local.x, 0.0, local.z), Scale(c.dir, c.amount))) == (radius + radH) * (radius + radH)
  {
    var c := PoleLocal(m, local, radius, height, radH, radV);
    var h := Vec3(local.x, 0.0, local.z);
    if c.hit && -(height / 2.0) <= local.y <= height / 2.0 && c.amount > 0.0 && Length(m, c.dir) > 0.001 {
      assert Norm2(h) == local.x * local.x + local.z * local.z;
      NormalizeNonZero(m, h);
      PushAlongReaches(m, h, radius + radH);
    }
  }

  /** The pole case. */
  function PolePass(m: MathLib, radH: real, radV: real, p0: Vec3, o: Obstacle, radius: real, height: real, b: Body): (r: Body)
    ensures LatchStep(b, r)
    ensures var local := m.rotate(Invert(o.rotation), Sub(p0, o.position));
            var c := PoleLocal(m, local, radius, height, radH, radV);
            && (c.amount > 0.0 && Length(m, c.dir) > 0.001 ==> r == ApplyPush(b, m.rotate(o.rotation, c.dir), c.amount))
            && (!(c.amount > 0.0 && Length(m, c.dir) > 0.001) ==> r == b.(hit := b.hit || c.hit))
  {
    var local := m.rotate(Invert(o.rotation), Sub(p0, o.position));
    var c := PoleLocal(m, local, radius, height, radH, radV);
    if c.amount > 0.0 && Length(m, c.dir) > 0.001 then
      ApplyPush(b, m.rotate(o.rotation, c.dir), c.amount)
    else b.(hit := b.hit || c.hit)
  }

  /** Torus contact (src/physics.js:250-276): the distance from the tube's
      centre circle, of radius `outerRadius` in the local XY plane; the push
      points from the nearest circle point through the drone. */
  datatype TorusContact = TorusContact(hit: bool, localDir: Vec3, amount: real)

  /** Distance of a local point from the torus's centre circle. */
  function TubeDistance(m: MathLib, local: Vec3, outerRadius: real): real {
    var ringDist := m.sqrt(local.x * local.x + local.y * local.y);
    var toRing := ringDist - outerRadius;
    m.sqrt(toRing * toRing + local.z * local.z)
  }

  function TorusLocal(m: MathLib, local: Vec3, outerRadius: real, tubeRadius: real, radH: real): (r: TorusContact)
    ensures r.hit <==> TubeDistance(m, local, outerRadius) < tubeRadius + radH
    ensures r.hit ==> r.amount == tubeRadius + radH - TubeDistance(m, local, outerRadius) && r.amount > 0.0
    ensures !r.hit ==> r.amount == 0.0
  {
    var distToTube := TubeDistance(m, local, outerRadius);
    var minDist := tubeRadius + radH;
    if distToTube < minDist then
      var angle := m.atan2(local.y, local.x);
      var ringPoint := Vec3(m.cos(angle) * outerRadius, m.sin(angle) * outerRadius, 0.0);
      TorusContact(true, Normalize(m, Sub(local, ringPoint)), minDist - distToTube)
    else TorusContact(false, Zero, 0.0)
  }

  /** The torus case as the source writes it. `multiplyScalar` scales the
      direction vector in place, so the hover anchor is moved by `amount`
      squared and the velocity response uses a direction of length `amount`. */
  function TorusPassAsWritten(m: MathLib, radH: real, p0: Vec3, o: Obstacle, outerRadius: real, tubeRadius: real, b: Body): (r: Body)
    ensures LatchStep(b, r)
    ensures var c := TorusLocal(m, m.rotate(Invert(o.rotation), Sub(p0, o.position)), outerRadius, tubeRadius, radH);
            var d := m.rotate(o.rotation, c.localDir);
            && (!c.hit ==> r == b)
            && (c.hit ==>
                  && r.hit
                  && r.position == Add(b.position, Scale(d, c.amount))
                  && (b.basePosition.Some? <==> r.basePosition.Some?)
                  && (b.basePosition.Some? ==> r.basePosition.value == Add(b.basePosition.value, Scale(d, c.amount * c.amount)))
                  && r.velocity == PushVelocityResponse(b.velocity, Scale(d, c.amount)))
  {
    var local := m.rotate(Invert(o.rotation), Sub(p0, o.position));
    var c := TorusLocal(m, local, outerRadius, tubeRadius, radH);
    if c.hit then
      var d := m.rotate(o.rotation, c.localDir);
      var r := ScaledPush(b, d, c.amount);
      r
    else b
  }

  /** The as-written torus tail: the position moves by the scaled direction,
      then the anchor by that vector scaled once more, and the velocity
      responds to the scaled vector. */
  function ScaledPush(b: Body, d: Vec3, a: real): (r: Body)
    ensures r.hit && LatchStep(b, r)
    ensures r.position == Add(b.position, Scale(d, a))
    ensures r.basePosition == if b.basePosition.Some? then Some(Add(b.basePosition.value, Scale(d, a * a))) else None
    ensures r.velocity == PushVelocityResponse(b.velocity, Scale(d, a))
  {
    var scaled := Scale(d, a);
    ScaleTwice(d, a, a);
    var moved := b.(position := Add(b.position, scaled),
                    basePosition := if b.basePosition.Some? then Some(Add(b.basePosition.value, Scale(scaled, a))) else None);
    Latch(moved.(velocity := PushVelocityResponse(b.velocity, scaled), hit := true))
  }

  lemma ScaleTwice(v: Vec3, a: real, k: real)
    ensures Scale(Scale(v, a), k) == Scale(v, a * k)
  {
  }

  /** The torus case as intended: the same push for position and anchor and
      the unit-direction velocity response used for the cube and the pole. */
  function TorusPass(m: MathLib, radH: real, p0: Vec3, o: Obstacle, outerRadius: real, tubeRadius: real, b: Body): (r: Body)
    ensures LatchStep(b, r)
    ensures var local := m.rotate(Invert(o.rotation), Sub(p0, o.position));
            var c := TorusLocal(m, local, outerRadius, tubeRadius, radH);
            && (c.hit ==> r == ApplyPush(b, m.rotate(o.rotation, c.localDir), c.amount))
            && (!c.hit ==> r == b)
  {
    var local := m.rotate(Invert(o.rotation), Sub(p0, o.position));
    var c := TorusLocal(m, local, outerRadius, tubeRadius, radH);
    if c.hit then ApplyPush(b, m.rotate(o.rotation, c.localDir), c.amount) else b
  }

  /** As written, against a unit push direction `dir` and push `a`: the anchor
      moves by `a*a` instead of `a`, and an inward velocity component keeps
      the fraction `1 - 1.5*a*a` of itself instead of reversing to -0.5. */
  lemma TorusAsWrittenResponse(b: Body, dir: Vec3, a: real)
    requires Norm2(dir) == 1.0 && a > 0.0 && Dot(b.velocity, dir) < 0.0
    ensures var scaled := Scale(dir, a);
            var v := PushVelocityResponse(b.velocity, scaled);
            Dot(v, dir) == Dot(b.velocity, dir) * (1.0 - 1.5 * a * a)
  {
    ScaledPushKeeps(b.velocity, dir, a);
  }

  /** The as-written response on a bare velocity vector. */
  lemma ScaledPushKeeps(u: Vec3, dir: Vec3, a: real)
    requires Norm2(dir) == 1.0 && a > 0.0 && Dot(u, dir) < 0.0
    ensures Dot(PushVelocityResponse(u, Scale(dir, a)), dir) == Dot(u, dir) * (1.0 - 1.5 * a * a)
  {
    var scaled := Scale(dir, a);
    var vd := Dot(u, dir);
    assert Dot(u, scaled) == a * vd by {
      DotScaleRight(u, dir, a);
    }
    assert a * vd < 0.0 by {
      NegativeProduct(a, vd);
    }
    var c := Cancel(u, scaled, a * vd);
    assert PushVelocityResponse(u, scaled) == c;
    assert Dot(c, dir) == vd - a * vd * 1.5 * a by {
      UnitScaledDot(dir, a);
      CancelAlong(u, scaled, a * vd, dir, a);
    }
    KeptFraction(vd, a);
  }

  lemma DotScaleRight(v: Vec3, d: Vec3, k: real)
    ensures Dot(v, Scale(d, k)) == k * Dot(v, d)
  {
  }

  /** The component of a cancelled velocity along a direction `d`, given the
      normal's own component `k` along `d`. */
  lemma CancelAlong(v: Vec3, n: Vec3, along: real, d: Vec3, k: real)
    requires Dot(n, d) == k
    ensures Dot(Cancel(v, n, along), d) == Dot(v, d) - along * 1.5 * k
  {
  }

  lemma UnitScaledDot(dir: Vec3, a: real)
    requires Norm2(dir) == 1.0
    ensures Dot(Scale(dir, a), dir) == a
  {
    DotScale(dir, dir, a);
  }

  lemma NegativeProduct(a: real, x: real)
    requires a > 0.0 && x < 0.0
    ensures a * x < 0.0
  {
  }

  lemma KeptFraction(vd: real, a: real)
    ensures vd - a * vd * 1.5 * a == vd * (1.0 - 1.5 * a * a)
  {
  }

  /** A concrete case: a torus contact that pushes 0.1 along a unit direction
      `d` while the drone moves at 1 m/frame against it. As written, the drone
      keeps moving into the tube at 0.985 and its anchor moves 0.01 along `d`;
      the corrected pass bounces it back at 0.5 and moves the anchor by 0.1,
      the same as the position. */
  lemma TorusAsWrittenCounterexample(m: MathLib, radH: real, p0: Vec3, o: Obstacle, outer: real, tube: real, b: Body)
    requires var c := TorusLocal(m, m.rotate(Invert(o.rotation), Sub(p0, o.position)), outer, tube, radH);
             var d := m.rotate(o.rotation, c.localDir);
             c.hit && c.amount == 0.1 && Norm2(d) == 1.0 && b.velocity == Scale(d, -1.0) && b.basePosition.Some?
    ensures var c := TorusLocal(m, m.rotate(Invert(o.rotation), Sub(p0, o.position)), outer, tube, radH);
            var d := m.rotate(o.rotation, c.localDir);
            var w := TorusPassAsWritten(m, radH, p0, o, outer, tube, b);
            var t := TorusPass(m, radH, p0, o, outer, tube, b);
            && Dot(w.velocity, d) == -0.985 && Dot(t.velocity, d) == 0.5
            && w.basePosition == Some(Add(b.basePosition.value, Scale(d, 0.01)))
            && t.basePosition == Some(Add(b.basePosition.value, Scale(d, 0.1)))
            && w.position == t.position
  {
    var c := TorusLocal(m, m.rotate(Invert(o.rotation), Sub(p0, o.position)), outer, tube, radH);
    var d := m.rotate(o.rotation, c.localDir);
    DotScale(d, d, -1.0);
    ScaledPushKeeps(b.velocity, d, 0.1);
    assert -1.0 * (1.0 - 1.5 * 0.1 * 0.1) == -0.985;
    TorusCorrectedResponse(b, d, 0.1, Zero);
  }

  /** The corrected torus response reverses an inward component to -0.5 of
      itself and moves position and anchor by the same push. */
  lemma TorusCorrectedResponse(b: Body, dir: Vec3, a: real, t: Vec3)
    requires Norm2(dir) == 1.0 && b.basePosition.Some?
    ensures var r := ApplyPush(b, dir, a);
            && (Dot(b.velocity, dir) < 0.0 ==> Dot(r.velocity, dir) == -0.5 * Dot(b.velocity, dir))
            && r.basePosition == Some(Add(b.basePosition.value, Scale(dir, a)))
            && r.position == Add(b.position, Scale(dir, a))
  {
    PushResponseReflects(b.velocity, dir, t);
  }

  /** One obstacle; only objects flagged as obstacles take part. */
  function ObstaclePass(m: MathLib, radH: real, radV: real, p0: Vec3, o: Obstacle, b: Body): (r: Body)
    ensures LatchStep(b, r)
    ensures !o.isObstacle || o.shape.OtherShape? ==> r == b
  {
    if !o.isObstacle then b
    else
      match o.shape
      case Cube(size) => CubePass(m, radH, p0, o, size, b)
      case Pole(radius, height) => PolePass(m, radH, radV, p0, o, radius, height, b)
      case Torus(outer, tube) => TorusPass(m, radH, p0, o, outer, tube, b)
      case OtherShape => b
  }

  function ObstaclesPass(m: MathLib, radH: real, radV: real, p0: Vec3, obstacles: seq<Obstacle>, b: Body): (r: Body)
    ensures LatchStep(b, r)
    decreases |obstacles|
  {
    if |obstacles| == 0 then b
    else ObstaclesPass(m, radH, radV, p0, obstacles[1..], ObstaclePass(m, radH, radV, p0, obstacles[0], b))
  }

  /** Some detected plane is within reach of the snapshot. */
  predicate AnyPlaneContact(m: MathLib, radH: real, radV: real, p0: Vec3, planes: seq<PlaneEntry>) {
    exists i :: 0 <= i < |planes| && PlaneContact(m, radH, radV, p0, planes[i].data)
  }

  /** The snapshot touches an obstacle: a flagged cube, pole or torus whose
      own test reports contact. */
  predicate ObstacleContact(m: MathLib, radH: real, radV: real, p0: Vec3, o: Obstacle) {
    var local := m.rotate(Invert(o.rotation), Sub(p0, o.position));
    && o.isObstacle
    && match o.shape
       case Cube(size) => InCubeReach(local, size / 2.0, radH)
       case Pole(radius, height) => PoleLocal(m, local, radius, height, radH, radV).hit
       case Torus(outer, tube) => TorusLocal(m, local, outer, tube, radH).hit
       case OtherShape => false
  }

  predicate AnyObstacleContact(m: MathLib, radH: real, radV: real, p0: Vec3, obstacles: seq<Obstacle>) {
    exists i :: 0 <= i < |obstacles| && ObstacleContact(m, radH, radV, p0, obstacles[i])
  }

  /** The snapshot touches a detected plane, the floor or an obstacle. */
  predicate InContact(m: MathLib, s: Sim) {
    var p0 := s.drone.position;
    || AnyPlaneContact(m, s.tuning.radiusHorizontal, s.tuning.radiusVertical, p0, s.planes)
    || p0.y < s.tuning.radiusVertical
    || AnyObstacleContact(m, s.tuning.radiusHorizontal, s.tuning.radiusVertical, p0, s.obstacles)
  }

  /** One obstacle reports a collision exactly when it is touched, and leaves
      the body alone otherwise. */
  lemma ObstaclePassHit(m: MathLib, radH: real, radV: real, p0: Vec3, o: Obstacle, b: Body)
    ensures var r := ObstaclePass(m, radH, radV, p0, o, b);
            && (r.hit <==> b.hit || ObstacleContact(m, radH, radV, p0, o))
            && (!ObstacleContact(m, radH, radV, p0, o) ==> r == b)
  {
  }

  /** The planes fold finds a collision exactly when some plane is touched,
      and is the identity when none is. */
  lemma {:induction false} PlanesPassHit(m: MathLib, radH: real, radV: real, p0: Vec3, planes: seq<PlaneEntry>, b: Body)
    ensures var r := PlanesPass(m, radH, radV, p0, planes, b);
            && (r.hit <==> b.hit || AnyPlaneContact(m, radH, radV, p0, planes))
            && (!AnyPlaneContact(m, radH, radV, p0, planes) ==> r == b)
    decreases |planes|
  {
    if |planes| > 0 {
      var tail := planes[1..];
      var b1 := PlanePass(m, radH, radV, p0, planes[0].data, b);
      PlanesPassHit(m, radH, radV, p0, tail, b1);
      assert forall k :: 0 <= k < |tail| ==> tail[k] == planes[k + 1];
      if AnyPlaneContact(m, radH, radV, p0, planes) && !PlaneContact(m, radH, radV, p0, planes[0].data) {
        var i :| 0 <= i < |planes| && PlaneContact(m, radH, radV, p0, planes[i].data);
        assert PlaneContact(m, radH, radV, p0, tail[i - 1].data);
      }
      if AnyPlaneContact(m, radH, radV, p0, tail) {
        var k :| 0 <= k < |tail| && PlaneContact(m, radH, radV, p0, tail[k].data);
        assert PlaneContact(m, radH, radV, p0, planes[k + 1].data);
      }
    }
  }

  /** The obstacles fold, likewise. */
  lemma {:induction false} ObstaclesPassHit(m: MathLib, radH: real, radV: real, p0: Vec3, obstacles: seq<Obstacle>, b: Body)
    ensures var r := ObstaclesPass(m, radH, radV, p0, obstacles, b);
            && (r.hit <==> b.hit || AnyObstacleContact(m, radH, radV, p0, obstacles))
            && (!AnyObstacleContact(m, radH, radV, p0, obstacles) ==> r == b)
    decreases |obstacles|
  {
    if |obstacles| > 0 {
      var tail := obstacles[1..];
      var b1 := ObstaclePass(m, radH, radV, p0, obstacles[0], b);
      ObstaclePassHit(m, radH, radV, p0, obstacles[0], b);
      ObstaclesPassHit(m, radH, radV, p0, tail, b1);
      assert forall k :: 0 <= k < |tail| ==> tail[k] == obstacles[k + 1];
      if AnyObstacleContact(m, radH, radV, p0, obstacles) && !ObstacleContact(m, radH, radV, p0, obstacles[0]) {
        var i :| 0 <= i < |obstacles| && ObstacleContact(m, radH, radV, p0, obstacles[i]);
        assert ObstacleContact(m, radH, radV, p0, tail[i - 1]);
      }
      if AnyObstacleContact(m, radH, radV, p0, tail) {
        var k :| 0 <= k < |tail| && ObstacleContact(m, radH, radV, p0, tail[k]);
        assert ObstacleContact(m, radH, radV, p0, obstacles[k + 1]);
      }
    }
  }

  /** The three passes in sequence, from a body with no collision yet: a
      collision is found exactly when the snapshot touches a plane, the floor
      or an obstacle, and without contact nothing changes. */
  lemma ResolverHits(m: MathLib, radH: real, radV: real, p0: Vec3, planes: seq<PlaneEntry>, obstacles: seq<Obstacle>, b0: Body)
    requires !b0.hit
    ensures var b3 := ObstaclesPass(m, radH, radV, p0, obstacles, FloorPass(radV, p0, PlanesPass(m, radH, radV, p0, planes, b0)));
            var touched := AnyPlaneContact(m, radH, radV, p0, planes) || p0.y < radV || AnyObstacleContact(m, radH, radV, p0, obstacles);
            && (b3.hit <==> touched)
            && (!touched ==> b3 == b0)
  {
    var b1 := PlanesPass(m, radH, radV, p0, planes, b0);
    PlanesPassHit(m, radH, radV, p0, planes, b0);
    ObstaclesPassHit(m, radH, radV, p0, obstacles, FloorPass(radV, p0, b1));
  }

  /** What one call returns: the new state and the source's return value. */
  datatype CollisionOutcome = CollisionOutcome(sim: Sim, hasCollision: bool)

  /** The whole resolver. The crash sound fires at most once per call and only
      if the flag was clear; a set flag is cleared only by a call that finds
      no collision, and a call that finds none always clears it. Only the
      drone's position and anchor, the flight velocity, the flag and the
      sound count change. */
  function CheckPlaneCollision(m: MathLib, s: Sim): (r: CollisionOutcome)
    ensures !s.droneLoaded || !s.dronePositioned ==> r == CollisionOutcome(s, false)
    ensures r.sim.crashSounds <= s.crashSounds + 1
    ensures r.sim.crashSounds == s.crashSounds + 1 ==> !s.isColliding && r.sim.isColliding
    ensures s.droneLoaded && s.dronePositioned && !r.hasCollision ==>
              !r.sim.isColliding && r.sim.crashSounds == s.crashSounds
    ensures s.isColliding && !r.sim.isColliding ==> !r.hasCollision
    ensures s.isColliding && r.hasCollision ==> r.sim.isColliding
    ensures r.sim == s.(drone := r.sim.drone, motion := r.sim.motion,
                        isColliding := r.sim.isColliding, crashSounds := r.sim.crashSounds)
    ensures r.sim.drone == s.drone.(position := r.sim.drone.position, basePosition := r.sim.drone.basePosition)
    ensures r.sim.motion == s.motion.(velocity := r.sim.motion.velocity)
    ensures s.droneLoaded && s.dronePositioned ==> (r.hasCollision <==> InContact(m, s))
    ensures s.droneLoaded && s.dronePositioned && !InContact(m, s) ==> r.sim == s.(isColliding := false)
  {
    if !s.droneLoaded || !s.dronePositioned then CollisionOutcome(s, false)
    else
      var p0 := s.drone.position;
      var radH := s.tuning.radiusHorizontal;
      var radV := s.tuning.radiusVertical;
      var b0 := Body(p0, s.drone.basePosition, s.motion.velocity, s.isColliding, s.crashSounds, false);
      var b1 := PlanesPass(m, radH, radV, p0, s.planes, b0);
      var b2 := FloorPass(radV, p0, b1);
      var b3 := ObstaclesPass(m, radH, radV, p0, s.obstacles, b2);
      LatchStepTransitive(b0, b1, b2);
      LatchStepTransitive(b0, b2, b3);
      ResolverHits(m, radH, radV, p0, s.planes, s.obstacles, b0);
      CollisionOutcome(
        s.(drone := s.drone.(position := b3.position, basePosition := b3.basePosition),
           motion := s.motion.(velocity := b3.velocity),
           isColliding := if b3.hit then b3.isColliding else false,
           crashSounds := b3.crashSounds),
        b3.hit)
  }

  /** With no planes and no obstacles, a drone below the vertical radius ends
      exactly at it, with a downward velocity reflected to half its speed. */
  lemma FloorOnlyScene(m: MathLib, s: Sim)
    requires s.droneLoaded && s.dronePositioned && s.planes == [] && s.obstacles == []
    requires s.drone.position.y < s.tuning.radiusVertical
    ensures var r := CheckPlaneCollision(m, s);
            && r.hasCollision
            && r.sim.drone.position.y == s.tuning.radiusVertical
            && (s.motion.velocity.y < 0.0 ==> r.sim.motion.velocity.y == -0.5 * s.motion.velocity.y)
            && (s.motion.velocity.y >= 0.0 ==> r.sim.motion.velocity == s.motion.velocity)
  {
  }
}
