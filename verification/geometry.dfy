/** Vectors, quaternions and scalar helpers shared by the simulation kernel.

    The kernel runs on three.js doubles; here every quantity is a `real`.
    Square root, sine, cosine, atan2 and quaternion rotation are not computed:
    they are carried by a `MathLib` record, and `Lawful` states the few laws
    the proofs rely on. */
module Geometry {

  datatype Option<+T> = None | Some(value: T) {
    function GetOr(default: T): T {
      match this
      case Some(v) => v
      case None => default
    }
  }

  datatype Vec3 = Vec3(x: real, y: real, z: real)

  const Zero: Vec3 := Vec3(0.0, 0.0, 0.0)
  const Up: Vec3 := Vec3(0.0, 1.0, 0.0)

  function Add(a: Vec3, b: Vec3): Vec3 { Vec3(a.x + b.x, a.y + b.y, a.z + b.z) }
  function Sub(a: Vec3, b: Vec3): Vec3 { Vec3(a.x - b.x, a.y - b.y, a.z - b.z) }
  function Scale(v: Vec3, k: real): Vec3 { Vec3(v.x * k, v.y * k, v.z * k) }
  function Dot(a: Vec3, b: Vec3): real { a.x * b.x + a.y * b.y + a.z * b.z }
  function Norm2(v: Vec3): real { Dot(v, v) }

  /** `Vector3.lerp(target, t)`. */
  function Lerp(a: Vec3, b: Vec3, t: real): Vec3 { Add(a, Scale(Sub(b, a), t)) }

  /** The vector with its vertical component dropped (`v.y = 0`). */
  function Flatten(v: Vec3): Vec3 { Vec3(v.x, 0.0, v.z) }

  function Abs(x: real): real { if x < 0.0 then -x else x }
  function Min(a: real, b: real): real { if a <= b then a else b }
  function Max(a: real, b: real): real { if a >= b then a else b }

  /** `Math.max(lo, Math.min(hi, x))`. */
  function Clamp(x: real, lo: real, hi: real): (r: real)
    requires lo <= hi
    ensures lo <= r <= hi
    ensures lo <= x <= hi ==> r == x
  {
    Max(lo, Min(hi, x))
  }

  /** `Math.sign`: zero maps to zero. */
  function Sign(x: real): real { if x > 0.0 then 1.0 else if x < 0.0 then -1.0 else 0.0 }

  /** `Math.PI` as a real. */
  const Pi: real := 3.141592653589793

  datatype Quat = Quat(x: real, y: real, z: real, w: real)

  /** `Quaternion.invert()`: three.js conjugates, assuming a unit quaternion. */
  function Invert(q: Quat): Quat { Quat(-q.x, -q.y, -q.z, q.w) }

  /** The transcendental and rotation primitives the kernel calls. */
  datatype MathLib = MathLib(
    sqrt: real -> real,
    sin: real -> real,
    cos: real -> real,
    atan2: (real, real) -> real,
    rotate: (Quat, Vec3) -> Vec3)

  /** The laws assumed of the primitives: the square root is the non-negative
      root, sine and cosine lie in [-1, 1], rotation preserves length and
      rotating by the inverse undoes a rotation. */
  ghost predicate Lawful(m: MathLib) {
    && (forall x: real :: 0.0 <= x ==> 0.0 <= m.sqrt(x) && m.sqrt(x) * m.sqrt(x) == x)
    && (forall x: real :: -1.0 <= m.sin(x) <= 1.0)
    && (forall x: real :: -1.0 <= m.cos(x) <= 1.0)
    && (forall q: Quat, v: Vec3 :: Norm2(m.rotate(q, v)) == Norm2(v))
    && (forall q: Quat, v: Vec3 {:trigger m.rotate(Invert(q), m.rotate(q, v))} ::
          m.rotate(Invert(q), m.rotate(q, v)) == v)
    && (forall q: Quat, v: Vec3 {:trigger m.rotate(q, m.rotate(Invert(q), v))} ::
          m.rotate(q, m.rotate(Invert(q), v)) == v)
  }

  /** `Vector3.length()`. */
  function Length(m: MathLib, v: Vec3): real { m.sqrt(Norm2(v)) }

  /** `Vector3.normalize()`: divides by `length() || 1`, so the zero vector stays zero. */
  function Normalize(m: MathLib, v: Vec3): Vec3 {
    var len := Length(m, v);
    if len == 0.0 then v else Scale(v, 1.0 / len)
  }

  /** `Quaternion.setFromAxisAngle((0, 1, 0), angle)`. */
  function YawQuat(m: MathLib, angle: real): Quat {
    Quat(0.0, m.sin(angle / 2.0), 0.0, m.cos(angle / 2.0))
  }

  /** A lawful rotation of the up vector is a unit vector. */
  lemma RotatedUpIsUnit(m: MathLib, q: Quat)
    requires Lawful(m)
    ensures Norm2(m.rotate(q, Up)) == 1.0
  {
    assert Norm2(m.rotate(q, Up)) == Norm2(Up);
  }

  lemma Norm2NonNegative(v: Vec3)
    ensures Norm2(v) >= 0.0
  {
    assert v.x * v.x >= 0.0 && v.y * v.y >= 0.0 && v.z * v.z >= 0.0;
  }

  lemma Norm2Scale(v: Vec3, k: real)
    ensures Norm2(Scale(v, k)) == k * k * Norm2(v)
  {
    calc {
      Norm2(Scale(v, k));
      (v.x * k) * (v.x * k) + (v.y * k) * (v.y * k) + (v.z * k) * (v.z * k);
      k * k * (v.x * v.x + v.y * v.y + v.z * v.z);
    }
  }

  lemma DotScale(a: Vec3, b: Vec3, k: real)
    ensures Dot(Scale(a, k), b) == k * Dot(a, b)
  {
  }

  /** Length is the non-negative root of the squared norm. */
  lemma LengthSquared(m: MathLib, v: Vec3)
    requires Lawful(m)
    ensures Length(m, v) >= 0.0
    ensures Length(m, v) * Length(m, v) == Norm2(v)
  {
    Norm2NonNegative(v);
  }

  /** Squaring is strictly increasing on the non-negative reals. */
  lemma SquareMonotone(a: real, b: real)
    requires 0.0 <= a && 0.0 <= b
    ensures a < b <==> a * a < b * b
    ensures a <= b <==> a * a <= b * b
  {
    if a < b {
      StrictSquare(a, b);
    } else if a == b {
    } else {
      StrictSquare(b, a);
    }
  }

  lemma StrictSquare(a: real, b: real)
    requires 0.0 <= a < b
    ensures a * a < b * b
  {
    var ab := a * b;
    assert a * a <= ab by { assert a * (b - a) >= 0.0; }
    assert ab < b * b by { assert (b - a) * b > 0.0; }
  }

  /** Comparing a length with a non-negative bound is comparing squares. */
  lemma LengthBelow(m: MathLib, v: Vec3, bound: real)
    requires Lawful(m) && bound >= 0.0
    ensures Length(m, v) < bound <==> Norm2(v) < bound * bound
    ensures Length(m, v) <= bound <==> Norm2(v) <= bound * bound
  {
    LengthSquared(m, v);
    SquareMonotone(Length(m, v), bound);
  }

  /** A non-zero vector normalizes to unit length; the zero vector stays zero. */
  lemma NormalizeUnit(m: MathLib, v: Vec3)
    requires Lawful(m)
    ensures Norm2(v) > 0.0 ==> Norm2(Normalize(m, v)) == 1.0
    ensures Norm2(v) == 0.0 ==> Normalize(m, v) == v
  {
    LengthSquared(m, v);
    var l := Length(m, v);
    if Norm2(v) > 0.0 {
      assert l != 0.0;
      Norm2Scale(v, 1.0 / l);
      assert (1.0 / l) * (1.0 / l) * (l * l) == 1.0;
    } else {
      assert l * l == 0.0;
    }
  }

  /** A normalized vector has positive length only if the input was non-zero. */
  lemma NormalizeNonZero(m: MathLib, v: Vec3)
    requires Lawful(m)
    ensures Length(m, Normalize(m, v)) > 0.0 ==> Norm2(v) > 0.0
  {
    Norm2NonNegative(v);
    if Norm2(v) == 0.0 {
      LengthSquared(m, v);
      SquareMonotone(Length(m, v), 0.0);
      assert Normalize(m, v) == v;
    }
  }

  /** Length of a normalized vector is 1 or 0. */
  lemma NormalizeLength(m: MathLib, v: Vec3)
    requires Lawful(m)
    ensures Norm2(v) > 0.0 ==> Length(m, Normalize(m, v)) == 1.0
    ensures Norm2(v) == 0.0 ==> Length(m, Normalize(m, v)) == 0.0
  {
    NormalizeUnit(m, v);
    var u := Normalize(m, v);
    LengthSquared(m, u);
    var l := Length(m, u);
    if Norm2(v) > 0.0 {
      assert l * l == 1.0 * 1.0;
      SquareMonotone(l, 1.0);
    } else {
      assert l * l == 0.0;
    }
  }

  /** The source's angle-normalising loops: subtract 2π while above π, then add 2π while below −π. */
  function WrapDown(d: real): (r: real)
    ensures r <= Pi
    ensures d <= Pi ==> r == d
    ensures r > -Pi || r == d
    decreases if d > Pi then d.Floor else 0
  {
    if d > Pi then WrapDown(d - 2.0 * Pi) else d
  }

  function WrapUp(d: real): (r: real)
    ensures r >= -Pi
    ensures d >= -Pi ==> r == d
    ensures d <= Pi ==> r <= Pi
    decreases if d < -Pi then (-d).Floor else 0
  {
    if d < -Pi then WrapUp(d + 2.0 * Pi) else d
  }

  /** The heading error after both loops lies in [−π, π] and is unchanged when already there. */
  function WrapAngle(d: real): (r: real)
    ensures -Pi <= r <= Pi
    ensures -Pi <= d <= Pi ==> r == d
  {
    WrapUp(WrapDown(d))
  }

  /** Number of whole turns the wrap removes: the result differs from the input by a multiple of 2π. */
  function WrapTurns(d: real): int {
    if d > Pi then WrapTurnsDown(d) else WrapTurnsUp(d)
  }

  function WrapTurnsDown(d: real): int
    decreases if d > Pi then d.Floor else 0
  {
    if d > Pi then WrapTurnsDown(d - 2.0 * Pi) - 1 else WrapTurnsUp(d)
  }

  function WrapTurnsUp(d: real): int
    decreases if d < -Pi then (-d).Floor else 0
  {
    if d < -Pi then WrapTurnsUp(d + 2.0 * Pi) + 1 else 0
  }

  lemma {:induction false} WrapUpTurns(d: real)
    ensures WrapUp(d) == d + 2.0 * Pi * (WrapTurnsUp(d) as real)
    decreases if d < -Pi then (-d).Floor else 0
  {
    if d < -Pi {
      WrapUpTurns(d + 2.0 * Pi);
    }
  }

  lemma {:induction false} WrapDownTurns(d: real)
    ensures WrapUp(WrapDown(d)) == d + 2.0 * Pi * (WrapTurnsDown(d) as real)
    decreases if d > Pi then d.Floor else 0
  {
    if d > Pi {
      WrapDownTurns(d - 2.0 * Pi);
    } else {
      WrapUpTurns(d);
    }
  }

  /** Wrapping only adds whole turns: `WrapAngle(d) = d + 2π·k`. */
  lemma WrapAngleCoterminal(d: real)
    ensures WrapAngle(d) == d + 2.0 * Pi * (WrapTurns(d) as real)
  {
    if d > Pi {
      WrapDownTurns(d);
    } else {
      WrapUpTurns(d);
    }
  }
}
