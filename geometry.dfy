/**
 * Idealised Unity vector arithmetic over the reals.
 *
 * `Vector3` becomes `Vec3`; addition, subtraction, scaling, squared magnitude and
 * `Vector3.Lerp` are exact. Square roots (`magnitude`, `Vector3.Distance`),
 * `normalized` and the rotation calls have no exact real counterpart, so they are
 * supplied by a `VectorMath` value whose `Valid()` states the little the model relies on.
 */
module Geometry {

  datatype Vec3 = Vec3(x: real, y: real, z: real)

  /** A strictly positive real, such as a grid cell size. */
  type Positive = r: real | r > 0.0 witness 1.0

  const Zero := Vec3(0.0, 0.0, 0.0)

  function Add(a: Vec3, b: Vec3): Vec3 {
    Vec3(a.x + b.x, a.y + b.y, a.z + b.z)
  }

  function Sub(a: Vec3, b: Vec3): Vec3 {
    Vec3(a.x - b.x, a.y - b.y, a.z - b.z)
  }

  function Scale(a: Vec3, k: real): Vec3 {
    Vec3(a.x * k, a.y * k, a.z * k)
  }

  /** `sqrMagnitude` */
  function SqNorm(a: Vec3): real {
    a.x * a.x + a.y * a.y + a.z * a.z
  }

  /** Squared Euclidean distance, the exact stand-in for `Vector3.Distance` squared. */
  function DistSq(a: Vec3, b: Vec3): real {
    SqNorm(Sub(a, b))
  }

  /** The ground-plane part of a vector: `new Vector3(v.x, 0, v.z)`. */
  function Horizontal(v: Vec3): Vec3 {
    Vec3(v.x, 0.0, v.z)
  }

  /** `Mathf.Clamp01` */
  function Clamp01(t: real): (r: real)
    ensures 0.0 <= r <= 1.0
    ensures t <= 0.0 ==> r == 0.0
    ensures t >= 1.0 ==> r == 1.0
    ensures 0.0 <= t <= 1.0 ==> r == t
  {
    if t < 0.0 then 0.0 else if t > 1.0 then 1.0 else t
  }

  /** `Vector3.Lerp`, which clamps its parameter to [0, 1]. */
  function Lerp(a: Vec3, b: Vec3, t: real): Vec3 {
    Add(a, Scale(Sub(b, a), Clamp01(t)))
  }

  /**
   * The vector operations the model does not compute itself.
   * `length` is `magnitude`, `normalized` is `normalized` and `turn(from, dir, t)` is
   * `Quaternion.Slerp(from, Quaternion.LookRotation(dir.normalized), t)` on headings.
   */
  datatype VectorMath = VectorMath(
    length: Vec3 -> real,
    normalized: Vec3 -> Vec3,
    turn: (Vec3, Vec3, real) -> Vec3)
  {
    /** `length` is the Euclidean norm and `normalized` never lengthens past 1. */
    ghost predicate Valid() {
      && (forall v :: length(v) >= 0.0 && length(v) * length(v) == SqNorm(v))
      && (forall v :: SqNorm(normalized(v)) <= 1.0)
    }

    /** `Vector3.Distance(a, b)` */
    function Distance(a: Vec3, b: Vec3): real {
      length(Sub(a, b))
    }

    /** The heading after `rb.MoveRotation(Quaternion.Slerp(from, LookRotation(dir.normalized), t))`. */
    function Turn(from: Vec3, dir: Vec3, t: real): Vec3 {
      turn(from, dir, t)
    }

    /** `Vector3.ClampMagnitude(v, m)` */
    function ClampMagnitude(v: Vec3, m: real): Vec3 {
      if SqNorm(v) > m * m then Scale(normalized(v), m) else v
    }

    /** `if (v.magnitude > 1) v.Normalize();` */
    function ClampUnit(v: Vec3): Vec3 {
      if length(v) > 1.0 then normalized(v) else v
    }
  }

  lemma MulMono(a: real, b: real, c: real)
    requires a <= b && c >= 0.0
    ensures a * c <= b * c
  {
    assert (b - a) * c >= 0.0;
  }

  lemma MulStrict(a: real, b: real, c: real)
    requires a < b && c > 0.0
    ensures a * c < b * c
  {
    assert (b - a) * c > 0.0;
  }

  lemma NonPositiveProduct(a: real, b: real)
    requires a <= 0.0 && b >= 0.0
    ensures a * b <= 0.0
  {
    MulMono(a, 0.0, b);
  }

  lemma SquareMonotone(a: real, b: real)
    requires 0.0 <= a <= b
    ensures a * a <= b * b
  {
    MulMono(a, b, a);
    MulMono(a, b, b);
  }

  lemma SquareStrict(a: real, b: real)
    requires 0.0 <= a < b
    ensures a * a < b * b
  {
    calc {
      a * a;
    <= { MulMono(a, b, a); }
      b * a;
    == a * b;
    < { MulStrict(a, b, b); }
      b * b;
    }
  }

  /** A length compared with a non-negative bound is the squared length compared with its square. */
  lemma LengthVersusSquare(vm: VectorMath, v: Vec3, r: real)
    requires vm.Valid() && r >= 0.0
    ensures vm.length(v) <= r <==> SqNorm(v) <= r * r
    ensures vm.length(v) < r <==> SqNorm(v) < r * r
  {
    var l := vm.length(v);
    assert l >= 0.0 && l * l == SqNorm(v);
    if l <= r { SquareMonotone(l, r); } else { SquareStrict(r, l); }
    if l < r { SquareStrict(l, r); } else { SquareMonotone(r, l); }
  }

  lemma ClampMagnitudeBound(vm: VectorMath, v: Vec3, m: real)
    requires vm.Valid() && m >= 0.0
    ensures SqNorm(vm.ClampMagnitude(v, m)) <= m * m
    ensures SqNorm(v) <= m * m ==> vm.ClampMagnitude(v, m) == v
  {
    if SqNorm(v) > m * m {
      var n := vm.normalized(v);
      assert SqNorm(n) <= 1.0;
      calc {
        SqNorm(Scale(n, m));
        (n.x * m) * (n.x * m) + (n.y * m) * (n.y * m) + (n.z * m) * (n.z * m);
        SqNorm(n) * (m * m);
      <=  { assert m * m >= 0.0; }
        m * m;
      }
    }
  }

  /** After `if (magnitude > 1) Normalize()`, the squared magnitude is at most 1. */
  lemma ClampUnitBound(vm: VectorMath, v: Vec3)
    requires vm.Valid()
    ensures SqNorm(vm.ClampUnit(v)) <= 1.0
    ensures vm.length(v) <= 1.0 ==> vm.ClampUnit(v) == v
  {
    LengthVersusSquare(vm, v, 1.0);
  }

  /** A coordinate difference is bounded by the distance. */
  lemma CoordinateWithinDistance(a: Vec3, b: Vec3, r: real)
    requires r >= 0.0 && DistSq(a, b) <= r * r
    ensures -r <= a.x - b.x <= r && -r <= a.z - b.z <= r
  {
    var dx, dz := a.x - b.x, a.z - b.z;
    assert dx * dx <= SqNorm(Sub(a, b)) && dz * dz <= SqNorm(Sub(a, b));
    assert (-dx) * (-dx) == dx * dx && (-dz) * (-dz) == dz * dz;
    if dx > r { SquareStrict(r, dx); }
    if -dx > r { SquareStrict(r, -dx); }
    if dz > r { SquareStrict(r, dz); }
    if -dz > r { SquareStrict(r, -dz); }
  }

  /** `Mathf.FloorToInt(a / g)`: the index of the grid cell holding coordinate `a`. */
  function CellIndex(a: real, g: Positive): (k: int)
    ensures k as real * g <= a < (k + 1) as real * g
  {
    var q := a / g;
    var k := q.Floor;
    assert q * g == a;
    MulMono(k as real, q, g);
    MulStrict(q, (k + 1) as real, g);
    k
  }

  /** Two cell indices whose lower corners are less than two cells apart differ by at most one. */
  lemma CellGap(ka: int, kb: int, g: real, pa: real, pb: real)
    requires g > 0.0 && pa == (ka as real) * g && pb == (kb as real) * g
    requires pb < pa + 2.0 * g
    ensures kb <= ka + 1
  {
    var ra, rb := ka as real, kb as real;
    assert (ra + 2.0) * g == pa + 2.0 * g;
    if kb >= ka + 2 {
      MulMono(ra + 2.0, rb, g);
    }
  }

  /**
   * The key fact behind the 3x3 scan: coordinates at most one cell size apart fall in
   * the same or adjacent cells.
   */
  lemma CellIndexClose(a: real, b: real, g: Positive)
    requires -(g as real) <= a - b <= g
    ensures -1 <= CellIndex(a, g) - CellIndex(b, g) <= 1
  {
    var ka, kb := CellIndex(a, g), CellIndex(b, g);
    var ra, rb := ka as real, kb as real;
    var pa, pb := ra * g, rb * g;
    assert (ra + 1.0) * g == pa + g && (rb + 1.0) * g == pb + g;
    assert pa <= a < pa + g && pb <= b < pb + g;
    // ka*g <= a <= b + g < kb*g + 2g, and symmetrically
    assert pa < pb + 2.0 * g && pb < pa + 2.0 * g;
    CellGap(kb, ka, g, pb, pa);
    CellGap(ka, kb, g, pa, pb);
  }
}
