/**
 * Stand-ins for the parts of Unity's `Vector3` and `Mathf` that the volume
 * loader uses. Vectors are over exact reals instead of 32-bit floats, so the
 * geometry below is the intended one, free of rounding.
 */
module UnityMath {

  /** A `Vector3`. */
  datatype Vec3 = Vec3(x: real, y: real, z: real)

  const ZERO: Vec3 := Vec3(0.0, 0.0, 0.0)

  /** `new Vector3(c, c, c)`. */
  function Splat(c: real): Vec3 {
    Vec3(c, c, c)
  }

  function Add(a: Vec3, b: Vec3): Vec3 {
    Vec3(a.x + b.x, a.y + b.y, a.z + b.z)
  }

  function Sub(a: Vec3, b: Vec3): Vec3 {
    Vec3(a.x - b.x, a.y - b.y, a.z - b.z)
  }

  /** `Vector3.Scale(a, b)`: the component-wise product. */
  function Mul(a: Vec3, b: Vec3): Vec3 {
    Vec3(a.x * b.x, a.y * b.y, a.z * b.z)
  }

  /** `a / d` for a scalar `d`. */
  function Div(a: Vec3, d: real): Vec3
    requires d != 0.0
  {
    Vec3(a.x / d, a.y / d, a.z / d)
  }

  /** The three components, as the `float[]` handed to `Mathf.Min`. */
  function Components(v: Vec3): seq<real> {
    [v.x, v.y, v.z]
  }

  /** Scaling by a splat multiplies every component by the same factor. */
  lemma MulSplat(v: Vec3, f: real)
    ensures Mul(v, Splat(f)) == Vec3(v.x * f, v.y * f, v.z * f)
  {
  }

  /** Component-wise `a <= b`. */
  predicate LessEq(a: Vec3, b: Vec3) {
    a.x <= b.x && a.y <= b.y && a.z <= b.z
  }

  predicate Positive(v: Vec3) {
    v.x > 0.0 && v.y > 0.0 && v.z > 0.0
  }

  /**
   * `Mathf.Max(params int[])`: 0 for an empty array, otherwise the largest
   * element (a left-to-right scan that keeps the first maximum it sees).
   */
  function MaxOf(s: seq<int>): (m: int)
    ensures |s| == 0 ==> m == 0
    ensures forall i :: 0 <= i < |s| ==> s[i] <= m
    ensures |s| > 0 ==> exists i :: 0 <= i < |s| && s[i] == m
  {
    if |s| == 0 then 0
    else if |s| == 1 then s[0]
    else
      var front := MaxOf(s[..|s| - 1]);
      if s[|s| - 1] > front then s[|s| - 1] else front
  }

  /**
   * `Mathf.Min(params float[])`: 0 for an empty array, otherwise the
   * smallest element.
   */
  function MinOf(s: seq<real>): (m: real)
    ensures |s| == 0 ==> m == 0.0
    ensures forall i :: 0 <= i < |s| ==> m <= s[i]
    ensures |s| > 0 ==> exists i :: 0 <= i < |s| && s[i] == m
  {
    if |s| == 0 then 0.0
    else if |s| == 1 then s[0]
    else
      var front := MinOf(s[..|s| - 1]);
      if s[|s| - 1] < front then s[|s| - 1] else front
  }

  /** `MinOf` on the three components of a vector. */
  lemma MinOfComponents(v: Vec3)
    ensures MinOf(Components(v)) <= v.x && MinOf(Components(v)) <= v.y && MinOf(Components(v)) <= v.z
    ensures MinOf(Components(v)) == v.x || MinOf(Components(v)) == v.y || MinOf(Components(v)) == v.z
  {
    var c := Components(v);
    assert c[0] == v.x && c[1] == v.y && c[2] == v.z;
  }

  /** The extents of a cubic grid have the edge as their maximum. */
  lemma MaxOfCube(n: int)
    ensures MaxOf([n, n, n]) == n
  {
    var s := [n, n, n];
    assert s[0] == n && s[1] == n && s[2] == n;
  }

  /** 2 raised to `n`. */
  function Pow2(n: nat): (p: int)
    ensures p >= 1
  {
    if n == 0 then 1 else 2 * Pow2(n - 1)
  }

  /** Powers of two grow with the exponent. */
  lemma {:induction false} Pow2Monotone(a: nat, b: nat)
    requires a <= b
    ensures Pow2(a) <= Pow2(b)
  {
    if a < b {
      Pow2Monotone(a, b - 1);
    }
  }

  /** Powers of two multiply by adding exponents. */
  lemma {:induction false} Pow2Sum(a: nat, b: nat)
    ensures Pow2(a + b) == Pow2(a) * Pow2(b)
    decreases b
  {
    if b > 0 {
      Pow2Sum(a, b - 1);
    }
  }

  /** The powers of two the bit depths of one to three bytes give. */
  lemma Pow2Values()
    ensures Pow2(8) == 0x100 && Pow2(16) == 0x1_0000 && Pow2(24) == 0x100_0000 && Pow2(30) == 0x4000_0000
  {
    assert Pow2(6) == 64;
    assert Pow2(8) == 256;
    Pow2Sum(8, 8);
    Pow2Sum(16, 8);
    Pow2Sum(24, 6);
  }

  /** C#'s unchecked 32-bit signed integer arithmetic: the value modulo 2^32, in [-2^31, 2^31). */
  function Int32Wrap(x: int): (r: int)
    ensures -0x8000_0000 <= r < 0x8000_0000
    ensures (x - r) % 0x1_0000_0000 == 0
    ensures -0x8000_0000 <= x < 0x8000_0000 ==> r == x
  {
    (x + 0x8000_0000) % 0x1_0000_0000 - 0x8000_0000
  }
}
