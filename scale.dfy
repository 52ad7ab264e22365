/**
 * Normalisation of the dataset's per-axis voxel spacing into the scale the
 * volume is drawn with.
 */
module Scale {
  import opened UnityMath

  /** The raw voxel spacing times the inverse of its smallest component. */
  function NormalizeScale(raw: Vec3): Vec3
    requires Positive(raw)
  {
    var invertedMinScale := 1.0 / MinOf(Components(raw));
    Mul(raw, Splat(invertedMinScale))
  }

  /** `NormalizeScale` multiplies every component by the same factor `f`. */
  lemma NormalizeScaleByAxis(raw: Vec3, f: real)
    requires Positive(raw) && f == 1.0 / MinOf(Components(raw))
    ensures NormalizeScale(raw) == Vec3(raw.x * f, raw.y * f, raw.z * f)
  {
    assert NormalizeScale(raw) == Mul(raw, Splat(f));
    MulSplat(raw, f);
  }

  /** The finest axis gets spacing exactly 1 and every other axis at least 1. */
  lemma NormalizedMinIsOne(raw: Vec3)
    requires Positive(raw)
    ensures MinOf(Components(NormalizeScale(raw))) == 1.0
    ensures LessEq(Splat(1.0), NormalizeScale(raw))
  {
    var m := MinOf(Components(raw));
    MinOfComponents(raw);
    var f := 1.0 / m;
    var s := NormalizeScale(raw);
    NormalizeScaleByAxis(raw, f);
    QuotientAtLeastOne(raw.x, m);
    QuotientAtLeastOne(raw.y, m);
    QuotientAtLeastOne(raw.z, m);
    MinOfAttainedOne(s);
  }

  /** `a * (1 / m)` is at least 1 for `0 < m <= a`, and exactly 1 for `a == m`. */
  lemma QuotientAtLeastOne(a: real, m: real)
    requires 0.0 < m <= a
    ensures a * (1.0 / m) >= 1.0
    ensures a == m ==> a * (1.0 / m) == 1.0
  {
    assert a * (1.0 / m) == a / m;
    assert a / m - 1.0 == (a - m) / m;
  }

  /** A vector whose components are all at least 1 and one of which is 1 has minimum 1. */
  lemma MinOfAttainedOne(s: Vec3)
    requires LessEq(Splat(1.0), s)
    requires s.x == 1.0 || s.y == 1.0 || s.z == 1.0
    ensures MinOf(Components(s)) == 1.0
  {
    MinOfComponents(s);
  }

  /** Normalisation keeps the proportions between the axes. */
  lemma NormalizeScaleKeepsRatios(raw: Vec3)
    requires Positive(raw)
    ensures var s := NormalizeScale(raw);
            s.x * raw.y == s.y * raw.x && s.y * raw.z == s.z * raw.y && s.x * raw.z == s.z * raw.x
  {
    var f := 1.0 / MinOf(Components(raw));
    NormalizeScaleByAxis(raw, f);
    RatioKept(raw.x, raw.y, f);
    RatioKept(raw.y, raw.z, f);
    RatioKept(raw.x, raw.z, f);
  }

  lemma RatioKept(a: real, b: real, f: real)
    ensures (a * f) * b == (b * f) * a
  {
  }

  /**
   * Normalisation enlarges (or keeps) every component exactly when the
   * smallest raw component is at most 1; a dataset whose spacings all
   * exceed 1 is shrunk.
   */
  lemma NormalizeScaleGrowsIff(raw: Vec3)
    requires Positive(raw)
    ensures LessEq(raw, NormalizeScale(raw)) <==> MinOf(Components(raw)) <= 1.0
  {
    if MinOf(Components(raw)) <= 1.0 {
      GrowsWhenFine(raw);
    } else {
      ShrinksWhenCoarse(raw);
    }
  }

  lemma GrowsWhenFine(raw: Vec3)
    requires Positive(raw) && MinOf(Components(raw)) <= 1.0
    ensures LessEq(raw, NormalizeScale(raw))
  {
    var m := MinOf(Components(raw));
    MinOfComponents(raw);
    var f := 1.0 / m;
    NormalizeScaleByAxis(raw, f);
    assert 1.0 <= f;
    ScaledUp(raw, f);
  }

  lemma ScaledUp(v: Vec3, f: real)
    requires Positive(v) && f >= 1.0
    ensures LessEq(v, Vec3(v.x * f, v.y * f, v.z * f))
  {
    MulAtLeastOne(v.x, f);
    MulAtLeastOne(v.y, f);
    MulAtLeastOne(v.z, f);
  }

  lemma ShrinksWhenCoarse(raw: Vec3)
    requires Positive(raw) && MinOf(Components(raw)) > 1.0
    ensures !LessEq(raw, NormalizeScale(raw))
  {
    var m := MinOf(Components(raw));
    MinOfComponents(raw);
    var f := 1.0 / m;
    var s := NormalizeScale(raw);
    NormalizeScaleByAxis(raw, f);
    assert f < 1.0;
    MulBelowOne(m, f);
    if m == raw.x {
      assert s.x < raw.x;
    } else if m == raw.y {
      assert s.y < raw.y;
    } else {
      assert s.z < raw.z;
    }
  }

  lemma MulAtLeastOne(a: real, f: real)
    requires a > 0.0 && f >= 1.0
    ensures a <= a * f
  {
    assert a * f - a == a * (f - 1.0);
  }

  lemma MulBelowOne(a: real, f: real)
    requires a > 0.0 && 0.0 <= f < 1.0
    ensures a * f < a
  {
    assert a - a * f == a * (1.0 - f);
  }

  /** A normalised scale is its own normalisation. */
  lemma NormalizeScaleIdempotent(raw: Vec3)
    requires Positive(raw)
    ensures Positive(NormalizeScale(raw))
    ensures NormalizeScale(NormalizeScale(raw)) == NormalizeScale(raw)
  {
    var s := NormalizeScale(raw);
    NormalizedMinIsOne(raw);
    assert NormalizeScale(s) == Mul(s, Splat(1.0 / 1.0));
  }

  /** A unit spacing is already normalised. */
  lemma NormalizeUnitScale()
    ensures NormalizeScale(Vec3(1.0, 1.0, 1.0)) == Vec3(1.0, 1.0, 1.0)
  {
    MinOfComponents(Vec3(1.0, 1.0, 1.0));
  }

  /** A spacing of (1, 1, 2) is already normalised. */
  lemma NormalizeScaleExample()
    ensures NormalizeScale(Vec3(1.0, 1.0, 2.0)) == Vec3(1.0, 1.0, 2.0)
  {
    MinOfComponents(Vec3(1.0, 1.0, 2.0));
  }
}
