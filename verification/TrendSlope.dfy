/** The sign and the size of the fitted slope: samples that rise with time have a nonnegative slope,
    and a slope bounds are those of the steps between samples. */
module TrendSlope {
  import opened Options
  import opened Trendlines

  type Samples = seq<(real, real)>

  predicate Ordered(s: Samples) { forall i, j :: 0 <= i < j < |s| ==> s[i].0 <= s[j].0 }

  /** The values go up (or down) with the index. */
  predicate Goes(s: Samples, up: bool) {
    forall i, j :: 0 <= i < j < |s| ==> if up then s[i].1 <= s[j].1 else s[i].1 >= s[j].1
  }

  predicate Signed(x: real, up: bool) { if up then x >= 0.0 else x <= 0.0 }

  // ---- the sign of the numerator ----

  // Products are kept in `Times`; these are the laws used of it.

  lemma TimesAdds(u: real, v: real, w: real)
    ensures Times(u, v + w) == Times(u, v) + Times(u, w)
  { }

  lemma TimesSubtracts(u: real, v: real, w: real)
    ensures Times(u - v, w) == Times(u, w) - Times(v, w)
  { }

  lemma TimesCommutes(u: real, v: real)
    ensures Times(u, v) == Times(v, u)
  { }

  lemma TimesAssociates(u: real, v: real, w: real)
    ensures Times(u, Times(v, w)) == Times(Times(u, v), w)
  { }

  lemma TimesZero(u: real)
    ensures Times(u, 0.0) == 0.0
  { }

  /** Centred times make the reference value irrelevant. */
  lemma {:induction false} NumeratorShift(s: Samples, mx: real, c: real, d: real)
    ensures Numerator(s, mx, c) == Numerator(s, mx, d) + Times(d - c, DevX(s, mx))
  {
    hide Times;
    if s == [] {
      TimesZero(d - c);
    } else {
      var front, u, y := s[..|s| - 1], s[|s| - 1].0 - mx, s[|s| - 1].1;
      NumeratorShift(front, mx, c, d);
      TimesAdds(u, y - d, d - c);
      assert y - c == (y - d) + (d - c);
      TimesCommutes(u, d - c);
      TimesAdds(d - c, DevX(front, mx), u);
    }
  }

  lemma {:induction false} DevPositive(s: Samples, mx: real)
    requires s != [] && forall i :: 0 <= i < |s| ==> s[i].0 > mx
    ensures DevX(s, mx) > 0.0
  {
    if |s| > 1 { DevPositive(s[..|s| - 1], mx); }
  }

  lemma {:induction false} TermsSigned(s: Samples, mx: real, c: real, up: bool)
    requires forall i :: 0 <= i < |s| ==> Signed(Times(s[i].0 - mx, s[i].1 - c), up)
    ensures Signed(Numerator(s, mx, c), up)
  {
    hide Times;
    if s != [] { TermsSigned(s[..|s| - 1], mx, c, up); }
  }

  lemma ProductSigned(u: real, v: real, up: bool)
    requires (u > 0.0 ==> Signed(v, up)) && (u < 0.0 ==> Signed(v, !up))
    ensures Signed(Times(u, v), up)
  {
    if u > 0.0 {
      if v >= 0.0 { NonNegative(u, v); } else { NonNegative(u, -v); }
    } else if u < 0.0 {
      if v >= 0.0 { NonNegative(-u, v); } else { NonNegative(-u, -v); }
    }
  }

  lemma NonNegative(a: real, b: real)
    requires a >= 0.0 && b >= 0.0
    ensures a * b >= 0.0 && Times(a, b) == a * b && Times(-a, b) == -(a * b) && Times(a, -b) == -(a * b) && Times(-a, -b) == a * b
  { }

  /** The last sample at or before the mean time. */
  lemma {:induction false} SplitAt(s: Samples, mx: real, n: nat) returns (p: nat)
    requires Ordered(s) && 0 < n <= |s| && s[0].0 <= mx && forall i :: n <= i < |s| ==> s[i].0 > mx
    ensures p < |s| && s[p].0 <= mx && forall i :: p < i < |s| ==> s[i].0 > mx
    decreases n
  {
    if s[n - 1].0 <= mx { p := n - 1; } else { p := SplitAt(s, mx, n - 1); }
  }

  /** Samples ordered in time whose values go one way have a cross sum of that sign. */
  lemma CrossSigned(s: Samples, mx: real, c: real, up: bool)
    requires s != [] && Ordered(s) && Goes(s, up) && DevX(s, mx) == 0.0
    ensures Signed(Numerator(s, mx, c), up)
  {
    if s[0].0 > mx {
      DevPositive(s, mx);
    } else {
      var p := SplitAt(s, mx, |s|);
      var d := s[p].1;
      forall i | 0 <= i < |s| ensures Signed(Times(s[i].0 - mx, s[i].1 - d), up) {
        ProductSigned(s[i].0 - mx, s[i].1 - d, up);
      }
      hide Numerator, DevX, Times;
      TermsSigned(s, mx, d, up);
      NumeratorShift(s, mx, c, d);
      TimesZero(d - c);
    }
  }

  lemma FitTimes(s: Samples)
    requires s != [] && Fit(s).Some?
    ensures Denominator(s, MeanX(s)) > 0.0
    ensures Times(Fit(s).value, Denominator(s, MeanX(s))) == Numerator(s, MeanX(s), MeanY(s))
  {
    FitTimesDenominator(s);
    hide Numerator, Denominator, Fit, MeanX, MeanY;
  }

  /** ... and a slope of that sign. */
  lemma SlopeSigned(s: Samples, up: bool)
    requires s != [] && Ordered(s) && Goes(s, up) && Fit(s).Some?
    ensures Signed(Fit(s).value, up)
  {
    hide Numerator, Denominator, Fit, MeanX, MeanY, Times, Ordered, Goes, DevX, DevY;
    NoDeviation(s);
    CrossSigned(s, MeanX(s), MeanY(s), up);
    FitTimes(s);
    QuotientSigned(Fit(s).value, Denominator(s, MeanX(s)), up);
  }

  lemma QuotientSigned(v: real, d: real, up: bool)
    requires d > 0.0 && Signed(Times(v, d), up)
    ensures Signed(v, up)
  {
    if v > 0.0 { ProductPositive(v, d); } else if v < 0.0 { ProductPositive(-v, d); assert Times(-v, d) == -Times(v, d); }
  }

  lemma ProductPositive(a: real, b: real)
    requires a > 0.0 && b > 0.0
    ensures Times(a, b) > 0.0
  {
    assert a * b > 0.0;
  }

  // ---- bounds from the steps ----

  /** The samples with the line c x taken off. */
  function Tilted(s: Samples, c: real): Samples {
    seq(|s|, i requires 0 <= i < |s| => (s[i].0, s[i].1 - Times(c, s[i].0)))
  }

  lemma TiltedTerm(x: real, y: real, mx: real, my: real, c: real)
    ensures Times(x - mx, (y - Times(c, x)) - (my - Times(c, mx))) == Times(x - mx, y - my) - Times(c, Times(x - mx, x - mx))
  {
    var u, v := x - mx, y - my;
    assert (y - Times(c, x)) - (my - Times(c, mx)) == v - c * u;
    assert u * (v - c * u) == u * v - c * (u * u);
  }

  lemma TiltedFront(s: Samples, c: real)
    requires s != []
    ensures var t := Tilted(s, c); |t| == |s| && t[..|t| - 1] == Tilted(s[..|s| - 1], c) && t[|t| - 1] == (s[|s| - 1].0, s[|s| - 1].1 - Times(c, s[|s| - 1].0))
  {
    hide Times;
    var t, f := Tilted(s, c), Tilted(s[..|s| - 1], c);
    assert forall i :: 0 <= i < |f| ==> t[i] == f[i];
  }

  lemma {:induction false} TiltedNumerator(s: Samples, mx: real, my: real, c: real)
    ensures Numerator(Tilted(s, c), mx, my - Times(c, mx)) == Numerator(s, mx, my) - Times(c, Denominator(s, mx))
    ensures DevX(Tilted(s, c), mx) == DevX(s, mx)
  {
    hide Times;
    if s == [] {
      TimesZero(c);
    } else {
      var front, x, y := s[..|s| - 1], s[|s| - 1].0, s[|s| - 1].1;
      TiltedFront(s, c);
      hide Tilted;
      TiltedNumerator(front, mx, my, c);
      TiltedTerm(x, y, mx, my, c);
      TimesAdds(c, Denominator(front, mx), Times(x - mx, x - mx));
    }
  }

  lemma TiltedOrdered(s: Samples, c: real)
    requires Ordered(s)
    ensures |Tilted(s, c)| == |s| && Ordered(Tilted(s, c))
  {
    hide Times;
  }

  /** Steps of at least (at most) c per unit of time give a slope of at least (at most) c. */
  lemma SlopeBound(s: Samples, c: real, up: bool)
    requires s != [] && Ordered(s) && Goes(Tilted(s, c), up) && Fit(s).Some?
    ensures if up then Fit(s).value >= c else Fit(s).value <= c
  {
    hide Numerator, Denominator, Fit, MeanX, MeanY, Tilted, Times, Ordered, Goes, DevX, DevY;
    NoDeviation(s);
    FitTimes(s);
    TiltedOrdered(s, c);
    var mx, my, d, v := MeanX(s), MeanY(s), Denominator(s, MeanX(s)), Fit(s).value;
    TiltedNumerator(s, mx, my, c);
    CrossSigned(Tilted(s, c), mx, my - Times(c, mx), up);
    TimesSubtracts(v, c, d);
    QuotientSigned(v - c, d, up);
  }

  // ---- a window that moves on ----

  /** Each sample moved on by h in time, with its value drawn a tenth of the way to the line c x. */
  predicate Follows(s: Samples, r: Samples, h: real, c: real) {
    |r| == |s| && forall i :: 0 <= i < |s| ==> r[i].0 == s[i].0 + h && r[i].1 == 0.9 * s[i].1 + 0.1 * Times(c, r[i].0)
  }

  lemma FollowTerm(x: real, y: real, mx: real, my: real, h: real, c: real)
    ensures Times(x - mx, (0.9 * y + 0.1 * Times(c, x + h)) - (0.9 * my + 0.1 * Times(c, mx + h)))
      == 0.9 * Times(x - mx, y - my) + 0.1 * Times(c, Times(x - mx, x - mx))
  {
    var u, v := x - mx, y - my;
    assert Times(c, x + h) - Times(c, mx + h) == c * u;
    assert u * (0.9 * v + 0.1 * (c * u)) == 0.9 * (u * v) + 0.1 * (c * (u * u));
  }

  lemma {:induction false} FollowSums(s: Samples, r: Samples, h: real, c: real, mx: real, my: real)
    requires Follows(s, r, h, c)
    ensures Numerator(r, mx + h, 0.9 * my + 0.1 * Times(c, mx + h)) == 0.9 * Numerator(s, mx, my) + 0.1 * Times(c, Denominator(s, mx))
    ensures Denominator(r, mx + h) == Denominator(s, mx) && DevX(r, mx + h) == DevX(s, mx)
  {
    hide Times;
    if s == [] {
      TimesZero(c);
    } else {
      var n := |s| - 1;
      FollowSums(s[..n], r[..n], h, c, mx, my);
      assert r[n].0 - (mx + h) == s[n].0 - mx;
      FollowTerm(s[n].0, s[n].1, mx, my, h, c);
      TimesAdds(c, Denominator(s[..n], mx), Times(s[n].0 - mx, s[n].0 - mx));
    }
  }

  /** A fit exists exactly when there is spread. */
  lemma FitExists(s: Samples)
    requires s != []
    ensures Fit(s).Some? <==> Denominator(s, MeanX(s)) > 0.0
  {
    hide Numerator, Denominator, MeanX, MeanY;
  }

  /** ... and its slope closes a tenth of its distance to c. */
  lemma SlopeFollows(s: Samples, r: Samples, h: real, c: real)
    requires s != [] && Follows(s, r, h, c) && Fit(s).Some?
    ensures Fit(r).Some? && Fit(r).value == 0.9 * Fit(s).value + 0.1 * c
  {
    hide Numerator, Denominator, Fit, MeanX, MeanY, Times, DevX, DevY;
    NoDeviation(s);
    FitTimes(s);
    var mx, my, d := MeanX(s), MeanY(s), Denominator(s, MeanX(s));
    FollowSums(s, r, h, c, mx, my);
    MeanShifts(r, mx + h);
    NumeratorShift(r, mx + h, MeanY(r), 0.9 * my + 0.1 * Times(c, mx + h));
    TimesZero(0.9 * my + 0.1 * Times(c, mx + h) - MeanY(r));
    FitExists(r);
    FitTimes(r);
    SameProduct(Fit(r).value, Fit(s).value, c, d);
  }

  lemma SameProduct(w: real, v: real, c: real, d: real)
    requires d > 0.0 && Times(w, d) == 0.9 * Times(v, d) + 0.1 * Times(c, d)
    ensures w == 0.9 * v + 0.1 * c
  {
    assert (w - (0.9 * v + 0.1 * c)) * d == 0.0;
  }

  /** The time from which deviations cancel is the mean. */
  lemma MeanShifts(r: Samples, m: real)
    requires r != [] && DevX(r, m) == 0.0
    ensures MeanX(r) == m
  {
    DevIs(r, m, 0.0);
    var n := |r| as real;
    hide SumX, DevX;
    MeanOfEqual(SumX(r), n, m);
  }
}
