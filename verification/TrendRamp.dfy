/** What the estimator says of a steady ramp: frames sent every g milliseconds that arrive every h.
    The slope closes a tenth of its distance to (h - g) / h with every frame, so the size of the
    gain-scaled slope rises to 240 |h - g| / h; the verdict follows from where that lies. */
module TrendRamp {
  import opened Options
  import opened Delay
  import opened Trendlines
  import opened TrendSlope

  datatype Ramp = Ramp(g: real, h: real) {
    predicate Ok() { 0.0 < g <= 5000.0 && h > 0.0 }

    /** Growth of the delay per frame, and per unit of arrival time. */
    function D(): real { h - g }
    function C(): real
      requires h > 0.0
    {
      D() / h
    }
    predicate Up() { h >= g }

    /** What the gain-scaled slope rises to. */
    function Top(): real
      requires h > 0.0
    {
      240.0 * Mag(C(), Up())
    }
  }

  function Mag(x: real, up: bool): real { if up then x else -x }

  // ---- the samples of a ramp ----

  /** n steps of h. */
  function X(h: real, n: nat): real { if n == 0 then 0.0 else X(h, n - 1) + h }

  /** The smoothed sum of n steps of d. */
  function Y(d: real, n: nat): real { if n == 0 then 0.0 else SMOOTHING * Y(d, n - 1) + (1.0 - SMOOTHING) * X(d, n) }

  function Points(r: Ramp, from: nat, k: nat): Samples {
    seq(k, i requires 0 <= i < k => (X(r.h, from + i), Y(r.D(), from + i)))
  }

  function Held(n: nat): nat { if n < WINDOW then n else WINDOW }

  /** The window after n deltas. */
  function Recent(r: Ramp, n: nat): Samples { Points(r, n - Held(n) + 1, Held(n)) }

  lemma RecentGrows(r: Ramp, n: nat)
    ensures Trendlines.Kept(Recent(r, n) + [(X(r.h, n + 1), Y(r.D(), n + 1))]) == Recent(r, n + 1)
  {
    var all := Recent(r, n) + [(X(r.h, n + 1), Y(r.D(), n + 1))];
    var k, m := Trendlines.Kept(all), Recent(r, n + 1);
    hide X, Y;
    assert |k| == |m|;
    assert forall i :: 0 <= i < |m| ==> k[i] == m[i];
  }

  lemma GrowthIs(r: Ramp)
    requires r.h > 0.0
    ensures Times(r.C(), r.h) == r.D() && Signed(r.D(), r.Up()) && Signed(r.C(), r.Up())
  {
    var c := r.C();
    assert c * r.h == r.D();
    if c > 0.0 { ProductPositive(c, r.h); } else if c < 0.0 { ProductPositive(-c, r.h); assert Times(-c, r.h) == -Times(c, r.h); }
  }

  /** The unsmoothed sum lies on the line of slope C. */
  lemma {:induction false} OnTheLine(r: Ramp, n: nat)
    requires r.h > 0.0
    ensures X(r.D(), n) == Times(r.C(), X(r.h, n))
  {
    hide Times;
    if n == 0 { TimesZero(r.C()); } else {
      OnTheLine(r, n - 1);
      TimesAdds(r.C(), X(r.h, n - 1), r.h);
      GrowthIs(r);
    }
  }

  lemma YNext(d: real, n: nat)
    ensures Y(d, n + 1) == 0.9 * Y(d, n) + 0.1 * X(d, n + 1)
  { }

  lemma PointsFollow(r: Ramp, from: nat, k: nat)
    requires r.h > 0.0
    ensures Follows(Points(r, from, k), Points(r, from + 1, k), r.h, r.C())
  {
    hide Times;
    var s, t := Points(r, from, k), Points(r, from + 1, k);
    forall i | 0 <= i < k ensures t[i].0 == s[i].0 + r.h && t[i].1 == 0.9 * s[i].1 + 0.1 * Times(r.C(), t[i].0) {
      OnTheLine(r, from + i + 1);
      YNext(r.D(), from + i);
      assert from + 1 + i == from + i + 1;
    }
  }

  lemma {:induction false} ArrivalsOrdered(h: real, i: nat, j: nat)
    requires h > 0.0 && i < j
    ensures X(h, i) < X(h, j)
    decreases j
  {
    if i < j - 1 { ArrivalsOrdered(h, i, j - 1); }
  }

  // ---- the first full window ----

  function Pow(n: nat): real { if n == 0 then 1.0 else 0.9 * Pow(n - 1) }

  lemma {:induction false} PowFalls(i: nat, j: nat)
    requires i <= j
    ensures 0.0 < Pow(j) <= Pow(i) <= 1.0
    decreases j
  {
    if i < j { PowFalls(i, j - 1); } else if j > 0 { PowFalls(i - 1, j - 1); }
  }

  /** How far the smoothed sum is behind: it falls back by Pow(n + 1) of a step more each time. */
  lemma {:induction false} Behind(d: real, n: nat)
    ensures (X(d, n + 1) - Y(d, n + 1)) - (X(d, n) - Y(d, n)) == Times(Pow(n + 1), d)
  {
    if n == 0 { assert Pow(1) == 0.9; } else {
      Behind(d, n - 1);
      Scaled(Pow(n), d);
    }
  }

  lemma Scaled(p: real, d: real)
    ensures Times(0.9 * p, d) == 0.9 * Times(p, d)
  { }

  /** A smoothed step has the step's sign, and is smaller than it by Pow(20) at least. */
  lemma StepSize(d: real, n: nat, up: bool)
    requires Signed(d, up) && n < 20
    ensures Signed(Y(d, n + 1) - Y(d, n), up)
    ensures Signed((Y(d, n + 1) - Y(d, n)) - Times(1.0 - Pow(20), d), !up)
  {
    hide Y, Pow, Times;
    Behind(d, n);
    PowFalls(n + 1, 20);
    PowFalls(0, n + 1);
    var p, q := Pow(n + 1), Pow(20);
    TimesSubtracts(1.0, p, d);
    TimesOne(d);
    assert Y(d, n + 1) - Y(d, n) == Times(1.0 - p, d);
    Scale(1.0 - p, d, up);
    Scale(p - q, d, up);
    TimesSubtracts(1.0 - q, 1.0 - p, d);
    assert p - q == (1.0 - q) - (1.0 - p);
  }

  lemma TimesOne(d: real)
    ensures Times(1.0, d) == d
  { }

  lemma Scale(a: real, d: real, up: bool)
    requires a >= 0.0 && Signed(d, up)
    ensures Signed(Times(a, d), up)
  {
    if up { NonNegative(a, d); } else { NonNegative(a, -d); }
  }

  lemma {:induction false} ValuesGo(d: real, i: nat, j: nat, up: bool)
    requires Signed(d, up) && i <= j <= 20
    ensures Signed(Y(d, j) - Y(d, i), up)
    decreases j
  {
    hide Y;
    if i < j { ValuesGo(d, i, j - 1, up); StepSize(d, j - 1, up); }
  }

  /** The slope that the steps of the first window stay under. */
  function Cap(r: Ramp): real
    requires r.h > 0.0
  {
    Times(1.0 - Pow(20), r.C())
  }

  lemma CapStep(r: Ramp, x: real)
    requires r.h > 0.0
    ensures Times(Cap(r), x + r.h) == Times(Cap(r), x) + Times(1.0 - Pow(20), r.D())
  {
    GrowthIs(r);
    var p := 1.0 - Pow(20);
    hide Times, Pow;
    TimesAdds(Cap(r), x, r.h);
    TimesAssociates(p, r.C(), r.h);
  }

  lemma {:induction false} TiltedGoes(r: Ramp, i: nat, j: nat)
    requires r.h > 0.0 && i <= j <= 20
    ensures Signed((Y(r.D(), j) - Times(Cap(r), X(r.h, j))) - (Y(r.D(), i) - Times(Cap(r), X(r.h, i))), !r.Up())
    decreases j
  {
    hide Y, Times, Pow, Cap;
    if i < j {
      TiltedGoes(r, i, j - 1);
      GrowthIs(r);
      StepSize(r.D(), j - 1, r.Up());
      CapStep(r, X(r.h, j - 1));
    }
  }

  lemma WindowShape(r: Ramp)
    requires r.h > 0.0
    ensures var s := Points(r, 1, 20); s != [] && Ordered(s) && Goes(s, r.Up()) && Goes(Tilted(s, Cap(r)), !r.Up())
  {
    var s, up := Points(r, 1, 20), r.Up();
    GrowthIs(r);
    hide X, Y, Times, Cap;
    forall i, j | 0 <= i < j < 20 ensures s[i].0 <= s[j].0 && (if up then s[i].1 <= s[j].1 else s[i].1 >= s[j].1) {
      ArrivalsOrdered(r.h, i + 1, j + 1);
      ValuesGo(r.D(), i + 1, j + 1, up);
    }
    var t := Tilted(s, Cap(r));
    forall i, j | 0 <= i < j < 20 ensures if !up then t[i].1 <= t[j].1 else t[i].1 >= t[j].1 {
      TiltedGoes(r, i + 1, j + 1);
    }
  }

  lemma FitsPoints(r: Ramp, from: nat)
    requires r.h > 0.0
    ensures Points(r, from, 20) != [] && Fit(Points(r, from, 20)).Some?
  {
    var s := Points(r, from, 20);
    ArrivalsOrdered(r.h, from, from + 1);
    assert s[1].0 > s[0].0;
    hide Points, X, Y;
    LeastSquares(s);
  }

  /** Its slope leans the ramp's way and stays short of C. */
  lemma FirstSlope(r: Ramp)
    requires r.h > 0.0
    ensures Points(r, 1, 20) != [] && Fit(Points(r, 1, 20)).Some?
    ensures var v := Fit(Points(r, 1, 20)).value; 0.0 <= Mag(v, r.Up()) <= Mag(Cap(r), r.Up())
  {
    var s := Points(r, 1, 20);
    FitsPoints(r, 1);
    WindowShape(r);
    hide Points, Fit, Cap, Ordered, Goes, Tilted;
    SlopeSigned(s, r.Up());
    SlopeBound(s, Cap(r), !r.Up());
  }

  // ---- the slope after n deltas ----

  function SlopeAt(r: Ramp, n: nat): real { if n < WINDOW || Fit(Points(r, n - 19, 20)).None? then 0.0 else Fit(Points(r, n - 19, 20)).value }

  lemma SlopeNext(r: Ramp, n: nat)
    requires r.h > 0.0 && n >= WINDOW
    ensures SlopeAt(r, n + 1) == 0.9 * SlopeAt(r, n) + 0.1 * r.C()
  {
    var s, t := Points(r, n - 19, 20), Points(r, n - 18, 20);
    FitsPoints(r, n - 19);
    PointsFollow(r, n - 19, 20);
    assert n - 19 + 1 == n - 18;
    hide Points, Follows, Fit;
    SlopeFollows(s, t, r.h, r.C());
  }

  lemma {:induction false} SlopeRange(r: Ramp, n: nat)
    requires r.h > 0.0
    ensures 0.0 <= Mag(SlopeAt(r, n), r.Up()) <= Mag(SlopeAt(r, n + 1), r.Up()) <= Mag(r.C(), r.Up())
  {
    hide Points, Fit;
    GrowthIs(r);
    if n + 1 >= WINDOW { CapUnder(r); FirstSlope(r); }
    if n >= WINDOW {
      SlopeRange(r, n - 1);
      SlopeNext(r, n);
    }
    hide SlopeAt;
  }

  lemma CapUnder(r: Ramp)
    requires r.h > 0.0
    ensures Mag(Cap(r), r.Up()) == Mag(r.C(), r.Up()) - Times(Pow(20), Mag(r.C(), r.Up()))
    ensures Times(Pow(20), Mag(r.C(), r.Up())) >= 0.0
  {
    GrowthIs(r);
    PowFalls(0, 20);
    NonNegative(Pow(20), Mag(r.C(), r.Up()));
    var p, c := Pow(20), r.C();
    hide Pow;
    assert Times(1.0 - p, c) == c - Times(p, c) && Times(p, -c) == -Times(p, c);
  }

  // ---- the size of the gain-scaled slope ----

  function Weight(n: nat): real { (if n < DELTAS_CAP then n else DELTAS_CAP) as real }

  /** The size of the gain-scaled slope after n deltas. */
  function Gauge(r: Ramp, n: nat): real { Mag(SlopeAt(r, n), r.Up()) * Weight(n) * THRESHOLD_GAIN }

  lemma ProductGrows(a: real, b: real, x: real, y: real)
    requires 0.0 <= a <= b && 0.0 <= x <= y
    ensures 0.0 <= a * x <= b * y
  {
    NonNegative(b - a, x);
    NonNegative(b, y - x);
    NonNegative(a, x);
    assert b * y - a * x == (b - a) * x + b * (y - x);
  }

  lemma GaugeGrows(r: Ramp, n: nat)
    requires r.h > 0.0
    ensures 0.0 <= Gauge(r, n) <= Gauge(r, n + 1) <= r.Top()
  {
    SlopeRange(r, n);
    var a, b, c := Mag(SlopeAt(r, n), r.Up()), Mag(SlopeAt(r, n + 1), r.Up()), Mag(r.C(), r.Up());
    ProductGrows(a, b, Weight(n), Weight(n + 1));
    ProductGrows(b, c, Weight(n + 1), 60.0);
    hide SlopeAt, Weight;
  }

  /** Distance still to go once the count of deltas has reached its cap. */
  function Left(r: Ramp, n: nat): real
    requires r.h > 0.0
  {
    r.Top() - Gauge(r, n)
  }

  lemma LeftShrinks(r: Ramp, n: nat)
    requires r.h > 0.0 && n >= DELTAS_CAP
    ensures Left(r, n + 1) == 0.9 * Left(r, n)
  {
    SlopeNext(r, n);
    hide SlopeAt;
  }

  lemma {:induction false} SlopeLeft(r: Ramp, n: nat)
    requires r.h > 0.0 && n >= WINDOW
    ensures var c, up := r.C(), r.Up(); Mag(c - SlopeAt(r, n), up) == Times(Pow(n - 20), Mag(c - SlopeAt(r, 20), up))
  {
    hide SlopeAt, Times;
    if n == WINDOW {
      TimesOne(Mag(r.C() - SlopeAt(r, 20), r.Up()));
    } else {
      SlopeLeft(r, n - 1);
      SlopeNext(r, n - 1);
      Scaled(Pow(n - 21), Mag(r.C() - SlopeAt(r, 20), r.Up()));
    }
  }

  /** It lies between Pow(n - 20) Pow(20) and Pow(n - 20) of the top. */
  lemma LeftRange(r: Ramp, n: nat)
    requires r.h > 0.0 && n >= DELTAS_CAP
    ensures Times(Pow(n - 20), Times(Pow(20), r.Top())) <= Left(r, n) <= Times(Pow(n - 20), r.Top())
  {
    SlopeLeft(r, n);
    FirstLeft(r);
    PowFalls(0, n - 20);
    var p, e, c := Pow(n - 20), Mag(r.C() - SlopeAt(r, 20), r.Up()), Mag(r.C(), r.Up());
    var q := Times(Pow(20), c);
    assert Left(r, n) == 240.0 * Mag(r.C() - SlopeAt(r, n), r.Up());
    hide SlopeAt, Pow, Gauge, Left;
    ScaleOrder(p, q, e);
    ScaleOrder(p, e, c);
    By240(p, c);
    By240(Pow(20), c);
    By240(p, q);
  }

  lemma By240(p: real, c: real)
    ensures Times(p, 240.0 * c) == 240.0 * Times(p, c)
  { }

  lemma ScaleOrder(p: real, a: real, b: real)
    requires p >= 0.0 && a <= b
    ensures Times(p, a) <= Times(p, b)
  {
    NonNegative(p, b - a);
    assert p * b == p * a + p * (b - a);
  }

  lemma FirstLeft(r: Ramp)
    requires r.h > 0.0
    ensures var c, up := r.C(), r.Up(); Times(Pow(20), Mag(c, up)) <= Mag(c - SlopeAt(r, 20), up) <= Mag(c, up)
  {
    FirstSlope(r);
    CapUnder(r);
    hide Times, Pow, Fit, Points, Cap;
  }

  lemma {:induction false} PowBound(k: nat)
    ensures Pow(k) * (9.0 + k as real) <= 9.0
  {
    if k > 0 {
      PowBound(k - 1);
      PowFalls(0, k - 1);
      var p := Pow(k - 1);
      assert 0.9 * p * (9.0 + k as real) == 0.9 * (p * (9.0 + (k - 1) as real)) + 0.9 * p;
    }
  }

  /** Deltas after which a ramp with this top is past the level. */
  function Climb(top: real, level: real): (n: nat)
    requires 0.0 <= level < top
    ensures n > DELTAS_CAP
  {
    QuotientFloor(9.0 * level, top - level);
    61 + (9.0 * level / (top - level)).Floor
  }

  lemma QuotientFloor(a: real, b: real)
    requires a >= 0.0 && b > 0.0
    ensures (a / b).Floor >= 0 && ((a / b).Floor as real + 1.0) * b > a
  {
    var q := a / b;
    assert q * b == a;
    if q < 0.0 { NonNegative(-q, b); }
    var f := q.Floor as real + 1.0;
    assert f > q;
    ProductPositive(f - q, b);
  }

  lemma ClimbIsLong(top: real, level: real, n: nat)
    requires 0.0 <= level < top && n >= Climb(top, level)
    ensures (n - 20) as real * (top - level) > 9.0 * level
  {
    QuotientFloor(9.0 * level, top - level);
    var f := (9.0 * level / (top - level)).Floor as real + 1.0;
    ProductGrows(f, (n - 20) as real, top - level, top - level);
  }

  lemma GaugeReaches(r: Ramp, level: real, n: nat)
    requires r.h > 0.0 && 0.0 <= level < r.Top() && n >= Climb(r.Top(), level)
    ensures Gauge(r, n) > level
  {
    hide Gauge, Pow, Climb, Times;
    ClimbIsLong(r.Top(), level, n);
    PowBound(n - 20);
    PowFalls(0, n - 20);
    LeftRange(r, n);
    UnderLevel(Pow(n - 20), (n - 20) as real, r.Top(), level);
  }

  lemma UnderLevel(p: real, k: real, top: real, level: real)
    requires p > 0.0 && k >= 0.0 && 0.0 <= level < top && p * (9.0 + k) <= 9.0 && k * (top - level) > 9.0 * level
    ensures Times(p, top) < top - level
  {
    if p * top >= top - level {
      ProductGrows(p * (9.0 + k), 9.0, top, top);
      ProductGrows(top - level, p * top, 9.0 + k, 9.0 + k);
      assert p * (9.0 + k) * top == p * top * (9.0 + k);
      assert (top - level) * (9.0 + k) == 9.0 * (top - level) + k * (top - level);
    }
  }

  // ---- the estimator on a ramp ----

  /** After n deltas of a ramp. */
  predicate At(t: Trend, r: Ramp, n: nat) {
    && t.first.Some? && t.prevTs.Some? && t.prevArrival == t.first.value + X(r.h, n)
    && t.deltas == n && t.accumulated == X(r.D(), n) && t.smoothed == Y(r.D(), n) && t.samples == Recent(r, n)
    && t.slope == SlopeAt(r, n) && t.prevSlope == t.slope
    && t.lastUpdate == (if n < 2 then None else Some(t.prevArrival))
    && t.threshold >= MIN_THRESHOLD
  }

  /** The same with the next delta absorbed and not yet judged. */
  function Fed(t: Trend, r: Ramp, n: nat, ts: int, arrival: real): Trend {
    t.(prevTs := Some(ts), prevArrival := arrival, deltas := n + 1, accumulated := X(r.D(), n + 1),
       smoothed := Y(r.D(), n + 1), samples := Recent(r, n + 1), slope := SlopeAt(r, n + 1))
  }

  lemma FrameFeeds(t: Trend, r: Ramp, n: nat, ts: int, arrival: real)
    requires r.Ok() && At(t, r, n) && SignedGap(ts, t.prevTs.value) as real / 90.0 == r.g && arrival == t.prevArrival + r.h
    ensures OnFrame(t, ts, arrival) == Detect(Fed(t, r, n, ts, arrival), r.g, arrival)
  {
    hide SignedGap, Detect;
    AbsorbFeeds(t.(prevTs := Some(ts), prevArrival := arrival), r, n, arrival);
    hide Absorb, At, SlopeAt, Recent, X, Y;
  }

  lemma AbsorbFeeds(t: Trend, r: Ramp, n: nat, arrival: real)
    requires r.h > 0.0 && t.first.Some? && arrival == t.first.value + X(r.h, n + 1)
    requires t.deltas == n && t.accumulated == X(r.D(), n) && t.smoothed == Y(r.D(), n) && t.samples == Recent(r, n)
    requires t.slope == SlopeAt(r, n)
    ensures Absorb(t, r.g, r.h, arrival) == Fed(t, r, n, 0, 0.0).(prevTs := t.prevTs, prevArrival := t.prevArrival)
  {
    RecentGrows(r, n);
    assert |Recent(r, n + 1)| == Held(n + 1);
    if n + 1 >= WINDOW { assert Recent(r, n + 1) == Points(r, n - 18, 20); FitsPoints(r, n - 18); }
    assert X(r.D(), n + 1) == t.accumulated + (r.h - r.g);
    YNext(r.D(), n);
    hide X, Y, Fit, Points, Trendlines.Kept, Recent;
  }

  lemma GaugeIs(t: Trend, r: Ramp, n: nat)
    requires r.h > 0.0 && t.slope == SlopeAt(r, n) && t.deltas == n
    ensures Mag(Modified(t), r.Up()) == Gauge(r, n) && Abs(Modified(t)) == Gauge(r, n)
  {
    GaugeGrows(r, n);
    hide SlopeAt;
    var w := Weight(n);
    assert -t.slope * w == -(t.slope * w);
  }

  // How the threshold answers to a size above it, and to one that is not.

  lemma AdaptedIs(th: real, size: real, dt: real)
    ensures Adapted(th, size, dt) ==
      Between(th + (if size < th then K_DOWN else K_UP) * Times(size - th, Between(dt, 0.0, 100.0)), MIN_THRESHOLD, MAX_THRESHOLD)
  {
    var k, x := (if size < th then K_DOWN else K_UP), Between(dt, 0.0, 100.0);
    assert k * (size - th) * x == k * Times(size - th, x);
  }

  lemma ThresholdUnder(th: real, size: real, dt: real)
    requires MIN_THRESHOLD <= th < size
    ensures MIN_THRESHOLD <= Adapted(th, size, dt) < size
  {
    AdaptedIs(th, size, dt);
    var x := Between(dt, 0.0, 100.0);
    ProductGrows(size - th, size - th, 0.0, x);
    ProductGrows(size - th, size - th, x, 100.0);
    assert 0.0 <= Times(size - th, x) <= 100.0 * (size - th);
    hide Times, Adapted;
  }

  lemma ThresholdFalls(th: real, size: real, dt: real)
    requires MIN_THRESHOLD <= th && size <= th
    ensures MIN_THRESHOLD <= Adapted(th, size, dt) <= th
    ensures size >= MIN_THRESHOLD && 39.0 * dt >= 100.0 ==> Adapted(th, size, dt) <= 0.9 * th + 0.1 * size
    ensures 0.0 <= dt <= 0.1 && th <= MAX_THRESHOLD ==> Adapted(th, size, dt) >= th - 0.0039 * (th - size)
  {
    AdaptedIs(th, size, dt);
    var x := Between(dt, 0.0, 100.0);
    ProductGrows(th - size, th - size, 0.0, x);
    assert Times(size - th, x) == -((th - size) * x);
    if 39.0 * dt >= 100.0 { ProductGrows(th - size, th - size, 100.0 / 39.0, x); }
    assert 39.0 * dt >= 100.0 ==> Times(size - th, x) <= (size - th) * (100.0 / 39.0);
    if 0.0 <= dt <= 0.1 { ProductGrows(th - size, th - size, x, 0.1); }
    assert 0.0 <= dt <= 0.1 ==> Times(size - th, x) >= (size - th) * 0.1;
    hide Times, Adapted;
  }

  lemma UpdateMoves(t: Trend, m: real, now: real)
    requires t.threshold >= MIN_THRESHOLD
    ensures var v := UpdateThreshold(t, m, now);
      && v == t.(threshold := v.threshold, lastUpdate := Some(now)) && v.threshold >= MIN_THRESHOLD
      && (Abs(m) > t.threshold ==> Abs(m) > v.threshold)
      && (Abs(m) <= t.threshold ==> v.threshold <= t.threshold)
      && (t.lastUpdate.Some? && 39.0 * (now - t.lastUpdate.value) >= 100.0 && MIN_THRESHOLD <= Abs(m) <= t.threshold ==>
            v.threshold <= 0.9 * t.threshold + 0.1 * Abs(m))
      && (t.lastUpdate.Some? && 0.0 <= now - t.lastUpdate.value <= 0.1 && t.threshold <= MAX_THRESHOLD && Abs(m) <= t.threshold ==>
            v.threshold >= t.threshold - 0.0039 * (t.threshold - Abs(m)))
  {
    hide Adapted, Abs;
    if t.lastUpdate.Some? {
      if Abs(m) > t.threshold { ThresholdUnder(t.threshold, Abs(m), now - t.lastUpdate.value); }
      else { ThresholdFalls(t.threshold, Abs(m), now - t.lastUpdate.value); }
    }
  }

  /** The threshold after one more delta. */
  predicate Adapts(t: Trend, v: Trend, r: Ramp, n: nat) {
    && (Gauge(r, n + 1) > t.threshold ==> Gauge(r, n + 1) > v.threshold)
    && (Gauge(r, n + 1) <= t.threshold ==> v.threshold <= t.threshold && v.state == Normal)
    && (n >= 2 && 39.0 * r.h >= 100.0 && MIN_THRESHOLD <= Gauge(r, n + 1) <= t.threshold ==>
          v.threshold <= 0.9 * t.threshold + 0.1 * Gauge(r, n + 1))
    && (0.0 <= r.h <= 0.1 && t.threshold <= MAX_THRESHOLD && Gauge(r, n + 1) <= t.threshold ==>
          v.threshold >= t.threshold - 0.0039 * (t.threshold - Gauge(r, n + 1)))
  }

  /** The verdict and its counters when the gauge is past the threshold. */
  predicate Counts(t: Trend, v: Trend, r: Ramp, n: nat) {
    Gauge(r, n + 1) > t.threshold ==>
      if !r.Up() then v.state == Underuse
      else
        var over := if t.timeOver < 0.0 then r.g / 2.0 else t.timeOver + r.g;
        if over > OVERUSE_TIME && t.overCount >= 1 then v.state == Overuse
        else v.state == t.state && v.timeOver == over && v.overCount == t.overCount + 1
  }

  lemma DetectMoves(t: Trend, u: Trend, r: Ramp, n: nat)
    requires r.Ok() && u.slope == SlopeAt(r, n + 1) && u.deltas == n + 1 && u.prevSlope == SlopeAt(r, n)
    requires u.threshold == t.threshold >= MIN_THRESHOLD && u.timeOver == t.timeOver && u.overCount == t.overCount && u.state == t.state
    requires u.lastUpdate == t.lastUpdate == (if n < 2 then None else Some(u.prevArrival - r.h))
    ensures var v := Detect(u, r.g, u.prevArrival);
      && Adapts(t, v, r, n) && Counts(t, v, r, n) && v.threshold >= MIN_THRESHOLD
      && v.prevSlope == v.slope
      && v.lastUpdate == if n + 1 < 2 then None else Some(u.prevArrival)
  {
    GaugeIs(u, r, n + 1);
    SlopeRange(r, n);
    if n == 0 {
      assert SlopeAt(r, 1) == 0.0 && SlopeAt(r, 0) == 0.0;
      assert Gauge(r, 1) == 0.0;
    } else {
      var m := Modified(u);
      hide Modified, SlopeAt, Gauge, UpdateThreshold, Abs;
      var j := Judge(u, r.g, m);
      var since := if j.state != Overuse then None else if u.state != Overuse then Some(u.prevArrival) else u.overSince;
      UpdateMoves(j.(prevSlope := u.slope, overSince := since), m, u.prevArrival);
    }
  }

  lemma DetectLeaves(t: Trend, gap: real, now: real)
    ensures var v := Detect(t, gap, now);
      && v.first == t.first && v.prevTs == t.prevTs && v.prevArrival == t.prevArrival && v.deltas == t.deltas
      && v.accumulated == t.accumulated && v.smoothed == t.smoothed && v.samples == t.samples && v.slope == t.slope
  {
    hide Modified, Adapted, Abs;
  }

  /** One frame of a ramp. */
  lemma FrameMoves(t: Trend, r: Ramp, n: nat, ts: int, arrival: real)
    requires r.Ok() && At(t, r, n) && SignedGap(ts, t.prevTs.value) as real / 90.0 == r.g && arrival == t.prevArrival + r.h
    ensures var v := OnFrame(t, ts, arrival); At(v, r, n + 1) && v.prevTs == Some(ts) && v.prevArrival == arrival && Adapts(t, v, r, n) && Counts(t, v, r, n)
  {
    FrameFeeds(t, r, n, ts, arrival);
    var u := Fed(t, r, n, ts, arrival);
    hide SignedGap, OnFrame, Detect, SlopeAt, Recent, Y, Adapts, Counts;
    DetectMoves(t, u, r, n);
    DetectLeaves(u, r.g, arrival);
  }
}