/** The delay-gradient estimator: frame inter-arrival against inter-send times, a least-squares
    slope over the last samples, and an adaptive threshold.  Floats are reals; RTP timestamps are
    32-bit and wrap (section 5.1 of RFC 3550). */
module Trendlines {
  import opened Options
  import opened Delay

  const WINDOW: nat := 20
  const SMOOTHING: real := 0.9
  const THRESHOLD_GAIN: real := 4.0
  const INITIAL_THRESHOLD: real := 12.5
  const K_UP: real := 0.0087
  const K_DOWN: real := 0.039
  const OVERUSE_TIME: real := 10.0
  const MAX_ADAPT_OFFSET: real := 15.0
  const DELTAS_CAP: nat := 60
  const MIN_THRESHOLD: real := 6.0
  const MAX_THRESHOLD: real := 600.0
  const U32: int := 0x1_0000_0000

  datatype Trend = Trend(
    first: Option<real>,
    prevTs: Option<int>,
    prevArrival: real,
    accumulated: real,
    smoothed: real,
    samples: seq<(real, real)>,
    deltas: nat,
    slope: real,
    prevSlope: real,
    threshold: real,
    lastUpdate: Option<real>,
    timeOver: real,
    overCount: nat,
    state: DelayState,
    overSince: Option<real>)

  const NEW: Trend := Trend(None, None, 0.0, 0.0, 0.0, [], 0, 0.0, 0.0, INITIAL_THRESHOLD, None, -1.0, 0, Normal, None)

  // ---- the fit ----

  function SumX(s: seq<(real, real)>): real { if s == [] then 0.0 else SumX(s[..|s| - 1]) + s[|s| - 1].0 }
  function SumY(s: seq<(real, real)>): real { if s == [] then 0.0 else SumY(s[..|s| - 1]) + s[|s| - 1].1 }

  function Times(x: real, y: real): real { x * y }

  function Numerator(s: seq<(real, real)>, mx: real, my: real): real {
    if s == [] then 0.0 else Numerator(s[..|s| - 1], mx, my) + Times(s[|s| - 1].0 - mx, s[|s| - 1].1 - my)
  }

  function Denominator(s: seq<(real, real)>, mx: real): real {
    if s == [] then 0.0 else Denominator(s[..|s| - 1], mx) + Times(s[|s| - 1].0 - mx, s[|s| - 1].0 - mx)
  }

  function MeanX(s: seq<(real, real)>): real
    requires s != []
  {
    SumX(s) / |s| as real
  }

  function MeanY(s: seq<(real, real)>): real
    requires s != []
  {
    SumY(s) / |s| as real
  }

  /** Least-squares slope; None when the times have no spread. */
  function Fit(s: seq<(real, real)>): Option<real>
    requires s != []
  {
    var den := Denominator(s, MeanX(s));
    if den > 0.0 then Some(Numerator(s, MeanX(s), MeanY(s)) / den) else None
  }

  // ---- one frame ----

  function Wrap(x: int): int { x % U32 }

  /** The 32-bit difference of two timestamps, read as signed. */
  function SignedGap(ts: int, prev: int): int {
    var d := (ts - prev) % U32;
    if d >= U32 / 2 then d - U32 else d
  }

  function Abs(x: real): real { if x < 0.0 then -x else x }
  function Between(x: real, lo: real, hi: real): real { if x < lo then lo else if x > hi then hi else x }

  /** The gain-scaled slope. */
  function Modified(t: Trend): real {
    t.slope * (if t.deltas < DELTAS_CAP then t.deltas else DELTAS_CAP) as real * THRESHOLD_GAIN
  }

  /** The threshold drifts toward the slope's size, slowly up and faster down. */
  function Adapted(threshold: real, size: real, dt: real): real {
    var k := if size < threshold then K_DOWN else K_UP;
    Between(threshold + k * (size - threshold) * Between(dt, 0.0, 100.0), MIN_THRESHOLD, MAX_THRESHOLD)
  }

  function UpdateThreshold(t: Trend, modified: real, now: real): Trend {
    if t.lastUpdate.None? || Abs(modified) > t.threshold + MAX_ADAPT_OFFSET then t.(lastUpdate := Some(now))
    else
      t.(threshold := Adapted(t.threshold, Abs(modified), now - t.lastUpdate.value), lastUpdate := Some(now))
  }

  /** The hypothesis and its counters, before the threshold adapts. */
  function Judge(t: Trend, gap: real, modified: real): Trend {
    if modified > t.threshold then
      var over := if t.timeOver < 0.0 then gap / 2.0 else t.timeOver + gap;
      if over > OVERUSE_TIME && t.overCount + 1 > 1 && t.slope >= t.prevSlope then
        t.(timeOver := 0.0, overCount := 0, state := Overuse)
      else t.(timeOver := over, overCount := t.overCount + 1)
    else t.(timeOver := -1.0, overCount := 0, state := if modified < -t.threshold then Underuse else Normal)
  }

  function Detect(t: Trend, gap: real, now: real): Trend {
    if t.deltas < 2 then t.(state := Normal)
    else
      var m := Modified(t);
      var j := Judge(t, gap, m);
      var since := if j.state != Overuse then None else if t.state != Overuse then Some(now) else t.overSince;
      UpdateThreshold(j.(prevSlope := t.slope, overSince := since), m, now)
  }

  /** The newest samples, at most a window of them. */
  function Kept(all: seq<(real, real)>): seq<(real, real)> {
    if |all| > WINDOW then all[|all| - WINDOW..] else all
  }

  /** Accumulate one usable delta and refit. */
  function Absorb(t: Trend, gap: real, between: real, arrival: real): Trend {
    var acc := t.accumulated + (between - gap);
    var smooth := SMOOTHING * t.smoothed + (1.0 - SMOOTHING) * acc;
    var x := arrival - (if t.first.Some? then t.first.value else arrival);
    var all := t.samples + [(x, smooth)];
    var kept := Kept(all);
    var fit := if |kept| == WINDOW then Fit(kept) else None;
    t.(deltas := t.deltas + 1, accumulated := acc, smoothed := smooth, samples := kept,
       slope := if fit.Some? then fit.value else t.slope)
  }

  function OnFrame(t: Trend, ts: int, arrival: real): Trend {
    if t.prevTs.None? then t.(prevTs := Some(ts), prevArrival := arrival, first := Some(arrival))
    else
      var gap := SignedGap(ts, t.prevTs.value) as real / 90.0;
      var between := arrival - t.prevArrival;
      var t1 := t.(prevTs := Some(ts), prevArrival := arrival);
      if gap <= 0.0 || gap > 5000.0 || between < 0.0 then t1
      else Detect(Absorb(t1, gap, between, arrival), gap, arrival)
  }

  function OveruseMs(t: Trend, now: real): real {
    if t.state == Overuse && t.overSince.Some? && now - t.overSince.value > 0.0 then now - t.overSince.value else 0.0
  }

  datatype Frame = Frame(ts: int, arrival: real)

  function Run(t: Trend, frames: seq<Frame>): Trend
    decreases |frames|
  {
    if |frames| == 0 then t else Run(OnFrame(t, frames[0].ts, frames[0].arrival), frames[1..])
  }

  // ---- the object ----

  class Trendline {
    /** All mutable state, as one record the methods update field by field. */
    var t: Trend

    /** Between frames: a bounded threshold and window, and a start time exactly while Overuse
        holds. */
    ghost predicate Valid()
      reads this
    {
      TrendOk(t)
    }

    constructor ()
      ensures Valid() && t == NEW
    {
      t := NEW;
    }

    /** A stream restart re-bases the sender's clock. */
    method Reset()
      modifies this
      ensures Valid() && t == NEW
    {
      t := NEW;
    }

    method Frame(ts: int, arrival: real) returns (state: DelayState)
      requires Valid()
      modifies this
      ensures Valid() && t == OnFrame(old(t), ts, arrival) && state == t.state
      ensures state == Overuse <==> t.overSince.Some?
      ensures t.prevTs == Some(ts) && t.prevArrival == arrival
      ensures t.samples != old(t.samples) ==> |t.samples| > 0 && t.deltas == old(t.deltas) + 1
    {
      hide OnFrame;
      FrameKeepsOk(t, ts, arrival);
      FrameIsLast(t, ts, arrival);
      FrameCounts(t, ts, arrival);
      state := Step(ts, arrival);
    }

    /** Its steps, in order. */
    method Step(ts: int, arrival: real) returns (state: DelayState)
      modifies this
      ensures t == OnFrame(old(t), ts, arrival) && state == t.state
    {
      hide SignedGap, Absorb, Detect;
      if t.prevTs.None? {
        t := t.(prevTs := Some(ts));
        t := t.(prevArrival := arrival);
        t := t.(first := Some(arrival));
        return t.state;
      }
      var gap := SignedGap(ts, t.prevTs.value) as real / 90.0;
      var between := arrival - t.prevArrival;
      t := t.(prevTs := Some(ts));
      t := t.(prevArrival := arrival);
      if gap <= 0.0 || gap > 5000.0 || between < 0.0 { return t.state; }
      Push(gap, between, arrival);
      DetectNow(gap, arrival);
      state := t.state;
    }

    method Push(gap: real, between: real, arrival: real)
      modifies this
      ensures t == Absorb(old(t), gap, between, arrival)
    {
      t := t.(deltas := t.deltas + 1);
      t := t.(accumulated := t.accumulated + (between - gap));
      t := t.(smoothed := SMOOTHING * t.smoothed + (1.0 - SMOOTHING) * t.accumulated);
      var x := arrival - (if t.first.Some? then t.first.value else arrival);
      t := t.(samples := t.samples + [(x, t.smoothed)]);
      hide Fit, Residual, Intercept;
      Trim();
      if |t.samples| == WINDOW {
        var fit := FitSlope(t.samples);
        if fit.Some? { t := t.(slope := fit.value); }
      }
    }

    /** Drop the oldest samples beyond the window. */
    method Trim()
      modifies this
      ensures t == old(t).(samples := Kept(old(t).samples))
    {
      var all := t.samples;
      while |t.samples| > WINDOW
        invariant t == old(t).(samples := t.samples)
        invariant |t.samples| <= |all| && t.samples == all[|all| - |t.samples|..]
        invariant |t.samples| >= if |all| > WINDOW then WINDOW else |all|
      {
        t := t.(samples := t.samples[1..]);
      }
    }

    method DetectNow(gap: real, now: real)
      modifies this
      ensures t == Detect(old(t), gap, now)
    {
      if t.deltas < 2 {
        t := t.(state := Normal);
        return;
      }
      var modified := Modified(t);
      var next := t.state;
      if modified > t.threshold {
        t := t.(timeOver := if t.timeOver < 0.0 then gap / 2.0 else t.timeOver + gap);
        t := t.(overCount := t.overCount + 1);
        if t.timeOver > OVERUSE_TIME && t.overCount > 1 && t.slope >= t.prevSlope {
          t := t.(timeOver := 0.0, overCount := 0);
          next := Overuse;
        }
      } else {
        t := t.(timeOver := -1.0, overCount := 0);
        next := if modified < -t.threshold then Underuse else Normal;
      }
      t := t.(prevSlope := t.slope);
      if next == Overuse {
        if t.state != Overuse { t := t.(overSince := Some(now)); }
      } else {
        t := t.(overSince := None);
      }
      t := t.(state := next);
      Adapt(modified, now);
    }

    method Adapt(modified: real, now: real)
      modifies this
      ensures t == UpdateThreshold(old(t), modified, now)
    {
      if t.lastUpdate.None? || Abs(modified) > t.threshold + MAX_ADAPT_OFFSET {
        t := t.(lastUpdate := Some(now));
        return;
      }
      var k := if Abs(modified) < t.threshold then K_DOWN else K_UP;
      var dt := Between(now - t.lastUpdate.value, 0.0, 100.0);
      t := t.(threshold := t.threshold + k * (Abs(modified) - t.threshold) * dt);
      t := t.(threshold := Between(t.threshold, MIN_THRESHOLD, MAX_THRESHOLD));
      t := t.(lastUpdate := Some(now));
    }
  }

  /** Two passes: the means, then the centred sums. */
  method FitSlope(s: seq<(real, real)>) returns (r: Option<real>)
    requires s != []
    ensures r == Fit(s)
    ensures r.Some? ==> forall a: real, b: real :: Residual(s, Intercept(s, r.value), r.value) <= Residual(s, a, b)
    ensures r.None? <==> forall i :: 0 <= i < |s| ==> s[i].0 == s[0].0
  {
    LeastSquares(s);
    hide Times, Residual, Intercept;
    var sx, sy := 0.0, 0.0;
    for i := 0 to |s|
      invariant sx == SumX(s[..i]) && sy == SumY(s[..i])
    {
      assert s[..i + 1][..i] == s[..i];
      sx, sy := sx + s[i].0, sy + s[i].1;
    }
    assert s[..|s|] == s;
    var mx, my := sx / |s| as real, sy / |s| as real;
    var num, den := CentredSums(s, mx, my);
    r := if den > 0.0 then Some(num / den) else None;
  }

  method CentredSums(s: seq<(real, real)>, mx: real, my: real) returns (num: real, den: real)
    ensures num == Numerator(s, mx, my) && den == Denominator(s, mx)
  {
    hide Times;
    num, den := 0.0, 0.0;
    for i := 0 to |s|
      invariant num == Numerator(s[..i], mx, my) && den == Denominator(s[..i], mx)
    {
      assert s[..i + 1][..i] == s[..i];
      num := num + Times(s[i].0 - mx, s[i].1 - my);
      den := den + Times(s[i].0 - mx, s[i].0 - mx);
    }
    assert s[..|s|] == s;
  }

  // ---- why it is the least-squares slope ----

  /** Sum of squared distances of the samples from the line a + b x. */
  function Residual(s: seq<(real, real)>, a: real, b: real): real {
    if s == [] then 0.0 else Residual(s[..|s| - 1], a, b) + Square(Miss(s[|s| - 1].0, s[|s| - 1].1, a, b))
  }

  function Square(x: real): real { x * x }

  /** How far (x, y) is above the line a + b x. */
  function Miss(x: real, y: real, a: real, b: real): real { y - a - b * x }

  function Spread(s: seq<(real, real)>, my: real): real {
    if s == [] then 0.0 else Spread(s[..|s| - 1], my) + Square(s[|s| - 1].1 - my)
  }

  function DevX(s: seq<(real, real)>, mx: real): real { if s == [] then 0.0 else DevX(s[..|s| - 1], mx) + (s[|s| - 1].0 - mx) }
  function DevY(s: seq<(real, real)>, my: real): real { if s == [] then 0.0 else DevY(s[..|s| - 1], my) + (s[|s| - 1].1 - my) }

  /** Deviations from the mean cancel. */
  lemma {:induction false} DevIs(s: seq<(real, real)>, mx: real, my: real)
    ensures DevX(s, mx) == SumX(s) - |s| as real * mx && DevY(s, my) == SumY(s) - |s| as real * my
  {
    if s != [] {
      DevIs(s[..|s| - 1], mx, my);
      var n := |s[..|s| - 1]| as real;
      assert |s| as real == n + 1.0 && (n + 1.0) * mx == n * mx + mx && (n + 1.0) * my == n * my + my;
    }
  }

  /** A residual from its centred sums: spreads, cross sum, deviations and count. */
  function Poly(vv: real, uv: real, uu: real, v: real, u: real, n: real, b: real, c: real): real {
    vv - 2.0 * b * uv + b * b * uu + 2.0 * c * (v - b * u) + n * (c * c)
  }

  lemma PolyAdds(vv: real, uv: real, uu: real, v: real, u: real, n: real,
                 vv': real, uv': real, uu': real, v': real, u': real, n': real, b: real, c: real)
    ensures Poly(vv, uv, uu, v, u, n, b, c) + Poly(vv', uv', uu', v', u', n', b, c) ==
      Poly(vv + vv', uv + uv', uu + uu', v + v', u + u', n + n', b, c)
  {
    assert 2.0 * b * (uv + uv') == 2.0 * b * uv + 2.0 * b * uv';
    assert b * b * (uu + uu') == b * b * uu + b * b * uu';
    assert (v + v') - b * (u + u') == (v - b * u) + (v' - b * u');
    assert 2.0 * c * ((v - b * u) + (v' - b * u')) == 2.0 * c * (v - b * u) + 2.0 * c * (v' - b * u');
    assert (n + n') * (c * c) == n * (c * c) + n' * (c * c);
  }

  lemma ExpandTerm(x: real, y: real, mx: real, my: real, a: real, b: real)
    ensures Square(Miss(x, y, a, b)) ==
      Poly(Square(y - my), Times(x - mx, y - my), Times(x - mx, x - mx), y - my, x - mx, 1.0, b, Miss(mx, my, a, b))
  {
    var u, v, c := x - mx, y - my, Miss(mx, my, a, b);
    assert b * x == b * u + b * mx;
    assert Miss(x, y, a, b) == v - b * u + c;
    ExpandSquare(u, v, b, c);
    hide Square, Poly, Times;
  }

  lemma ExpandSquare(u: real, v: real, b: real, c: real)
    ensures Square(v - b * u + c) == Poly(Square(v), Times(u, v), Times(u, u), v, u, 1.0, b, c)
  { }

  /** The residual of any line, in terms of the centred sums. */
  lemma {:induction false} ResidualSplits(s: seq<(real, real)>, mx: real, my: real, a: real, b: real)
    ensures Residual(s, a, b) ==
      Poly(Spread(s, my), Numerator(s, mx, my), Denominator(s, mx), DevY(s, my), DevX(s, mx), |s| as real, b, Miss(mx, my, a, b))
  {
    hide Square, Times, Poly, Miss;
    var c := Miss(mx, my, a, b);
    if s == [] {
      PolyZero(b, c);
    } else {
      var front, x, y := s[..|s| - 1], s[|s| - 1].0, s[|s| - 1].1;
      var u, v := x - mx, y - my;
      ResidualSplits(front, mx, my, a, b);
      ExpandTerm(x, y, mx, my, a, b);
      PolyAdds(Spread(front, my), Numerator(front, mx, my), Denominator(front, mx), DevY(front, my), DevX(front, mx), |front| as real,
               Square(v), Times(u, v), Times(u, u), v, u, 1.0, b, c);
      assert |s| as real == |front| as real + 1.0;
    }
  }

  lemma PolyZero(b: real, c: real)
    ensures Poly(0.0, 0.0, 0.0, 0.0, 0.0, 0.0, b, c) == 0.0
  { }

  lemma PolyCentred(vv: real, uv: real, uu: real, n: real, b: real, c: real)
    ensures Poly(vv, uv, uu, 0.0, 0.0, n, b, c) == vv - 2.0 * b * uv + b * b * uu + n * (c * c)
  { }

  /** The intercept that takes the line through the means. */
  function Intercept(s: seq<(real, real)>, b: real): real
    requires s != []
  {
    MeanY(s) - b * MeanX(s)
  }

  /** The line through the means with the fitted slope has the least residual of all lines. */
  lemma FitIsLeastSquares(s: seq<(real, real)>, a: real, b: real)
    requires s != [] && Fit(s).Some?
    ensures Residual(s, Intercept(s, Fit(s).value), Fit(s).value) <= Residual(s, a, b)
  {
    var mx, my, slope := MeanX(s), MeanY(s), Fit(s).value;
    FitTimesDenominator(s);
    NoDeviation(s);
    MissIsZero(s, slope);
    hide Numerator, Denominator, Residual, Spread, MeanX, MeanY, Fit, Poly, DevX, DevY, Miss, Intercept;
    ResidualSplits(s, mx, my, a, b);
    ResidualSplits(s, mx, my, Intercept(s, slope), slope);
    Compare(Spread(s, my), Numerator(s, mx, my), Denominator(s, mx), |s| as real, slope, b, Miss(mx, my, a, b));
  }

  /** Both outcomes of the fit: the best line, or samples all at one time. */
  lemma LeastSquares(s: seq<(real, real)>)
    requires s != []
    ensures Fit(s).Some? ==> forall a: real, b: real :: Residual(s, Intercept(s, Fit(s).value), Fit(s).value) <= Residual(s, a, b)
    ensures Fit(s).None? <==> forall i :: 0 <= i < |s| ==> s[i].0 == s[0].0
  {
    if forall i :: 0 <= i < |s| ==> s[i].0 == s[0].0 { OneTime(s, s[0].0); }
    if Fit(s).Some? {
      forall a: real, b: real ensures Residual(s, Intercept(s, Fit(s).value), Fit(s).value) <= Residual(s, a, b) {
        FitIsLeastSquares(s, a, b);
      }
      hide Residual, Intercept, Fit;
    } else {
      forall i | 0 <= i < |s| ensures s[i].0 == s[0].0 {
        NoSpread(s, MeanX(s), i);
        NoSpread(s, MeanX(s), 0);
      }
    }
  }

  /** Samples at one time have that time as their mean and no spread. */
  lemma OneTime(s: seq<(real, real)>, x: real)
    requires s != [] && forall i :: 0 <= i < |s| ==> s[i].0 == x
    ensures Denominator(s, MeanX(s)) == 0.0
  {
    OneTimeSums(s, x);
    hide SumX, Denominator;
    MeanOfEqual(SumX(s), |s| as real, x);
  }

  lemma MeanOfEqual(sum: real, n: real, x: real)
    requires n > 0.0 && sum == n * x
    ensures sum / n == x
  { }

  lemma {:induction false} OneTimeSums(s: seq<(real, real)>, x: real)
    requires forall i :: 0 <= i < |s| ==> s[i].0 == x
    ensures SumX(s) == |s| as real * x && Denominator(s, x) == 0.0
  {
    if s != [] {
      OneTimeSums(s[..|s| - 1], x);
      var n := |s[..|s| - 1]| as real;
      assert |s| as real == n + 1.0 && (n + 1.0) * x == n * x + x;
      assert Times(s[|s| - 1].0 - x, s[|s| - 1].0 - x) == 0.0;
    }
  }

  /** The denominator is zero only when every sample sits at the mean time. */
  lemma {:induction false} NoSpread(s: seq<(real, real)>, mx: real, i: nat)
    requires i < |s|
    ensures Denominator(s, mx) >= 0.0 && (Denominator(s, mx) == 0.0 ==> s[i].0 == mx)
  {
    var front, x := s[..|s| - 1], s[|s| - 1].0;
    SquareSign(x - mx);
    DenominatorSign(front, mx);
    if i < |front| { NoSpread(front, mx, i); }
    hide Times;
  }

  lemma {:induction false} DenominatorSign(s: seq<(real, real)>, mx: real)
    ensures Denominator(s, mx) >= 0.0
  {
    if s != [] {
      DenominatorSign(s[..|s| - 1], mx);
      SquareSign(s[|s| - 1].0 - mx);
    }
    hide Times;
  }

  lemma SquareSign(x: real)
    ensures Times(x, x) >= 0.0 && (Times(x, x) == 0.0 <==> x == 0.0)
  {
    if x != 0.0 { assert Times(x, x) / x == x; }
  }

  lemma FitTimesDenominator(s: seq<(real, real)>)
    requires s != [] && Fit(s).Some?
    ensures Denominator(s, MeanX(s)) > 0.0
    ensures Fit(s).value * Denominator(s, MeanX(s)) == Numerator(s, MeanX(s), MeanY(s))
  {
    hide Numerator, Denominator, MeanX, MeanY;
  }

  lemma NoDeviation(s: seq<(real, real)>)
    requires s != []
    ensures DevX(s, MeanX(s)) == 0.0 && DevY(s, MeanY(s)) == 0.0
  {
    DevIs(s, MeanX(s), MeanY(s));
    hide SumX, SumY, DevX, DevY;
  }

  lemma MissIsZero(s: seq<(real, real)>, b: real)
    requires s != []
    ensures Miss(MeanX(s), MeanY(s), Intercept(s, b), b) == 0.0
  {
    hide MeanX, MeanY;
  }

  lemma Compare(sp: real, nu: real, de: real, n: real, slope: real, b: real, c: real)
    requires de > 0.0 && n > 0.0 && slope * de == nu
    ensures Poly(sp, nu, de, 0.0, 0.0, n, slope, 0.0) <= Poly(sp, nu, de, 0.0, 0.0, n, b, c)
  {
    PolyCentred(sp, nu, de, n, slope, 0.0);
    PolyCentred(sp, nu, de, n, b, c);
    LeastValue(sp, nu, de, n, slope, b, c);
    assert n * (0.0 * 0.0) == 0.0;
    hide Poly;
  }

  lemma LeastValue(sp: real, nu: real, de: real, n: real, slope: real, b: real, c: real)
    requires de > 0.0 && n > 0.0 && slope * de == nu
    ensures sp - 2.0 * slope * nu + slope * slope * de <= sp - 2.0 * b * nu + b * b * de + n * (c * c)
  {
    var e := b - slope;
    assert de * (e * e) >= 0.0 && n * (c * c) >= 0.0;
    assert (-2.0 * b * nu + b * b * de) - (-2.0 * slope * nu + slope * slope * de) == de * (e * e) by {
      assert b * nu == b * (slope * de) && slope * nu == slope * (slope * de);
      assert de * (e * e) == b * b * de - 2.0 * (b * (slope * de)) + slope * (slope * de);
      assert slope * slope * de == slope * (slope * de);
    }
  }

  // ---- clock offsets do not matter ----

  function Shifted(o: Option<real>, d: real): Option<real> { if o.Some? then Some(o.value + d) else None }

  /** The same estimator, seen with a sender clock off by c and a receiver clock off by d. */
  predicate Offset(t: Trend, u: Trend, c: int, d: real) {
    && u.first == Shifted(t.first, d) && (t.prevTs.Some? ==> t.first.Some?)
    && u.prevTs == (if t.prevTs.Some? then Some(Wrap(t.prevTs.value + c)) else None)
    && (t.prevTs.Some? ==> u.prevArrival == t.prevArrival + d)
    && u.accumulated == t.accumulated && u.smoothed == t.smoothed && u.samples == t.samples && u.deltas == t.deltas
    && u.slope == t.slope && u.prevSlope == t.prevSlope && u.threshold == t.threshold
    && u.lastUpdate == Shifted(t.lastUpdate, d)
    && u.timeOver == t.timeOver && u.overCount == t.overCount && u.state == t.state
    && u.overSince == Shifted(t.overSince, d)
  }

  lemma GapIgnoresOffset(ts: int, prev: int, c: int)
    ensures SignedGap(Wrap(ts + c), Wrap(prev + c)) == SignedGap(ts, prev)
  {
    var q, r := (ts + c) / U32, (prev + c) / U32;
    assert Wrap(ts + c) - Wrap(prev + c) == ts - prev + U32 * (r - q);
    ModShift(ts - prev, r - q);
  }

  lemma ModShift(x: int, k: int)
    ensures (x + U32 * k) % U32 == x % U32
  {
    var q := x / U32;
    assert x + U32 * k == U32 * (q + k) + x % U32;
    ModUnique(x + U32 * k, q + k, x % U32);
  }

  lemma ModUnique(x: int, q: int, r: int)
    requires x == U32 * q + r && 0 <= r < U32
    ensures x % U32 == r
  { }

  lemma FrameIgnoresOffset(t: Trend, u: Trend, c: int, d: real, ts: int, arrival: real)
    requires Offset(t, u, c, d)
    ensures Offset(OnFrame(t, ts, arrival), OnFrame(u, Wrap(ts + c), arrival + d), c, d)
  {
    hide SignedGap, Fit, Wrap, Absorb, Detect;
    if t.prevTs.Some? {
      GapIgnoresOffset(ts, t.prevTs.value, c);
      var gap := SignedGap(ts, t.prevTs.value) as real / 90.0;
      var between := arrival - t.prevArrival;
      assert arrival + d - u.prevArrival == between;
      var t1, u1 := t.(prevTs := Some(ts), prevArrival := arrival), u.(prevTs := Some(Wrap(ts + c)), prevArrival := arrival + d);
      assert Offset(t1, u1, c, d);
      hide Offset;
      if !(gap <= 0.0 || gap > 5000.0 || between < 0.0) {
        AbsorbIgnoresOffset(t1, u1, c, d, gap, between, arrival);
        DetectIgnoresOffset(Absorb(t1, gap, between, arrival), Absorb(u1, gap, between, arrival + d), c, d, gap, arrival);
      }
    }
  }

  lemma AbsorbIgnoresOffset(t: Trend, u: Trend, c: int, d: real, gap: real, between: real, arrival: real)
    requires Offset(t, u, c, d) && t.first.Some?
    ensures Offset(Absorb(t, gap, between, arrival), Absorb(u, gap, between, arrival + d), c, d)
    ensures Absorb(t, gap, between, arrival).first.Some?
  {
    hide Fit;
    assert arrival + d - u.first.value == arrival - t.first.value;
  }

  lemma DetectIgnoresOffset(t: Trend, u: Trend, c: int, d: real, gap: real, now: real)
    requires Offset(t, u, c, d)
    ensures Offset(Detect(t, gap, now), Detect(u, gap, now + d), c, d)
  {
    if t.deltas >= 2 {
      var m := Modified(t);
      assert Modified(u) == m;
      hide Modified;
      hide Wrap;
      var j, i := Judge(t, gap, m), Judge(u, gap, m);
      var since := if j.state != Overuse then None else if t.state != Overuse then Some(now) else t.overSince;
      var j1, i1 := j.(prevSlope := t.slope, overSince := since), i.(prevSlope := u.slope, overSince := Shifted(since, d));
      assert Offset(j1, i1, c, d);
      hide Judge;
      AdaptIgnoresOffset(j1, i1, c, d, m, now);
      hide UpdateThreshold, Offset;
    }
  }

  lemma AdaptIgnoresOffset(t: Trend, u: Trend, c: int, d: real, m: real, now: real)
    requires Offset(t, u, c, d)
    ensures Offset(UpdateThreshold(t, m, now), UpdateThreshold(u, m, now + d), c, d)
  {
    hide Adapted, Abs, Wrap;
    if t.lastUpdate.Some? { assert now + d - u.lastUpdate.value == now - t.lastUpdate.value; }
  }

  function Moved(frames: seq<Frame>, c: int, d: real): seq<Frame> {
    seq(|frames|, i requires 0 <= i < |frames| => Frame(Wrap(frames[i].ts + c), frames[i].arrival + d))
  }

  lemma {:induction false} RunIgnoresOffset(t: Trend, u: Trend, c: int, d: real, frames: seq<Frame>)
    requires Offset(t, u, c, d)
    ensures Offset(Run(t, frames), Run(u, Moved(frames, c, d)), c, d)
    decreases |frames|
  {
    hide OnFrame, Offset, Wrap;
    if |frames| > 0 {
      var f := frames[0];
      FrameIgnoresOffset(t, u, c, d, f.ts, f.arrival);
      assert Moved(frames, c, d)[1..] == Moved(frames[1..], c, d);
      RunIgnoresOffset(OnFrame(t, f.ts, f.arrival), OnFrame(u, Wrap(f.ts + c), f.arrival + d), c, d, frames[1..]);
    }
  }

  /** Adding any constant modulo 2^32 to every RTP timestamp and any constant to every arrival
      time changes neither the hypothesis nor how long it has held, after any frames. */
  lemma OffsetsDoNotMatter(frames: seq<Frame>, c: int, d: real, now: real)
    ensures Run(NEW, Moved(frames, c, d)).state == Run(NEW, frames).state
    ensures OveruseMs(Run(NEW, Moved(frames, c, d)), now + d) == OveruseMs(Run(NEW, frames), now)
  {
    assert Offset(NEW, NEW, c, d);
    RunIgnoresOffset(NEW, NEW, c, d, frames);
  }

  // ---- a steady path stays Normal ----

  /** Every arrival gap equals the send gap. */
  predicate Steady(frames: seq<Frame>) {
    forall i :: 0 <= i < |frames| - 1 ==>
      frames[i + 1].arrival - frames[i].arrival == SignedGap(frames[i + 1].ts, frames[i].ts) as real / 90.0
  }

  predicate Flat(t: Trend) {
    && t.accumulated == 0.0 && t.smoothed == 0.0 && t.slope == 0.0
    && (forall i :: 0 <= i < |t.samples| ==> t.samples[i].1 == 0.0)
    && t.threshold >= MIN_THRESHOLD && t.state == Normal
  }

  lemma {:induction false} FlatFit(s: seq<(real, real)>, mx: real)
    requires forall i :: 0 <= i < |s| ==> s[i].1 == 0.0
    ensures SumY(s) == 0.0 && Numerator(s, mx, 0.0) == 0.0
  {
    if s != [] { FlatFit(s[..|s| - 1], mx); }
  }

  lemma FlatFitIsZero(s: seq<(real, real)>)
    requires s != [] && forall i :: 0 <= i < |s| ==> s[i].1 == 0.0
    ensures Fit(s).Some? ==> Fit(s).value == 0.0
  {
    FlatFit(s, MeanX(s));
    assert MeanY(s) == 0.0;
    hide SumX, SumY, MeanX, MeanY, Numerator, Denominator;
  }

  lemma SteadyFrameFlat(t: Trend, ts: int, arrival: real)
    requires Flat(t)
    requires t.prevTs.Some? ==> arrival - t.prevArrival == SignedGap(ts, t.prevTs.value) as real / 90.0
    ensures Flat(OnFrame(t, ts, arrival))
  {
    hide SignedGap, Absorb, Detect;
    if t.prevTs.Some? {
      var gap := SignedGap(ts, t.prevTs.value) as real / 90.0;
      var t1 := t.(prevTs := Some(ts), prevArrival := arrival);
      AbsorbFlat(t1, gap, arrival);
      DetectFlat(Absorb(t1, gap, gap, arrival), gap, arrival);
    }
  }

  lemma AbsorbFlat(t: Trend, gap: real, arrival: real)
    requires Flat(t)
    ensures Flat(Absorb(t, gap, gap, arrival))
  {
    hide Fit;
    var r := Absorb(t, gap, gap, arrival);
    assert r.accumulated == 0.0 && r.smoothed == 0.0;
    assert forall i :: 0 <= i < |r.samples| ==> r.samples[i].1 == 0.0;
    if r.samples != [] { FlatFitIsZero(r.samples); }
  }

  lemma DetectFlat(t: Trend, gap: real, now: real)
    requires Flat(t)
    ensures Flat(Detect(t, gap, now))
  {
    assert Modified(t) == 0.0;
    hide Modified;
  }

  lemma {:induction false} SteadyRunFlat(t: Trend, frames: seq<Frame>)
    requires Flat(t) && Steady(frames)
    requires t.prevTs.Some? && |frames| > 0 ==>
      frames[0].arrival - t.prevArrival == SignedGap(frames[0].ts, t.prevTs.value) as real / 90.0
    ensures Flat(Run(t, frames))
    decreases |frames|
  {
    if |frames| > 0 {
      var f := frames[0];
      SteadyFrameFlat(t, f.ts, f.arrival);
      var u := OnFrame(t, f.ts, f.arrival);
      FrameIsLast(t, f.ts, f.arrival);
      hide OnFrame, Flat, SignedGap;
      SteadyRunFlat(u, frames[1..]);
    }
  }

  lemma FrameIsLast(t: Trend, ts: int, arrival: real)
    ensures var u := OnFrame(t, ts, arrival); u.prevTs == Some(ts) && u.prevArrival == arrival
  {
    hide Fit, SignedGap, Modified, Abs, Between;
  }

  /** Equal send and arrival gaps keep the hypothesis Normal after every frame. */
  lemma SteadyStaysNormal(frames: seq<Frame>)
    requires Steady(frames)
    ensures Run(NEW, frames).state == Normal
  {
    SteadyRunFlat(NEW, frames);
  }

  // ---- what every frame keeps ----

  lemma FrameCounts(t: Trend, ts: int, arrival: real)
    ensures var u := OnFrame(t, ts, arrival); u.samples != t.samples ==> |u.samples| > 0 && u.deltas == t.deltas + 1
  {
    hide Fit, SignedGap, Modified, Abs, Between, Adapted;
  }

  predicate TrendOk(t: Trend) {
    && MIN_THRESHOLD <= t.threshold <= MAX_THRESHOLD
    && |t.samples| <= WINDOW
    && (t.overSince.Some? <==> t.state == Overuse)
    && (t.deltas < 2 ==> t.state == Normal)
  }

  lemma FrameKeepsOk(t: Trend, ts: int, arrival: real)
    requires TrendOk(t)
    ensures TrendOk(OnFrame(t, ts, arrival))
  {
    hide SignedGap, Fit, Modified, Abs;
  }

  /** After any frames: a bounded threshold and window, and a start time exactly while Overuse
      holds. */
  lemma {:induction false} RunKeepsOk(t: Trend, frames: seq<Frame>)
    requires TrendOk(t)
    ensures TrendOk(Run(t, frames))
    decreases |frames|
  {
    hide OnFrame, TrendOk;
    if |frames| > 0 {
      FrameKeepsOk(t, frames[0].ts, frames[0].arrival);
      RunKeepsOk(OnFrame(t, frames[0].ts, frames[0].arrival), frames[1..]);
    }
  }
}
