/** What the estimator ends up saying of a steady ramp, in terms of the two gaps alone: Normal for
    ever when 240 |h - g| <= 6 h, and otherwise Overuse (delay growing) or Underuse (shrinking) from
    some frame on, with a bound on that frame. */
module RampVerdict {
  import opened Options
  import opened Delay
  import opened Trendlines
  import opened TrendSlope
  import opened TrendRamp

  /** Every frame was sent r.g and arrives r.h milliseconds after the one before it. */
  predicate IsRamp(frames: seq<Frame>, r: Ramp) {
    forall i :: 0 <= i < |frames| - 1 ==>
      SignedGap(frames[i + 1].ts, frames[i].ts) as real / 90.0 == r.g && frames[i + 1].arrival - frames[i].arrival == r.h
  }

  /** The state once frame n has arrived, n deltas after the first. */
  function After(frames: seq<Frame>, n: nat): Trend
    requires n < |frames|
  {
    Run(NEW, frames[..n + 1])
  }

  lemma {:induction false} RunLast(t: Trend, frames: seq<Frame>)
    requires |frames| > 0
    ensures var m := |frames| - 1; Run(t, frames) == OnFrame(Run(t, frames[..m]), frames[m].ts, frames[m].arrival)
    decreases |frames|
  {
    hide OnFrame;
    var m := |frames| - 1;
    if m > 0 {
      RunLast(OnFrame(t, frames[0].ts, frames[0].arrival), frames[1..]);
      assert frames[1..][..m - 1] == frames[..m][1..];
    }
  }

  lemma AfterNext(frames: seq<Frame>, n: nat)
    requires n + 1 < |frames|
    ensures After(frames, n + 1) == OnFrame(After(frames, n), frames[n + 1].ts, frames[n + 1].arrival)
  {
    hide OnFrame, Run;
    RunLast(NEW, frames[..n + 2]);
    assert frames[..n + 2][..n + 1] == frames[..n + 1];
  }

  /** The size of the slope has passed the threshold. */
  predicate Passed(frames: seq<Frame>, r: Ramp, n: nat)
    requires n < |frames|
  {
    Gauge(r, n) > After(frames, n).threshold
  }

  predicate Reached(frames: seq<Frame>, r: Ramp, n: nat)
    requires n < |frames|
  {
    && At(After(frames, n), r, n) && After(frames, n).prevTs == Some(frames[n].ts) && After(frames, n).prevArrival == frames[n].arrival
    && (Passed(frames, r, n) || After(frames, n).threshold <= INITIAL_THRESHOLD)
    && (n == 0 ==> After(frames, n).state == Normal)
  }

  lemma ReachedNext(frames: seq<Frame>, r: Ramp, n: nat)
    requires r.Ok() && IsRamp(frames, r) && n + 1 < |frames| && Reached(frames, r, n)
    ensures Reached(frames, r, n + 1)
    ensures Adapts(After(frames, n), After(frames, n + 1), r, n) && Counts(After(frames, n), After(frames, n + 1), r, n)
  {
    AfterNext(frames, n);
    hide After, At, Counts, OnFrame, SignedGap, Gauge;
    var t, f := After(frames, n), frames[n + 1];
    assert SignedGap(f.ts, t.prevTs.value) as real / 90.0 == r.g && f.arrival == t.prevArrival + r.h;
    FrameMoves(t, r, n, f.ts, f.arrival);
    GaugeGrows(r, n);
  }

  lemma {:induction false} AllReached(frames: seq<Frame>, r: Ramp, n: nat)
    requires r.Ok() && IsRamp(frames, r) && n < |frames|
    ensures Reached(frames, r, n)
  {
    if n == 0 {
      assert frames[..1] == [frames[0]];
      assert Run(NEW, frames[..1]) == OnFrame(NEW, frames[0].ts, frames[0].arrival);
      assert Recent(r, 0) == [];
    } else {
      hide Reached, IsRamp;
      AllReached(frames, r, n - 1);
      ReachedNext(frames, r, n - 1);
    }
  }

  /** The step from frame n to the next, for every n. */
  lemma Moves(frames: seq<Frame>, r: Ramp, n: nat)
    requires r.Ok() && IsRamp(frames, r) && n + 1 < |frames|
    ensures Adapts(After(frames, n), After(frames, n + 1), r, n) && Counts(After(frames, n), After(frames, n + 1), r, n)
    ensures 0.0 <= Gauge(r, n) <= Gauge(r, n + 1) <= r.Top() && After(frames, n).threshold >= MIN_THRESHOLD
  {
    hide IsRamp, Adapts, Counts, Gauge;
    AllReached(frames, r, n);
    ReachedNext(frames, r, n);
    GaugeGrows(r, n);
  }

  lemma Final(frames: seq<Frame>)
    requires frames != []
    ensures Run(NEW, frames) == After(frames, |frames| - 1)
  {
    assert frames[..|frames| - 1 + 1] == frames;
  }

  /** A ramp too slight for the least threshold is never seen. */
  lemma SlightStaysNormal(frames: seq<Frame>, r: Ramp)
    requires r.Ok() && IsRamp(frames, r) && r.Top() <= MIN_THRESHOLD
    ensures Run(NEW, frames).state == Normal
  {
    hide After, Gauge, Counts;
    if frames != [] {
      Final(frames);
      var n := |frames| - 1;
      if n == 0 { AllReached(frames, r, 0); } else { Moves(frames, r, n - 1); }
    }
  }

  // ---- once past the threshold ----

  /** j frames past it: the verdict is given, or the time over it has grown with each frame. */
  predicate Building(t: Trend, r: Ramp, j: nat) {
    if !r.Up() then j > 0 ==> t.state == Underuse
    else j > 0 ==> t.state == Overuse || (t.timeOver >= Times(j as real - 0.5, r.g) && t.overCount >= j)
  }

  lemma BuildingNext(t: Trend, v: Trend, r: Ramp, n: nat, j: nat)
    requires r.Ok() && Building(t, r, j) && Counts(t, v, r, n) && Gauge(r, n + 1) > t.threshold
    ensures Building(v, r, j + 1)
    ensures r.Up() && j > 0 && Times(j as real + 0.5, r.g) > OVERUSE_TIME ==> v.state == Overuse
  {
    HalfStep(r.g, j);
    hide Times, Gauge;
  }

  lemma HalfStep(g: real, j: nat)
    requires g > 0.0
    ensures Times(j as real + 0.5, g) == Times(j as real - 0.5, g) + g && Times((j + 1) as real - 0.5, g) == Times(j as real + 0.5, g)
    ensures j == 0 ==> Times(j as real + 0.5, g) == g / 2.0
    ensures j > 0 ==> Times(j as real - 0.5, g) >= 0.0
  {
    assert (j as real + 0.5) * g == (j as real - 0.5) * g + g;
    if j > 0 { NonNegative(j as real - 0.5, g); }
  }

  lemma {:induction false} StaysPassed(frames: seq<Frame>, r: Ramp, k: nat, n: nat)
    requires r.Ok() && IsRamp(frames, r) && k <= n < |frames| && Passed(frames, r, k)
    ensures Passed(frames, r, n) && Building(After(frames, n), r, n - k)
    ensures n > k + 1 && r.Up() && Times((n - k) as real - 0.5, r.g) > OVERUSE_TIME ==> After(frames, n).state == Overuse
  {
    hide After, Gauge, Counts, IsRamp, Times, Building;
    if n == k {
      assert Building(After(frames, n), r, 0) by { Unstarted(After(frames, n), r); }
    } else {
      StaysPassed(frames, r, k, n - 1);
      Moves(frames, r, n - 1);
      BuildingNext(After(frames, n - 1), After(frames, n), r, n - 1, n - 1 - k);
      assert (n - 1 - k) as real + 0.5 == (n - k) as real - 0.5;
    }
  }

  lemma Unstarted(t: Trend, r: Ramp)
    ensures Building(t, r, 0)
  { }

  /** Frames that 10 ms over the threshold takes, at most. */
  function Confirm(g: real): nat
    requires g > 0.0
  {
    QuotientFloor(OVERUSE_TIME, g);
    (OVERUSE_TIME / g).Floor + 2
  }

  lemma ConfirmLongEnough(g: real, j: nat)
    requires g > 0.0 && j >= Confirm(g)
    ensures Times(j as real - 0.5, g) > OVERUSE_TIME
  {
    QuotientFloor(OVERUSE_TIME, g);
    var f := (OVERUSE_TIME / g).Floor as real + 1.0;
    NonNegative(j as real - 0.5 - f, g);
    assert (j as real - 0.5) * g == f * g + (j as real - 0.5 - f) * g;
  }

  function Verdict(r: Ramp): DelayState { if r.Up() then Overuse else Underuse }

  lemma PassedIsSeen(frames: seq<Frame>, r: Ramp, k: nat, n: nat)
    requires r.Ok() && IsRamp(frames, r) && k + Confirm(r.g) <= n < |frames| && Passed(frames, r, k)
    ensures After(frames, n).state == Verdict(r)
  {
    StaysPassed(frames, r, k, n);
    ConfirmLongEnough(r.g, n - k);
    hide After, Gauge, IsRamp, Times;
  }

  // ---- when it is passed ----

  /** The threshold falls by a tenth of its lead with each frame while the slope closes a tenth of
      its own distance, so their ratio falls by a tenth each time. */
  lemma LeadStep(th: real, th': real, m: real, m': real, left: real, q: real)
    requires th - m <= Times(q, left) && m' == m + 0.1 * left && th' <= 0.9 * th + 0.1 * m'
    ensures th' - m' <= Times(q - 0.1, 0.9 * left)
  {
    assert (q - 0.1) * (0.9 * left) == 0.9 * (q * left) - 0.09 * left;
  }

  lemma {:induction false} LeadShrinks(frames: seq<Frame>, r: Ramp, s: nat, n: nat, q: real)
    requires r.Ok() && IsRamp(frames, r) && 39.0 * r.h >= 100.0 && DELTAS_CAP <= s <= n < |frames| && Gauge(r, s) >= MIN_THRESHOLD
    requires After(frames, s).threshold - Gauge(r, s) <= Times(q, Left(r, s))
    ensures Gauge(r, n) >= MIN_THRESHOLD
    ensures Passed(frames, r, n) || After(frames, n).threshold - Gauge(r, n) <= Times(q - 0.1 * (n - s) as real, Left(r, n))
  {
    hide After, Gauge, Counts, IsRamp, Times;
    if n > s {
      LeadShrinks(frames, r, s, n - 1, q);
      Moves(frames, r, n - 1);
      LeftShrinks(r, n - 1);
      var t, v := After(frames, n - 1), After(frames, n);
      if Gauge(r, n) <= t.threshold {
        LeadStep(t.threshold, v.threshold, Gauge(r, n - 1), Gauge(r, n), Left(r, n - 1), q - 0.1 * (n - 1 - s) as real);
        assert q - 0.1 * (n - 1 - s) as real - 0.1 == q - 0.1 * (n - s) as real;
      }
    }
  }

  /** A part of the distance to the top that is still left after n deltas. */
  function Rest(r: Ramp, n: nat): real
    requires r.h > 0.0 && n >= DELTAS_CAP
  {
    Times(Pow(n - 20), Times(Pow(20), r.Top()))
  }

  lemma RestPositive(r: Ramp, n: nat)
    requires r.h > 0.0 && n >= DELTAS_CAP && r.Top() > 0.0
    ensures 0.0 < Rest(r, n) <= Left(r, n)
  {
    LeftRange(r, n);
    PowFalls(0, 20);
    PowFalls(0, n - 20);
    hide Pow, Left;
    ProductPositive(Pow(20), r.Top());
    ProductPositive(Pow(n - 20), Times(Pow(20), r.Top()));
  }

  /** Frames in which the threshold's lead is used up. */
  function Chase(r: Ramp, s: nat): (j: nat)
    requires r.h > 0.0 && r.Top() > 0.0 && s >= DELTAS_CAP
    ensures Times(j as real, Rest(r, s)) > 125.0
  {
    RestPositive(r, s);
    QuotientFloor(125.0, Rest(r, s));
    (125.0 / Rest(r, s)).Floor + 1
  }

  /** Deltas after which the slope has passed the threshold. */
  function Crossing(r: Ramp): nat
    requires r.h > 0.0 && r.Top() > MIN_THRESHOLD
  {
    if r.Top() > INITIAL_THRESHOLD then Climb(r.Top(), INITIAL_THRESHOLD)
    else
      var s := Climb(r.Top(), MIN_THRESHOLD);
      s + Chase(r, s)
  }

  lemma SteepPasses(frames: seq<Frame>, r: Ramp, n: nat)
    requires r.Ok() && IsRamp(frames, r) && r.Top() > INITIAL_THRESHOLD && Climb(r.Top(), INITIAL_THRESHOLD) <= n < |frames|
    ensures Passed(frames, r, n)
  {
    hide After, Gauge, IsRamp, Climb, At;
    AllReached(frames, r, n);
    GaugeReaches(r, INITIAL_THRESHOLD, n);
  }

  lemma Exhausted(q: real, j: nat, rest: real, left: real)
    requires 0.0 < rest && 0.0 < left && Times(q, rest) == 12.5 && Times(j as real, rest) > 125.0
    ensures Times(q - 0.1 * j as real, left) < 0.0
  {
    var x := 0.1 * j as real - q;
    Longer(q, j as real, rest);
    ProductPositive(x, left);
    assert Times(-x, left) == -Times(x, left);
    assert -x == q - 0.1 * j as real;
  }

  lemma Longer(q: real, j: real, rest: real)
    requires 0.0 < rest && Times(q, rest) == 12.5 && Times(j, rest) > 125.0
    ensures 0.1 * j > q
  {
    assert (q - 0.1 * j) * rest == q * rest - 0.1 * (j * rest);
    if 0.1 * j <= q { NonNegative(q - 0.1 * j, rest); }
  }

  lemma GentlePasses(frames: seq<Frame>, r: Ramp, s: nat, j: nat)
    requires r.Ok() && IsRamp(frames, r) && r.Top() > MIN_THRESHOLD && 39.0 * r.h >= 100.0
    requires s >= Climb(r.Top(), MIN_THRESHOLD) && s + j < |frames| && Times(j as real, Rest(r, s)) > 125.0
    ensures Passed(frames, r, s + j)
  {
    hide After, Gauge, IsRamp, At, Times, Rest, Left;
    AllReached(frames, r, s);
    GaugeReaches(r, MIN_THRESHOLD, s);
    RestPositive(r, s);
    RestPositive(r, s + j);
    if Passed(frames, r, s) {
      StaysPassed(frames, r, s, s + j);
    } else {
      var rest := Rest(r, s);
      var q := 12.5 / rest;
      Lead(q, rest, Left(r, s));
      LeadShrinks(frames, r, s, s + j, q);
      Exhausted(q, j, rest, Left(r, s + j));
    }
  }

  lemma Lead(q: real, rest: real, left: real)
    requires 0.0 < rest <= left && q == 12.5 / rest
    ensures Times(q, rest) == 12.5 && Times(q, left) >= 12.5
  {
    assert q * rest == 12.5;
    if q < 0.0 { NonNegative(-q, rest); }
    NonNegative(q, left - rest);
    assert q * left == q * rest + q * (left - rest);
  }

  /** Frames that certainly suffice. */
  function Enough(r: Ramp): nat
    requires r.Ok()
  {
    if r.Top() <= MIN_THRESHOLD then 0 else Crossing(r) + Confirm(r.g) + 1
  }

  lemma CrossingPasses(frames: seq<Frame>, r: Ramp)
    requires r.Ok() && IsRamp(frames, r) && r.Top() > MIN_THRESHOLD && Crossing(r) < |frames|
    requires r.Top() > INITIAL_THRESHOLD || 39.0 * r.h >= 100.0
    ensures Passed(frames, r, Crossing(r))
  {
    hide After, Gauge, IsRamp, Times, Rest, Passed, Climb;
    if r.Top() > INITIAL_THRESHOLD { SteepPasses(frames, r, Crossing(r)); } else {
      var s := Climb(r.Top(), MIN_THRESHOLD);
      GentlePasses(frames, r, s, Chase(r, s));
    }
  }

  /** A steady ramp of enough frames is called Normal exactly when 240 |h - g| <= 6 h, and otherwise
      Overuse when the delay grows and Underuse when it shrinks. */
  lemma RampIsJudged(frames: seq<Frame>, r: Ramp)
    requires r.Ok() && IsRamp(frames, r) && |frames| >= Enough(r)
    requires 39.0 * r.h >= 100.0 || r.Top() > INITIAL_THRESHOLD || r.Top() <= MIN_THRESHOLD
    ensures Run(NEW, frames).state ==
      if 240.0 * Abs(r.h - r.g) <= 6.0 * r.h then Normal else if r.h > r.g then Overuse else Underuse
  {
    TopIs(r);
    if r.Top() <= MIN_THRESHOLD { SlightStaysNormal(frames, r); } else {
      hide Run, IsRamp, Crossing, Confirm, Passed, After;
      CrossingPasses(frames, r);
      Final(frames);
      PassedIsSeen(frames, r, Crossing(r), |frames| - 1);
    }
  }

  lemma TopIs(r: Ramp)
    requires r.h > 0.0
    ensures r.Top() <= MIN_THRESHOLD <==> 240.0 * Abs(r.h - r.g) <= 6.0 * r.h
    ensures r.Top() <= MIN_THRESHOLD || r.h != r.g
  {
    GrowthIs(r);
    var c, h := Mag(r.C(), r.Up()), r.h;
    assert Abs(r.h - r.g) == c * h;
    if c <= 0.025 { NonNegative(0.025 - c, h); } else { ProductPositive(c - 0.025, h); }
    assert (0.025 - c) * h == 0.025 * h - c * h;
  }

  /** Frames under 2.6 ms apart can escape between the two levels: at 90 ticks a millisecond, one tick
      apart and arriving 32/31 of that apart, the slope's size rises to 7.5 and the threshold,
      which falls with time, stays ahead of it for ever. */
  const FAST: Ramp := Ramp(1.0 / 90.0, 32.0 / 2790.0)

  predicate Ahead(th: real, n: nat) {
    && th <= INITIAL_THRESHOLD
    && if n <= DELTAS_CAP then th >= INITIAL_THRESHOLD - 0.05 * n as real
       else th - Gauge(FAST, n) >= 1.1 * (7.5 - Gauge(FAST, n))
  }

  lemma FastTop()
    ensures FAST.Ok() && FAST.Top() == 7.5 && FAST.Up()
  { }

  lemma {:induction false} FastIsAhead(frames: seq<Frame>, n: nat)
    requires IsRamp(frames, FAST) && n < |frames|
    ensures Ahead(After(frames, n).threshold, n) && After(frames, n).state == Normal
  {
    hide After, Gauge, Counts, IsRamp, At;
    FastTop();
    AllReached(frames, FAST, n);
    if n == 0 { AfterFirst(frames); } else {
      FastIsAhead(frames, n - 1);
      Moves(frames, FAST, n - 1);
      if n > DELTAS_CAP { LeftShrinks(FAST, n - 1); }
    }
  }

  lemma AfterFirst(frames: seq<Frame>)
    requires frames != []
    ensures After(frames, 0).threshold == INITIAL_THRESHOLD && After(frames, 0).state == Normal
  {
    assert frames[..1] == [frames[0]];
    assert Run(NEW, frames[..1]) == OnFrame(NEW, frames[0].ts, frames[0].arrival);
  }

  lemma FastStaysNormal(frames: seq<Frame>)
    requires IsRamp(frames, FAST)
    ensures FAST.h > FAST.g && FAST.Top() > MIN_THRESHOLD && Run(NEW, frames).state == Normal
  {
    FastTop();
    if frames != [] {
      Final(frames);
      FastIsAhead(frames, |frames| - 1);
    }
  }

  // ---- frames that arrive all at once ----

  predicate Frozen(t: Trend, at: real) {
    && t.slope == 0.0 && t.state == Normal && t.threshold >= MIN_THRESHOLD
    && (t.first.Some? ==> t.first.value == at && t.prevArrival == at) && (t.prevTs.Some? ==> t.first.Some?)
    && forall i :: 0 <= i < |t.samples| ==> t.samples[i].0 == 0.0
  }

  lemma FrozenNext(t: Trend, ts: int, at: real)
    requires Frozen(t, at)
    ensures Frozen(OnFrame(t, ts, at), at)
  {
    hide SignedGap, Detect, Fit;
    if t.prevTs.Some? {
      var gap := SignedGap(ts, t.prevTs.value) as real / 90.0;
      var u := Absorb(t.(prevTs := Some(ts), prevArrival := at), gap, 0.0, at);
      if |u.samples| == WINDOW { LeastSquares(u.samples); }
      assert Frozen(u, at);
      hide Absorb;
      FrozenJudged(u, gap, at);
    }
  }

  lemma FrozenJudged(t: Trend, gap: real, at: real)
    requires Frozen(t, at)
    ensures Frozen(Detect(t, gap, at), at)
  {
    assert Modified(t) == 0.0;
    hide Modified;
  }

  /** Arrival times that are all the same give no slope, and no verdict. */
  lemma {:induction false} AllAtOnceStaysNormal(frames: seq<Frame>, at: real)
    requires forall i :: 0 <= i < |frames| ==> frames[i].arrival == at
    ensures Frozen(Run(NEW, frames), at) && Run(NEW, frames).state == Normal
    decreases |frames|
  {
    hide OnFrame;
    if frames != [] {
      var m := |frames| - 1;
      AllAtOnceStaysNormal(frames[..m], at);
      RunLast(NEW, frames);
      FrozenNext(Run(NEW, frames[..m]), frames[m].ts, at);
    }
  }
}
