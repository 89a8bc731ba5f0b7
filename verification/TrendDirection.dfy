/** Which way the estimator leans: a queue that only fills is never called Underuse, one that only
    drains never Overuse; a steady ramp of growing delay ends in Overuse and of shrinking delay in
    Underuse, after a number of frames that is given, unless it is too slight ever to be seen. */
module TrendDirection {
  import opened Options
  import opened Delay
  import opened Trendlines
  import opened TrendSlope

  // ---- the direction that is never reported ----

  /** The frame arrives no earlier than the one before and, when its gap is usable, later (up) or
      earlier (down) than its send gap says. */
  predicate Leans(prev: Frame, f: Frame, up: bool) {
    var gap := SignedGap(f.ts, prev.ts) as real / 90.0;
    && prev.arrival <= f.arrival
    && (0.0 < gap <= 5000.0 ==> if up then f.arrival - prev.arrival >= gap else f.arrival - prev.arrival <= gap)
  }

  predicate Leaning(frames: seq<Frame>, up: bool) {
    forall i :: 0 <= i < |frames| - 1 ==> Leans(frames[i], frames[i + 1], up)
  }

  function Wrong(up: bool): DelayState { if up then Underuse else Overuse }

  /** a is on the far side of b in the direction. */
  predicate Beyond(a: real, b: real, up: bool) { if up then a >= b else a <= b }

  predicate SamplesOk(t: Trend, up: bool) {
    && Ordered(t.samples) && Goes(t.samples, up)
    && (forall i :: 0 <= i < |t.samples| ==> Beyond(t.smoothed, t.samples[i].1, up))
    && (t.prevTs.Some? ==> t.first.Some? && forall i :: 0 <= i < |t.samples| ==> t.samples[i].0 <= t.prevArrival - t.first.value)
    && (t.prevTs.None? ==> t.samples == [])
  }

  predicate LeanOk(t: Trend, up: bool) {
    && Signed(t.slope, up) && t.threshold >= MIN_THRESHOLD && t.state != Wrong(up)
    && Beyond(t.accumulated, t.smoothed, up) && SamplesOk(t, up)
  }

  lemma KeptLeans(s: Samples, p: (real, real), up: bool)
    requires Ordered(s) && Goes(s, up) && forall i :: 0 <= i < |s| ==> s[i].0 <= p.0 && Beyond(p.1, s[i].1, up)
    ensures var k := Trendlines.Kept(s + [p]); Ordered(k) && Goes(k, up) && forall i :: 0 <= i < |k| ==> k[i].0 <= p.0 && Beyond(p.1, k[i].1, up)
  { }

  lemma SmoothsBetween(s: real, acc: real, up: bool)
    requires Beyond(acc, s, up)
    ensures var m := SMOOTHING * s + (1.0 - SMOOTHING) * acc; Beyond(m, s, up) && Beyond(acc, m, up)
  { }

  /** The sample that a usable delta adds, and the window with it. */
  function NextSample(t: Trend, gap: real, between: real, arrival: real): (real, real)
    requires t.first.Some?
  {
    (arrival - t.first.value, SMOOTHING * t.smoothed + (1.0 - SMOOTHING) * (t.accumulated + (between - gap)))
  }

  lemma AbsorbIs(t: Trend, gap: real, between: real, arrival: real)
    requires t.first.Some?
    ensures var u, p := Absorb(t, gap, between, arrival), NextSample(t, gap, between, arrival);
      && u == t.(deltas := t.deltas + 1, accumulated := t.accumulated + (between - gap), smoothed := p.1,
                 samples := Trendlines.Kept(t.samples + [p]), slope := u.slope)
      && (|u.samples| == WINDOW && Fit(u.samples).Some? ==> u.slope == Fit(u.samples).value)
      && (|u.samples| != WINDOW || Fit(u.samples).None? ==> u.slope == t.slope)
  {
    hide Fit, Trendlines.Kept;
  }

  lemma AbsorbLeans(t: Trend, gap: real, between: real, arrival: real, up: bool)
    requires LeanOk(t, up) && t.first.Some? && t.prevTs.Some? && t.prevArrival == arrival
    requires Beyond(between, gap, up)
    ensures LeanOk(Absorb(t, gap, between, arrival), up)
  {
    var p := NextSample(t, gap, between, arrival);
    SmoothsBetween(t.smoothed, t.accumulated + (between - gap), up);
    KeptLeans(t.samples, p, up);
    AbsorbIs(t, gap, between, arrival);
    hide Ordered, Goes, Fit, Absorb, Trendlines.Kept;
    var u := Absorb(t, gap, between, arrival);
    if |u.samples| == WINDOW && Fit(u.samples).Some? { SlopeSigned(u.samples, up); }
  }

  lemma ModifiedSigned(t: Trend, up: bool)
    requires Signed(t.slope, up)
    ensures Signed(Modified(t), up)
  {
    var n := (if t.deltas < DELTAS_CAP then t.deltas else DELTAS_CAP) as real;
    if up { NonNegative(t.slope, n); } else { NonNegative(-t.slope, n); assert -t.slope * n == -(t.slope * n); }
  }

  lemma DetectLeans(t: Trend, gap: real, now: real, up: bool)
    requires LeanOk(t, up)
    ensures LeanOk(Detect(t, gap, now), up)
  {
    ModifiedSigned(t, up);
    hide Modified, Ordered, Goes;
  }

  lemma FrameLeans(t: Trend, f: Frame, up: bool)
    requires LeanOk(t, up)
    requires t.prevTs.Some? ==> Leans(Frame(t.prevTs.value, t.prevArrival), f, up)
    ensures LeanOk(OnFrame(t, f.ts, f.arrival), up)
  {
    hide SignedGap, Absorb, Detect, Ordered, Goes;
    if t.prevTs.Some? {
      var gap := SignedGap(f.ts, t.prevTs.value) as real / 90.0;
      var t1 := t.(prevTs := Some(f.ts), prevArrival := f.arrival);
      assert LeanOk(t1, up);
      if 0.0 < gap <= 5000.0 {
        AbsorbLeans(t1, gap, f.arrival - t.prevArrival, f.arrival, up);
        DetectLeans(Absorb(t1, gap, f.arrival - t.prevArrival, f.arrival), gap, f.arrival, up);
      }
    }
  }

  lemma {:induction false} RunLeans(t: Trend, frames: seq<Frame>, up: bool)
    requires LeanOk(t, up) && Leaning(frames, up)
    requires t.prevTs.Some? && |frames| > 0 ==> Leans(Frame(t.prevTs.value, t.prevArrival), frames[0], up)
    ensures LeanOk(Run(t, frames), up)
    decreases |frames|
  {
    hide LeanOk, Leans, OnFrame;
    if |frames| > 0 {
      var f := frames[0];
      FrameLeans(t, f, up);
      FrameIsLast(t, f.ts, f.arrival);
      RunLeans(OnFrame(t, f.ts, f.arrival), frames[1..], up);
    }
  }

  /** While no usable frame arrives later than its send gap says, Overuse is never reported; while
      none arrives earlier, Underuse never is. */
  lemma NeverTheWrongWay(frames: seq<Frame>, up: bool)
    requires Leaning(frames, up)
    ensures Run(NEW, frames).state != if up then Underuse else Overuse
  {
    RunLeans(NEW, frames, up);
  }
}
