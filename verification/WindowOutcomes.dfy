/** What a single window does, in terms of its samples and of the rate: which windows cut, by how
    much, and how a rise has to be earned. */
module WindowOutcomes {
  import opened Options
  import opened Ladder
  import opened Delay
  import opened Controller
  import opened RateSafety
  import opened NoSawtooth
  import opened Convergence
  import P = PointSafety

  // ---- the RTT signals, from the samples ----

  /** The samples that count. */
  function Positives(v: seq<real>): seq<real> {
    if v == [] then []
    else if v[|v| - 1] <= 0.0 then Positives(v[..|v| - 1]) else Positives(v[..|v| - 1]) + [v[|v| - 1]]
  }

  function Sum(v: seq<real>): real { if v == [] then 0.0 else Sum(v[..|v| - 1]) + v[|v| - 1] }

  /** The least of the tracked baseline, if there is one, and the samples. */
  ghost predicate IsBaseline(b: real, tracked: real, samples: seq<real>) {
    && (forall i :: 0 <= i < |samples| ==> b <= samples[i])
    && (tracked > 0.0 ==> b <= tracked)
    && ((tracked > 0.0 && b == tracked) || exists i :: 0 <= i < |samples| && b == samples[i])
  }

  /** After the samples: their sum and number, the least as baseline, the last as last. */
  lemma {:induction false} FeedMeans(r: Rtt, v: seq<real>)
    ensures var (sum, n, q) := Feed(r, v); var p := Positives(v);
      && sum == Sum(p) && n == |p| && q.ema == r.ema
      && (forall i :: 0 <= i < |p| ==> p[i] > 0.0)
      && (p == [] ==> q == r)
      && (p != [] ==> q.last == p[|p| - 1] && IsBaseline(q.base, r.base, p))
  {
    hide IsBaseline;
    if v != [] {
      var front, x := v[..|v| - 1], v[|v| - 1];
      FeedMeans(r, front);
      if x > 0.0 {
        var p0 := Positives(front);
        BaselineGrows(Feed(r, front).2.base, r.base, p0, x);
        SumGrows(p0, x);
        hide Sum;
        assert Positives(v) == p0 + [x];
      }
    }
  }

  lemma SumGrows(p: seq<real>, x: real)
    ensures Sum(p + [x]) == Sum(p) + x
  {
    assert (p + [x])[..|p|] == p;
  }

  lemma BaselineGrows(b: real, tracked: real, p: seq<real>, x: real)
    requires x > 0.0 && (p == [] ==> b == tracked) && (p != [] ==> IsBaseline(b, tracked, p)) && forall i :: 0 <= i < |p| ==> p[i] > 0.0
    ensures IsBaseline(if b <= 0.0 || x < b then x else b, tracked, p + [x])
  {
    var c := if b <= 0.0 || x < b then x else b;
    var q := p + [x];
    assert q[|p|] == x;
    if p != [] && c == b && !(tracked > 0.0 && b == tracked) {
      var i :| 0 <= i < |p| && b == p[i];
      assert q[i] == b;
    }
  }

  lemma BaselineUnique(b: real, c: real, tracked: real, p: seq<real>)
    requires IsBaseline(b, tracked, p) && IsBaseline(c, tracked, p)
    ensures b == c
  { }

  /** The window's mean; a single sample is blended with the value before. */
  function Smoothed(ema: real, p: seq<real>): real {
    if p == [] then ema
    else if ema <= 0.0 || |p| >= 2 then Sum(p) / |p| as real
    else (ema + Sum(p) / |p| as real) * 0.5
  }

  /** A fiftieth of the gap is added to the baseline before it is compared. */
  function Rebased(b: real, level: real): real { if level > b then b + (level - b) * 0.02 else b }

  function Over(b: real, level: real): real { if level > Rebased(b, level) then level - Rebased(b, level) else 0.0 }

  /** How far the window lies over the baseline b, and how far its last sample does. */
  lemma ExcessMeans(r: Rtt, v: seq<real>, b: real)
    requires b > 0.0 && if Positives(v) == [] then b == r.base else IsBaseline(b, r.base, Positives(v))
    ensures var q, p := UpdateRtt(r, v), Positives(v); var level := Smoothed(r.ema, p);
      && q.ema == level && q.base == Rebased(b, level)
      && (level > 0.0 ==> Excess(q) == Over(b, level))
      && (p != [] ==> q.last == p[|p| - 1] && ExcessNow(q) == Positive(p[|p| - 1] - Rebased(b, level)))
  {
    FeedMeans(r, v);
    var (sum, n, q0) := Feed(r, v);
    var p := Positives(v);
    if p != [] { BaselineUnique(b, q0.base, r.base, p); }
    hide Feed, Positives, Sum;
    var level := Smoothed(r.ema, p);
    RebasedPositive(b, level);
  }

  lemma RebasedPositive(b: real, level: real)
    requires b > 0.0
    ensures Rebased(b, level) >= b
  { }

  /** A mean of positive samples is positive. */
  lemma {:induction false} SumPositive(p: seq<real>)
    requires p != [] && forall i :: 0 <= i < |p| ==> p[i] > 0.0
    ensures Sum(p) > 0.0
  {
    if |p| > 1 { SumPositive(p[..|p| - 1]); }
  }

  // ---- cuts ----

  /** A state in which a queue may cut: nothing pending, nothing draining, room to the floor. */
  predicate Cuttable(k: Ctl) { Placed(k) && RateOk(k) && k.probeDown.None? && k.drainLeft == 0 && k.target > FLOOR }

  /** The result of a queue cut to `to`: a host-bound step past the current rung that leaves the
      rate alone, or the new rate with its punished ceiling; a probe that is then (windows on) at
      most ten windows old doubles the next wait. */
  predicate CutTo(k: Ctl, r: Ctl, to: nat, windows: nat)
    requires Placed(k)
  {
    if HostBound(k) then r.target == k.target && r.ceiling == k.ceiling && r.pointCap > k.pointIdx
    else
      && r.target == Max(FLOOR, to)
      && r.ceiling == (if k.queueCuts > 0 then Max(k.ceiling, k.target * 85 / 100) else Max(FLOOR, k.target * 85 / 100))
      && r.probeWait == (if k.probeAge.Some? && k.probeAge.value + windows <= PROBE_PUNISH_WINDOWS then Min(2 * k.probeWait, PROBE_WAIT_MAX) else k.probeWait)
  }

  lemma FinishKeepsRate(k: Ctl)
    requires Placed(k)
    ensures var r := Finish(k);
      r.target == k.target && r.ceiling == k.ceiling && r.probeWait == k.probeWait && r.pointCap == k.pointCap && r.probeDown == k.probeDown
  {
    hide LadderOk, Pick, EncoderRate;
  }

  lemma QueueCutIs(k: Ctl, s: Sample, to: nat)
    requires Cuttable(k) && to <= k.target
    ensures CutTo(k, Finish(QueueCut(Arrive(k, s), k.target, to)), to, 1)
  {
    var k1 := Arrive(k, s);
    assert HostBound(k1) <==> HostBound(k) by { hide FindLighter, LadderOk, UpdateRtt; }
    FinishKeepsRate(QueueCut(k1, k.target, to));
    hide LadderOk, EncoderRate, FindLighter, UpdateRtt, Finish;
  }

  /** Delay overuse cuts to 85 percent. */
  lemma OveruseCuts(k: Ctl, s: Sample)
    requires Cuttable(k)
    ensures CutTo(k, Tick(k, s, Overuse), k.target * 85 / 100, 1)
  {
    QueueCutIs(k, s, k.target * 85 / 100);
    var k1 := Arrive(k, s);
    assert OveruseCut(k1, Read(k1, s, Overuse)) && k1.target == k.target && k1.probeDown.None? by { hide UpdateRtt, LadderOk; }
    hide CutTo, QueueCut, Finish, Arrive, Read, LadderOk;
  }

  lemma LadderKeepsRate(k: Ctl, urgent: bool)
    requires Placed(k)
    ensures var r := ApplyLadder(k, urgent);
      r.target == k.target && r.ceiling == k.ceiling && r.probeWait == k.probeWait && r.pointCap == k.pointCap && r.lastFastCut == k.lastFastCut
  {
    hide LadderOk, Pick;
  }

  /** Between windows: half a second of overuse cuts to 85 percent, at most once in a second and a
      half, and anything less changes nothing. */
  lemma PollCuts(k: Ctl, now: real, overuseMs: real)
    requires Placed(k) && RateOk(k)
    ensures var r := PollFast(k, now, overuseMs);
      if overuseMs >= 500.0 && now - k.lastFastCut >= 1500.0 && k.target > FLOOR && k.drainLeft == 0
      then CutTo(k, r, k.target * 85 / 100, 0) && r.lastFastCut == now
      else r == k
  {
    if FastCut(k, now, overuseMs) {
      FastCutIs(k, now);
      var k1 := QueueCut(k.(lastFastCut := now), k.target, k.target * 85 / 100);
      LadderKeepsRate(k1, true);
      hide LadderOk, QueueCut, ApplyLadder, HostBound, RateOk;
    }
  }

  lemma FastCutIs(k: Ctl, now: real)
    requires Placed(k) && RateOk(k)
    ensures var r := QueueCut(k.(lastFastCut := now), k.target, k.target * 85 / 100);
      CutTo(k, r, k.target * 85 / 100, 0) && r.lastFastCut == now
  {
    var k0 := k.(lastFastCut := now);
    assert Lighter(k0) == Lighter(k) by { hide FindLighter, LadderOk; }
    hide LadderOk, EncoderRate, FindLighter;
  }

  /** RTT bloat that is still there at the end of the window halves the rate when it is at least 90
      ms, and cuts to seven tenths when it is at least 35 ms. */
  lemma BloatCuts(k: Ctl, s: Sample, b: real)
    requires Cuttable(k)
    requires Positives(s.rtts) != [] && IsBaseline(b, k.rtt.base, Positives(s.rtts))
    requires var p := Positives(s.rtts); var level := Smoothed(k.rtt.ema, p);
      Over(b, level) >= RTT_EXCESS_MS && p[|p| - 1] - Rebased(b, level) >= RTT_OK_MS
    ensures var over := Over(b, Smoothed(k.rtt.ema, Positives(s.rtts)));
      CutTo(k, Tick(k, s, Normal), if over >= RTT_BAD_MS then k.target / 2 else k.target * 7 / 10, 1)
  {
    var p := Positives(s.rtts);
    var level := Smoothed(k.rtt.ema, p);
    FeedMeans(k.rtt, s.rtts);
    BaselinePositive(b, k.rtt.base, p);
    ExcessMeans(k.rtt, s.rtts, b);
    RebasedPositive(b, level);
    var to := if Over(b, level) >= RTT_BAD_MS then k.target / 2 else k.target * 7 / 10;
    QueueCutIs(k, s, to);
    var k1 := Arrive(k, s);
    var g := Read(k1, s, Normal);
    assert g.excess == Over(b, level) && !g.draining && BloatCut(k1, g) && !OveruseCut(k1, g) && k1.target == k.target && k1.probeDown.None? by {
      hide UpdateRtt, LadderOk, Smoothed, Positives, IsBaseline;
    }
    hide CutTo, QueueCut, Finish, Arrive, Read, LadderOk, Over, Smoothed, Positives, IsBaseline;
  }

  lemma BaselinePositive(b: real, tracked: real, p: seq<real>)
    requires IsBaseline(b, tracked, p) && forall i :: 0 <= i < |p| ==> p[i] > 0.0
    ensures b > 0.0
  { }

  /** No queue cut can come before the loss rules. */
  predicate NoQueue(k: Ctl, s: Sample, delay: DelayState)
    requires Placed(k)
  {
    k.drainLeft > 0 || (delay != Overuse && Excess(Arrive(k, s).rtt) < RTT_EXCESS_MS)
  }

  /** More than 15 percent loss on more than 100 packets halves the rate and punishes the ceiling. */
  lemma SevereLossHalves(k: Ctl, s: Sample, delay: DelayState)
    requires Placed(k) && RateOk(k) && k.probeDown.None? && k.target > FLOOR && NoQueue(k, s, delay)
    requires s.recv + s.lost > 100 && s.lost as real / (s.recv + s.lost) as real > 0.15
    ensures var r := Tick(k, s, delay); r.target == Max(FLOOR, k.target / 2) && r.ceiling == Max(FLOOR, k.target * 85 / 100)
  {
    var k1 := Arrive(k, s);
    var g := Read(k1, s, delay);
    assert !OveruseCut(k1, g) && !BloatCut(k1, g) && g.loss > LOSS_SEVERE && g.total > 100 && k1.target == k.target && k1.probeDown.None? && k1.cap == k.cap by {
      hide UpdateRtt, LadderOk;
    }
    var k2 := if g.queued then k1 else k1.(queueCuts := 0);
    var k3 := ApplyRate(Punish(k2, k.target), k.target / 2);
    assert k3.target == Max(FLOOR, k.target / 2) && k3.ceiling == Max(FLOOR, k.target * 85 / 100) by { hide LadderOk, EncoderRate, Arrive, Read; }
    FinishKeepsRate(k3);
    hide Finish, Arrive, Read, LadderOk, ApplyRate, Punish, OveruseCut, BloatCut;
  }

  /** The second lossy window in a row, three windows after the last step: on a queued link the rate
      is cut to seven tenths, on a flat one it is probed at four fifths. */
  lemma SustainedLossCuts(k: Ctl, s: Sample, delay: DelayState)
    requires Placed(k) && RateOk(k) && k.probeDown.None? && k.target > FLOOR && NoQueue(k, s, delay) && NoiseOk(k)
    requires k.over >= 1 && k.sinceStep >= 2 && s.recv + s.lost > 100
    requires s.Loss() - k.noiseLoss > 0.03 && s.Loss() <= 0.15
    ensures var r, queued := Tick(k, s, delay), Read(Arrive(k, s), s, delay).queued;
      if queued then r.target == Max(FLOOR, k.target * 7 / 10) && r.ceiling == Max(FLOOR, k.target * 85 / 100) && r.probeDown.None?
      else r.target == Max(FLOOR, k.target * 4 / 5) && r.ceiling == k.ceiling &&
           r.probeDown == Some(ProbeDown(k.target, s.Loss(), 0, 0.0, k.fecOverhead))
  {
    var k1 := Arrive(k, s);
    var g := Read(k1, s, delay);
    assert k1.noiseLoss == k.noiseLoss && g.eff == s.Loss() - k.noiseLoss && g.loss == s.Loss() && g.total == s.recv + s.lost;
    assert !OveruseCut(k1, g) && !BloatCut(k1, g) && k1.target == k.target && k1.ceiling == k.ceiling && k1.probeDown.None? && k1.cap == k.cap
      && k1.over == k.over && k1.sinceStep == k.sinceStep + 1 && k1.fecOverhead == k.fecOverhead by { hide UpdateRtt, LadderOk; }
    var k2 := if g.queued then k1 else k1.(queueCuts := 0);
    hide LadderOk, EncoderRate, Arrive, Read, OveruseCut, BloatCut;
    var k3 := SustainedLoss(k2, g);
    FinishKeepsRate(k3);
    hide Finish;
  }

  /** A probe-down is judged in its second window: the old rate comes back when the parity overhead
      changed or the loss did not follow, else the lower rate stays and the old one is punished. */
  lemma ProbeJudged(k: Ctl, s: Sample, delay: DelayState)
    requires Placed(k) && RateOk(k) && k.probeDown.Some?
    ensures var r, pd := Tick(k, s, delay), k.probeDown.value;
      if !Ends(k) then r.target == k.target && r.ceiling == k.ceiling && r.probeDown.Some? && r.probeDown.value.windows == pd.windows + 1
      else if Restores(k, s) then r.target == Clamp(pd.from, FLOOR, k.cap) && r.ceiling == k.ceiling && r.probeDown.None?
      else r.target == k.target && r.ceiling == Clamp(pd.from * 85 / 100, FLOOR, k.cap) && r.probeDown.None?
  {
    var k1 := Arrive(k, s);
    assert k1.probeDown == k.probeDown && k1.fecOverhead == k.fecOverhead && k1.target == k.target && k1.ceiling == k.ceiling && k1.cap == k.cap;
    hide LadderOk, EncoderRate, Arrive, UpdateRtt;
    var k2 := Judge(k1, s.Loss());
    FinishKeepsRate(k2);
    hide Finish;
  }

  // ---- rises ----

  /** A window raises the rate only when it is clean and the rise is due: after enough clean windows
      toward the ceiling, or after the probe wait at it.  It is then at most a half in the first
      windows or under half the ceiling, at most a quarter otherwise, never past the ceiling, and
      at most a tenth for a probe. */
  lemma RisesAreEarned(k: Ctl, s: Sample, delay: DelayState)
    requires Placed(k) && RateOk(k) && k.probeDown.None?
    ensures var r := Tick(k, s, delay);
      r.target > k.target ==>
        P.Clean(k, s, delay) && Earned(k, r)
  {
    var k1 := Arrive(k, s);
    var g := Read(k1, s, delay);
    assert k1.target == k.target && k1.ceiling == k.ceiling && k1.cap == k.cap && k1.clean == k.clean && k1.atCeiling == k.atCeiling
      && k1.startupLeft == k.startupLeft && k1.probeDown.None? && RateOk(k1) by { hide UpdateRtt, LadderOk; }
    FinishKeepsRate(Decide(k1, g));
    hide Arrive, Read, LadderOk, Finish, Decide, RateOk;
    EarnedSame(k, k1, Finish(Decide(k1, g)), Decide(k1, g));
    DecideRises(k1, g);
    hide OveruseCut, BloatCut, CleanSignals, Earned;
  }

  predicate Earned(k: Ctl, r: Ctl) {
    if k.target < k.ceiling then
      var fast := k.startupLeft > 0 || 2 * k.target < k.ceiling;
      && r.target == Min(k.ceiling, if fast then k.target * 3 / 2 else k.target * 5 / 4)
      && k.clean + 1 >= (if k.startupLeft > 0 then 1 else if 2 * k.target < k.ceiling then 2 else 10)
      && r.ceiling == k.ceiling
    else
      r.target == Min(k.cap, k.target * 11 / 10) && k.atCeiling + 1 >= PROBE_WAIT_MIN && k.ceiling < k.cap
  }

  lemma EarnedSame(k: Ctl, k': Ctl, r: Ctl, r': Ctl)
    requires k.target == k'.target && k.ceiling == k'.ceiling && k.cap == k'.cap && k.clean == k'.clean
    requires k.atCeiling == k'.atCeiling && k.startupLeft == k'.startupLeft && r.target == r'.target && r.ceiling == r'.ceiling
    ensures Earned(k, r) <==> Earned(k', r')
  { }

  lemma DecideRises(k: Ctl, g: Signals)
    requires Placed(k) && RateOk(k)
    ensures Decide(k, g).target > k.target ==>
      && !OveruseCut(k, g) && !BloatCut(k, g) && !(g.total > 100 && g.loss > LOSS_SEVERE && k.target > FLOOR)
      && !(g.total > 100 && g.eff > LOSS_DOWN) && CleanSignals(g) && Earned(k, Decide(k, g))
  {
    var k2 := if g.queued then k else k.(queueCuts := 0);
    CutsNeverRaise(k, g);
    CreditKeeps(k2);
    CreditKeepsMore(k2);
    ClimbIs(Credit(k2));
    hide LadderOk, QueueCut, SustainedLoss, ApplyRate, Punish, Credit, Climb, Deadband, EncoderRate, OveruseCut, BloatCut, CleanSignals;
  }

  lemma CreditKeepsMore(k: Ctl)
    requires Placed(k)
    ensures Credit(k).startupLeft == k.startupLeft
  { }

  lemma ClimbIs(k: Ctl)
    requires Placed(k) && RateOk(k)
    ensures var r := Climb(k);
      r.target > k.target ==>
        if k.target < k.ceiling then
          var fast := k.startupLeft > 0 || 2 * k.target < k.ceiling;
          && r.target == Min(k.ceiling, if fast then k.target * 3 / 2 else k.target * 5 / 4)
          && k.clean + 1 >= (if k.startupLeft > 0 then 1 else if 2 * k.target < k.ceiling then 2 else 10)
          && r.ceiling == k.ceiling
        else
          r.target == Min(k.cap, k.target * 11 / 10) && k.atCeiling + 1 >= k.probeWait && k.ceiling < k.cap
  {
    hide LadderOk, EncoderRate;
  }

  /** None of the other rules raises the rate. */
  lemma CutsNeverRaise(k: Ctl, g: Signals)
    requires Placed(k) && RateOk(k)
    ensures QueueCut(k, k.target, k.target * 85 / 100).target <= k.target
    ensures QueueCut(k, k.target, if g.excess >= RTT_BAD_MS then k.target / 2 else k.target * 7 / 10).target <= k.target
    ensures var k2 := if g.queued then k else k.(queueCuts := 0);
      && ApplyRate(Punish(k2, k.target), k.target / 2).target <= k.target
      && SustainedLoss(k2, g).target <= k.target && Deadband(k2, g).target == k.target
  {
    hide LadderOk, EncoderRate, FindLighter;
  }
}
