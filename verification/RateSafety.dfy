/** What every run of the controller keeps about rates, ceiling and probes. */
module RateSafety {
  import opened Options
  import opened Ladder
  import opened Delay
  import opened Controller

  predicate RateOk(k: Ctl) {
    && FLOOR <= k.encoder <= k.target <= k.cap
    && FLOOR <= k.ceiling <= k.cap
    && PROBE_WAIT_MIN <= k.probeWait <= PROBE_WAIT_MAX
  }

  lemma OneMore(f: real, target: real, overhead: real)
    requires overhead >= 0.0 && f > target / (1.0 + overhead)
    ensures f * (1.0 + overhead) > target
  {
    var w := 1.0 + overhead;
    var q := target / w;
    assert q * w == target;
    assert (f - q) * w > 0.0;
  }

  /** The encoder stays between the floor and the target, and with its parity under the target
      unless it sits on the floor; one more would not fit. */
  lemma EncoderFits(target: nat, overhead: real)
    requires target >= FLOOR && overhead >= 0.0
    ensures var e := EncoderRate(target, overhead);
      && FLOOR <= e <= target && (e == FLOOR || e as real * (1.0 + overhead) <= target as real)
      && (e + 1) as real * (1.0 + overhead) > target as real
  {
    var q, w := target as real / (1.0 + overhead), 1.0 + overhead;
    assert q * w == target as real;
    assert q * w == q + q * overhead && q * overhead >= 0.0;
    var e := EncoderRate(target, overhead);
    if e != FLOOR { assert e as real <= q; assert e as real * w <= q * w; }
    OneMore((e + 1) as real, target as real, overhead);
  }

  /** Changes to counters, ladder and RTT leave the rate alone. */
  predicate SameRate(k: Ctl, r: Ctl) {
    r.target == k.target && r.cap == k.cap && r.ceiling == k.ceiling && r.encoder == k.encoder && r.probeWait == k.probeWait
  }

  lemma ApplyRateKeeps(k: Ctl, kbps: nat)
    requires Placed(k) && FLOOR <= k.ceiling <= k.cap && PROBE_WAIT_MIN <= k.probeWait <= PROBE_WAIT_MAX
    ensures RateOk(ApplyRate(k, kbps))
  {
    EncoderFits(Clamp(kbps, FLOOR, k.cap), k.fecOverhead);
    hide EncoderRate, LadderOk;
  }

  lemma PunishKeeps(k: Ctl, bad: nat)
    requires Placed(k) && RateOk(k)
    ensures RateOk(Punish(k, bad))
  {
    hide LadderOk;
  }

  lemma QueueCutKeeps(k: Ctl, before: nat, to: nat)
    requires Placed(k) && RateOk(k)
    ensures RateOk(QueueCut(k, before, to))
  {
    hide LadderOk, FindLighter, ApplyRate;
    if !HostBound(k) {
      var k1 := k.(queueCuts := k.queueCuts + 1);
      PunishKeeps(k1, before);
      hide Punish;
      var p := Punish(k1, before);
      assert p.cap == k.cap by { PunishCap(k1, before); }
      ApplyRateKeeps(if p.queueCuts > 1 then p.(ceiling := Max(p.ceiling, k.ceiling)) else p, to);
    }
  }

  lemma PunishCap(k: Ctl, bad: nat)
    requires Placed(k)
    ensures Punish(k, bad).cap == k.cap
  { }

  lemma LadderSameRate(k: Ctl, urgent: bool)
    requires Placed(k)
    ensures SameRate(k, ApplyLadder(k, urgent))
  {
    hide LadderOk, Pick;
  }

  lemma FinishKeeps(k: Ctl)
    requires Placed(k) && RateOk(k)
    ensures RateOk(Finish(k))
  {
    LadderSameRate(k.(startupLeft := Pred(k.startupLeft), drainLeft := Pred(k.drainLeft)), false);
    EncoderFits(k.target, Finish(k).fecOverhead);
    hide LadderOk, ApplyLadder, EncoderRate;
  }

  lemma JudgeKeeps(k: Ctl, loss: real)
    requires Placed(k) && RateOk(k) && k.probeDown.Some?
    ensures RateOk(Judge(k, loss))
  {
    hide LadderOk, ApplyRate, Punish;
    var from := k.probeDown.value.from;
    var k1 := k.(probeDown := None);
    PunishKeeps(k1, from);
    ApplyRateKeeps(k1, from);
    var p := k.probeDown.value;
    var after := (p.lossAcc + loss) / (p.windows + 1) as real;
    ApplyRateKeeps(k1.(noiseLoss := if after < k.noiseLoss then k.noiseLoss else after), from);
  }

  lemma SustainedKeeps(k: Ctl, g: Signals)
    requires Placed(k) && RateOk(k)
    ensures RateOk(SustainedLoss(k, g))
  {
    hide LadderOk, ApplyRate, Punish;
    var k1 := k.(over := k.over + 1, clean := 0, atCeiling := 0, cleanAtPoint := 0);
    PunishKeeps(k1, k1.target);
    ApplyRateKeeps(Punish(k1, k1.target), k1.target * 7 / 10);
    ApplyRateKeeps(k1.(over := 0, probeDown := Some(ProbeDown(k1.target, g.loss, 0, 0.0, k1.fecOverhead))), k1.target * 4 / 5);
  }

  lemma CreditKeeps(k: Ctl)
    requires Placed(k) && RateOk(k)
    ensures var r := Credit(k); RateOk(r) && r.target == k.target && r.ceiling == k.ceiling && r.cap == k.cap && r.encoder == k.encoder
    ensures var r := Credit(k); r.probeWait <= k.probeWait && r.atCeiling == k.atCeiling && r.clean == k.clean && r.probeDown == k.probeDown
  {
    hide LadderOk;
  }

  lemma ClimbKeeps(k: Ctl)
    requires Placed(k) && RateOk(k)
    ensures RateOk(Climb(k))
  {
    hide LadderOk, ApplyRate;
    if k.target < k.ceiling {
      var k1 := k.(clean := k.clean + 1, atCeiling := 0);
      ApplyRateKeeps(k1.(clean := 0), ClimbTo(k1));
    } else {
      var k1 := k.(clean := 0, atCeiling := k.atCeiling + 1);
      var next := Min(k1.target * 11 / 10, k1.cap);
      ApplyRateKeeps(k1.(atCeiling := 0, ceiling := Max(next, k1.ceiling), probeAge := Some(0)), next);
    }
  }

  lemma DecideKeeps(k: Ctl, g: Signals)
    requires Placed(k) && RateOk(k)
    ensures RateOk(Decide(k, g))
  {
    hide LadderOk, ApplyRate, Punish, QueueCut, SustainedLoss, Climb, Credit;
    var k1 := if g.queued then k else k.(queueCuts := 0);
    if OveruseCut(k, g) || BloatCut(k, g) {
      QueueCutKeeps(k, k.target, k.target * 85 / 100);
      QueueCutKeeps(k, k.target, if g.excess >= RTT_BAD_MS then k.target / 2 else k.target * 7 / 10);
    } else {
      PunishKeeps(k1, k.target);
      ApplyRateKeeps(Punish(k1, k.target), k.target / 2);
      SustainedKeeps(k1, g);
      CreditKeeps(k1);
      ClimbKeeps(Credit(k1));
    }
  }

  lemma TickKeeps(k: Ctl, s: Sample, delay: DelayState)
    requires Placed(k) && RateOk(k)
    ensures RateOk(Tick(k, s, delay))
  {
    var k1 := Arrive(k, s);
    hide LadderOk, Decide, Judge, Finish, Read, UpdateRtt;
    if k1.probeDown.Some? { JudgeKeeps(k1, s.Loss()); } else { DecideKeeps(k1, Read(k1, s, delay)); }
    FinishKeeps(if k1.probeDown.Some? then Judge(k1, s.Loss()) else Decide(k1, Read(k1, s, delay)));
  }

  lemma PollKeeps(k: Ctl, now: real, overuseMs: real)
    requires Placed(k) && RateOk(k)
    ensures RateOk(PollFast(k, now, overuseMs))
  {
    hide LadderOk, QueueCut, ApplyLadder;
    if FastCut(k, now, overuseMs) {
      var k1 := k.(lastFastCut := now);
      QueueCutKeeps(k1, k.target, k.target * 85 / 100);
      LadderSameRate(QueueCut(k1, k.target, k.target * 85 / 100), true);
    }
  }

  lemma NextKeeps(k: Ctl, e: Event)
    requires Placed(k) && RateOk(k)
    ensures RateOk(Next(k, e))
  {
    hide LadderOk, Tick, PollFast, ApplyRate;
    match e {
      case Window(s, delay) => TickKeeps(k, s, delay);
      case Poll(now, overuseMs) => PollKeeps(k, now, overuseMs);
      case Target(kbps) => ApplyRateKeeps(k, kbps);
      case _ =>
    }
  }

  lemma {:induction false} RunKeepsRate(k: Ctl, events: seq<Event>)
    requires Placed(k) && RateOk(k)
    ensures RateOk(Run(k, events))
    decreases |events|
  {
    hide Placed, RateOk, Next;
    if |events| > 0 {
      NextKeeps(k, events[0]);
      RunKeepsRate(Next(k, events[0]), events[1..]);
    }
  }

  lemma NewIsOk(cfg: Config, points: seq<Point>)
    requires LadderOk(points)
    ensures RateOk(New(cfg, points)) && New(cfg, points).cap == Max(cfg.capKbps, FLOOR)
  {
    EncoderFits(New(cfg, points).target, 0.0);
  }

  /** Every run keeps the encoder, target and ceiling between the floor and the cap and the probe
      wait between its bounds; with a cap of at most 50 Gbit/s the percentages fit in 32 bits. */
  lemma RatesStayInBounds(cfg: Config, points: seq<Point>, events: seq<Event>)
    requires LadderOk(points)
    ensures var k := Run(New(cfg, points), events);
      RateOk(k) && (k.cap <= 50_000_000 ==> k.target * 85 <= U32_MAX && k.target * 11 / 10 <= U32_MAX)
  {
    NewIsOk(cfg, points);
    RunKeepsRate(New(cfg, points), events);
  }

  /** After each window the encoder plus its parity fits the target, or sits on the floor. */
  lemma WireRateFits(cfg: Config, points: seq<Point>, events: seq<Event>, s: Sample, delay: DelayState)
    requires LadderOk(points)
    ensures var k := Tick(Run(New(cfg, points), events), s, delay);
      k.encoder == FLOOR || k.encoder as real * (1.0 + k.fecOverhead) <= k.target as real
  {
    hide Run, New, LadderOk, Tick, EncoderRate;
    RatesStayInBounds(cfg, points, events);
    var k0 := Run(New(cfg, points), events);
    TickKeeps(k0, s, delay);
    TickEncoder(k0, s, delay);
    EncoderFits(Tick(k0, s, delay).target, Tick(k0, s, delay).fecOverhead);
  }

  lemma TickEncoder(k: Ctl, s: Sample, delay: DelayState)
    requires Placed(k)
    ensures var r := Tick(k, s, delay); r.encoder == EncoderRate(r.target, r.fecOverhead)
  {
    hide Arrive, Decide, Judge, Read, ApplyLadder, LadderOk;
  }
}
