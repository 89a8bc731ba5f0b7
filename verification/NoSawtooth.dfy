/** The ceiling rule over whole runs: without a user-set target, and with no fast cut while a
    probe-down is being judged, the target never passes the ceiling and the ceiling rises slowly
    and rarely. */
module NoSawtooth {
  import opened Options
  import opened Ladder
  import opened Delay
  import opened Controller
  import opened RateSafety

  predicate Calm(k: Ctl, e: Event) {
    !e.Target? && (e.Poll? && FastCut(k, e.now, e.overuseMs) ==> k.probeDown.None?)
  }

  /** The target is under the ceiling; a pending probe-down sits at four fifths of where it came
      from, which is under the ceiling too. */
  predicate CeilOk(k: Ctl) {
    && k.target <= k.ceiling
    && (k.probeDown.Some? ==>
          FLOOR <= k.probeDown.value.from <= k.ceiling && k.target == Clamp(k.probeDown.value.from * 4 / 5, FLOOR, k.cap))
  }

  /** A rise is at most a tenth and uses up at least 30 windows at the ceiling. */
  predicate Slow(k: Ctl, r: Ctl) {
    && r.atCeiling <= k.atCeiling + 1
    && (r.ceiling > k.ceiling ==> 10 * r.ceiling <= 11 * k.ceiling && k.atCeiling + 1 >= PROBE_WAIT_MIN && r.atCeiling == 0)
  }

  /** No rise, no more windows at the ceiling. */
  predicate Still(k: Ctl, r: Ctl) { r.ceiling <= k.ceiling && r.atCeiling <= k.atCeiling }

  predicate Good(k: Ctl) { Placed(k) && RateOk(k) && CeilOk(k) }

  lemma QueueCutStill(k: Ctl, to: nat)
    requires Good(k) && k.probeDown.None? && to <= k.target * 85 / 100
    ensures var r := QueueCut(k, k.target, to); CeilOk(r) && Still(k, r)
  {
    hide LadderOk, FindLighter, EncoderRate;
  }

  lemma LadderKeepsCeil(k: Ctl, urgent: bool)
    requires Placed(k)
    ensures var r := ApplyLadder(k, urgent);
      r.target == k.target && r.ceiling == k.ceiling && r.atCeiling == k.atCeiling && r.probeDown == k.probeDown && r.cap == k.cap
  {
    hide LadderOk, Pick;
  }

  lemma JudgeStill(k: Ctl, loss: real)
    requires Good(k) && k.probeDown.Some?
    ensures var r := Judge(k, loss); CeilOk(r) && Still(k, r)
  {
    hide LadderOk, EncoderRate;
  }

  lemma SustainedStill(k: Ctl, g: Signals)
    requires Good(k) && k.probeDown.None?
    ensures var r := SustainedLoss(k, g); CeilOk(r) && Still(k, r)
  {
    hide LadderOk, EncoderRate;
  }

  lemma ClimbSlow(k: Ctl)
    requires Good(k) && k.probeDown.None?
    ensures var r := Climb(Credit(k)); CeilOk(r) && Slow(k, r)
  {
    CreditKeeps(k);
    var c := Credit(k);
    assert Good(c);
    hide Credit, LadderOk, EncoderRate;
  }

  lemma DecideSlow(k: Ctl, g: Signals)
    requires Good(k) && k.probeDown.None?
    ensures var r := Decide(k, g); CeilOk(r) && Slow(k, r)
  {
    hide LadderOk, QueueCut, SustainedLoss, Climb, Credit, EncoderRate;
    var k1 := if g.queued then k else k.(queueCuts := 0);
    if OveruseCut(k, g) {
      QueueCutStill(k, k.target * 85 / 100);
    } else if BloatCut(k, g) {
      QueueCutStill(k, if g.excess >= RTT_BAD_MS then k.target / 2 else k.target * 7 / 10);
    } else {
      SustainedStill(k1, g);
      ClimbSlow(k1);
    }
  }

  lemma TickSlow(k: Ctl, s: Sample, delay: DelayState)
    requires Good(k)
    ensures var r := Tick(k, s, delay); CeilOk(r) && Slow(k, r)
  {
    var k1 := Arrive(k, s);
    hide LadderOk, Decide, Judge, Read, UpdateRtt, ApplyLadder, EncoderRate;
    if k1.probeDown.Some? { JudgeStill(k1, s.Loss()); } else { DecideSlow(k1, Read(k1, s, delay)); }
    var k2 := if k1.probeDown.Some? then Judge(k1, s.Loss()) else Decide(k1, Read(k1, s, delay));
    LadderKeepsCeil(k2.(startupLeft := Pred(k2.startupLeft), drainLeft := Pred(k2.drainLeft)), false);
  }

  lemma NextSlow(k: Ctl, e: Event)
    requires Good(k) && Calm(k, e)
    ensures var r := Next(k, e); Good(r) && if e.Window? then Slow(k, r) else Still(k, r)
  {
    NextKeeps(k, e);
    hide LadderOk, Tick, QueueCut, ApplyLadder, RateOk;
    match e {
      case Window(s, delay) => TickSlow(k, s, delay);
      case Poll(now, overuseMs) =>
        if FastCut(k, now, overuseMs) {
          var k1 := k.(lastFastCut := now);
          assert Good(k1) by { SameRateOk(k, k1); }
          QueueCutStill(k1, k.target * 85 / 100);
          LadderKeepsCeil(QueueCut(k1, k.target, k.target * 85 / 100), true);
        }
      case _ =>
    }
  }

  lemma SameRateOk(k: Ctl, r: Ctl)
    requires RateOk(k) && SameRate(k, r)
    ensures RateOk(r)
  { }

  // ---- runs ----

  /** A run with the number of windows since the ceiling last rose. */
  datatype Watch = Watch(k: Ctl, since: Option<nat>)

  function Observe(m: Watch, e: Event): (r: Watch)
    requires Placed(m.k)
    ensures Placed(r.k)
  {
    var k := Next(m.k, e);
    Watch(k, if k.ceiling > m.k.ceiling then Some(0)
             else if e.Window? && m.since.Some? then Some(m.since.value + 1) else m.since)
  }

  function Watched(m: Watch, events: seq<Event>): (r: Watch)
    requires Placed(m.k)
    ensures Placed(r.k)
    decreases |events|
  {
    if |events| == 0 then m else Watched(Observe(m, events[0]), events[1..])
  }

  predicate CalmRun(k: Ctl, events: seq<Event>)
    requires Placed(k)
    decreases |events|
  {
    |events| > 0 ==> Calm(k, events[0]) && CalmRun(Next(k, events[0]), events[1..])
  }

  predicate WatchOk(m: Watch) { Good(m.k) && (m.since.Some? ==> m.k.atCeiling <= m.since.value) }

  lemma {:induction false} WatchedOk(m: Watch, events: seq<Event>)
    requires WatchOk(m) && CalmRun(m.k, events)
    ensures WatchOk(Watched(m, events)) && Watched(m, events).k == Run(m.k, events)
    decreases |events|
  {
    if |events| > 0 {
      NextSlow(m.k, events[0]);
      hide Next, Good;
      WatchedOk(Observe(m, events[0]), events[1..]);
    }
  }

  /** No sawtooth: in every calm run the target stays at or under the ceiling, and whenever the
      next event raises the ceiling it is a window, the rise is at most a tenth, and at least 30
      windows separate it from the rise before. */
  lemma CeilingRisesSlowly(cfg: Config, points: seq<Point>, events: seq<Event>, e: Event)
    requires LadderOk(points)
    requires CalmRun(New(cfg, points), events) && Calm(Run(New(cfg, points), events), e)
    ensures
      var m := Watched(Watch(New(cfg, points), None), events);
      var r := Next(m.k, e);
      && m.k == Run(New(cfg, points), events)
      && m.k.target <= m.k.ceiling && r.target <= r.ceiling
      && (r.ceiling > m.k.ceiling ==>
            && e.Window?
            && 10 * r.ceiling <= 11 * m.k.ceiling
            && (m.since.Some? ==> m.since.value + 1 >= PROBE_WAIT_MIN))
  {
    var k := New(cfg, points);
    NewIsOk(cfg, points);
    assert Good(k);
    hide New, Next, LadderOk;
    WatchedOk(Watch(k, None), events);
    NextSlow(Watched(Watch(k, None), events).k, e);
  }

  // ---- exactly when the target passes the ceiling ----

  /** The window ends a pending probe-down. */
  predicate Ends(k: Ctl) { k.probeDown.Some? && k.probeDown.value.windows + 1 >= PROBE_DOWN_WINDOWS }

  /** ... by restoring the old rate: the parity overhead changed, or the loss did not follow. */
  predicate Restores(k: Ctl, s: Sample) {
    && Ends(k)
    && var pd := k.probeDown.value;
       || Abs(pd.fecOverhead - k.fecOverhead) > 0.000001
       || (pd.lossAcc + s.Loss()) / (pd.windows + 1) as real > pd.preLoss * 0.6
  }

  /** The event that passes the ceiling: a restored rate that is over it, a judgement that lowers
      the ceiling under the target, or a target set over it. */
  predicate Passes(k: Ctl, e: Event) {
    match e
    case Window(s, delay) =>
      if Restores(k, s) then k.probeDown.value.from > k.ceiling
      else Ends(k) && k.target > Clamp(k.probeDown.value.from * 85 / 100, FLOOR, k.cap)
    case Target(kbps) => Clamp(kbps, FLOOR, k.cap) > k.ceiling
    case _ => false
  }

  predicate Under(k: Ctl) {
    && Placed(k) && RateOk(k) && k.target <= k.ceiling
    && (k.probeDown.Some? ==> FLOOR <= k.probeDown.value.from <= k.cap)
  }

  lemma QueueCutUnder(k: Ctl, to: nat)
    requires Under(k) && to <= k.target * 85 / 100
    ensures var r := QueueCut(k, k.target, to); Under(r)
  {
    QueueCutKeeps(k, k.target, to);
    hide LadderOk, FindLighter, EncoderRate;
  }

  lemma JudgeUnder(k: Ctl, s: Sample)
    requires Under(k) && k.probeDown.Some?
    ensures var r := Judge(k, s.Loss());
      if Passes(k, Window(s, Normal)) then r.target > r.ceiling else Under(r)
  {
    JudgeKeeps(k, s.Loss());
    hide LadderOk, EncoderRate;
  }

  lemma DecideUnder(k: Ctl, g: Signals)
    requires Under(k) && k.probeDown.None?
    ensures Under(Decide(k, g))
  {
    assert Good(k);
    DecideKeeps(k, g);
    DecideSlow(k, g);
    hide Decide;
  }

  lemma TickUnder(k: Ctl, s: Sample, delay: DelayState)
    requires Under(k)
    ensures var r := Tick(k, s, delay); if Passes(k, Window(s, delay)) then r.target > r.ceiling else Under(r)
  {
    var k1 := Arrive(k, s);
    assert Under(k1) && (Passes(k1, Window(s, Normal)) <==> Passes(k, Window(s, delay)));
    TickKeeps(k, s, delay);
    hide LadderOk, Decide, Judge, Read, Arrive, UpdateRtt, ApplyLadder, EncoderRate, Passes;
    if k1.probeDown.Some? { JudgeUnder(k1, s); } else { DecideUnder(k1, Read(k1, s, delay)); NoProbe(k, s, delay); }
    var k2 := if k1.probeDown.Some? then Judge(k1, s.Loss()) else Decide(k1, Read(k1, s, delay));
    LadderKeepsCeil(k2.(startupLeft := Pred(k2.startupLeft), drainLeft := Pred(k2.drainLeft)), false);
  }

  lemma NoProbe(k: Ctl, s: Sample, delay: DelayState)
    requires Placed(k) && Arrive(k, s).probeDown.None?
    ensures !Passes(k, Window(s, delay))
  { }

  lemma PollUnder(k: Ctl, now: real, overuseMs: real)
    requires Under(k)
    ensures Under(PollFast(k, now, overuseMs))
  {
    if FastCut(k, now, overuseMs) {
      var k1 := k.(lastFastCut := now);
      assert Under(k1);
      hide LadderOk, QueueCut, ApplyLadder;
      QueueCutUnder(k1, k.target * 85 / 100);
      LadderKeepsCeil(QueueCut(k1, k.target, k.target * 85 / 100), true);
      PollKeeps(k, now, overuseMs);
    }
  }

  /** One event, whichever it is. */
  lemma OverIffPasses(k: Ctl, e: Event)
    requires Under(k)
    ensures var r := Next(k, e); (r.target > r.ceiling <==> Passes(k, e)) && (!Passes(k, e) ==> Under(r))
  {
    NextKeeps(k, e);
    match e {
      case Window(s, delay) => TickUnder(k, s, delay);
      case Poll(now, overuseMs) => PollUnder(k, now, overuseMs);
      case _ =>
    }
    hide Tick, PollFast, LadderOk, RateOk, Restores, Pick, EncoderRate;
  }

  /** The target is at or under the ceiling after every event of the run. */
  predicate StaysUnder(k: Ctl, events: seq<Event>)
    requires Placed(k)
    decreases |events|
  {
    |events| > 0 ==> var r := Next(k, events[0]); r.target <= r.ceiling && StaysUnder(r, events[1..])
  }

  predicate NeverPasses(k: Ctl, events: seq<Event>)
    requires Placed(k)
    decreases |events|
  {
    |events| > 0 ==> !Passes(k, events[0]) && NeverPasses(Next(k, events[0]), events[1..])
  }

  lemma {:induction false} StaysUnderFrom(k: Ctl, events: seq<Event>)
    requires Under(k)
    ensures StaysUnder(k, events) <==> NeverPasses(k, events)
    decreases |events|
  {
    if |events| > 0 {
      OverIffPasses(k, events[0]);
      hide Next, Under, Passes;
      if !Passes(k, events[0]) { StaysUnderFrom(Next(k, events[0]), events[1..]); }
    }
  }

  /** The exact condition, over every run of every kind of event: the target stays at or under the
      ceiling if and only if no event of the run passes it. */
  lemma StaysUnderIff(cfg: Config, points: seq<Point>, events: seq<Event>)
    requires LadderOk(points)
    ensures StaysUnder(New(cfg, points), events) <==> NeverPasses(New(cfg, points), events)
  {
    NewIsOk(cfg, points);
    StaysUnderFrom(New(cfg, points), events);
  }

  // ---- how it comes about ----

  lemma QueueCutEffect(k: Ctl)
    requires Good(k)
    ensures var r := QueueCut(k, k.target, k.target * 85 / 100);
      && r.probeDown == k.probeDown && r.fecOverhead == k.fecOverhead && r.cap == k.cap && r.target <= k.target
      && r.ceiling == if HostBound(k) || k.queueCuts > 0 then k.ceiling else Clamp(k.target * 85 / 100, FLOOR, k.cap)
  {
    hide LadderOk, EncoderRate, FindLighter;
  }

  /** A fast cut in the middle of a probe-down: the window that judges it then passes the ceiling
      exactly when the cut was the first of its run, was not a host-bound step, and the judgement
      restores the old rate. */
  lemma FastCutDuringProbe(k: Ctl, now: real, overuseMs: real, s: Sample, delay: DelayState)
    requires Good(k) && FastCut(k, now, overuseMs) && k.probeDown.Some? && k.probeDown.value.windows == 1
    ensures var r := Tick(PollFast(k, now, overuseMs), s, delay);
      r.target > r.ceiling <==> !HostBound(k) && k.queueCuts == 0 && Restores(k, s)
  {
    var k0 := k.(lastFastCut := now);
    assert Good(k0) && Under(k) && (HostBound(k0) <==> HostBound(k));
    QueueCutEffect(k0);
    PollUnder(k, now, overuseMs);
    var k1 := QueueCut(k0, k.target, k.target * 85 / 100);
    hide QueueCut, ApplyLadder, HostBound, LadderOk, RateOk;
    LadderKeepsCeil(k1, true);
    LadderKeepsFec(k1, true);
    var k2 := PollFast(k, now, overuseMs);
    assert k2 == ApplyLadder(k1, true);
    assert Restores(k2, s) <==> Restores(k, s);
    hide Restores, PollFast, Tick, Under;
    assert Passes(k2, Window(s, delay)) <==> !HostBound(k) && k.queueCuts == 0 && Restores(k, s);
    TickUnder(k2, s, delay);
    UnderIs(Tick(k2, s, delay));
  }

  lemma UnderIs(k: Ctl)
    ensures Under(k) ==> k.target <= k.ceiling
  { }

  lemma LadderKeepsFec(k: Ctl, urgent: bool)
    requires Placed(k)
    ensures ApplyLadder(k, urgent).fecOverhead == k.fecOverhead
  {
    hide LadderOk, Pick;
  }

  // ---- a run that does it ----

  const LOSSY: Event := Window(Sample(950, 50, []), Normal)

  /** Five percent loss on a flat link, parity switched on during the probe-down, a fast cut. */
  const OVER_RUN: seq<Event> := [LOSSY, LOSSY, LOSSY, Fec(0.1), Poll(0.0, 600.0), LOSSY]

  predicate Flat(k: Ctl) {
    && k.cap == 10000 && k.ceiling == 10000 && k.rtt == Rtt(0.0, 0.0, 0.0) && k.noiseLoss == 0.0 && k.manual
    && k.queueCuts == 0 && k.drainLeft == 0 && k.lastFastCut == -1000000000.0
  }

  /** A lossy window reads as sustained loss, or as one more window of a probe-down. */
  lemma LossyTick(k: Ctl)
    requires Placed(k) && Flat(k)
    ensures var s := LOSSY.s; var k1 := Arrive(k, s); var g := Read(k1, s, Normal);
      && s.Loss() == 0.05 && g.loss == 0.05 && !g.queued && Flat(k1)
      && k1.target == k.target && k1.over == k.over && k1.sinceStep == k.sinceStep + 1
      && k1.probeDown == k.probeDown && k1.fecOverhead == k.fecOverhead
      && Tick(k, s, Normal) == Finish(if k.probeDown.Some? then Judge(k1, 0.05) else SustainedLoss(k1.(queueCuts := 0), g))
  {
    var s := LOSSY.s;
    assert s.Total() == 1000 && s.Loss() == 0.05;
    hide LadderOk, Finish, Judge, SustainedLoss, EncoderRate;
    var k1 := Arrive(k, s);
    var g := Read(k1, s, Normal);
    assert k1.rtt == Rtt(0.0, 0.0, 0.0) && g.excess == 0.0 && g.eff == 0.05;
  }

  lemma FinishFlat(k: Ctl)
    requires Placed(k) && Flat(k)
    ensures var r := Finish(k);
      && Flat(r) && r.target == k.target && r.over == k.over && r.sinceStep == k.sinceStep
      && r.probeDown == k.probeDown && r.fecOverhead == k.fecOverhead
  {
    hide LadderOk, EncoderRate;
  }

  /** First: counted.  Second: the probe-down starts.  Third: it is one window old. */
  lemma FirstLossy(k: Ctl)
    requires Placed(k) && Flat(k) && k.over == 0 && k.probeDown.None?
    ensures var r := Next(k, LOSSY);
      Flat(r) && r.target == k.target && r.over == 1 && r.sinceStep == k.sinceStep + 1 && r.probeDown.None? && r.fecOverhead == k.fecOverhead
  {
    hide LadderOk, EncoderRate, Arrive, Read, Finish, Tick;
    LossyTick(k);
    FinishFlat(SustainedLoss(Arrive(k, LOSSY.s).(queueCuts := 0), Read(Arrive(k, LOSSY.s), LOSSY.s, Normal)));
  }

  lemma SecondLossy(k: Ctl)
    requires Placed(k) && Flat(k) && k.over == 1 && k.sinceStep >= 2 && k.probeDown.None? && k.target == 10000
    ensures var r := Next(k, LOSSY);
      && Flat(r) && r.target == 8000 && r.fecOverhead == k.fecOverhead
      && r.probeDown == Some(ProbeDown(10000, 0.05, 0, 0.0, k.fecOverhead))
  {
    hide LadderOk, EncoderRate, Arrive, Read, Finish, Tick;
    LossyTick(k);
    FinishFlat(SustainedLoss(Arrive(k, LOSSY.s).(queueCuts := 0), Read(Arrive(k, LOSSY.s), LOSSY.s, Normal)));
  }

  lemma ThirdLossy(k: Ctl)
    requires Placed(k) && Flat(k) && k.probeDown.Some? && k.probeDown.value.windows == 0
    ensures var r, p := Next(k, LOSSY), k.probeDown.value;
      && Flat(r) && r.target == k.target && r.fecOverhead == k.fecOverhead
      && r.probeDown == Some(p.(windows := 1, lossAcc := p.lossAcc + 0.05))
  {
    hide LadderOk, EncoderRate, Arrive, Read, Finish, Tick;
    LossyTick(k);
    FinishFlat(Judge(Arrive(k, LOSSY.s), 0.05));
  }

  /** The state before the fast cut: a probe-down from 10000, one window old, parity now at 0.1. */
  lemma ProbedState(points: seq<Point>)
    requires LadderOk(points)
    ensures var k := Run(New(Config(10000, 0, false, 5), points), OVER_RUN[..4]);
      && Good(k) && Flat(k) && k.target == 8000 && k.fecOverhead == 0.1
      && k.probeDown == Some(ProbeDown(10000, 0.05, 1, 0.05, 0.0))
  {
    var k0 := New(Config(10000, 0, false, 5), points);
    NewIsOk(Config(10000, 0, false, 5), points);
    StartsFlat(points);
    RunKeepsRate(k0, OVER_RUN[..4]);
    hide LadderOk, New, RateOk, Next;
    RunFour(k0, OVER_RUN[..4]);
    FourEvents(k0);
  }

  lemma StartsFlat(points: seq<Point>)
    requires LadderOk(points)
    ensures var k := New(Config(10000, 0, false, 5), points);
      Flat(k) && k.target == 10000 && k.over == 0 && k.sinceStep == 3 && k.probeDown.None? && k.fecOverhead == 0.0
  {
    hide LadderOk, EncoderRate;
  }

  lemma FourEvents(k: Ctl)
    requires Placed(k) && Flat(k) && k.target == 10000 && k.over == 0 && k.sinceStep == 3 && k.probeDown.None? && k.fecOverhead == 0.0
    ensures var r := Next(Next(Next(Next(k, LOSSY), LOSSY), LOSSY), Fec(0.1));
      Flat(r) && r.target == 8000 && r.fecOverhead == 0.1 && r.probeDown == Some(ProbeDown(10000, 0.05, 1, 0.05, 0.0))
  {
    hide LadderOk, Tick;
    FirstLossy(k);
    var k1 := Next(k, LOSSY);
    SecondLossy(k1);
    var k2 := Next(k1, LOSSY);
    ThirdLossy(k2);
  }

  lemma RunFour(k: Ctl, events: seq<Event>)
    requires Placed(k) && |events| == 4
    ensures Run(k, events) == Next(Next(Next(Next(k, events[0]), events[1]), events[2]), events[3])
  {
    hide Next, Placed;
    RunCons(k, events);
    var k1, e1 := Next(k, events[0]), events[1..];
    RunCons(k1, e1);
    var k2, e2 := Next(k1, e1[0]), e1[1..];
    RunCons(k2, e2);
    var k3, e3 := Next(k2, e2[0]), e2[1..];
    RunCons(k3, e3);
    assert e3[1..] == [];
  }

  lemma RunCons(k: Ctl, events: seq<Event>)
    requires Placed(k) && |events| > 0
    ensures Run(k, events) == Run(Next(k, events[0]), events[1..])
  { }

  lemma {:induction false} RunSplits(k: Ctl, before: seq<Event>, after: seq<Event>)
    requires Placed(k)
    ensures Run(k, before + after) == Run(Run(k, before), after)
    decreases |before|
  {
    hide Next, Placed;
    if |before| == 0 {
      assert before + after == after;
    } else {
      assert (before + after)[1..] == before[1..] + after;
      RunSplits(Next(k, before[0]), before[1..], after);
    }
  }

  /** A run from a new controller that ends with the target over the ceiling. */
  lemma OverCeilingRun(points: seq<Point>)
    requires LadderOk(points)
    ensures var k := Run(New(Config(10000, 0, false, 5), points), OVER_RUN); k.target > k.ceiling
  {
    var k0 := New(Config(10000, 0, false, 5), points);
    ProbedState(points);
    var k := Run(k0, OVER_RUN[..4]);
    assert OVER_RUN == OVER_RUN[..4] + [Poll(0.0, 600.0), LOSSY];
    RunSplits(k0, OVER_RUN[..4], [Poll(0.0, 600.0), LOSSY]);
    assert FastCut(k, 0.0, 600.0) && !HostBound(k) && Restores(k, LOSSY.s);
    FastCutDuringProbe(k, 0.0, 600.0, LOSSY.s, Normal);
    hide New, Tick, PollFast, Good, Flat, Run;
    RunPair(k, Poll(0.0, 600.0), LOSSY);
  }

  lemma RunPair(k: Ctl, d: Event, e: Event)
    requires Placed(k)
    ensures Run(k, [d, e]) == Next(Next(k, d), e)
  {
    hide Next, Placed;
    RunCons(k, [d, e]);
    RunCons(Next(k, d), [e]);
  }
}
