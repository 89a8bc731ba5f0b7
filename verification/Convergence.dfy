/** From every reachable state, enough clean windows bring the target to exactly the cap. */
module Convergence {
  import opened Options
  import opened Ladder
  import opened Delay
  import opened Controller
  import opened RateSafety

  // ---- the noise floor is never negative ----

  predicate NoiseOk(k: Ctl) { k.noiseLoss >= 0.0 }

  lemma QueueCutNoise(k: Ctl, before: nat, to: nat)
    requires Placed(k)
    ensures QueueCut(k, before, to).noiseLoss == k.noiseLoss
  {
    hide LadderOk, FindLighter, EncoderRate;
  }

  lemma DecideNoise(k: Ctl, g: Signals)
    requires Placed(k) && NoiseOk(k)
    ensures NoiseOk(Decide(k, g))
  {
    hide LadderOk, QueueCut, SustainedLoss, Climb, Credit, Deadband, ApplyRate, Punish;
    if OveruseCut(k, g) || BloatCut(k, g) {
      QueueCutNoise(k, k.target, k.target * 85 / 100);
      QueueCutNoise(k, k.target, if g.excess >= RTT_BAD_MS then k.target / 2 else k.target * 7 / 10);
    } else {
      RestNoise(if g.queued then k else k.(queueCuts := 0), g, k.target);
    }
  }

  lemma RestNoise(k: Ctl, g: Signals, x: nat)
    requires Placed(k) && NoiseOk(k)
    ensures NoiseOk(SustainedLoss(k, g)) && NoiseOk(Deadband(k, g)) && NoiseOk(Climb(Credit(k)))
    ensures NoiseOk(ApplyRate(Punish(k, x), x / 2))
  {
    hide LadderOk, EncoderRate;
  }

  lemma LadderNoise(k: Ctl, urgent: bool)
    requires Placed(k)
    ensures ApplyLadder(k, urgent).noiseLoss == k.noiseLoss
  {
    hide LadderOk, Pick;
  }

  lemma JudgeNoise(k: Ctl, loss: real)
    requires Placed(k) && NoiseOk(k) && k.probeDown.Some?
    ensures NoiseOk(Judge(k, loss))
  {
    hide LadderOk, EncoderRate;
  }

  lemma NextNoise(k: Ctl, e: Event)
    requires Placed(k) && NoiseOk(k)
    ensures NoiseOk(Next(k, e))
  {
    hide LadderOk, Decide, Judge, Read, UpdateRtt, ApplyLadder, EncoderRate, QueueCut, Pick;
    match e {
      case Window(s, delay) =>
        var k1 := Arrive(k, s);
        if k1.probeDown.Some? { JudgeNoise(k1, s.Loss()); } else { DecideNoise(k1, Read(k1, s, delay)); }
        var k2 := if k1.probeDown.Some? then Judge(k1, s.Loss()) else Decide(k1, Read(k1, s, delay));
        LadderNoise(k2.(startupLeft := Pred(k2.startupLeft), drainLeft := Pred(k2.drainLeft)), false);
        assert NoiseOk(Tick(k, s, delay));
      case Poll(now, overuseMs) =>
        if FastCut(k, now, overuseMs) {
          var k1 := k.(lastFastCut := now);
          QueueCutNoise(k1, k.target, k.target * 85 / 100);
          LadderNoise(QueueCut(k1, k.target, k.target * 85 / 100), true);
        }
      case _ =>
    }
  }

  lemma {:induction false} RunNoise(k: Ctl, events: seq<Event>)
    requires Placed(k) && NoiseOk(k)
    ensures NoiseOk(Run(k, events))
    decreases |events|
  {
    hide Placed, Next;
    if |events| > 0 {
      NextNoise(k, events[0]);
      RunNoise(Next(k, events[0]), events[1..]);
    }
  }

  // ---- quiet runs ----

  /** A window with traffic, raw loss under half a percent, an unqueued link and a flat delay. */
  predicate CleanWindow(k: Ctl, s: Sample, delay: DelayState)
    requires Placed(k)
  {
    s.Total() > 0 && s.Loss() < LOSS_CLEAN && Excess(Arrive(k, s).rtt) < RTT_OK_MS && delay == Normal
  }

  /** A clean window, or something between windows that does not touch the rate. */
  predicate Quiet(k: Ctl, e: Event)
    requires Placed(k)
  {
    match e
    case Window(s, delay) => CleanWindow(k, s, delay)
    case Poll(now, overuseMs) => !FastCut(k, now, overuseMs)
    case Target(kbps) => false
    case _ => true
  }

  predicate QuietRun(k: Ctl, events: seq<Event>)
    requires Placed(k)
    decreases |events|
  {
    |events| > 0 ==> Quiet(k, events[0]) && QuietRun(Next(k, events[0]), events[1..])
  }

  function Windows(events: seq<Event>): nat {
    if |events| == 0 then 0 else (if events[0].Window? then 1 else 0) + Windows(events[1..])
  }

  // ---- the measure ----

  /** Windows a step can still take at this target. */
  function Wait(k: Ctl): nat {
    if k.target < k.ceiling then CLEAN_WINDOWS_UP - Min(k.clean, CLEAN_WINDOWS_UP)
    else PROBE_WAIT_MAX - Min(k.atCeiling, PROBE_WAIT_MAX)
  }

  /** Steps of a tenth from t up to the cap. */
  function Rungs(t: nat, cap: nat): nat
    requires t >= FLOOR
    decreases if t < cap then cap - t else 0
  {
    if t >= cap then 0 else 1 + Rungs(Min(t * 11 / 10, cap), cap)
  }

  lemma {:induction false} RungsMonotone(t: nat, u: nat, cap: nat)
    requires FLOOR <= t <= u
    ensures Rungs(u, cap) <= Rungs(t, cap)
    decreases if t < cap then cap - t else 0
  {
    if u < cap { RungsMonotone(Min(t * 11 / 10, cap), Min(u * 11 / 10, cap), cap); }
  }

  /** A step of at least a tenth, or to the cap, is one rung. */
  lemma RungsStep(t: nat, u: nat, cap: nat)
    requires FLOOR <= t < cap && u >= Min(t * 11 / 10, cap)
    ensures Rungs(u, cap) + 1 <= Rungs(t, cap)
  {
    RungsMonotone(Min(t * 11 / 10, cap), u, cap);
  }

  function Tenth(t: nat): nat { t * 11 / 10 }

  lemma RungsTenth(t: nat, cap: nat)
    requires t >= FLOOR
    ensures Tenth(t) >= FLOOR && Rungs(t, cap) <= 1 + Rungs(Tenth(t), cap)
  { }

  /** Eight rungs double the rate. */
  lemma EightRungs(t: nat, cap: nat)
    requires t >= FLOOR
    ensures Rungs(t, cap) <= 8 + Rungs(2 * t, cap)
  {
    var a := Tenth(t); var b := Tenth(a); var c := Tenth(b); var d := Tenth(c);
    var e := Tenth(d); var f := Tenth(e); var g := Tenth(f); var h := Tenth(g);
    assert h >= 2 * t;
    hide Rungs, Tenth;
    RungsTenth(t, cap);
    RungsTenth(a, cap);
    RungsTenth(b, cap);
    RungsTenth(c, cap);
    RungsTenth(d, cap);
    RungsTenth(e, cap);
    RungsTenth(f, cap);
    RungsTenth(g, cap);
    RungsMonotone(2 * t, h, cap);
  }

  function Doubled(t: nat, m: nat): nat
    decreases m
  {
    if m == 0 then t else Doubled(2 * t, m - 1)
  }

  /** The number of rungs is logarithmic: eight for each doubling from t to the cap. */
  lemma {:induction false} RungsLogarithmic(t: nat, cap: nat, m: nat)
    requires t >= FLOOR && cap <= Doubled(t, m)
    ensures Rungs(t, cap) <= 8 * m
    decreases m
  {
    if m > 0 {
      RungsLogarithmic(2 * t, cap, m - 1);
      EightRungs(t, cap);
    }
  }

  /** Rungs left, plus one while the ceiling may still cut a climb short; then the wait before the
      next step. */
  function Height(k: Ctl): nat
    requires RateOk(k)
  {
    if k.target == k.cap then 0
    else (Rungs(k.target, k.cap) + if k.target < k.ceiling then 1 else 0) * 481 + Wait(k)
  }

  function MaxHeight(cap: nat): nat { (Rungs(FLOOR, cap) + 1) * 481 + 480 }

  /** A pending probe-down outweighs any height: it may still restore an old rate. */
  function Measure(k: Ctl): nat
    requires RateOk(k)
  {
    if k.probeDown.Some? then (if k.probeDown.value.windows == 0 then 2 else 1) * (MaxHeight(k.cap) + 1)
    else Height(k)
  }

  lemma HeightBounded(k: Ctl)
    requires RateOk(k)
    ensures Height(k) <= MaxHeight(k.cap) && Measure(k) <= 2 * (MaxHeight(k.cap) + 1)
  {
    RungsMonotone(FLOOR, k.target, k.cap);
    hide Rungs;
  }

  // ---- one clean window ----

  predicate SameHeight(k: Ctl, r: Ctl) {
    && r.target == k.target && r.cap == k.cap && r.ceiling == k.ceiling && r.clean == k.clean && r.atCeiling == k.atCeiling
    && r.probeDown == k.probeDown
  }

  lemma FinishSame(k: Ctl)
    requires Placed(k)
    ensures SameHeight(k, Finish(k))
  {
    hide LadderOk, Pick, EncoderRate;
  }

  lemma LossSign(s: Sample)
    ensures s.Loss() >= 0.0
  {
    if s.Total() > 0 {
      var n, d := s.lost as real, s.Total() as real;
      assert (n / d) * d == n;
      QuotientSign(n / d, d);
    }
  }

  lemma QuotientSign(q: real, d: real)
    requires d > 0.0 && q * d >= 0.0
    ensures q >= 0.0
  { }

  /** Reading a clean window with no probe-down pending leads to the climb. */
  lemma CleanClimbs(k: Ctl, s: Sample, delay: DelayState)
    requires Placed(k) && NoiseOk(k) && CleanWindow(k, s, delay) && k.probeDown.None?
    ensures var k1 := Arrive(k, s); Decide(k1, Read(k1, s, delay)) == Climb(Credit(k1.(queueCuts := 0)))
  {
    var k1 := Arrive(k, s);
    LossSign(s);
    hide LadderOk, UpdateRtt, Climb, Credit, ApplyRate, Punish, SustainedLoss, QueueCut, Deadband;
    assert k1.noiseLoss >= 0.0;
    var g := Read(k1, s, delay);
    assert !g.queued && g.eff < LOSS_CLEAN && CleanSignals(g);
    assert !OveruseCut(k1, g) && !BloatCut(k1, g);
  }

  lemma ClimbLowers(k: Ctl)
    requires Placed(k) && RateOk(k) && k.probeDown.None?
    ensures var r := Climb(k);
      && r.cap == k.cap && r.probeDown.None? && RateOk(r)
      && (k.target == k.cap ==> r.target == r.cap)
      && (k.target < k.cap ==> Height(r) < Height(k))
  {
    ClimbKeeps(k);
    hide LadderOk, EncoderRate, Rungs;
    var r := Climb(k);
    if k.target < k.cap {
      if r.target > k.target {
        StepLowers(k, r);
      } else {
        assert r.target == k.target && r.ceiling == k.ceiling && Wait(r) < Wait(k);
      }
    }
  }

  /** A step up is a rung, or it ends at the ceiling. */
  lemma StepLowers(k: Ctl, r: Ctl)
    requires RateOk(k) && RateOk(r) && k.cap == r.cap && k.target < r.target
    requires r.target >= Min(k.target * 11 / 10, k.cap) || (k.target < k.ceiling && r.target == r.ceiling)
    requires k.target >= k.ceiling ==> r.target >= r.ceiling
    ensures Height(r) < Height(k)
  {
    hide Rungs;
    assert Wait(r) <= 480;
    if r.target >= Min(k.target * 11 / 10, k.cap) {
      RungsStep(k.target, r.target, k.cap);
    } else {
      RungsMonotone(k.target, r.target, k.cap);
    }
    RungsPositive(k.target, k.cap);
  }

  lemma RungsPositive(t: nat, cap: nat)
    requires t >= FLOOR
    ensures t < cap ==> Rungs(t, cap) > 0
  { }

  lemma JudgeLowers(k: Ctl, loss: real)
    requires Placed(k) && RateOk(k) && k.probeDown.Some?
    ensures var r := Judge(k, loss); RateOk(r) && r.cap == k.cap && Measure(r) < Measure(k)
  {
    JudgeKeeps(k, loss);
    var r := Judge(k, loss);
    HeightBounded(r);
    assert r.cap == k.cap by { hide LadderOk, EncoderRate; }
    assert r.probeDown.None? || (k.probeDown.value.windows == 0 && r.probeDown.value.windows == 1) by { hide LadderOk, EncoderRate; }
    hide Judge, Height;
  }

  /** At the cap with nothing pending it stays there; otherwise the measure goes down. */
  predicate Progress(k: Ctl, r: Ctl) {
    && RateOk(k) && RateOk(r) && r.cap == k.cap
    && if Measure(k) == 0 then Measure(r) == 0 else Measure(r) < Measure(k)
  }

  lemma MeasureZero(k: Ctl)
    requires RateOk(k)
    ensures Measure(k) == 0 <==> k.target == k.cap && k.probeDown.None?
  {
    RungsPositive(k.target, k.cap);
    hide Rungs;
  }

  lemma CleanTick(k: Ctl, s: Sample, delay: DelayState)
    requires Placed(k) && RateOk(k) && NoiseOk(k) && CleanWindow(k, s, delay)
    ensures Progress(k, Tick(k, s, delay))
  {
    var k1 := Arrive(k, s);
    assert SameHeight(k, k1) && RateOk(k1);
    TickKeeps(k, s, delay);
    MeasureZero(k);
    hide LadderOk, Arrive, UpdateRtt, Read, Judge, Decide, Climb, Credit, Finish, CleanWindow;
    var k2 := if k1.probeDown.Some? then Judge(k1, s.Loss()) else Decide(k1, Read(k1, s, delay));
    FinishSame(k2);
    if k1.probeDown.Some? {
      JudgeLowers(k1, s.Loss());
    } else {
      CleanClimbs(k, s, delay);
      var k3 := k1.(queueCuts := 0);
      CreditKeeps(k3);
      ClimbLowers(Credit(k3));
      MeasureZero(k2);
    }
  }

  lemma QuietNext(k: Ctl, e: Event)
    requires Placed(k) && RateOk(k) && NoiseOk(k) && Quiet(k, e)
    ensures var r := Next(k, e);
      RateOk(r) && r.cap == k.cap && if e.Window? then Progress(k, r) else Measure(r) == Measure(k)
  {
    NextKeeps(k, e);
    if e.Window? {
      CleanTick(k, e.s, e.delay);
    } else {
      assert SameHeight(k, Next(k, e)) by { hide LadderOk, Pick; }
    }
    hide Tick, LadderOk, CleanWindow;
  }

  lemma {:induction false} QuietRunProgress(k: Ctl, events: seq<Event>)
    requires Placed(k) && RateOk(k) && NoiseOk(k) && QuietRun(k, events)
    ensures var r := Run(k, events);
      RateOk(r) && r.cap == k.cap && Measure(r) <= if Measure(k) >= Windows(events) then Measure(k) - Windows(events) else 0
    decreases |events|
  {
    if |events| > 0 {
      QuietNext(k, events[0]);
      NextNoise(k, events[0]);
      hide Next, Quiet, Measure, Placed, RateOk;
      QuietRunProgress(Next(k, events[0]), events[1..]);
    }
  }

  // ---- the theorem ----

  /** Two probe-down windows' worth of: 481 windows for each step of a tenth from the floor to the
      cap, and for one step that the ceiling cuts short. */
  function TickBound(cap: nat): nat { 2 * ((Rungs(FLOOR, cap) + 1) * 481 + 481) }

  /** After any history, any quiet run with at least `TickBound(cap)` clean windows ends with the
      target at exactly the cap (and, since every longer one does too, it stays there). */
  lemma TargetReachesCap(cfg: Config, points: seq<Point>, past: seq<Event>, future: seq<Event>)
    requires LadderOk(points)
    requires QuietRun(Run(New(cfg, points), past), future)
    requires Windows(future) >= TickBound(Max(cfg.capKbps, FLOOR))
    ensures Run(Run(New(cfg, points), past), future).target == Max(cfg.capKbps, FLOOR)
  {
    var k0 := New(cfg, points);
    NewIsOk(cfg, points);
    var k := Run(k0, past);
    RunKeepsRate(k0, past);
    RunNoise(k0, past);
    RunCap(k0, past);
    hide New, LadderOk, Run, QuietRun;
    HeightBounded(k);
    QuietRunProgress(k, future);
    MeasureZero(Run(k, future));
  }

  /** A cap of 2^m times the floor is reached within 2 * 481 * (8 m + 2) clean windows. */
  lemma TickBoundLogarithmic(cap: nat, m: nat)
    requires cap <= Doubled(FLOOR, m)
    ensures TickBound(cap) <= 2 * 481 * (8 * m + 2)
  {
    RungsLogarithmic(FLOOR, cap, m);
    hide Rungs;
  }

  lemma CapFixed(k: Ctl, e: Event)
    requires Placed(k)
    ensures Next(k, e).cap == k.cap
  {
    hide LadderOk, Pick, EncoderRate, FindLighter, UpdateRtt;
    match e {
      case Window(s, delay) =>
        var k1 := Arrive(k, s);
        assert k1.cap == k.cap;
        var k2 := if k1.probeDown.Some? then Judge(k1, s.Loss()) else Decide(k1, Read(k1, s, delay));
        assert k2.cap == k.cap;
        FinishSame(k2);
        hide Finish, Judge, Decide;
        assert Tick(k, s, delay).cap == k.cap;
      case _ =>
    }
  }

  lemma {:induction false} RunCap(k: Ctl, events: seq<Event>)
    requires Placed(k)
    ensures Run(k, events).cap == k.cap
    decreases |events|
  {
    if |events| > 0 {
      CapFixed(k, events[0]);
      hide Next, Placed;
      RunCap(Next(k, events[0]), events[1..]);
    }
  }
}
