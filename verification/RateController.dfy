/** The controller object.  Its methods update the state step by step, in place, and each is proved
    to take it to the value that the matching function of `Controller` gives. */
module RateController {
  import opened Options
  import opened Ladder
  import opened Delay
  import C = Controller
  import R = RateSafety
  import N = Convergence
  import P = PointSafety

  /** Every event keeps everything `Valid` says. */
  lemma KeepsValid(k: C.Ctl, e: C.Event)
    requires C.Placed(k) && R.RateOk(k) && N.NoiseOk(k) && P.Retry(k)
    ensures var r := C.Next(k, e); C.Placed(r) && R.RateOk(r) && N.NoiseOk(r) && P.Retry(r) && r.cap == k.cap && r.points == k.points
  {
    R.NextKeeps(k, e);
    N.NextNoise(k, e);
    N.CapFixed(k, e);
    P.NextSteps(k, e);
    hide C.Next, R.RateOk, P.Clean, LadderOk;
  }

  /** After a window the encoder and its parity fit the target, or it sits on the floor. */
  lemma TickPromises(k: C.Ctl, s: C.Sample, delay: DelayState)
    requires C.Placed(k) && R.RateOk(k) && N.NoiseOk(k) && P.Retry(k)
    ensures var r := C.Tick(k, s, delay);
      && C.Placed(r) && R.RateOk(r) && N.NoiseOk(r) && P.Retry(r) && r.cap == k.cap && r.points == k.points
      && (r.encoder == C.FLOOR || r.encoder as real * (1.0 + r.fecOverhead) <= r.target as real)
  {
    hide C.Tick, C.PollFast, C.ApplyRate, C.SetManual, C.EncoderRate, LadderOk, P.Retry;
    KeepsValid(k, C.Window(s, delay));
    R.TickEncoder(k, s, delay);
    var r := C.Tick(k, s, delay);
    assert r == C.Next(k, C.Window(s, delay));
    R.EncoderFits(r.target, r.fecOverhead);
  }

  /** A fast cut never raises the rate. */
  lemma FastCutLowers(k: C.Ctl, now: real, overuseMs: real)
    requires C.Placed(k) && R.RateOk(k)
    ensures C.PollFast(k, now, overuseMs).target <= k.target
  {
    if C.FastCut(k, now, overuseMs) {
      var q := C.QueueCut(k.(lastFastCut := now), k.target, k.target * 85 / 100);
      assert q.target <= k.target by { hide LadderOk, C.EncoderRate, C.FindLighter; }
      R.LadderSameRate(q, true);
      hide C.QueueCut, C.ApplyLadder, LadderOk;
    }
  }

  class Controller {
    /** All mutable state, as one record the methods update field by field. */
    var k: C.Ctl

    /** What holds between calls: the position is on the ladder, floor <= encoder <= target <= cap,
        floor <= ceiling <= cap, the probe wait is in its range, the noise floor is not negative, and
        the retry wait is unset or at least its minimum. */
    ghost predicate Valid()
      reads this
    {
      C.Placed(k) && R.RateOk(k) && N.NoiseOk(k) && P.Retry(k)
    }

    /** What is left of it in the middle of a window. */
    ghost predicate Placed()
      reads this
    {
      C.Placed(k)
    }

    constructor (cfg: C.Config, codec: Codec, native: Native)
      ensures Valid() && k == C.New(cfg, k.points)
      ensures forall p :: p in k.points <==> IsRung(codec, Known(native), p)
    {
      var points := Build(codec, native);
      k := C.New(cfg, points);
      R.NewIsOk(cfg, points);
    }

    method ApplyRate(kbps: nat)
      requires Placed()
      modifies this
      ensures Placed() && k == C.ApplyRate(old(k), kbps)
    {
      k := k.(sinceStep := 0);
      k := k.(target := C.Clamp(kbps, C.FLOOR, k.cap));
      k := k.(encoder := C.EncoderRate(k.target, k.fecOverhead));
    }

    method Punish(bad: nat)
      requires Placed()
      modifies this
      ensures Placed() && k == C.Punish(old(k), bad)
    {
      k := k.(ceiling := C.Clamp(bad * 85 / 100, C.FLOOR, k.cap));
      if k.probeAge.Some? && k.probeAge.value <= C.PROBE_PUNISH_WINDOWS {
        k := k.(probeWait := Min(k.probeWait * 2, C.PROBE_WAIT_MAX));
      }
      k := k.(probeAge := None);
      k := k.(clean := 0, atCeiling := 0, over := 0, cleanAtPoint := 0, startupLeft := 0);
    }

    /** Move to the best lighter rung; false when pinned or already on the lightest. */
    method StepDownHostBound() returns (ok: bool)
      requires Placed()
      modifies this
      ensures Placed()
      ensures ok == (!old(k).manual && C.Lighter(old(k)) < |old(k).points|)
      ensures k == if ok then C.StepDown(old(k), C.Lighter(old(k))).(queueCuts := old(k).queueCuts) else old(k)
    {
      if k.manual { return false; }
      var next := k.pointIdx + 1;
      while next < |k.points| && !(k.points[next].Load() < k.points[k.pointIdx].Load() && k.points[next].fps <= k.points[k.pointIdx].fps)
        invariant k.pointIdx + 1 <= next <= |k.points|
        invariant C.FindLighter(k.points, k.points[k.pointIdx], next) == C.FindLighter(k.points, k.points[k.pointIdx], k.pointIdx + 1)
      {
        next := next + 1;
      }
      if next == |k.points| { return false; }
      k := k.(pointRetry := if k.pointRetry == 0 then C.POINT_RETRY_WINDOWS else Min(k.pointRetry * 2, C.POINT_RETRY_MAX));
      k := k.(pointIdx := next, pointCap := next);
      k := k.(atPointCap := 0, pointAge := 0, cleanAtPoint := 0, sinceStep := 0, startupLeft := 0, drainLeft := 2);
      ok := true;
    }

    method QueueCut(before: nat, to: nat)
      requires Placed()
      modifies this
      ensures Placed() && k == C.QueueCut(old(k), before, to)
    {
      k := k.(queueCuts := k.queueCuts + 1);
      if k.queueCuts >= C.HOST_BOUND_CUTS {
        var stepped := StepDownHostBound();
        if stepped {
          k := k.(queueCuts := 0);
          return;
        }
      }
      var was := k.ceiling;
      Punish(before);
      if k.queueCuts > 1 { k := k.(ceiling := Max(k.ceiling, was)); }
      ApplyRate(to);
    }

    method ApplyLadder(urgent: bool)
      requires Placed()
      modifies this
      ensures Placed() && k == C.ApplyLadder(old(k), urgent)
    {
      if k.manual || |k.points| < 2 { return; }
      var cur := k.points[k.pointIdx];
      if k.target < cur.minKbps && k.pointIdx + 1 < |k.points| {
        var severe := k.target as real < cur.minKbps as real * 0.7;
        if k.pointAge >= C.POINT_DEBOUNCE || severe || urgent {
          var want := Max(Pick(k.points, k.target, C.POINT_MARGIN), k.pointIdx + 1);
          k := k.(pointIdx := Min(want, |k.points| - 1));
          k := k.(pointAge := 0, cleanAtPoint := 0);
        }
        return;
      }
      if k.pointIdx > 0 {
        var need := if k.startupLeft > 0 then 2 else C.CLEAN_WINDOWS_UP;
        var want := Max(Pick(k.points, k.target, 1.0 / C.UP_HEADROOM), k.pointCap);
        if want < k.pointIdx && k.cleanAtPoint >= need && k.pointAge >= C.POINT_DEBOUNCE {
          k := k.(pointIdx := want);
          k := k.(pointAge := 0, cleanAtPoint := 0);
        }
      }
    }

    method Finish()
      requires Placed()
      modifies this
      ensures Placed() && k == C.Finish(old(k))
    {
      k := k.(startupLeft := C.Pred(k.startupLeft), drainLeft := C.Pred(k.drainLeft));
      ApplyLadder(false);
      k := k.(encoder := C.EncoderRate(k.target, k.fecOverhead));
    }

    method UpdateRtt(samples: seq<real>)
      modifies this
      ensures k == old(k).(rtt := C.UpdateRtt(old(k.rtt), samples))
    {
      var sum: real, n: nat := 0.0, 0;
      ghost var r0 := k.rtt;
      for i := 0 to |samples|
        invariant C.Feed(r0, samples[..i]) == (sum, n, k.rtt)
        invariant k == old(k).(rtt := k.rtt)
      {
        var x := samples[i];
        assert samples[..i + 1][..i] == samples[..i];
        if x > 0.0 {
          sum, n := sum + x, n + 1;
          if k.rtt.base <= 0.0 || x < k.rtt.base { k := k.(rtt := k.rtt.(base := x)); }
          k := k.(rtt := k.rtt.(last := x));
        }
      }
      assert samples[..|samples|] == samples;
      if n > 0 {
        var mean := sum / n as real;
        k := k.(rtt := k.rtt.(ema := if k.rtt.ema <= 0.0 || n >= 2 then mean else (k.rtt.ema + mean) * 0.5));
      }
      if k.rtt.base > 0.0 && k.rtt.ema > k.rtt.base {
        k := k.(rtt := k.rtt.(base := k.rtt.base + (k.rtt.ema - k.rtt.base) * 0.02));
      }
    }

    method JudgeProbeDown(loss: real)
      requires Placed() && k.probeDown.Some?
      modifies this
      ensures Placed() && k == C.Judge(old(k), loss)
    {
      var pd := k.probeDown.value;
      pd := pd.(windows := pd.windows + 1, lossAcc := pd.lossAcc + loss);
      if pd.windows < C.PROBE_DOWN_WINDOWS {
        k := k.(probeDown := Some(pd));
        return;
      }
      k := k.(probeDown := None);
      var after := pd.lossAcc / pd.windows as real;
      if C.Abs(pd.fecOverhead - k.fecOverhead) > 0.000001 {
        ApplyRate(pd.from);
      } else if after <= pd.preLoss * 0.6 {
        Punish(pd.from);
      } else {
        if !(after < k.noiseLoss) { k := k.(noiseLoss := after); }
        ApplyRate(pd.from);
      }
    }

    method OnSustainedLoss(g: C.Signals)
      requires Placed()
      modifies this
      ensures Placed() && k == C.SustainedLoss(old(k), g)
    {
      k := k.(over := k.over + 1);
      k := k.(clean := 0, atCeiling := 0, cleanAtPoint := 0);
      if k.over >= 2 && k.sinceStep >= C.COOLDOWN_WINDOWS && k.target > C.FLOOR {
        var before := k.target;
        if g.queued {
          Punish(before);
          ApplyRate(before * 7 / 10);
        } else {
          k := k.(over := 0);
          k := k.(probeDown := Some(C.ProbeDown(before, g.loss, 0, 0.0, k.fecOverhead)));
          ApplyRate(before * 4 / 5);
        }
      }
    }

    method OnClean()
      requires Placed()
      modifies this
      ensures Placed() && k == C.Climb(C.Credit(old(k)))
    {
      k := k.(over := 0, deadband := 0);
      if k.probeAge.Some? && k.probeAge.value >= C.PROBE_PUNISH_WINDOWS {
        k := k.(probeAge := None);
        k := k.(probeWait := Max(k.probeWait / 2, C.PROBE_WAIT_MIN));
      }
      k := k.(cleanAtPoint := k.cleanAtPoint + 1);
      if k.pointCap > 0 && k.pointIdx == k.pointCap {
        k := k.(atPointCap := k.atPointCap + 1);
        if k.atPointCap >= k.pointRetry {
          k := k.(atPointCap := 0);
          k := k.(pointCap := k.pointCap - 1);
        }
      }
      assert k == C.Credit(old(k));
      Climb();
    }

    method Climb()
      requires Placed()
      modifies this
      ensures Placed() && k == C.Climb(old(k))
    {
      if k.target < k.ceiling {
        k := k.(clean := k.clean + 1);
        k := k.(atCeiling := 0);
        var far := 2 * k.target < k.ceiling;
        var need := if k.startupLeft > 0 then 1 else if far then 2 else C.CLEAN_WINDOWS_UP;
        if k.clean >= need {
          k := k.(clean := 0);
          ApplyRate(Min(if k.startupLeft > 0 || far then k.target * 3 / 2 else k.target * 5 / 4, k.ceiling));
        }
      } else {
        k := k.(clean := 0);
        k := k.(atCeiling := k.atCeiling + 1);
        if k.atCeiling >= k.probeWait && k.ceiling < k.cap {
          k := k.(atCeiling := 0);
          var next := Min(k.target * 11 / 10, k.cap);
          k := k.(ceiling := Max(next, k.ceiling));
          k := k.(probeAge := Some(0));
          ApplyRate(next);
        }
      }
    }

    method OnDeadband(g: C.Signals)
      requires Placed()
      modifies this
      ensures Placed() && k == C.Deadband(old(k), g)
    {
      k := k.(over := 0, clean := 0, atCeiling := 0);
      if g.total > 100 && g.eff > 0.0 && g.eff <= C.LOSS_DOWN && !g.queued && g.delay != Underuse {
        k := k.(deadband := k.deadband + 1);
        if k.deadband >= C.DEADBAND_LEARN_WINDOWS {
          k := k.(deadband := 0);
          if k.noiseLoss < g.loss { k := k.(noiseLoss := g.loss); }
        }
      } else {
        k := k.(deadband := 0);
      }
    }

    method Decide(g: C.Signals)
      requires Placed()
      modifies this
      ensures Placed() && k == C.Decide(old(k), g)
    {
      var before := k.target;
      if g.delay == Overuse && k.target > C.FLOOR && k.sinceStep >= 1 && k.drainLeft == 0 {
        QueueCut(before, before * 85 / 100);
        return;
      }
      if g.excess >= C.RTT_EXCESS_MS && !g.draining && k.drainLeft == 0 && k.target > C.FLOOR && k.sinceStep >= 1 {
        QueueCut(before, if g.excess >= C.RTT_BAD_MS then before / 2 else before * 7 / 10);
        return;
      }
      if !g.queued { k := k.(queueCuts := 0); }
      if g.total > 100 && g.loss > C.LOSS_SEVERE && k.target > C.FLOOR {
        Punish(before);
        ApplyRate(before / 2);
        return;
      }
      if g.total > 100 && g.eff > C.LOSS_DOWN {
        OnSustainedLoss(g);
        return;
      }
      if g.total > 0 && g.eff < C.LOSS_CLEAN && !g.queued && g.delay != Underuse {
        OnClean();
        return;
      }
      OnDeadband(g);
    }

    /** The head of a window: ages, RTT and noise floor. */
    method Arrive(s: C.Sample)
      requires Placed()
      modifies this
      ensures Placed() && k == C.Arrive(old(k), s)
    {
      hide C.UpdateRtt;
      k := k.(sinceStep := k.sinceStep + 1, pointAge := k.pointAge + 1);
      if k.probeAge.Some? { k := k.(probeAge := Some(k.probeAge.value + 1)); }
      UpdateRtt(s.rtts);
      if s.Loss() < k.noiseLoss { k := k.(noiseLoss := s.Loss()); }
    }

    /** One 2-second window; `delay` is the estimator's hypothesis at its end. */
    method Tick(s: C.Sample, delay: DelayState)
      requires Valid()
      modifies this
      ensures Valid() && k == C.Tick(old(k), s, delay)
      ensures k.encoder == C.FLOOR || k.encoder as real * (1.0 + k.fecOverhead) <= k.target as real
      ensures k.points == old(k).points && k.cap == old(k).cap
    {
      hide C.Tick, R.RateOk, LadderOk, P.Retry;
      TickPromises(k, s, delay);
      RunWindow(s, delay);
    }

    /** Its steps, in order. */
    method RunWindow(s: C.Sample, delay: DelayState)
      requires Placed()
      modifies this
      ensures Placed() && k == C.Tick(old(k), s, delay)
    {
      hide C.Judge, C.Decide, C.Finish, C.Excess, C.ExcessNow, C.Positive, C.Arrive, LadderOk;
      Arrive(s);
      var loss := s.Loss();
      if k.probeDown.Some? {
        JudgeProbeDown(loss);
      } else {
        var excess := C.Excess(k.rtt);
        var draining := delay == Underuse || (excess >= C.RTT_OK_MS && C.ExcessNow(k.rtt) < C.RTT_OK_MS);
        var queued := !draining && (excess >= C.RTT_OK_MS || delay == Overuse);
        Decide(C.Signals(s.Total(), loss, C.Positive(loss - k.noiseLoss), excess, draining, queued, delay));
      }
      Finish();
    }

    /** Fast reflex between windows. */
    method PollFast(now: real, overuseMs: real) returns (cut: bool)
      requires Valid()
      modifies this
      ensures Valid() && k == C.PollFast(old(k), now, overuseMs)
      ensures cut == C.FastCut(old(k), now, overuseMs)
      ensures !cut ==> k == old(k)
      ensures k.target <= old(k).target && k.cap == old(k).cap
    {
      KeepsValid(k, C.Poll(now, overuseMs));
      FastCutLowers(k, now, overuseMs);
      hide R.RateOk, LadderOk, C.QueueCut, C.ApplyLadder;
      if overuseMs < C.FAST_OVERUSE_MS || now - k.lastFastCut < C.FAST_COOLDOWN_MS || k.target <= C.FLOOR || k.drainLeft > 0 {
        return false;
      }
      k := k.(lastFastCut := now);
      QueueCut(k.target, k.target * 85 / 100);
      ApplyLadder(true);
      cut := true;
    }

    method SetTarget(kbps: nat)
      requires Valid()
      modifies this
      ensures Valid() && k == C.SetTarget(old(k), kbps)
    {
      KeepsValid(k, C.Target(kbps));
      k := k.(target := C.Clamp(kbps, C.FLOOR, k.cap));
      k := k.(sinceStep := 0);
      k := k.(encoder := C.EncoderRate(k.target, k.fecOverhead));
    }

    method SetFecOverhead(overhead: real)
      requires Valid()
      modifies this
      ensures Valid() && k == C.SetFec(old(k), overhead)
    {
      KeepsValid(k, C.Fec(overhead));
      k := k.(fecOverhead := C.Positive(overhead));
    }

    method SetManualPoint(on: bool)
      requires Valid()
      modifies this
      ensures Valid() && k == C.SetManual(old(k), on)
      ensures !on ==> Fits(k.points[k.pointIdx], k.target, C.POINT_MARGIN) || k.pointIdx == |k.points| - 1
      ensures on ==> k.pointIdx == old(k).pointIdx
    {
      KeepsValid(k, C.Manual(on));
      P.LowerFits(k.points, k.target, C.POINT_MARGIN, Max(Pick(k.points, k.target, C.POINT_MARGIN), k.pointCap));
      hide R.RateOk, LadderOk, Pick;
      k := k.(manual := on);
      if !on {
        k := k.(pointIdx := Max(Pick(k.points, k.target, C.POINT_MARGIN), k.pointCap));
        k := k.(pointAge := 0);
      }
    }
  }
}
