/** The ladder position over whole runs: host-bound steps, the cap they leave and its relaxation,
    and where rate-driven moves land. */
module PointSafety {
  import opened Options
  import opened Ladder
  import opened Delay
  import opened Controller

  // ---- one host-bound step ----

  lemma {:induction false} FindLighterFinds(points: seq<Point>, cur: Point, i: nat)
    requires i <= |points|
    ensures var r := FindLighter(points, cur, i);
      && (r < |points| ==> points[r].Load() < cur.Load() && points[r].fps <= cur.fps)
      && forall j :: i <= j < r ==> points[j].Load() >= cur.Load() || points[j].fps > cur.fps
    decreases |points| - i
  {
    if i < |points| && !(points[i].Load() < cur.Load() && points[i].fps <= cur.fps) { FindLighterFinds(points, cur, i + 1); }
  }

  /** A host-bound step lands on the first later rung with strictly less load and no higher frame
      rate, leaves the rate and the ceiling alone, and caps the ladder there. */
  lemma HostStepLightens(k: Ctl, before: nat, to: nat)
    requires Placed(k) && HostBound(k)
    ensures var r := QueueCut(k, before, to); var p, q := k.points[k.pointIdx], r.points[r.pointIdx];
      && q.Load() < p.Load() && q.fps <= p.fps
      && (forall j :: k.pointIdx < j < r.pointIdx ==> k.points[j].Load() >= p.Load() || k.points[j].fps > p.fps)
      && r.target == k.target && r.ceiling == k.ceiling && r.encoder == k.encoder
      && r.pointCap == r.pointIdx > k.pointIdx
  {
    FindLighterFinds(k.points, k.points[k.pointIdx], k.pointIdx + 1);
  }

  // ---- rate-driven moves ----

  /** At or below the pick, a rung fits or the pick was the lowest rung. */
  lemma LowerFits(s: seq<Point>, budget: nat, margin: real, i: nat)
    requires LadderOk(s) && Pick(s, budget, margin) <= i < |s|
    ensures Fits(s[i], budget, margin) || i == |s| - 1
  {
    PickIsBestFit(s, budget, margin);
  }

  lemma HeadroomFits(p: Point, target: nat)
    requires Fits(p, target, 1.0 / UP_HEADROOM)
    ensures Fits(p, target, POINT_MARGIN)
  {
    assert target as real * (1.0 / UP_HEADROOM) <= target as real * POINT_MARGIN;
  }

  /** A move made by the ladder rules lands on a rung whose minimum fits 0.85 of the target, or on
      the lowest rung. */
  lemma LadderMoveFits(k: Ctl, urgent: bool)
    requires Placed(k)
    ensures var r := ApplyLadder(k, urgent);
      r.pointIdx != k.pointIdx ==> Fits(r.points[r.pointIdx], r.target, POINT_MARGIN) || r.pointIdx == |r.points| - 1
  {
    hide Pick, Fits, LadderOk;
    var r := ApplyLadder(k, urgent);
    if r.pointIdx > k.pointIdx {
      LowerFits(k.points, k.target, POINT_MARGIN, r.pointIdx);
    } else if r.pointIdx < k.pointIdx {
      LowerFits(k.points, k.target, 1.0 / UP_HEADROOM, r.pointIdx);
      HeadroomFits(k.points[r.pointIdx], k.target);
    }
  }

  /** The moves are made: an automatic ladder whose target is under the point's minimum steps down
      once the debounce passed, the shortfall is severe or the cut was fast; and it steps up after
      enough clean windows when the budget with headroom buys a better rung than the cap allows. */
  lemma LadderMoves(k: Ctl, urgent: bool)
    requires Placed(k) && !k.manual && |k.points| >= 2
    ensures var r, cur, want := ApplyLadder(k, urgent), k.points[k.pointIdx], Max(Pick(k.points, k.target, 1.0 / UP_HEADROOM), k.pointCap);
      if k.target < cur.minKbps && k.pointIdx + 1 < |k.points| then
        r.pointIdx > k.pointIdx <==> k.pointAge >= POINT_DEBOUNCE || k.target as real < 0.7 * cur.minKbps as real || urgent
      else
        && r.pointIdx <= k.pointIdx
        && (r.pointIdx < k.pointIdx <==>
              want < k.pointIdx && k.cleanAtPoint >= (if k.startupLeft > 0 then 2 else 10) && k.pointAge >= POINT_DEBOUNCE)
        && (r.pointIdx < k.pointIdx ==> r.pointIdx == want)
  {
    hide Pick, LadderOk;
  }

  // ---- what one event does to the cap ----

  /** The window is judged clean. */
  predicate Clean(k: Ctl, s: Sample, delay: DelayState)
    requires Placed(k)
  {
    var k1 := Arrive(k, s);
    var g := Read(k1, s, delay);
    && k1.probeDown.None? && !OveruseCut(k1, g) && !BloatCut(k1, g)
    && !(g.total > 100 && g.loss > LOSS_SEVERE && k1.target > FLOOR)
    && !(g.total > 100 && g.eff > LOSS_DOWN)
    && CleanSignals(g)
  }

  /** The retry wait is unset until the first host-bound step, then at least its minimum. */
  predicate Retry(k: Ctl) { k.pointRetry >= POINT_RETRY_WINDOWS || (k.pointRetry == 0 && k.pointCap == 0) }

  predicate SameCap(k: Ctl, r: Ctl) {
    r.pointCap == k.pointCap && r.atPointCap == k.atPointCap && r.pointRetry == k.pointRetry && r.points == k.points
  }

  /** Stays, or a host-bound step past the current rung. */
  predicate Stepped(k: Ctl, r: Ctl) {
    SameCap(k, r) || (r.pointCap > k.pointIdx && r.atPointCap == 0 && r.points == k.points && Retry(r))
  }

  /** One more clean window at the cap, and after enough of them one rung of relaxation. */
  predicate Waited(k: Ctl, r: Ctl) {
    && r.points == k.points && r.pointRetry == k.pointRetry
    && ((r.pointCap == k.pointCap && r.atPointCap <= k.atPointCap + 1)
        || (r.pointCap == k.pointCap - 1 && r.atPointCap == 0 && k.atPointCap + 1 >= POINT_RETRY_WINDOWS))
  }

  lemma RateStepsSameCap(k: Ctl, x: nat, loss: real, g: Signals, urgent: bool)
    requires Placed(k)
    ensures SameCap(k, ApplyRate(k, x)) && SameCap(k, Punish(k, x)) && SameCap(k, SustainedLoss(k, g))
    ensures SameCap(k, Climb(k)) && SameCap(k, Deadband(k, g)) && SameCap(k, ApplyLadder(k, urgent))
    ensures k.probeDown.Some? ==> SameCap(k, Judge(k, loss))
  {
    hide LadderOk, Pick, EncoderRate;
  }

  lemma QueueCutSteps(k: Ctl, before: nat, to: nat)
    requires Placed(k) && Retry(k)
    ensures Stepped(k, QueueCut(k, before, to))
  {
    hide LadderOk, FindLighter, EncoderRate;
  }

  lemma CreditWaits(k: Ctl)
    requires Placed(k) && Retry(k)
    ensures Waited(k, Credit(k))
  {
    hide LadderOk;
  }

  lemma DecideSteps(k: Ctl, g: Signals)
    requires Placed(k) && Retry(k)
    ensures var r := Decide(k, g); Stepped(k, r) || Waited(k, r)
    ensures var r := Decide(k, g);
      Stepped(k, r) || (!OveruseCut(k, g) && !BloatCut(k, g) && !(g.total > 100 && g.loss > LOSS_SEVERE && k.target > FLOOR)
        && !(g.total > 100 && g.eff > LOSS_DOWN) && CleanSignals(g))
  {
    hide LadderOk, QueueCut, SustainedLoss, Climb, Deadband, ApplyRate, Punish, Credit;
    var k1 := if g.queued then k else k.(queueCuts := 0);
    if OveruseCut(k, g) || BloatCut(k, g) {
      QueueCutSteps(k, k.target, k.target * 85 / 100);
      QueueCutSteps(k, k.target, if g.excess >= RTT_BAD_MS then k.target / 2 else k.target * 7 / 10);
    } else {
      RateStepsSameCap(k1, k.target, 0.0, g, false);
      RateStepsSameCap(Punish(k1, k.target), k.target / 2, 0.0, g, false);
      CreditWaits(k1);
      RateStepsSameCap(Credit(k1), 0, 0.0, g, false);
    }
  }

  lemma TickSteps(k: Ctl, s: Sample, delay: DelayState)
    requires Placed(k) && Retry(k)
    ensures var r := Tick(k, s, delay); Stepped(k, r) || (Waited(k, r) && Clean(k, s, delay))
  {
    var k1 := Arrive(k, s);
    hide LadderOk, Decide, Judge, Read, UpdateRtt, ApplyLadder, EncoderRate, OveruseCut, BloatCut, CleanSignals;
    var g := Read(k1, s, delay);
    if k1.probeDown.Some? { RateStepsSameCap(k1, 0, s.Loss(), g, false); } else { DecideSteps(k1, g); }
    var k2 := if k1.probeDown.Some? then Judge(k1, s.Loss()) else Decide(k1, g);
    RateStepsSameCap(k2.(startupLeft := Pred(k2.startupLeft), drainLeft := Pred(k2.drainLeft)), 0, 0.0, g, false);
    assert SameCap(k2, Finish(k2));
    hide Finish, Arrive;
  }

  lemma NextSteps(k: Ctl, e: Event)
    requires Placed(k) && Retry(k)
    ensures var r := Next(k, e); Stepped(k, r) || (e.Window? && Waited(k, r) && Clean(k, e.s, e.delay))
  {
    hide LadderOk, Tick, QueueCut, ApplyLadder, Clean, Pick, EncoderRate;
    match e {
      case Window(s, delay) => TickSteps(k, s, delay);
      case Poll(now, overuseMs) =>
        if FastCut(k, now, overuseMs) {
          var k1 := k.(lastFastCut := now);
          QueueCutSteps(k1, k.target, k.target * 85 / 100);
          RateStepsSameCap(QueueCut(k1, k.target, k.target * 85 / 100), 0, 0.0, Signals(0, 0.0, 0.0, 0.0, false, false, Normal), true);
        }
      case _ =>
    }
  }

  /** The cap is relaxed as soon as it is due: at the cap, in the clean window that completes the
      retry wait. */
  lemma RelaxesWhenDue(k: Ctl, s: Sample, delay: DelayState)
    requires Placed(k) && Clean(k, s, delay) && k.pointCap > 0 && k.pointIdx == k.pointCap && k.atPointCap + 1 >= k.pointRetry
    ensures Tick(k, s, delay).pointCap == k.pointCap - 1
  {
    var k1 := Arrive(k, s);
    var g := Read(k1, s, delay);
    assert k1.pointCap == k.pointCap && k1.pointIdx == k.pointIdx && k1.atPointCap == k.atPointCap && k1.pointRetry == k.pointRetry by { hide LadderOk, UpdateRtt; }
    var k2 := if g.queued then k1 else k1.(queueCuts := 0);
    assert Credit(k2).pointCap == k.pointCap - 1 by { hide LadderOk, Arrive, Read; }
    var c := Credit(k2);
    hide LadderOk, Arrive, Read, UpdateRtt, Credit, Climb, ApplyLadder, EncoderRate, OveruseCut, BloatCut, CleanSignals;
    RateStepsSameCap(c, 0, 0.0, g, false);
    var k3 := Climb(c);
    RateStepsSameCap(k3.(startupLeft := Pred(k3.startupLeft), drainLeft := Pred(k3.drainLeft)), 0, 0.0, g, false);
  }

  // ---- runs ----

  /** A run with its host-bound steps, its relaxations, and the clean windows since the last
      relaxation. */
  datatype Watch = Watch(k: Ctl, steps: nat, relaxed: nat, since: Option<nat>)

  function Observe(m: Watch, e: Event): (r: Watch)
    requires Placed(m.k)
    ensures Placed(r.k)
  {
    var k := Next(m.k, e);
    Watch(k,
          if k.pointCap > m.k.pointCap then m.steps + 1 else m.steps,
          if k.pointCap < m.k.pointCap then m.relaxed + 1 else m.relaxed,
          if k.pointCap < m.k.pointCap then Some(0)
          else if m.since.Some? && e.Window? && Clean(m.k, e.s, e.delay) then Some(m.since.value + 1) else m.since)
  }

  function Watched(m: Watch, events: seq<Event>): (r: Watch)
    requires Placed(m.k)
    ensures Placed(r.k)
    decreases |events|
  {
    if |events| == 0 then m else Watched(Observe(m, events[0]), events[1..])
  }

  predicate WatchOk(m: Watch) {
    Placed(m.k) && Retry(m.k) && m.steps <= m.k.pointCap + m.relaxed && (m.since.Some? ==> m.k.atPointCap <= m.since.value)
  }

  lemma ObserveOk(m: Watch, e: Event)
    requires WatchOk(m)
    ensures WatchOk(Observe(m, e)) && Observe(m, e).k.points == m.k.points
  {
    NextSteps(m.k, e);
    hide Next, LadderOk, Clean;
  }

  lemma {:induction false} WatchedOk(m: Watch, events: seq<Event>)
    requires WatchOk(m)
    ensures var r := Watched(m, events); WatchOk(r) && r.k == Run(m.k, events) && r.k.points == m.k.points
    decreases |events|
  {
    if |events| > 0 {
      ObserveOk(m, events[0]);
      hide WatchOk, Next, Clean;
      WatchedOk(Observe(m, events[0]), events[1..]);
    }
  }

  /** In every run: the position is between the host-bound cap and the end of the ladder; the cap
      relaxes one rung at a time, with at least 150 clean windows from one relaxation to the
      next; and there are at most (ladder length - 1) host-bound steps plus one per relaxation. */
  lemma HostBoundStepsAreBounded(cfg: Config, points: seq<Point>, events: seq<Event>, e: Event)
    requires LadderOk(points)
    ensures
      var m := Watched(Watch(New(cfg, points), 0, 0, None), events);
      var r := Next(m.k, e);
      && m.k == Run(New(cfg, points), events) && m.k.points == points
      && m.k.pointCap <= m.k.pointIdx < |points|
      && m.steps <= |points| - 1 + m.relaxed
      && (r.pointCap < m.k.pointCap ==>
            && r.pointCap == m.k.pointCap - 1
            && e.Window? && Clean(m.k, e.s, e.delay)
            && (m.since.Some? ==> m.since.value + 1 >= POINT_RETRY_WINDOWS))
  {
    var m0 := Watch(New(cfg, points), 0, 0, None);
    assert WatchOk(m0);
    hide New, Next, LadderOk, Clean;
    WatchedOk(m0, events);
    NextSteps(Watched(m0, events).k, e);
  }
}
