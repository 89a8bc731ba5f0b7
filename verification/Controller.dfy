/** The adaptive rate controller, as a state machine over its windows and fast polls.

    `Ctl` is the controller's state as a value, with one function per method of the code; floats
    are reals.  What only feeds the log, the HUD or the recovery-mode flip is not part of it. */
module Controller {
  import opened Options
  import opened Ladder
  import opened Delay

  const FLOOR: nat := 300
  const LOSS_CLEAN: real := 0.005
  const LOSS_DOWN: real := 0.03
  const LOSS_SEVERE: real := 0.15
  const RTT_OK_MS: real := 25.0
  const RTT_EXCESS_MS: real := 35.0
  const RTT_BAD_MS: real := 90.0
  const CLEAN_WINDOWS_UP: nat := 10
  const PROBE_WAIT_MIN: nat := 30
  const PROBE_WAIT_MAX: nat := 480
  const PROBE_PUNISH_WINDOWS: nat := 10
  const COOLDOWN_WINDOWS: nat := 3
  const PROBE_DOWN_WINDOWS: nat := 2
  const DEADBAND_LEARN_WINDOWS: nat := 5
  const POINT_MARGIN: real := 0.85
  const UP_HEADROOM: real := 1.2
  const POINT_DEBOUNCE: nat := 2
  const FAST_OVERUSE_MS: real := 500.0
  const FAST_COOLDOWN_MS: real := 1500.0
  const HOST_BOUND_CUTS: nat := 3
  const POINT_RETRY_WINDOWS: nat := 150
  const POINT_RETRY_MAX: nat := 1200

  /** One window: packets received and missing, and its RTT samples in ms. */
  datatype Sample = Sample(recv: nat, lost: nat, rtts: seq<real>) {
    function Total(): nat { recv + lost }
    function Loss(): real { if recv + lost > 0 then lost as real / (recv + lost) as real else 0.0 }
  }

  datatype Config = Config(capKbps: nat, startKbps: nat, ladder: bool, startupWindows: nat)

  datatype ProbeDown = ProbeDown(from: nat, preLoss: real, windows: nat, lossAcc: real, fecOverhead: real)

  datatype Rtt = Rtt(base: real, ema: real, last: real)

  datatype Ctl = Ctl(
    target: nat,
    cap: nat,
    ceiling: nat,
    clean: nat,
    atCeiling: nat,
    probeWait: nat,
    probeAge: Option<nat>,
    sinceStep: nat,
    over: nat,
    noiseLoss: real,
    probeDown: Option<ProbeDown>,
    rtt: Rtt,
    deadband: nat,
    startupLeft: nat,
    points: seq<Point>,
    pointIdx: nat,
    pointAge: nat,
    cleanAtPoint: nat,
    manual: bool,
    queueCuts: nat,
    pointCap: nat,
    atPointCap: nat,
    pointRetry: nat,
    drainLeft: nat,
    encoder: nat,
    fecOverhead: real,
    lastFastCut: real)

  function Clamp(x: nat, lo: nat, hi: nat): nat { if x < lo then lo else if x > hi then hi else x }
  function Pred(n: nat): nat { if n == 0 then 0 else n - 1 }
  function Abs(x: real): real { if x < 0.0 then -x else x }
  function Positive(x: real): real { if x < 0.0 then 0.0 else x }

  /** The encoder's share of the target: what is left once parity takes its own. */
  function EncoderRate(target: nat, overhead: real): nat
    requires overhead >= 0.0
  {
    Max((target as real / (1.0 + overhead)).Floor, Min(FLOOR, target))
  }

  // ---- construction ----

  function New(cfg: Config, points: seq<Point>): (r: Ctl)
    requires LadderOk(points)
    ensures Placed(r)
  {
    var cap := Max(cfg.capKbps, FLOOR);
    var start := if cfg.startKbps == 0 then cap else Clamp(cfg.startKbps, FLOOR, cap);
    Ctl(start, cap, cap, 0, 0, PROBE_WAIT_MIN, None, COOLDOWN_WINDOWS, 0, 0.0, None, Rtt(0.0, 0.0, 0.0), 0,
        cfg.startupWindows, points, if cfg.ladder then Pick(points, start, POINT_MARGIN) else 0, POINT_DEBOUNCE, 0,
        !cfg.ladder, 0, 0, 0, 0, 0, EncoderRate(start, 0.0), 0.0, -1000000000.0)
  }

  /** What holds of the ladder position, and of the overhead, in every state. */
  predicate Placed(k: Ctl) {
    LadderOk(k.points) && k.pointCap <= k.pointIdx < |k.points| && k.fecOverhead >= 0.0
  }

  // ---- internals ----

  function ApplyRate(k: Ctl, kbps: nat): (r: Ctl)
    requires Placed(k)
    ensures Placed(r)
  {
    var v := Clamp(kbps, FLOOR, k.cap);
    k.(sinceStep := 0, target := v, encoder := EncoderRate(v, k.fecOverhead))
  }

  /** Remember a rate that went wrong as the ceiling; a failed probe doubles the next wait. */
  function Punish(k: Ctl, bad: nat): (r: Ctl)
    requires Placed(k)
    ensures Placed(r)
  {
    k.(ceiling := Clamp(bad * 85 / 100, FLOOR, k.cap),
       probeWait := if k.probeAge.Some? && k.probeAge.value <= PROBE_PUNISH_WINDOWS then Min(k.probeWait * 2, PROBE_WAIT_MAX) else k.probeWait,
       probeAge := None, clean := 0, atCeiling := 0, over := 0, cleanAtPoint := 0, startupLeft := 0)
  }

  /** First rung from i on that costs the host less than cur and does not raise the frame rate. */
  function FindLighter(points: seq<Point>, cur: Point, i: nat): (r: nat)
    requires i <= |points|
    ensures i <= r <= |points|
    decreases |points| - i
  {
    if i == |points| || (points[i].Load() < cur.Load() && points[i].fps <= cur.fps) then i
    else FindLighter(points, cur, i + 1)
  }

  function Lighter(k: Ctl): nat
    requires k.pointIdx < |k.points|
  {
    FindLighter(k.points, k.points[k.pointIdx], k.pointIdx + 1)
  }

  function StepDown(k: Ctl, next: nat): (r: Ctl)
    requires Placed(k) && next < |k.points|
    ensures Placed(r)
  {
    k.(pointRetry := if k.pointRetry == 0 then POINT_RETRY_WINDOWS else Min(k.pointRetry * 2, POINT_RETRY_MAX),
       pointIdx := next, pointCap := next, atPointCap := 0, pointAge := 0, cleanAtPoint := 0, sinceStep := 0,
       startupLeft := 0, drainLeft := 2, queueCuts := 0)
  }

  /** The queue survived this many cuts and the ladder can still go lighter. */
  predicate HostBound(k: Ctl)
    requires k.pointIdx < |k.points|
  {
    k.queueCuts + 1 >= HOST_BOUND_CUTS && !k.manual && Lighter(k) < |k.points|
  }

  function QueueCut(k: Ctl, before: nat, to: nat): (r: Ctl)
    requires Placed(k)
    ensures Placed(r)
  {
    if HostBound(k) then StepDown(k, Lighter(k))
    else
      var p := Punish(k.(queueCuts := k.queueCuts + 1), before);
      ApplyRate(if p.queueCuts > 1 then p.(ceiling := Max(p.ceiling, k.ceiling)) else p, to)
  }

  function MoveTo(k: Ctl, idx: nat): (r: Ctl)
    requires Placed(k) && k.pointCap <= idx < |k.points|
    ensures Placed(r)
  {
    k.(pointIdx := idx, pointAge := 0, cleanAtPoint := 0) }

  function ApplyLadder(k: Ctl, urgent: bool): (r: Ctl)
    requires Placed(k)
    ensures Placed(r)
  {
    if k.manual || |k.points| < 2 then k
    else
      var cur := k.points[k.pointIdx];
      if k.target < cur.minKbps && k.pointIdx + 1 < |k.points| then
        var severe := k.target as real < cur.minKbps as real * 0.7;
        if k.pointAge >= POINT_DEBOUNCE || severe || urgent then
          MoveTo(k, Min(Max(Pick(k.points, k.target, POINT_MARGIN), k.pointIdx + 1), |k.points| - 1))
        else k
      else if k.pointIdx > 0 then
        var need := if k.startupLeft > 0 then 2 else CLEAN_WINDOWS_UP;
        var want := Max(Pick(k.points, k.target, 1.0 / UP_HEADROOM), k.pointCap);
        if want < k.pointIdx && k.cleanAtPoint >= need && k.pointAge >= POINT_DEBOUNCE then MoveTo(k, want) else k
      else k
  }

  function Finish(k: Ctl): (r: Ctl)
    requires Placed(k)
    ensures Placed(r)
  {
    var k1 := ApplyLadder(k.(startupLeft := Pred(k.startupLeft), drainLeft := Pred(k.drainLeft)), false);
    k1.(encoder := EncoderRate(k1.target, k1.fecOverhead))
  }

  // ---- the RTT baseline ----

  /** Sum, count, and the tracked baseline and last sample, after the positive samples of v. */
  function Feed(r: Rtt, v: seq<real>): (real, nat, Rtt) {
    if v == [] then (0.0, 0, r)
    else
      var (sum, n, q) := Feed(r, v[..|v| - 1]);
      var x := v[|v| - 1];
      if x <= 0.0 then (sum, n, q)
      else (sum + x, n + 1, Rtt(if q.base <= 0.0 || x < q.base then x else q.base, q.ema, x))
  }

  function UpdateRtt(r: Rtt, v: seq<real>): Rtt {
    var (sum, n, q) := Feed(r, v);
    var ema := if n == 0 then q.ema
      else if q.ema <= 0.0 || n >= 2 then sum / n as real
      else (q.ema + sum / n as real) * 0.5;
    Rtt(if q.base > 0.0 && ema > q.base then q.base + (ema - q.base) * 0.02 else q.base, ema, q.last)
  }

  function Excess(r: Rtt): real { if r.base > 0.0 && r.ema > 0.0 then Positive(r.ema - r.base) else 0.0 }
  function ExcessNow(r: Rtt): real { if r.base > 0.0 && r.last > 0.0 then Positive(r.last - r.base) else 0.0 }

  // ---- one window ----

  /** What a window says, given the state it is read in. */
  datatype Signals = Signals(total: nat, loss: real, eff: real, excess: real, draining: bool, queued: bool, delay: DelayState)

  /** Counters, RTT and noise floor at the head of a tick. */
  function Arrive(k: Ctl, s: Sample): (r: Ctl)
    requires Placed(k)
    ensures Placed(r)
  {
    k.(sinceStep := k.sinceStep + 1, pointAge := k.pointAge + 1,
       probeAge := if k.probeAge.Some? then Some(k.probeAge.value + 1) else None,
       rtt := UpdateRtt(k.rtt, s.rtts),
       noiseLoss := if s.Loss() < k.noiseLoss then s.Loss() else k.noiseLoss)
  }

  function Read(k: Ctl, s: Sample, delay: DelayState): Signals {
    var excess := Excess(k.rtt);
    var draining := delay == Underuse || (excess >= RTT_OK_MS && ExcessNow(k.rtt) < RTT_OK_MS);
    Signals(s.Total(), s.Loss(), Positive(s.Loss() - k.noiseLoss), excess, draining,
            !draining && (excess >= RTT_OK_MS || delay == Overuse), delay)
  }

  /** A probe-down in progress: did the loss follow the rate? */
  function Judge(k: Ctl, loss: real): (r: Ctl)
    requires Placed(k) && k.probeDown.Some?
    ensures Placed(r)
  {
    var p := k.probeDown.value;
    var pd := p.(windows := p.windows + 1, lossAcc := p.lossAcc + loss);
    if pd.windows < PROBE_DOWN_WINDOWS then k.(probeDown := Some(pd))
    else
      var after := pd.lossAcc / pd.windows as real;
      var k1 := k.(probeDown := None);
      if Abs(pd.fecOverhead - k.fecOverhead) > 0.000001 then ApplyRate(k1, pd.from)
      else if after <= pd.preLoss * 0.6 then Punish(k1, pd.from)
      else ApplyRate(k1.(noiseLoss := if after < k.noiseLoss then k.noiseLoss else after), pd.from)
  }

  function SustainedLoss(k: Ctl, g: Signals): (r: Ctl)
    requires Placed(k)
    ensures Placed(r)
  {
    var k1 := k.(over := k.over + 1, clean := 0, atCeiling := 0, cleanAtPoint := 0);
    if k1.over >= 2 && k1.sinceStep >= COOLDOWN_WINDOWS && k1.target > FLOOR then
      if g.queued then ApplyRate(Punish(k1, k1.target), k1.target * 7 / 10)
      else
        ApplyRate(k1.(over := 0, probeDown := Some(ProbeDown(k1.target, g.loss, 0, 0.0, k1.fecOverhead))), k1.target * 4 / 5)
    else k1
  }

  /** Clean windows needed, and the step taken, on the way up to the ceiling. */
  function ClimbNeed(k: Ctl): nat {
    if k.startupLeft > 0 then 1 else if 2 * k.target < k.ceiling then 2 else CLEAN_WINDOWS_UP
  }

  function ClimbTo(k: Ctl): nat {
    Min(if k.startupLeft > 0 || 2 * k.target < k.ceiling then k.target * 3 / 2 else k.target * 5 / 4, k.ceiling)
  }

  /** A confirmed probe halves the wait; a clean stretch at the host-bound point relaxes its cap. */
  function Credit(k: Ctl): (r: Ctl)
    requires Placed(k)
    ensures Placed(r)
  {
    var aged := k.probeAge.Some? && k.probeAge.value >= PROBE_PUNISH_WINDOWS;
    var bound := k.pointCap > 0 && k.pointIdx == k.pointCap;
    var relax := bound && k.atPointCap + 1 >= k.pointRetry;
    k.(over := 0, deadband := 0, cleanAtPoint := k.cleanAtPoint + 1,
       probeAge := if aged then None else k.probeAge,
       probeWait := if aged then Max(k.probeWait / 2, PROBE_WAIT_MIN) else k.probeWait,
       atPointCap := if relax then 0 else if bound then k.atPointCap + 1 else k.atPointCap,
       pointCap := if relax then k.pointCap - 1 else k.pointCap)
  }

  function Climb(k: Ctl): (r: Ctl)
    requires Placed(k)
    ensures Placed(r)
  {
    if k.target < k.ceiling then
      var k1 := k.(clean := k.clean + 1, atCeiling := 0);
      if k1.clean >= ClimbNeed(k1) then ApplyRate(k1.(clean := 0), ClimbTo(k1)) else k1
    else
      var k1 := k.(clean := 0, atCeiling := k.atCeiling + 1);
      if k1.atCeiling >= k1.probeWait && k1.ceiling < k1.cap then
        var next := Min(k1.target * 11 / 10, k1.cap);
        ApplyRate(k1.(atCeiling := 0, ceiling := Max(next, k1.ceiling), probeAge := Some(0)), next)
      else k1
  }

  function Deadband(k: Ctl, g: Signals): (r: Ctl)
    requires Placed(k)
    ensures Placed(r)
  {
    var k1 := k.(over := 0, clean := 0, atCeiling := 0);
    if g.total > 100 && g.eff > 0.0 && g.eff <= LOSS_DOWN && !g.queued && g.delay != Underuse then
      if k.deadband + 1 >= DEADBAND_LEARN_WINDOWS then
        k1.(deadband := 0, noiseLoss := if k.noiseLoss < g.loss then g.loss else k.noiseLoss)
      else k1.(deadband := k.deadband + 1)
    else k1.(deadband := 0)
  }

  predicate OveruseCut(k: Ctl, g: Signals) {
    g.delay == Overuse && k.target > FLOOR && k.sinceStep >= 1 && k.drainLeft == 0
  }

  predicate BloatCut(k: Ctl, g: Signals) {
    g.excess >= RTT_EXCESS_MS && !g.draining && k.drainLeft == 0 && k.target > FLOOR && k.sinceStep >= 1
  }

  predicate CleanSignals(g: Signals) { g.total > 0 && g.eff < LOSS_CLEAN && !g.queued && g.delay != Underuse }

  /** The rules of the window, in order. */
  function Decide(k: Ctl, g: Signals): (r: Ctl)
    requires Placed(k)
    ensures Placed(r)
  {
    if OveruseCut(k, g) then QueueCut(k, k.target, k.target * 85 / 100)
    else if BloatCut(k, g) then QueueCut(k, k.target, if g.excess >= RTT_BAD_MS then k.target / 2 else k.target * 7 / 10)
    else
      var k1 := if g.queued then k else k.(queueCuts := 0);
      if g.total > 100 && g.loss > LOSS_SEVERE && k.target > FLOOR then ApplyRate(Punish(k1, k.target), k.target / 2)
      else if g.total > 100 && g.eff > LOSS_DOWN then SustainedLoss(k1, g)
      else if CleanSignals(g) then Climb(Credit(k1))
      else Deadband(k1, g)
  }

  function Tick(k: Ctl, s: Sample, delay: DelayState): (r: Ctl)
    requires Placed(k)
    ensures Placed(r)
  {
    var k1 := Arrive(k, s);
    Finish(if k1.probeDown.Some? then Judge(k1, s.Loss()) else Decide(k1, Read(k1, s, delay)))
  }

  // ---- between windows ----

  /** overuseMs: how long the delay estimator has said Overuse at time now. */
  predicate FastCut(k: Ctl, now: real, overuseMs: real) {
    overuseMs >= FAST_OVERUSE_MS && now - k.lastFastCut >= FAST_COOLDOWN_MS && k.target > FLOOR && k.drainLeft == 0
  }

  function PollFast(k: Ctl, now: real, overuseMs: real): (r: Ctl)
    requires Placed(k)
    ensures Placed(r)
  {
    if FastCut(k, now, overuseMs) then
      ApplyLadder(QueueCut(k.(lastFastCut := now), k.target, k.target * 85 / 100), true)
    else k
  }

  function SetTarget(k: Ctl, kbps: nat): (r: Ctl)
    requires Placed(k)
    ensures Placed(r)
  {
    ApplyRate(k, kbps)
  }

  function SetFec(k: Ctl, overhead: real): (r: Ctl)
    requires Placed(k)
    ensures Placed(r)
  {
    k.(fecOverhead := Positive(overhead))
  }

  function SetManual(k: Ctl, manual: bool): (r: Ctl)
    requires Placed(k)
    ensures Placed(r)
  {
    if manual then k.(manual := true)
    else k.(manual := false, pointIdx := Max(Pick(k.points, k.target, POINT_MARGIN), k.pointCap), pointAge := 0)
  }

  // ---- runs ----

  datatype Event =
    | Window(s: Sample, delay: DelayState)
    | Poll(now: real, overuseMs: real)
    | Target(kbps: nat)
    | Fec(overhead: real)
    | Manual(on: bool)

  function Next(k: Ctl, e: Event): (r: Ctl)
    requires Placed(k)
    ensures Placed(r)
  {
    match e
    case Window(s, delay) => Tick(k, s, delay)
    case Poll(now, overuseMs) => PollFast(k, now, overuseMs)
    case Target(kbps) => SetTarget(k, kbps)
    case Fec(overhead) => SetFec(k, overhead)
    case Manual(on) => SetManual(k, on)
  }

  function Run(k: Ctl, events: seq<Event>): (r: Ctl)
    requires Placed(k)
    ensures Placed(r)
    decreases |events|
  {
    if |events| == 0 then k else Run(Next(k, events[0]), events[1..])
  }
}
