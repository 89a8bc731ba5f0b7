/** Which path a session's data takes: hole punching, the `Auto` comparison of the direct path
    with the relay, and the last block of a connect call, in every interleaving.

    Round-trip times are reals, in milliseconds. */
module Paths {
  import opened Options
  import S = SecureSession
  import opened Handshake
  import opened Connection

  // ---- the measurement ----

  const PROBE_SEQ: nat := 0x8000_0000
  const RELAY_BIT: nat := 0x1000
  const PROBES: nat := 5
  const RELAY_MARGIN_MS: real := 20.0
  const RELAY_RATIO: real := 0.7

  function Best(v: seq<real>): Option<real> {
    if v == [] then None
    else
      match Best(v[..|v| - 1])
      case None => Some(v[|v| - 1])
      case Some(m) => Some(if v[|v| - 1] < m then v[|v| - 1] else m)
  }

  predicate PreferRelay(direct: seq<real>, relay: seq<real>) {
    match (Best(direct), Best(relay))
    case (_, None) => false
    case (None, Some(_)) => true
    case (Some(d), Some(r)) => r + RELAY_MARGIN_MS < d && r < d * RELAY_RATIO
  }

  lemma {:induction false} BestIsLeast(v: seq<real>)
    ensures Best(v).None? <==> v == []
    ensures Best(v).Some? ==> Best(v).value in v && forall x :: x in v ==> Best(v).value <= x
  {
    if v != [] {
      var front := v[..|v| - 1];
      BestIsLeast(front);
      assert v == front + [v[|v| - 1]];
    }
  }

  predicate ClearlyFaster(r: real, d: real) { r + RELAY_MARGIN_MS < d && r < d * RELAY_RATIO }

  /** The relay is kept exactly when one relay answer clearly beats every direct answer. */
  lemma PreferRelayMeans(direct: seq<real>, relay: seq<real>)
    ensures PreferRelay(direct, relay) <==> exists r :: r in relay && forall d :: d in direct ==> ClearlyFaster(r, d)
  {
    BestIsLeast(direct);
    BestIsLeast(relay);
    if PreferRelay(direct, relay) {
      var r := Best(relay).value;
      assert forall d :: d in direct ==> ClearlyFaster(r, d);
    }
    if r :| r in relay && forall d :: d in direct ==> ClearlyFaster(r, d) {
      assert Best(relay).value <= r;
      if direct != [] { assert ClearlyFaster(r, Best(direct).value); }
    }
  }

  datatype Probe = Probe(sent: map<nat, real>, direct: seq<real>, relay: seq<real>)

  const NO_ANSWERS: Probe := Probe(map[], [], [])

  function Recorded(p: Probe, s: nat, now: real): Probe {
    if s < PROBE_SEQ || s !in p.sent then p
    else
      var ms := now - p.sent[s];
      if s - PROBE_SEQ >= RELAY_BIT then p.(sent := p.sent - {s}, relay := p.relay + [ms])
      else p.(sent := p.sent - {s}, direct := p.direct + [ms])
  }

  function Launched(p: Probe, s: nat, at: real): Probe { p.(sent := p.sent[s := at]) }

  // ---- what the two lists hold, from the history alone ----

  /** A probe goes out, or an answer comes back. */
  datatype Event = Out(no: nat, at: real) | Back(no: nat, at: real)

  predicate Relayed(no: nat) { no >= PROBE_SEQ + RELAY_BIT }

  /** When the probe last went out. */
  function SentAt(h: seq<Event>, no: nat): real {
    if h == [] then 0.0
    else if h[|h| - 1].Out? && h[|h| - 1].no == no then h[|h| - 1].at
    else SentAt(h[..|h| - 1], no)
  }

  /** It went out and has not been answered since. */
  predicate Outstanding(h: seq<Event>, no: nat) {
    h != [] && if h[|h| - 1].no == no then h[|h| - 1].Out? else Outstanding(h[..|h| - 1], no)
  }

  /** The round trips of one path: for each first answer, its time minus the time of sending. */
  function Trips(h: seq<Event>, relayed: bool): seq<real> {
    if h == [] then []
    else
      var front, e := h[..|h| - 1], h[|h| - 1];
      if e.Back? && Outstanding(front, e.no) && Relayed(e.no) == relayed then Trips(front, relayed) + [e.at - SentAt(front, e.no)]
      else Trips(front, relayed)
  }

  /** What the bookkeeping holds after a history. */
  function Kept(h: seq<Event>): Probe {
    if h == [] then NO_ANSWERS
    else
      var front, e := Kept(h[..|h| - 1]), h[|h| - 1];
      if e.Out? then Launched(front, e.no, e.at) else Recorded(front, e.no, e.at)
  }

  ghost predicate ProbeNumbers(h: seq<Event>) { forall i :: 0 <= i < |h| && h[i].Out? ==> h[i].no >= PROBE_SEQ }

  /** The map and the two lists hold exactly the outstanding probes and the round trips of the two
      paths. */
  lemma {:induction false} KeptIsTrips(h: seq<Event>)
    requires ProbeNumbers(h)
    ensures var p := Kept(h);
      && p.direct == Trips(h, false) && p.relay == Trips(h, true)
      && (forall no :: no in p.sent <==> Outstanding(h, no))
      && (forall no :: no in p.sent ==> p.sent[no] == SentAt(h, no) && no >= PROBE_SEQ)
  {
    if h != [] {
      var front, e := h[..|h| - 1], h[|h| - 1];
      KeptIsTrips(front);
      var p, q := Kept(front), Kept(h);
      forall no: nat ensures (no in q.sent <==> Outstanding(h, no)) && (no in q.sent ==> q.sent[no] == SentAt(h, no) && no >= PROBE_SEQ) {
        assert no in p.sent <==> Outstanding(front, no);
      }
      assert e.no in p.sent <==> Outstanding(front, e.no);
    }
  }

  /** A probe is answered once: it leaves the outstanding set for exactly one of the lists, and a
      repeated answer changes nothing. */
  lemma RecordedOnce(p: Probe, s: nat, now: real, later: real)
    ensures var r := Recorded(p, s, now);
      && Recorded(r, s, later) == r
      && |r.sent| + |r.direct| + |r.relay| == |p.sent| + |p.direct| + |p.relay|
      && p.direct <= r.direct && p.relay <= r.relay
  {
    if s >= PROBE_SEQ && s in p.sent {
      assert p.sent == (p.sent - {s})[s := p.sent[s]];
      assert p.sent.Keys == (p.sent - {s}).Keys + {s};
      assert |p.sent.Keys| == |p.sent| && |(p.sent - {s}).Keys| == |p.sent - {s}|;
    }
  }

  /** The object behind `Probe`. */
  class PathProbe {
    var sent: map<nat, real>
    var direct: seq<real>
    var relay: seq<real>

    ghost function State(): Probe
      reads this
    {
      Probe(sent, direct, relay)
    }

    constructor ()
      ensures State() == NO_ANSWERS
    {
      sent, direct, relay := map[], [], [];
    }

    method Record(s: nat, now: real)
      modifies this
      ensures State() == Recorded(old(State()), s, now)
      ensures s >= PROBE_SEQ ==> s !in sent
      ensures forall k :: k != s ==> (k in sent <==> k in old(sent))
      ensures |sent| + |direct| + |relay| == |old(sent)| + |old(direct)| + |old(relay)|
      ensures old(direct) <= direct && old(relay) <= relay
      ensures s >= PROBE_SEQ && s in old(sent) ==>
        if Relayed(s) then relay == old(relay) + [now - old(sent)[s]] && direct == old(direct)
        else direct == old(direct) + [now - old(sent)[s]] && relay == old(relay)
    {
      RecordedOnce(State(), s, now, now);
      if s < PROBE_SEQ { return; }
      if s in sent {
        var ms := now - sent[s];
        sent := sent - {s};
        if s - PROBE_SEQ >= RELAY_BIT { relay := relay + [ms]; } else { direct := direct + [ms]; }
      }
    }
  }

  // ---- the state machine of one session ----

  /** A connect call after rendezvous: punching, about to compare, comparing, about to wire up. */
  datatype Conn = Accepted | Punching | Picking(t: Transport) | Comparing | Settling(t: Transport) | Finished | Removed

  /** rounds: how many of the probe pairs of the comparison were sent. */
  datatype Path = Path(s: Session, conn: Conn, notified: bool, probe: Option<Probe>, runs: nat, rounds: nat)

  datatype Step =
    | Punch(from: Addr)
    | PunchAck(from: Addr, seqNo: nat, now: real)
    | RelayedAck(seqNo: nat, now: real)
    | Established(inTime: bool)
    | Skip                                        // not `Auto`: no comparison
    | Pick(task: bool, creds: bool)               // a spawned task, or the connect call
    | Send(at: real, relayAt: real)               // the next pair: one direct, one through the relay
    | Choose                                      // the comparison's last lock section
    | Settle

  function Began(p: Path): Path { p.(s := p.s.(pathChecked := true), probe := Some(NO_ANSWERS), runs := p.runs + 1, rounds := 0) }

  function Next(mode: Mode, p: Path, step: Step): Path {
    if p.conn == Removed then p
    else
      match step
      case Punch(from) =>
        if mode == RelayOnly then p else p.(s := Punched(p.s, from))
      case PunchAck(from, seqNo, now) =>
        if mode == RelayOnly then p
        else
          p.(probe := if p.probe.Some? then Some(Recorded(p.probe.value, seqNo, now)) else None,
             s := Punched(p.s, from),
             notified := p.notified || (p.conn == Punching && (from == p.s.peerAddr || Some(from) == p.s.peerLan)))
      case RelayedAck(seqNo, now) =>
        p.(probe := if p.probe.Some? then Some(Recorded(p.probe.value, seqNo, now)) else None)
      case Established(inTime) =>
        if p.conn != Punching then p
        else if mode == RelayOnly then p.(conn := Picking(Relay))
        else if inTime && p.notified then p.(conn := Picking(Direct))
        else if mode == Auto then p.(conn := Picking(Relay))
        else p.(conn := Removed)
      case Skip =>
        if p.conn.Picking? && mode != Auto then p.(conn := Settling(p.conn.t)) else p
      case Pick(task, creds) =>
        if task then
          if !p.s.measureOnDirect || mode != Auto || !p.s.directOk || p.s.pathChecked then p
          else if creds then Began(p) else Began(p).(probe := None)
        else if !p.conn.Picking? || mode != Auto then p
        else if !p.s.directOk || p.s.pathChecked then p.(conn := Settling(p.s.transport))
        else if creds then Began(p).(conn := Comparing)
        else Began(p).(probe := None, conn := Settling(Direct))
      case Send(at, relayAt) =>
        if p.probe.None? || p.rounds >= PROBES then p
        else
          p.(probe := Some(Launched(Launched(p.probe.value, PROBE_SEQ + p.rounds, at), PROBE_SEQ + RELAY_BIT + p.rounds, relayAt)),
             rounds := p.rounds + 1)
      case Choose =>
        if p.probe.None? then p
        else
          var s := if PreferRelay(p.probe.value.direct, p.probe.value.relay)
            then p.s.(relayPreferred := true, transport := Relay) else p.s;
          p.(s := s, probe := None, conn := if p.conn == Comparing then Settling(s.transport) else p.conn)
      case Settle =>
        if !p.conn.Settling? then p
        else
          p.(s := p.s.(transport := if p.s.directOk && !p.s.relayPreferred then Direct else p.conn.t), conn := Finished)
  }

  function Run(mode: Mode, p: Path, steps: seq<Step>): Path
    decreases |steps|
  {
    if |steps| == 0 then p else Run(mode, Next(mode, p, steps[0]), steps[1..])
  }

  /** How a session begins: the initiator's or the responder's rendezvous state, or direct-IP. */
  predicate Initial(p: Path) {
    && !p.s.directOk && !p.s.relayPreferred && !p.notified && p.probe.None? && p.runs == 0
    && if p.s.transport == Relay then
         !p.s.pathChecked && p.conn == (if p.s.measureOnDirect then Accepted else Punching)
       else
         p.s.pathChecked && !p.s.measureOnDirect && p.conn == Accepted && p.s.peerLan.None?
  }

  lemma SessionsStartInitial(c: Config, sid: SessionId, addr: Addr, blob: seq<nat>, key: Bytes32, theirs: PeerHs, caps: nat, hs: LocalHs, r: S.Role)
    ensures SplitBlob(blob).Some? ==>
      && Initial(Path(RelaySession(c, sid, S.Initiator, addr, blob, hs), Punching, false, None, 0, 0))
      && Initial(Path(RelaySession(c, sid, S.Responder, addr, blob, hs), Accepted, false, None, 0, 0))
    ensures Initial(Path(DirectSession(c, sid, r, addr, key, theirs, caps, hs), Accepted, false, None, 0, 0))
  {
    hide SplitBlob, ParseLan, SessionHs;
  }

  // ---- what every step keeps ----

  /** rendezvous: the session was set up through the relay (not direct-IP). */
  predicate RouteOk(s: Session, mode: Mode, rendezvous: bool) {
    && (s.relayPreferred ==> s.transport == Relay && s.directOk && s.pathChecked && rendezvous)
    && (s.directOk && !s.relayPreferred ==> s.transport == Direct)
    && (!s.directOk ==> s.transport == if rendezvous then Relay else Direct)
    && (mode == RelayOnly ==> !s.directOk)
  }

  predicate ConnOk(p: Path, mode: Mode, rendezvous: bool) {
    && (p.notified ==> p.s.directOk)
    && (p.probe.Some? ==> p.s.pathChecked && !p.s.relayPreferred && p.s.directOk && mode == Auto && rendezvous)
    && (p.conn != Accepted && p.conn != Removed ==> rendezvous && !p.s.measureOnDirect)
    && (p.conn == Comparing ==> p.probe.Some?)
    && match p.conn
       case Punching => !p.s.pathChecked
       case Picking(t) => !p.s.pathChecked && (t == Direct ==> p.s.directOk)
       case Settling(t) => p.probe.None? && (t == Direct ==> p.s.directOk) && (p.s.relayPreferred ==> t == Relay)
       case Finished => p.probe.None?
       case _ => true
  }

  predicate Known(s: Session, addr: Addr, lan: Option<Addr>) {
    s.peerLan == lan && (s.peerAddr == addr || Some(s.peerAddr) == lan)
  }

  predicate Inv(p: Path, mode: Mode, rendezvous: bool, addr: Addr, lan: Option<Addr>) {
    && Known(p.s, addr, lan)
    && RouteOk(p.s, mode, rendezvous)
    && ConnOk(p, mode, rendezvous)
    && p.runs == (if p.s.pathChecked && rendezvous then 1 else 0)
    && (!rendezvous ==> p.s.pathChecked)
  }

  lemma NextKeepsInv(p: Path, mode: Mode, step: Step, rendezvous: bool, addr: Addr, lan: Option<Addr>)
    requires Inv(p, mode, rendezvous, addr, lan)
    ensures Inv(Next(mode, p, step), mode, rendezvous, addr, lan)
  {
    hide PreferRelay, Recorded, IsPrivateV4;
  }

  lemma {:induction false} RunKeepsInv(p: Path, mode: Mode, steps: seq<Step>, rendezvous: bool, addr: Addr, lan: Option<Addr>)
    requires Inv(p, mode, rendezvous, addr, lan)
    ensures Inv(Run(mode, p, steps), mode, rendezvous, addr, lan)
    decreases |steps|
  {
    hide Inv, Next;
    if |steps| > 0 {
      NextKeepsInv(p, mode, steps[0], rendezvous, addr, lan);
      RunKeepsInv(Next(mode, p, steps[0]), mode, steps[1..], rendezvous, addr, lan);
    }
  }

  /** What only ever gets better: a proven path stays proven, and a proven private path stays
      private. */
  predicate Proven(s: Session, s': Session) {
    && (s.directOk ==> s'.directOk)
    && (s.directOk && IsPrivateV4(s.peerAddr) ==> IsPrivateV4(s'.peerAddr))
    && (s.relayPreferred ==> s'.relayPreferred)
  }

  lemma {:induction false} RunKeepsProven(p: Path, mode: Mode, steps: seq<Step>)
    ensures Proven(p.s, Run(mode, p, steps).s)
    decreases |steps|
  {
    hide IsPrivateV4;
    if |steps| > 0 {
      NextKeepsProven(p, mode, steps[0]);
      hide Next;
      RunKeepsProven(Next(mode, p, steps[0]), mode, steps[1..]);
    }
  }

  lemma NextKeepsProven(p: Path, mode: Mode, step: Step)
    ensures Proven(p.s, Next(mode, p, step).s)
  {
    hide IsPrivateV4, PreferRelay, Recorded;
  }

  // ---- the theorems ----

  /** What `live_transport` reports, and what `send_payload` takes for each datagram. */
  function LiveTransport(s: Session): Transport { if s.directOk && !s.relayPreferred then Direct else s.transport }
  function SendRoute(s: Session): (Transport, Addr) { (s.transport, s.peerAddr) }

  /** In every state of every run. */
  lemma PathSafety(p: Path, mode: Mode, steps: seq<Step>)
    requires Initial(p)
    ensures
      var q := Run(mode, p, steps);
      var s := q.s;
      && (s.peerAddr == p.s.peerAddr || Some(s.peerAddr) == p.s.peerLan)
      && (s.relayPreferred ==> s.transport == Relay)
      && (s.directOk && !s.relayPreferred ==> s.transport == Direct)
      && SendRoute(s).0 == LiveTransport(s)
      && (mode == RelayOnly && p.s.transport == Relay ==> s.transport == Relay)
      && q.runs <= 1
  {
    var rendezvous := p.s.transport == Relay;
    var p0 := p;
    assert Inv(p0, mode, rendezvous, p.s.peerAddr, p.s.peerLan);
    RunKeepsInv(p0, mode, steps, rendezvous, p.s.peerAddr, p.s.peerLan);
  }

  /** What one step adds to the history of a comparison. */
  function Heard(mode: Mode, p: Path, step: Step): seq<Event> {
    if p.conn == Removed || p.probe.None? then []
    else
      match step
      case Send(at, relayAt) =>
        if p.rounds >= PROBES then [] else [Out(PROBE_SEQ + p.rounds, at), Out(PROBE_SEQ + RELAY_BIT + p.rounds, relayAt)]
      case PunchAck(from, seqNo, now) => if mode == RelayOnly then [] else [Back(seqNo, now)]
      case RelayedAck(seqNo, now) => [Back(seqNo, now)]
      case _ => []
  }

  /** The history since the comparison in progress began. */
  function History(mode: Mode, p: Path, h: seq<Event>, steps: seq<Step>): seq<Event>
    decreases |steps|
  {
    if |steps| == 0 then h
    else
      var q := Next(mode, p, steps[0]);
      History(mode, q, if p.probe.None? then [] else h + Heard(mode, p, steps[0]), steps[1..])
  }

  ghost predicate Told(p: Path, h: seq<Event>) { ProbeNumbers(h) && (p.probe.Some? ==> p.s.pathChecked && p.probe.value == Kept(h)) }

  lemma KeptOne(h: seq<Event>, e: Event)
    ensures Kept(h + [e]) == if e.Out? then Launched(Kept(h), e.no, e.at) else Recorded(Kept(h), e.no, e.at)
  {
    assert (h + [e])[..|h|] == h;
    hide Recorded;
  }

  lemma NextTold(mode: Mode, p: Path, step: Step, h: seq<Event>)
    requires Told(p, h)
    ensures Told(Next(mode, p, step), if p.probe.None? then [] else h + Heard(mode, p, step))
  {
    hide PreferRelay, Recorded, IsPrivateV4, Launched;
    var more := Heard(mode, p, step);
    assert Kept([]) == NO_ANSWERS;
    if p.probe.Some? {
      assert h + [] == h;
      if |more| == 1 {
        KeptOne(h, more[0]);
        assert h + more == h + [more[0]];
      } else if |more| == 2 {
        KeptOne(h, more[0]);
        KeptOne(h + [more[0]], more[1]);
        assert h + more == h + [more[0]] + [more[1]];
      }
    }
    hide Kept;
  }

  lemma {:induction false} RunTold(mode: Mode, p: Path, h: seq<Event>, steps: seq<Step>)
    requires Told(p, h)
    ensures Told(Run(mode, p, steps), History(mode, p, h, steps))
    decreases |steps|
  {
    hide Told, Next, Heard;
    if |steps| > 0 {
      NextTold(mode, p, steps[0], h);
      RunTold(mode, Next(mode, p, steps[0]), if p.probe.None? then [] else h + Heard(mode, p, steps[0]), steps[1..]);
    }
  }

  /** In every run, while a comparison is in progress: the direct list holds exactly the round trips
      of the direct probes answered since it began, the relay list those of the relayed ones. */
  lemma ListsAreTrips(p: Path, mode: Mode, steps: seq<Step>)
    requires Initial(p)
    ensures var q, h := Run(mode, p, steps), History(mode, p, [], steps);
      q.probe.Some? ==> q.probe.value.direct == Trips(h, false) && q.probe.value.relay == Trips(h, true)
  {
    RunTold(mode, p, [], steps);
    KeptIsTrips(History(mode, p, [], steps));
    hide Run, History, Kept, Trips;
  }

  /** Some relay answer clearly beats every direct answer. */
  ghost predicate Beaten(p: Probe) { exists r :: r in p.relay && forall d :: d in p.direct ==> ClearlyFaster(r, d) }

  /** A comparison that ends keeps the relay, for good, exactly when some round trip through the
      relay was clearly faster than every direct one; otherwise the direct path stays. */
  lemma ComparisonOutcome(p: Path, mode: Mode, steps: seq<Step>)
    requires Initial(p) && Run(mode, p, steps).probe.Some? && Run(mode, p, steps).conn != Removed
    ensures
      var q, h := Run(mode, p, steps), History(mode, p, [], steps);
      Next(mode, q, Choose).s.transport ==
        if exists r :: r in Trips(h, true) && forall d :: d in Trips(h, false) ==> ClearlyFaster(r, d) then Relay else Direct
  {
    var q := Run(mode, p, steps);
    RunKeepsInv(p, mode, steps, p.s.transport == Relay, p.s.peerAddr, p.s.peerLan);
    PreferRelayMeans(q.probe.value.direct, q.probe.value.relay);
    ListsAreTrips(p, mode, steps);
    hide PreferRelay, ClearlyFaster, Run, History, Trips;
  }

  /** Probes out at 0 and answered at 80 ms directly and at 30 ms through the relay: the relay. */
  lemma FasterRelayWins()
    ensures var h := [Out(0x8000_0000, 0.0), Out(0x8000_1000, 0.0), Back(0x8000_0000, 80.0), Back(0x8000_1000, 30.0)];
      Trips(h, false) == [80.0] && Trips(h, true) == [30.0] && PreferRelay(Trips(h, false), Trips(h, true))
  {
    var a, b, c, d := Out(0x8000_0000, 0.0), Out(0x8000_1000, 0.0), Back(0x8000_0000, 80.0), Back(0x8000_1000, 30.0);
    var h := [a, b, c, d];
    assert h[..3] == [a, b, c] && [a, b, c][..2] == [a, b] && [a, b][..1] == [a] && [a][..0] == [];
    assert Trips([a], false) == Trips([], false) == [] && Trips([a], true) == Trips([], true) == [];
    assert Trips([a, b], false) == [] && Trips([a, b], true) == [];
    assert Outstanding([a], 0x8000_0000) && SentAt([a], 0x8000_0000) == 0.0;
    assert Outstanding([a, b], 0x8000_0000) && SentAt([a, b], 0x8000_0000) == 0.0;
    assert Outstanding([a, b], 0x8000_1000) && SentAt([a, b], 0x8000_1000) == 0.0;
    assert Trips([a, b, c], false) == [80.0] && Trips([a, b, c], true) == [];
    assert Outstanding([a, b, c], 0x8000_1000) && SentAt([a, b, c], 0x8000_1000) == 0.0;
    assert Best([80.0]) == Some(80.0) && Best([30.0]) == Some(30.0);
  }

  /** Between any two moments of a run: a proven direct path never reverts to unproven, a proven
      private path is never replaced by a public one. */
  lemma ProvenForGood(p: Path, mode: Mode, before: seq<Step>, after: seq<Step>)
    ensures Proven(Run(mode, p, before).s, Run(mode, p, before + after).s)
  {
    RunSplits(p, mode, before, after);
    RunKeepsProven(Run(mode, p, before), mode, after);
  }

  lemma {:induction false} RunSplits(p: Path, mode: Mode, before: seq<Step>, after: seq<Step>)
    ensures Run(mode, p, before + after) == Run(mode, Run(mode, p, before), after)
    decreases |before|
  {
    hide Next;
    if |before| == 0 {
      assert before + after == after;
    } else {
      assert (before + after)[1..] == before[1..] + after;
      RunSplits(Next(mode, p, before[0]), mode, before[1..], after);
    }
  }

  // ---- the object ----

  /** The session as the path code updates it, one lock section per method.  The address it was set
      up with, its LAN candidate and its kind are fixed. */
  class SessionPath {
    const mode: Mode
    const rendezvous: bool
    const addr: Addr
    const lan: Option<Addr>
    var p: Path

    ghost predicate Valid()
      reads this
    {
      Inv(p, mode, rendezvous, addr, lan)
    }

    constructor (mode: Mode, s: Session, conn: Conn)
      requires Initial(Path(s, conn, false, None, 0, 0))
      ensures Valid() && this.mode == mode && p == Path(s, conn, false, None, 0, 0)
      ensures addr == s.peerAddr && lan == s.peerLan
    {
      this.mode := mode;
      rendezvous, addr, lan := s.transport == Relay, s.peerAddr, s.peerLan;
      p := Path(s, conn, false, None, 0, 0);
    }

    method OnPunchAck(from: Addr, seqNo: nat, now: real)
      requires Valid()
      modifies this
      ensures Valid() && p == Next(mode, old(p), PunchAck(from, seqNo, now))
      ensures Proven(old(p.s), p.s) && (p.s.peerAddr == addr || Some(p.s.peerAddr) == lan)
    {
      NextKeepsInv(p, mode, PunchAck(from, seqNo, now), rendezvous, addr, lan);
      hide IsPrivateV4, Recorded;
      if p.conn == Removed || mode == RelayOnly { return; }
      if p.probe.Some? { p := p.(probe := Some(Recorded(p.probe.value, seqNo, now))); }
      if from != p.s.peerAddr && Some(from) != p.s.peerLan { return; }
      if p.conn == Punching { p := p.(notified := true); }
      if !(p.s.directOk && IsPrivateV4(p.s.peerAddr)) || IsPrivateV4(from) {
        p := p.(s := p.s.(peerAddr := from));
      }
      p := p.(s := p.s.(directOk := true));
      if !p.s.relayPreferred { p := p.(s := p.s.(transport := Direct)); }
    }

    /** First section of `pick_faster_path`, for the connect call. */
    method BeginPick(creds: bool)
      requires Valid()
      modifies this
      ensures Valid() && p == Next(mode, old(p), Pick(false, creds))
      ensures p.runs <= 1 && (p.runs > old(p.runs) ==> old(p.s.directOk && !p.s.pathChecked))
    {
      NextKeepsInv(p, mode, Pick(false, creds), rendezvous, addr, lan);
      if p.conn == Removed || !p.conn.Picking? || mode != Auto { return; }
      if !p.s.directOk || p.s.pathChecked {
        p := p.(conn := Settling(p.s.transport));
        return;
      }
      p := p.(s := p.s.(pathChecked := true));
      p := p.(probe := Some(NO_ANSWERS), runs := p.runs + 1, rounds := 0);
      if creds {
        p := p.(conn := Comparing);
      } else {
        p := p.(probe := None);
        p := p.(conn := Settling(Direct));
      }
    }

    /** Last section of `pick_faster_path`. */
    method EndPick()
      requires Valid()
      modifies this
      ensures Valid() && p == Next(mode, old(p), Choose)
      ensures old(p.probe.Some? && p.conn != Removed) ==>
        p.s.transport == if Beaten(old(p.probe.value)) then Relay else Direct
    {
      NextKeepsInv(p, mode, Choose, rendezvous, addr, lan);
      if p.probe.Some? { PreferRelayMeans(p.probe.value.direct, p.probe.value.relay); }
      hide PreferRelay, ClearlyFaster;
      if p.conn == Removed || p.probe.None? { return; }
      var probe := p.probe.value;
      p := p.(probe := None);
      if PreferRelay(probe.direct, probe.relay) {
        p := p.(s := p.s.(relayPreferred := true, transport := Relay));
      }
      if p.conn == Comparing { p := p.(conn := Settling(p.s.transport)); }
    }

    /** Last section of `connect_pinned`; the transport handed to the caller. */
    method WireUp() returns (t: Transport)
      requires Valid() && p.conn.Settling?
      modifies this
      ensures Valid() && p == Next(mode, old(p), Settle)
      ensures t == LiveTransport(p.s) == SendRoute(p.s).0
      ensures t == Direct <==> p.s.directOk && !p.s.relayPreferred
    {
      NextKeepsInv(p, mode, Settle, rendezvous, addr, lan);
      p := p.(s := p.s.(transport := if p.s.directOk && !p.s.relayPreferred then Direct else p.conn.t));
      p := p.(conn := Finished);
      t := p.s.transport;
    }
  }
}
