/** Identity pinning: one connect call with an expected key, interleaved with any other activity
    of the node and with datagrams of any content.

    The relay learns the session id from Connect, so anything may arrive under it, an Incoming
    included.  That one makes a responder state under our id and hands a second Session for it to
    the accept loop; when that handle is dropped, whatever state the id then holds goes with it. */
module Pinning {
  import opened Options
  import S = SecureSession
  import opened Handshake
  import opened Connection
  import opened Entries

  /** The connect call: waiting for its answer, past the waiter, or done. */
  datatype Phase = Waiting | Settling | Connected | GaveUp(identityChanged: bool) | Failed | Closed

  /** What the call fixed when it began. */
  datatype Call = Call(c: Config, sid: SessionId, hs: LocalHs, pin: Bytes32, direct: bool)

  /** Three facts of the history: an answer was turned away by the pin, an answer with another key
      came while the call was unanswered, and a visitor came under our id.  And the handles that
      visitors' states put into the accept queue, not dropped yet. */
  datatype State = State(g: Inner, phase: Phase, refused: bool, offended: bool, visited: bool, handles: nat)

  /** The datagram made a responder state under the id, so its handle was emitted. */
  predicate Emits(e: Entry, e': Entry, b: Body) {
    (b.Incoming? || b.Hello?) && e.session.None? && e'.session.Some?
  }

  /** The datagram answers with a key other than the pinned one. */
  predicate Offends(pin: Bytes32, b: Body) {
    match b
    case PeerFound(answer) => SplitBlob(answer).Some? && SplitBlob(answer).value.0 != pin
    case HelloAck(ack) => ack.pubkey != pin
    case _ => false
  }

  /** The pin turns the datagram away: a PeerFound by its own key, a HelloAck by its own key when
      the id holds no state, and by the key of that state when it does. */
  predicate Refuses(pin: Bytes32, e: Entry, b: Body) {
    e.pending.Some? && (
      if b.HelloAck? && e.session.Some? then e.session.value.peerPubkey != pin else Offends(pin, b))
  }

  datatype Step =
    | Datagram(k: SessionId, from: Addr, b: Body, hs: LocalHs)  // any id, any content
    | Reroute(k: SessionId, now: Session)                       // punches and path choice
    | Register(on: bool)
    | OtherStart(k: SessionId, hs: LocalHs, pin: Option<Bytes32>, direct: bool)
    | OtherEnd(k: SessionId)
    | TimedOut                                                  // no answer in time: sweep
    | Woken                                                     // the waiter was notified
    | Miss                                                      // P2pOnly punch miss: remove the state
    | Cancel                                                    // the caller dropped the future: the guard sweeps
    | Return                                                    // hand the Session to the caller
    | Close                                                     // the call's own handle was dropped
    | HandleDropped                                             // a visitor's handle was dropped

  function Begin(call: Call, g: Inner): State {
    State(if call.direct then StartDirect(g, call.sid, call.hs, Some(call.pin))
          else StartRelay(g, call.sid, call.hs, Some(call.pin)), Waiting, false, false, false, 0)
  }

  function Next(call: Call, s: State, step: Step): State {
    var g, sid := s.g, call.sid;
    match step
    case Datagram(k, from, b, hs) =>
      var ours := k == sid && s.phase == Waiting;
      var g' := Handle(call.c, g, k, from, b, hs);
      var emits := k == sid && Emits(EntryAt(g, sid), EntryAt(g', sid), b);
      s.(g := g',
         refused := s.refused || (ours && Refuses(call.pin, EntryAt(g, sid), b)),
         offended := s.offended || (ours && EntryAt(g, sid).pending.Some? && Offends(call.pin, b)),
         visited := s.visited || emits || (k == sid && b.Incoming?),
         handles := if emits then s.handles + 1 else s.handles)
    case Reroute(k, now) =>
      if k in g.sessions && SamePeer(g.sessions[k], now) then
        s.(g := g.(sessions := g.sessions[k := now]))
      else s
    case Register(on) => s.(g := g.(registered := on))
    case OtherStart(k, hs, pin, direct) =>
      if k == sid then s
      else s.(g := if direct then StartDirect(g, k, hs, pin) else StartRelay(g, k, hs, pin))
    case OtherEnd(k) => if k == sid then s else s.(g := Sweep(g, k))
    case TimedOut =>
      if s.phase == Waiting then s.(g := Sweep(g, sid), phase := GaveUp(sid in g.mismatch && g.mismatch[sid])) else s
    case Woken =>
      if s.phase != Waiting || sid !in g.woken then s
      else if call.direct && sid !in g.sessions then s.(g := Sweep(g, sid), phase := Failed)
      else s.(g := Finish(g, sid), phase := Settling)
    case Miss => if s.phase == Settling && !call.direct then s.(g := DropSession(g, sid), phase := Failed) else s
    case Cancel => if call.direct && (s.phase == Waiting || s.phase == Settling) then s.(g := Sweep(g, sid), phase := Failed) else s
    case Return => if s.phase == Settling then s.(phase := Connected) else s
    case Close => if s.phase == Connected then s.(g := DropSession(g, sid), phase := Closed) else s
    case HandleDropped => if s.handles > 0 then s.(g := DropSession(g, sid), handles := s.handles - 1) else s
  }

  function Run(call: Call, s: State, steps: seq<Step>): State
    decreases |steps|
  {
    if |steps| == 0 then s else Run(call, Next(call, s, steps[0]), steps[1..])
  }

  predicate Unused(g: Inner, sid: SessionId) {
    EntryAt(g, sid) == Entry(None, None, None) && sid !in g.woken && sid !in g.mismatch && sid !in g.helloDone
  }

  // ---- what every step keeps ----

  /** Keyed against the identity it names: as initiator with the call's own handshake values, or
      as responder with the values it was created with. */
  ghost predicate AsInitiator(call: Call, e: Session) {
    exists theirs :: e.crypto == SessionHs(call.c.x, call.c.secret, e.peerPubkey, S.Initiator, call.sid, call.hs, theirs)
  }

  ghost predicate AsResponder(call: Call, e: Session) {
    exists theirs :: e.crypto == SessionHs(call.c.x, call.c.secret, e.peerPubkey, S.Responder, call.sid, e.ourHs, theirs)
  }

  /** The state under the id, whoever it is for; without a visitor it is our own, for the pin. */
  ghost predicate Held(call: Call, e: Session, visited: bool) {
    && (AsInitiator(call, e) || AsResponder(call, e))
    && (!visited ==> AsInitiator(call, e) && e.peerPubkey == call.pin)
  }

  /** Unanswered: salt and pin in place.  Answered: neither, and a state for the pinned key. */
  ghost predicate EntryOk(call: Call, e: Entry, visited: bool) {
    && (e.session.Some? ==> Held(call, e.session.value, visited))
    && if e.pending.Some? then
         e.pending.value == call.hs && e.pin == Some(call.pin) && (!visited ==> e.session.None?)
       else
         e.pin.None? && ForPin(call, e) && AsInitiator(call, e.session.value)
  }

  predicate ForPin(call: Call, e: Entry) { e.session.Some? && e.session.value.peerPubkey == call.pin }

  /** Ready to be handed to the caller; a relayed call has by then paired its own salt. */
  predicate Ready(call: Call, e: Entry) { ForPin(call, e) && (!call.direct ==> e.pending.None?) }

  ghost predicate CallOk(call: Call, phase: Phase, e: Entry, woken: bool, visited: bool) {
    match phase
    case Waiting => EntryOk(call, e, visited) && (woken ==> Ready(call, e))
    case Settling => EntryOk(call, e, visited) && Ready(call, e)
    case Connected => EntryOk(call, e, visited) && Ready(call, e)
    case _ => true
  }

  /** While waiting, the mismatch flag says whether an answer was refused; giving up reports it. */
  predicate FlagOk(s: State, flag: Option<bool>) {
    && (s.phase == Waiting ==> flag == Some(s.refused))
    && (s.phase.GaveUp? ==> s.phase.identityChanged == s.refused)
    && (!s.visited ==> s.refused == s.offended)
  }

  /** Salt and pin go together; without a visitor an unanswered id holds no state. */
  predicate Paired(call: Call, e: Entry, visited: bool) {
    if e.pending.Some? then e.pin == Some(call.pin) && (!visited ==> e.session.None?) else e.pin.None?
  }

  /** What every step keeps, handle drops included. */
  predicate FlagInv(call: Call, s: State) {
    && (s.phase == Waiting ==> Paired(call, EntryAt(s.g, call.sid), s.visited))
    && FlagOk(s, Lookup(s.g.mismatch, call.sid))
    && (s.handles > 0 ==> s.visited)
  }

  /** What every step keeps that does not take an answered call's state away. */
  ghost predicate Inv(call: Call, s: State) {
    && CallOk(call, s.phase, EntryAt(s.g, call.sid), call.sid in s.g.woken, s.visited)
    && (!call.direct ==> call.sid !in s.g.helloDone)
    && (s.handles > 0 ==> s.visited)
  }

  /** The handler raises the flag of sid exactly when the key it checks fails the pin. */
  predicate Raises(g: Inner, sid: SessionId, b: Body) {
    match b
    case PeerFound(answer) => SplitBlob(answer).Some? && Pinned(g, sid, SplitBlob(answer).value.0)
    case HelloAck(ack) => Pinned(g, sid, if sid in g.sessions then g.sessions[sid].peerPubkey else ack.pubkey)
    case _ => false
  }

  lemma FlagActs(c: Config, g: Inner, k: SessionId, from: Addr, b: Body, hs: LocalHs, sid: SessionId)
    ensures Lookup(Handle(c, g, k, from, b, hs).mismatch, sid) ==
      if k == sid && Raises(g, sid, b) && sid in g.mismatch then Some(true) else Lookup(g.mismatch, sid)
  {
    hide DirectSession, RelaySession, SplitBlob;
    if b.HelloAck? {
      AckFlags(c, g, k, from, b.ack, sid);
      hide AfterHelloAck, AfterPeerFound, AfterHello, AfterIncoming;
    }
  }

  lemma AckFlags(c: Config, g: Inner, k: SessionId, from: Addr, ack: Ack, sid: SessionId)
    ensures Lookup(AfterHelloAck(c, g, k, from, ack).mismatch, sid) ==
      if k == sid && Raises(g, sid, HelloAck(ack)) && sid in g.mismatch then Some(true) else Lookup(g.mismatch, sid)
  {
    hide DirectSession;
  }

  /** In a waiting call the flag is raised exactly when the pin turns the datagram away. */
  lemma RaisesIffRefuses(call: Call, g: Inner, b: Body, visited: bool)
    requires Paired(call, EntryAt(g, call.sid), visited)
    ensures Raises(g, call.sid, b) <==> Refuses(call.pin, EntryAt(g, call.sid), b)
    ensures !visited ==> (Refuses(call.pin, EntryAt(g, call.sid), b) <==> EntryAt(g, call.sid).pending.Some? && Offends(call.pin, b))
  {
    hide SplitBlob;
  }

  /** The waiter of sid is woken only by an answer under sid that leaves a state the pin accepts;
      without a Hello waiter, only by one that pairs the pending salt. */
  lemma NewlyWoken(c: Config, g: Inner, k: SessionId, from: Addr, b: Body, hs: LocalHs, sid: SessionId)
    requires sid in Handle(c, g, k, from, b, hs).woken && sid !in g.woken
    ensures k == sid
    ensures var e := EntryAt(Handle(c, g, k, from, b, hs), sid);
      && e.session.Some? && !Refused(e, e.session.value.peerPubkey)
      && (sid !in g.helloDone ==> e.pending.None?)
  {
    hide DirectSession, RelaySession, SplitBlob;
    if b.HelloAck? {
      AckWakes(c, g, k, from, b.ack, sid);
    } else if b.PeerFound? {
      FoundWakes(c, g, k, from, b.answer, sid);
    }
    hide AfterHelloAck, AfterPeerFound;
  }

  lemma AckWakes(c: Config, g: Inner, k: SessionId, from: Addr, ack: Ack, sid: SessionId)
    requires sid in AfterHelloAck(c, g, k, from, ack).woken && sid !in g.woken
    ensures k == sid && sid in g.helloDone
    ensures var e := EntryAt(AfterHelloAck(c, g, k, from, ack), sid); e.session.Some? && !Refused(e, e.session.value.peerPubkey)
  {
    hide DirectSession;
  }

  lemma FoundWakes(c: Config, g: Inner, k: SessionId, from: Addr, answer: seq<nat>, sid: SessionId)
    requires sid in AfterPeerFound(c, g, k, from, answer).woken && sid !in g.woken
    ensures k == sid
    ensures var e := EntryAt(AfterPeerFound(c, g, k, from, answer), sid); e.session.Some? && e.pending.None? && e.pin.None?
  {
    hide RelaySession, SplitBlob;
  }

  /** States built for a key are keyed against it. */
  lemma AnswerKeyed(call: Call, from: Addr, ack: Ack, blob: seq<nat>, hs: LocalHs)
    ensures var e := DirectSession(call.c, call.sid, S.Initiator, from, ack.pubkey, ack.shown, ack.caps, call.hs);
      AsInitiator(call, e) && e.peerPubkey == ack.pubkey
    ensures SplitBlob(blob).Some? ==>
      var e := RelaySession(call.c, call.sid, S.Initiator, from, blob, call.hs);
      AsInitiator(call, e) && e.peerPubkey == SplitBlob(blob).value.0
    ensures SplitBlob(blob).Some? ==>
      AsResponder(call, RelaySession(call.c, call.sid, S.Responder, from, blob, hs))
  {
    hide SessionHs, SplitBlob, ParseLan;
    if SplitBlob(blob).Some? {
      var (key, theirs, caps) := SplitBlob(blob).value;
      assert RelaySession(call.c, call.sid, S.Initiator, from, blob, call.hs).crypto ==
        SessionHs(call.c.x, call.c.secret, key, S.Initiator, call.sid, call.hs, theirs);
      assert RelaySession(call.c, call.sid, S.Responder, from, blob, hs).crypto ==
        SessionHs(call.c.x, call.c.secret, key, S.Responder, call.sid, hs, theirs);
    }
  }

  /** How an entry of the call may change. */
  ghost predicate Follows(call: Call, e: Entry, e': Entry, visited: bool) {
    EntryOk(call, e', visited) && (ForPin(call, e) ==> ForPin(call, e')) && (e.pending.None? ==> e'.pending.None?)
  }

  lemma AckFollows(call: Call, e: Entry, from: Addr, ack: Ack, visited: bool)
    requires EntryOk(call, e, visited)
    ensures Follows(call, e, AckEntry(call.c, e, call.sid, from, ack), visited)
  {
    AnswerKeyed(call, from, ack, [], call.hs);
    hide AsInitiator, AsResponder, DirectSession;
  }

  lemma FoundFollows(call: Call, e: Entry, from: Addr, answer: seq<nat>, visited: bool)
    requires EntryOk(call, e, visited)
    ensures Follows(call, e, FoundEntry(call.c, e, call.sid, from, answer), visited)
  {
    AnswerKeyed(call, from, Ack(call.pin, PeerHs(call.pin, None), 0), answer, call.hs);
    hide AsInitiator, AsResponder, RelaySession, SplitBlob;
  }

  lemma IncomingFollows(call: Call, e: Entry, from: Addr, hello: seq<nat>, hs: LocalHs, registered: bool, visited: bool)
    requires EntryOk(call, e, visited)
    ensures Follows(call, e, IncomingEntry(call.c, e, call.sid, from, hello, hs, registered), true)
  {
    AnswerKeyed(call, from, Ack(call.pin, PeerHs(call.pin, None), 0), hello, hs);
    hide AsInitiator, AsResponder, RelaySession, SplitBlob;
  }

  /** Whatever arrives under our id, an Incoming included, keeps the entry of the call: unanswered
      with its pin in place, or answered by the pinned key; and a state for the pin stays. */
  lemma OwnDatagram(call: Call, g: Inner, from: Addr, b: Body, hs: LocalHs, visited: bool)
    requires EntryOk(call, EntryAt(g, call.sid), visited)
    ensures var e, e' := EntryAt(g, call.sid), EntryAt(Handle(call.c, g, call.sid, from, b, hs), call.sid);
      && EntryOk(call, e', visited || b.Incoming?)
      && (ForPin(call, e) ==> ForPin(call, e'))
      && (e.pending.None? ==> e'.pending.None?)
  {
    var c, sid, e := call.c, call.sid, EntryAt(g, call.sid);
    assert e.pending.Some? ==> InFlight(g, sid);
    assert e.pending.None? ==> e.session.Some?;
    hide EntryAt, EntryOk, InFlight;
    match b {
      case Hello(key, theirs, caps) =>
        HelloActs(c, g, sid, from, key, theirs, caps, hs, sid);
        assert EntryAt(Handle(c, g, sid, from, b, hs), sid) == e by { hide AfterHello; }
      case HelloAck(ack) =>
        AckActs(c, g, sid, from, ack, sid);
        AckFollows(call, e, from, ack, visited);
      case PeerFound(answer) =>
        FoundActs(c, g, sid, from, answer, sid);
        FoundFollows(call, e, from, answer, visited);
      case Incoming(hello) =>
        IncomingActs(c, g, sid, from, hello, hs, sid);
        IncomingFollows(call, e, from, hello, hs, g.registered, visited);
    }
    hide AfterHello, AfterHelloAck, AfterPeerFound, AfterIncoming, AckEntry, FoundEntry, IncomingEntry;
  }

  lemma OtherDatagram(c: Config, g: Inner, k: SessionId, from: Addr, b: Body, hs: LocalHs, sid: SessionId)
    requires k != sid
    ensures EntryAt(Handle(c, g, k, from, b, hs), sid) == EntryAt(g, sid)
  {
    match b {
      case Hello(key, theirs, caps) => HelloActs(c, g, k, from, key, theirs, caps, hs, sid);
      case HelloAck(ack) => AckActs(c, g, k, from, ack, sid);
      case Incoming(hello) => IncomingActs(c, g, k, from, hello, hs, sid);
      case PeerFound(answer) => FoundActs(c, g, k, from, answer, sid);
    }
    hide EntryAt, AfterHello, AfterHelloAck, AfterPeerFound, AfterIncoming;
  }

  /** Salt and pin are given up together. */
  lemma OwnPaired(call: Call, g: Inner, from: Addr, b: Body, hs: LocalHs, visited: bool)
    requires Paired(call, EntryAt(g, call.sid), visited)
    ensures Paired(call, EntryAt(Handle(call.c, g, call.sid, from, b, hs), call.sid), visited || b.Incoming?)
  {
    var c, sid := call.c, call.sid;
    assert EntryAt(g, sid).pending.Some? ==> InFlight(g, sid);
    hide DirectSession, RelaySession, SplitBlob;
    match b {
      case Hello(key, theirs, caps) => HelloActs(c, g, sid, from, key, theirs, caps, hs, sid);
      case HelloAck(ack) => AckActs(c, g, sid, from, ack, sid);
      case PeerFound(answer) => FoundActs(c, g, sid, from, answer, sid);
      case Incoming(hello) => IncomingActs(c, g, sid, from, hello, hs, sid);
    }
    hide EntryAt, AfterHello, AfterHelloAck, AfterPeerFound, AfterIncoming, InFlight;
  }

  lemma DatagramFlag(call: Call, s: State, k: SessionId, from: Addr, b: Body, hs: LocalHs)
    requires FlagInv(call, s)
    ensures FlagInv(call, Next(call, s, Datagram(k, from, b, hs)))
  {
    hide Refuses, Offends, Raises, Emits;
    if s.phase == Waiting {
      FlagActs(call.c, s.g, k, from, b, hs, call.sid);
      RaisesIffRefuses(call, s.g, b, s.visited);
      assert Lookup(s.g.mismatch, call.sid).Some?;
      if k == call.sid { OwnPaired(call, s.g, from, b, hs, s.visited); } else { OtherDatagram(call.c, s.g, k, from, b, hs, call.sid); }
    }
    hide EntryAt, Handle;
  }

  lemma DatagramKeeps(call: Call, s: State, k: SessionId, from: Addr, b: Body, hs: LocalHs)
    requires Inv(call, s)
    ensures Inv(call, Next(call, s, Datagram(k, from, b, hs)))
  {
    hide EntryOk, Refuses, Offends, Emits;
    var g, sid := s.g, call.sid;
    var g' := Handle(call.c, g, k, from, b, hs);
    HelloDoneStays(call.c, g, k, from, b, hs);
    hide Handle, EntryAt;
    if s.phase == Waiting || s.phase == Settling || s.phase == Connected {
      var v := s.visited || (k == sid && b.Incoming?);
      if k == sid { OwnDatagram(call, g, from, b, hs, s.visited); } else { OtherDatagram(call.c, g, k, from, b, hs, sid); }
      VisitedWeakens(call, EntryAt(g', sid), v);
      if sid in g'.woken && sid !in g.woken {
        NewlyWoken(call.c, g, k, from, b, hs, sid);
        AcceptedIsForPin(call, EntryAt(g', sid), v);
      }
    }
  }

  lemma VisitedWeakens(call: Call, e: Entry, visited: bool)
    requires EntryOk(call, e, visited)
    ensures EntryOk(call, e, true)
  {
    hide AsInitiator, AsResponder;
  }

  lemma AcceptedIsForPin(call: Call, e: Entry, visited: bool)
    requires EntryOk(call, e, visited) && e.session.Some? && !Refused(e, e.session.value.peerPubkey)
    ensures ForPin(call, e)
  {
    hide Held, AsInitiator;
  }

  lemma HelloDoneStays(c: Config, g: Inner, k: SessionId, from: Addr, b: Body, hs: LocalHs)
    ensures Handle(c, g, k, from, b, hs).helloDone == g.helloDone
  {
    hide DirectSession, RelaySession, SplitBlob;
  }

  lemma RerouteHeld(call: Call, e: Session, now: Session, visited: bool)
    requires Held(call, e, visited) && SamePeer(e, now)
    ensures Held(call, now, visited) && (AsInitiator(call, e) ==> AsInitiator(call, now))
  {
    hide SessionHs;
  }

  lemma ReroutedEntry(call: Call, e: Entry, now: Session, visited: bool)
    requires EntryOk(call, e, visited) && e.session.Some? && SamePeer(e.session.value, now)
    ensures EntryOk(call, e.(session := Some(now)), visited)
  {
    RerouteHeld(call, e.session.value, now, visited);
    hide Held, AsInitiator;
  }

  lemma RerouteKeeps(call: Call, s: State, k: SessionId, now: Session)
    requires Inv(call, s)
    ensures Inv(call, Next(call, s, Reroute(k, now)))
  {
    var g, sid := s.g, call.sid;
    ReplaceActs(g, k, now, sid);
    assert EntryAt(g, sid).session == Lookup(g.sessions, sid);
    hide EntryAt, EntryOk;
    if k == sid && sid in g.sessions && SamePeer(g.sessions[sid], now) && (s.phase == Waiting || s.phase == Settling || s.phase == Connected) {
      ReroutedEntry(call, EntryAt(g, sid), now, s.visited);
    }
  }

  lemma RerouteFlag(call: Call, s: State, k: SessionId, now: Session)
    requires FlagInv(call, s)
    ensures FlagInv(call, Next(call, s, Reroute(k, now)))
  {
    ReplaceActs(s.g, k, now, call.sid);
    assert EntryAt(s.g, call.sid).session == Lookup(s.g.sessions, call.sid);
    hide EntryAt, SamePeer;
  }

  /** Other connect calls of the node. */
  lemma OthersAct(call: Call, s: State, step: Step)
    requires step.OtherStart? || step.OtherEnd?
    ensures var r := Next(call, s, step);
      && EntryAt(r.g, call.sid) == EntryAt(s.g, call.sid)
      && (call.sid in r.g.woken <==> call.sid in s.g.woken)
      && (call.sid in r.g.helloDone <==> call.sid in s.g.helloDone)
      && Lookup(r.g.mismatch, call.sid) == Lookup(s.g.mismatch, call.sid)
      && r == s.(g := r.g)
  {
    var g, sid, k := s.g, call.sid, step.k;
    if k != sid {
      if step.OtherStart? { StartActs(g, k, step.hs, step.pin, sid); } else { CleanupActs(g, k, sid); }
    }
    hide EntryAt;
  }

  /** The call's own steps. */
  lemma CallKeeps(call: Call, s: State, step: Step)
    requires Inv(call, s)
    requires step.TimedOut? || step.Woken? || step.Miss? || step.Cancel? || step.Return? || step.Close?
    ensures Inv(call, Next(call, s, step))
  {
    CleanupActs(s.g, call.sid, call.sid);
    assert Sweep(s.g, call.sid).helloDone <= s.g.helloDone && Finish(s.g, call.sid).helloDone <= s.g.helloDone;
    assert DropSession(s.g, call.sid).helloDone == s.g.helloDone;
    hide EntryAt, EntryOk, Sweep, Finish, DropSession;
  }

  lemma CallFlag(call: Call, s: State, step: Step)
    requires FlagInv(call, s)
    requires step.TimedOut? || step.Woken? || step.Miss? || step.Cancel? || step.Return? || step.Close? || step.HandleDropped?
    ensures FlagInv(call, Next(call, s, step))
  {
    CleanupActs(s.g, call.sid, call.sid);
    assert DropSession(s.g, call.sid).mismatch == s.g.mismatch;
    hide EntryAt, Sweep, Finish, DropSession;
  }

  // ---- what a dropped handle takes away ----

  /** The call has its answer: its salt is paired, its waiter woken, or it is past the waiter. */
  predicate Answered(call: Call, s: State) {
    match s.phase
    case Waiting => EntryAt(s.g, call.sid).pending.None? || call.sid in s.g.woken
    case Settling => true
    case Connected => true
    case _ => false
  }

  /** An answered call holds a state for the pinned key. */
  predicate Kept(call: Call, s: State) { Answered(call, s) ==> ForPin(call, EntryAt(s.g, call.sid)) }

  /** A visitor's handle is dropped after the call was answered. */
  predicate Loses(call: Call, s: State, step: Step) { step.HandleDropped? && s.handles > 0 && Answered(call, s) }

  lemma DropKeeps(call: Call, s: State)
    requires Inv(call, s) && !Loses(call, s, HandleDropped)
    ensures Inv(call, Next(call, s, HandleDropped))
  {
    CleanupActs(s.g, call.sid, call.sid);
    assert DropSession(s.g, call.sid).helloDone == s.g.helloDone && DropSession(s.g, call.sid).woken == s.g.woken;
    hide EntryAt, DropSession, Held, AsInitiator;
  }

  lemma DropLoses(call: Call, s: State)
    requires Loses(call, s, HandleDropped)
    ensures !Kept(call, Next(call, s, HandleDropped))
  {
    CleanupActs(s.g, call.sid, call.sid);
    assert DropSession(s.g, call.sid).woken == s.g.woken;
    hide EntryAt, DropSession;
  }

  lemma InvIsKept(call: Call, s: State)
    requires Inv(call, s)
    ensures Kept(call, s)
  {
    hide EntryAt, Held, AsInitiator;
  }

  /** One step, whichever it is: an answered call loses its state exactly by such a drop. */
  lemma KeptIffNotLost(call: Call, s: State, step: Step)
    requires Inv(call, s)
    ensures Kept(call, Next(call, s, step)) <==> !Loses(call, s, step)
    ensures !Loses(call, s, step) ==> Inv(call, Next(call, s, step))
  {
    if Loses(call, s, step) {
      DropLoses(call, s);
    } else {
      NextKeepsInv(call, s, step);
      InvIsKept(call, Next(call, s, step));
    }
    hide Inv, Next, Kept;
  }

  lemma NextKeepsInv(call: Call, s: State, step: Step)
    requires Inv(call, s) && !Loses(call, s, step)
    ensures Inv(call, Next(call, s, step))
  {
    var g, sid := s.g, call.sid;
    match step {
      case Datagram(k, from, b, hs) => DatagramKeeps(call, s, k, from, b, hs);
      case Reroute(k, now) => RerouteKeeps(call, s, k, now);
      case Register(on) =>
        assert EntryAt(g.(registered := on), sid) == EntryAt(g, sid);
      case OtherStart(k, hs, pin, direct) =>
        OthersAct(call, s, step);
        hide Next, EntryAt, EntryOk;
        assert Inv(call, Next(call, s, step));
      case OtherEnd(k) =>
        OthersAct(call, s, step);
        hide Next, EntryAt, EntryOk;
        assert Inv(call, Next(call, s, step));
      case HandleDropped => DropKeeps(call, s);
      case _ => CallKeeps(call, s, step);
    }
    hide Inv, Next;
  }

  lemma NextKeepsFlag(call: Call, s: State, step: Step)
    requires FlagInv(call, s)
    ensures FlagInv(call, Next(call, s, step))
  {
    var g, sid := s.g, call.sid;
    match step {
      case Datagram(k, from, b, hs) => DatagramFlag(call, s, k, from, b, hs);
      case Reroute(k, now) => RerouteFlag(call, s, k, now);
      case Register(on) =>
        assert EntryAt(g.(registered := on), sid) == EntryAt(g, sid);
      case OtherStart(k, hs, pin, direct) =>
        OthersAct(call, s, step);
        hide Next, EntryAt;
        assert FlagInv(call, Next(call, s, step));
      case OtherEnd(k) =>
        OthersAct(call, s, step);
        hide Next, EntryAt;
        assert FlagInv(call, Next(call, s, step));
      case _ => CallFlag(call, s, step);
    }
    hide FlagInv, Next;
  }

  // ---- runs ----

  /** After every step of the run an answered call holds a state for the pinned key. */
  predicate StaysKept(call: Call, s: State, steps: seq<Step>)
    decreases |steps|
  {
    |steps| > 0 ==> Kept(call, Next(call, s, steps[0])) && StaysKept(call, Next(call, s, steps[0]), steps[1..])
  }

  /** No visitor's handle is dropped in the run after the call was answered. */
  predicate NeverLoses(call: Call, s: State, steps: seq<Step>)
    decreases |steps|
  {
    |steps| > 0 ==> !Loses(call, s, steps[0]) && NeverLoses(call, Next(call, s, steps[0]), steps[1..])
  }

  lemma {:induction false} RunKeepsInv(call: Call, s: State, steps: seq<Step>)
    requires Inv(call, s) && NeverLoses(call, s, steps)
    ensures Inv(call, Run(call, s, steps))
    decreases |steps|
  {
    hide Inv, Next, Loses;
    if |steps| > 0 {
      NextKeepsInv(call, s, steps[0]);
      RunKeepsInv(call, Next(call, s, steps[0]), steps[1..]);
    }
  }

  lemma {:induction false} RunKeepsFlag(call: Call, s: State, steps: seq<Step>)
    requires FlagInv(call, s)
    ensures FlagInv(call, Run(call, s, steps))
    decreases |steps|
  {
    hide FlagInv, Next;
    if |steps| > 0 {
      NextKeepsFlag(call, s, steps[0]);
      RunKeepsFlag(call, Next(call, s, steps[0]), steps[1..]);
    }
  }

  lemma {:induction false} StaysKeptFrom(call: Call, s: State, steps: seq<Step>)
    requires Inv(call, s)
    ensures StaysKept(call, s, steps) <==> NeverLoses(call, s, steps)
    decreases |steps|
  {
    hide Inv, Next, Loses, Kept;
    if |steps| > 0 {
      KeptIffNotLost(call, s, steps[0]);
      if !Loses(call, s, steps[0]) { StaysKeptFrom(call, Next(call, s, steps[0]), steps[1..]); }
    }
  }

  /** Without a visitor there is no handle to drop. */
  lemma {:induction false} NoVisitorNoLoss(call: Call, s: State, steps: seq<Step>)
    requires s.handles > 0 ==> s.visited
    ensures s.visited ==> Run(call, s, steps).visited
    ensures !Run(call, s, steps).visited ==> NeverLoses(call, s, steps)
    decreases |steps|
  {
    if |steps| > 0 {
      var r := Next(call, s, steps[0]);
      assert (s.visited ==> r.visited) && (r.handles > 0 ==> r.visited) by { hide Handle, EntryAt, Refuses, Offends; }
      hide Next, Answered;
      NoVisitorNoLoss(call, r, steps[1..]);
    }
  }

  // ---- the theorems ----

  lemma BeginIsOk(call: Call, g: Inner)
    requires Unused(g, call.sid)
    ensures Inv(call, Begin(call, g)) && FlagInv(call, Begin(call, g))
  {
    StartActs(g, call.sid, call.hs, Some(call.pin), call.sid);
    assert Begin(call, g).g.woken == g.woken && Begin(call, g).g.mismatch == g.mismatch[call.sid := false];
    assert !call.direct ==> Begin(call, g).g.helloDone == g.helloDone;
    hide EntryAt, Held, AsInitiator, StartRelay, StartDirect;
  }

  /** The exact condition, over every run with datagrams of any content: an answered call holds a
      state for the pinned key throughout, if and only if no handle that a visitor under its id put
      into the accept queue is dropped after the answer. */
  lemma StaysKeptIff(call: Call, g: Inner, steps: seq<Step>)
    requires Unused(g, call.sid)
    ensures StaysKept(call, Begin(call, g), steps) <==> NeverLoses(call, Begin(call, g), steps)
  {
    BeginIsOk(call, g);
    StaysKeptFrom(call, Begin(call, g), steps);
  }

  /** In such runs, and so in all without a visitor under the id: whenever a pinned connect has
      returned Ok and its Session is not closed, the state under its id exists and was derived
      against exactly the pinned key: with the call's own handshake values for a relayed call, and
      for a direct one unless an Incoming under its id had made a responder state for that same
      key. */
  lemma PinHolds(call: Call, g: Inner, steps: seq<Step>)
    requires Unused(g, call.sid)
    ensures var s := Run(call, Begin(call, g), steps);
      s.phase == Connected && (NeverLoses(call, Begin(call, g), steps) || !s.visited) ==>
        && call.sid in s.g.sessions
        && var e := s.g.sessions[call.sid];
           && e.peerPubkey == call.pin
           && (AsInitiator(call, e) || (call.direct && s.visited && AsResponder(call, e)))
  {
    BeginIsOk(call, g);
    NoVisitorNoLoss(call, Begin(call, g), steps);
    if NeverLoses(call, Begin(call, g), steps) { RunKeepsInv(call, Begin(call, g), steps); }
    hide AsInitiator, AsResponder, Run, Begin, NeverLoses;
  }

  /** In every run, dropped handles included: a pinned connect that times out reports a changed
      identity exactly when the pin turned a datagram away while it was unanswered, and leaves
      nothing behind under its id.  Without a visitor that is: exactly when an answer carried
      another key. */
  lemma GivingUpReports(call: Call, g: Inner, steps: seq<Step>)
    requires Unused(g, call.sid)
    ensures var s := Run(call, Begin(call, g), steps);
      && (s.phase.GaveUp? ==> s.phase.identityChanged == s.refused)
      && (!s.visited ==> s.refused == s.offended)
      && (s.phase == Waiting ==> Next(call, s, TimedOut).phase == GaveUp(s.refused))
      && (s.phase == Waiting ==> EntryAt(Next(call, s, TimedOut).g, call.sid) == Entry(None, None, None))
  {
    BeginIsOk(call, g);
    RunKeepsFlag(call, Begin(call, g), steps);
    hide Inv, Run, Begin;
  }

  // ---- a false alarm ----

  /** An Incoming for another key, then the peer's own HelloAck, then nothing. */
  function AlarmRun(call: Call, from: Addr, hello: seq<nat>, ack: Ack, hs: LocalHs): seq<Step> {
    [Datagram(call.sid, from, Incoming(hello), hs), Datagram(call.sid, from, HelloAck(ack), hs), TimedOut]
  }

  /** The report is not "an answer carried another key": the genuine answer of the pinned peer is
      turned away because of the state an Incoming left, and a changed identity is reported. */
  lemma FalseAlarm(call: Call, g: Inner, from: Addr, hello: seq<nat>, ack: Ack, hs: LocalHs)
    requires Unused(g, call.sid) && g.registered && ack.pubkey == call.pin
    requires SplitBlob(hello).Some? && SplitBlob(hello).value.0 != call.pin
    ensures var s := Run(call, Begin(call, g), AlarmRun(call, from, hello, ack, hs));
      s.phase == GaveUp(true) && s.refused && !s.offended
  {
    hide SplitBlob;
    var steps := AlarmRun(call, from, hello, ack, hs);
    var s0 := Begin(call, g);
    BeginIsOk(call, g);
    StartActs(g, call.sid, call.hs, Some(call.pin), call.sid);
    assert s0.g.registered;
    var s1 := Next(call, s0, steps[0]);
    IncomingActs(call.c, s0.g, call.sid, from, hello, hs, call.sid);
    NextKeepsFlag(call, s0, steps[0]);
    var e := RelaySession(call.c, call.sid, S.Responder, from, hello, hs);
    assert e.peerPubkey == SplitBlob(hello).value.0;
    assert EntryAt(s1.g, call.sid).session == Some(e) && EntryAt(s1.g, call.sid).pending.Some? && s1.phase == Waiting;
    hide RelaySession, EntryAt, Begin, Handle, Inv, FlagInv;
    var s2 := Next(call, s1, steps[1]);
    assert s2.refused && !s2.offended && s2.phase == Waiting;
    NextKeepsFlag(call, s1, steps[1]);
    GiveUpFlag(call, s2);
    RunThree(call, s0, steps);
  }

  lemma GiveUpFlag(call: Call, s: State)
    requires FlagInv(call, s) && s.phase == Waiting
    ensures var r := Next(call, s, TimedOut); r.phase == GaveUp(s.refused) && r.refused == s.refused && r.offended == s.offended
  {
    hide EntryAt;
  }

  lemma RunThree(call: Call, s: State, steps: seq<Step>)
    requires |steps| == 3
    ensures Run(call, s, steps) == Next(call, Next(call, Next(call, s, steps[0]), steps[1]), steps[2])
  {
    hide Next;
    var s1 := Next(call, s, steps[0]);
    assert Run(call, s, steps) == Run(call, s1, steps[1..]);
    var s2 := Next(call, s1, steps[1]);
    assert steps[1..][1..] == steps[2..] && Run(call, s1, steps[1..]) == Run(call, s2, steps[2..]);
    assert steps[2..][1..] == [] && Run(call, s2, steps[2..]) == Run(call, Next(call, s2, steps[2]), []);
  }

  // ---- a call that succeeds ----

  /** The answer, the wake-up, the return. */
  function GoodRun(call: Call, from: Addr, b: Body, hs: LocalHs): seq<Step> {
    [Datagram(call.sid, from, b, hs), Woken, Return]
  }

  /** The pinned peer's HelloAck wakes a direct call, which returns Ok on the state made from it. */
  lemma DirectConnects(call: Call, g: Inner, from: Addr, ack: Ack, hs: LocalHs)
    requires Unused(g, call.sid) && call.direct && ack.pubkey == call.pin
    ensures var s := Run(call, Begin(call, g), GoodRun(call, from, HelloAck(ack), hs));
      && s.phase == Connected && call.sid in s.g.sessions
      && s.g.sessions[call.sid] == DirectSession(call.c, call.sid, S.Initiator, from, call.pin, ack.shown, ack.caps, call.hs)
  {
    hide DirectSession, Refuses, Offends;
    var sid, s0 := call.sid, Begin(call, g);
    StartActs(g, sid, call.hs, Some(call.pin), sid);
    assert sid in s0.g.helloDone && EntryAt(s0.g, sid) == Entry(Some(call.hs), None, Some(call.pin));
    var s1 := Next(call, s0, Datagram(sid, from, HelloAck(ack), hs));
    assert sid in s1.g.woken && s1.phase == Waiting;
    assert sid in s1.g.sessions && s1.g.sessions[sid] == DirectSession(call.c, sid, S.Initiator, from, call.pin, ack.shown, ack.caps, call.hs);
    hide Begin, Handle, EntryAt;
    RunThree(call, s0, GoodRun(call, from, HelloAck(ack), hs));
  }

  /** The pinned peer's PeerFound does the same for a relayed call. */
  lemma RelayedConnects(call: Call, g: Inner, from: Addr, answer: seq<nat>, hs: LocalHs)
    requires Unused(g, call.sid) && !call.direct && SplitBlob(answer).Some? && SplitBlob(answer).value.0 == call.pin
    ensures var s := Run(call, Begin(call, g), GoodRun(call, from, PeerFound(answer), hs));
      && s.phase == Connected && call.sid in s.g.sessions
      && s.g.sessions[call.sid] == RelaySession(call.c, call.sid, S.Initiator, from, answer, call.hs)
  {
    hide RelaySession, SplitBlob, Refuses, Offends;
    var sid, s0 := call.sid, Begin(call, g);
    StartActs(g, sid, call.hs, Some(call.pin), sid);
    assert sid in s0.g.peerFound && EntryAt(s0.g, sid) == Entry(Some(call.hs), None, Some(call.pin));
    var s1 := Next(call, s0, Datagram(sid, from, PeerFound(answer), hs));
    assert sid in s1.g.woken && s1.phase == Waiting;
    assert sid in s1.g.sessions && s1.g.sessions[sid] == RelaySession(call.c, sid, S.Initiator, from, answer, call.hs);
    hide Begin, Handle, EntryAt;
    RunThree(call, s0, GoodRun(call, from, PeerFound(answer), hs));
  }

  // ---- a lost pin ----

  /** A visitor, the genuine answer, the visitor's handle dropped, the visitor again. */
  function LostRun(call: Call, from: Addr, hello: seq<nat>, answer: seq<nat>, hs: LocalHs): seq<Step> {
    [Datagram(call.sid, from, Incoming(hello), hs), Datagram(call.sid, from, PeerFound(answer), hs), Woken,
     HandleDropped, Datagram(call.sid, from, Incoming(hello), hs), Return]
  }

  /** The condition of `PinHolds` is needed: a relayed call returns Ok on a state for another key. */
  lemma LostPin(call: Call, g: Inner, from: Addr, hello: seq<nat>, answer: seq<nat>, hs: LocalHs)
    requires Unused(g, call.sid) && g.registered && !call.direct
    requires SplitBlob(hello).Some? && SplitBlob(hello).value.0 != call.pin
    requires SplitBlob(answer).Some? && SplitBlob(answer).value.0 == call.pin
    ensures var s := Run(call, Begin(call, g), LostRun(call, from, hello, answer, hs));
      s.phase == Connected && call.sid in s.g.sessions && s.g.sessions[call.sid].peerPubkey != call.pin
  {
    var steps, s0 := LostRun(call, from, hello, answer, hs), Begin(call, g);
    LostToHandle(call, g, from, hello, answer, hs);
    var s3 := Next(call, Next(call, Next(call, s0, steps[0]), steps[1]), steps[2]);
    hide SplitBlob, Begin;
    LostFromHandle(call, s3, from, hello, hs);
    RunThree(call, s0, steps[..3]);
    RunThree(call, s3, steps[3..]);
    assert steps == steps[..3] + steps[3..];
    RunSplits(call, s0, steps[..3], steps[3..]);
    hide Next, Run;
  }

  /** Up to the woken waiter, with the visitor's handle in the queue. */
  lemma LostToHandle(call: Call, g: Inner, from: Addr, hello: seq<nat>, answer: seq<nat>, hs: LocalHs)
    requires Unused(g, call.sid) && g.registered && !call.direct
    requires SplitBlob(hello).Some? && SplitBlob(hello).value.0 != call.pin
    requires SplitBlob(answer).Some? && SplitBlob(answer).value.0 == call.pin
    ensures var steps := LostRun(call, from, hello, answer, hs);
      var s := Next(call, Next(call, Next(call, Begin(call, g), steps[0]), steps[1]), steps[2]);
      s.phase == Settling && s.handles == 1 && s.g.registered
  {
    hide RelaySession, SplitBlob, Refuses, Offends;
    var sid, steps, s0 := call.sid, LostRun(call, from, hello, answer, hs), Begin(call, g);
    StartActs(g, sid, call.hs, Some(call.pin), sid);
    assert s0.g.registered && sid in s0.g.peerFound && EntryAt(s0.g, sid) == Entry(Some(call.hs), None, Some(call.pin));
    IncomingActs(call.c, s0.g, sid, from, hello, hs, sid);
    var s1 := Next(call, s0, steps[0]);
    assert s1.handles == 1 && s1.g.registered && sid in s1.g.peerFound && s1.phase == Waiting;
    assert sid in s1.g.pendingSalt && s1.g.expected == s0.g.expected;
    var s2 := Next(call, s1, steps[1]);
    assert sid in s2.g.woken && s2.g.registered && s2.handles == 1 && s2.phase == Waiting;
  }

  lemma LostFromHandle(call: Call, s: State, from: Addr, hello: seq<nat>, hs: LocalHs)
    requires s.phase == Settling && s.handles > 0 && s.g.registered
    requires SplitBlob(hello).Some? && SplitBlob(hello).value.0 != call.pin
    ensures var r := Next(call, Next(call, Next(call, s, HandleDropped), Datagram(call.sid, from, Incoming(hello), hs)), Return);
      r.phase == Connected && call.sid in r.g.sessions && r.g.sessions[call.sid].peerPubkey != call.pin
  {
    var e := RelaySession(call.c, call.sid, S.Responder, from, hello, hs);
    assert e.peerPubkey == SplitBlob(hello).value.0;
    hide RelaySession, SplitBlob, Refuses, Offends, EntryAt;
    var s1 := Next(call, s, HandleDropped);
    assert call.sid !in s1.g.sessions && s1.g.registered && s1.phase == Settling;
    var s2 := Next(call, s1, Datagram(call.sid, from, Incoming(hello), hs));
    assert s2.g.sessions == s1.g.sessions[call.sid := e] && s2.phase == Settling;
  }

  lemma {:induction false} RunSplits(call: Call, s: State, before: seq<Step>, after: seq<Step>)
    ensures Run(call, s, before + after) == Run(call, Run(call, s, before), after)
    decreases |before|
  {
    hide Next;
    if |before| == 0 {
      assert before + after == after;
    } else {
      assert (before + after)[1..] == before[1..] + after;
      RunSplits(call, Next(call, s, before[0]), before[1..], after);
    }
  }
}
