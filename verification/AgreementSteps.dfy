/** One step of `KeyAgreement` keeps its invariant: the step's own session id by the handler
    lemmas, every other id because a step leaves it alone. */
module AgreementSteps {
  import opened Options
  import S = SecureSession
  import opened Handshake
  import opened Connection
  import opened Entries
  import opened KeyAgreement

  // ---- one step ----

  function SidOf(step: Step): Option<SessionId> {
    match step
    case Register(s, on) => None
    case Receive(p, from, hs) => Some(p.sid)
    case Connect(s, sid, hs, pin) => Some(sid)
    case ConnectDirect(s, sid, hs, pin) => Some(sid)
    case TimedOut(s, sid) => Some(sid)
    case Returned(s, sid) => Some(sid)
    case Close(s, sid) => Some(sid)
    case Reroute(s, sid, now) => Some(sid)
  }

  predicate SameHistory(w: World, w': World, sid: SessionId) {
    w.Started(sid) == w'.Started(sid) && w.MadeFor(sid) == w'.MadeFor(sid) && (sid in w.dropped <==> sid in w'.dropped)
  }

  predicate SameSid(w: World, w': World, sid: SessionId) {
    && EntryAt(w.a, sid) == EntryAt(w'.a, sid)
    && EntryAt(w.b, sid) == EntryAt(w'.b, sid)
    && SameHistory(w, w', sid)
  }

  lemma SameStaysOk(ps: Parties, w: World, w': World, sid: SessionId)
    requires SidOk(ps, w, sid) && SameSid(w, w', sid)
    ensures SidOk(ps, w', sid)
  {
    hide EntryOk, EntryAt, MadeOk;
  }

  lemma WithSame(w: World, s: Side, g: Inner, sid: SessionId)
    requires EntryAt(g, sid) == EntryAt(w.At(s), sid)
    ensures SameSid(w, w.With(s, g), sid)
  {
    hide EntryAt;
  }

  /** A step leaves every other session id alone. */
  lemma HelloIsLocal(ps: Parties, w: World, to: Side, k: SessionId, from: Addr, key: Bytes32, theirs: PeerHs, caps: nat, hs: LocalHs, sid: SessionId)
    requires k != sid
    ensures SameSid(w, OnHello(ps, w, to, k, from, key, theirs, caps, hs), sid)
  {
    HelloActs(ps.At(to), w.At(to), k, from, key, theirs, caps, hs, sid);
    hide AfterHello, HelloAnswer, EntryAt, InFlight;
  }

  lemma IncomingIsLocal(ps: Parties, w: World, to: Side, k: SessionId, from: Addr, hello: seq<nat>, hs: LocalHs, sid: SessionId)
    requires k != sid
    ensures SameSid(w, OnIncoming(ps, w, to, k, from, hello, hs), sid)
  {
    IncomingActs(ps.At(to), w.At(to), k, from, hello, hs, sid);
    hide AfterIncoming, IncomingAnswer, EntryAt, SplitBlob;
  }

  lemma ReceiveIsLocal(ps: Parties, w: World, p: Packet, from: Addr, hs: LocalHs, sid: SessionId)
    requires p.sid != sid
    ensures SameSid(w, OnReceive(ps, w, p, from, hs), sid)
  {
    var c, g := ps.At(p.to), w.At(p.to);
    match p.body {
      case Hello(key, theirs, caps) => HelloIsLocal(ps, w, p.to, p.sid, from, key, theirs, caps, hs, sid);
      case HelloAck(ack) =>
        AckActs(c, g, p.sid, from, ack, sid);
        WithSame(w, p.to, AfterHelloAck(c, g, p.sid, from, ack), sid);
      case Incoming(hello) => IncomingIsLocal(ps, w, p.to, p.sid, from, hello, hs, sid);
      case PeerFound(answer) =>
        FoundActs(c, g, p.sid, from, answer, sid);
        WithSame(w, p.to, AfterPeerFound(c, g, p.sid, from, answer), sid);
    }
    hide AfterHelloAck, AfterPeerFound, OnHello, OnIncoming, SameSid;
  }

  lemma ConnectIsLocal(ps: Parties, w: World, step: Step, sid: SessionId)
    requires (step.Connect? || step.ConnectDirect?) && step.sid != sid
    ensures SameSid(w, Next(ps, w, step), sid)
  {
    StartActs(w.At(step.s), step.sid, step.hs, step.pin, sid);
    hide Shown, EntryAt, StartRelay, StartDirect, Blob;
  }

  lemma CleanupIsLocal(ps: Parties, w: World, step: Step, sid: SessionId)
    requires (step.TimedOut? || step.Returned? || step.Close?) && step.sid != sid
    ensures SameSid(w, Next(ps, w, step), sid)
  {
    var g := w.At(step.s);
    CleanupActs(g, step.sid, sid);
    WithSame(w, step.s, if step.TimedOut? then Sweep(g, step.sid) else if step.Returned? then Finish(g, step.sid) else DropSession(g, step.sid), sid);
    hide EntryAt, Sweep, Finish, DropSession;
  }

  lemma RerouteIsLocal(ps: Parties, w: World, s: Side, k: SessionId, now: Session, sid: SessionId)
    requires k != sid
    ensures SameSid(w, Next(ps, w, Reroute(s, k, now)), sid)
  {
    ReplaceActs(w.At(s), k, now, sid);
    WithSame(w, s, w.At(s).(sessions := w.At(s).sessions[k := now]), sid);
    hide EntryAt, SamePeer;
  }

  lemma OthersUntouched(ps: Parties, w: World, step: Step, sid: SessionId)
    requires SidOf(step) != Some(sid)
    ensures SameSid(w, Next(ps, w, step), sid)
  {
    match step {
      case Register(s, on) =>
        assert EntryAt(w.At(s).(registered := on), sid) == EntryAt(w.At(s), sid);
      case Connect(s, k, hs, pin) => ConnectIsLocal(ps, w, step, sid);
      case ConnectDirect(s, k, hs, pin) => ConnectIsLocal(ps, w, step, sid);
      case Receive(p, from, hs) =>
        ReceiveIsLocal(ps, w, p, from, hs, sid);
        hide OnReceive, EntryAt;
        assert SameSid(w, Next(ps, w, step), sid);
      case Reroute(s, k, now) => RerouteIsLocal(ps, w, s, k, now, sid);
      case _ => CleanupIsLocal(ps, w, step, sid);
    }
    hide Next, SameSid;
  }

  /** Starts are never forgotten and responder records never removed. */
  ghost predicate Later(w: World, w': World, sid: SessionId) {
    && (w.Started(sid).Some? ==> w'.Started(sid) == w.Started(sid))
    && Grows(w.MadeFor(sid), w'.MadeFor(sid))
  }

  lemma ReceiveGrows(ps: Parties, w: World, p: Packet, from: Addr, hs: LocalHs)
    ensures Later(w, OnReceive(ps, w, p, from, hs), p.sid)
  {
    hide AfterHello, AfterHelloAck, AfterIncoming, AfterPeerFound, HelloAnswer, IncomingAnswer, SplitBlob, InFlight;
  }

  lemma HistoryGrows(ps: Parties, w: World, step: Step, sid: SessionId)
    ensures Later(w, Next(ps, w, step), sid)
  {
    if SidOf(step) != Some(sid) {
      OthersUntouched(ps, w, step, sid);
      hide Next, EntryAt;
    } else if step.Receive? && step.p in w.net {
      ReceiveGrows(ps, w, step.p, step.from, step.hs);
      hide OnReceive, Later;
      assert Later(w, Next(ps, w, step), sid);
    } else {
      hide OnReceive, EntryAt, StartRelay, StartDirect, Sweep, Finish, DropSession, SamePeer, Shown, Blob;
      assert Later(w, Next(ps, w, step), sid);
    }
  }

  lemma PacketStays(ps: Parties, w: World, w': World, p: Packet)
    requires PacketOk(ps, w, p) && Later(w, w', p.sid)
    ensures PacketOk(ps, w', p)
  {
    hide BodyOk;
    BodyStays(ps, p.to, w.Started(p.sid).value, w.MadeFor(p.sid), w'.MadeFor(p.sid), p.body);
  }

  /** What one step must establish for its own session id. */
  ghost predicate StepOk(ps: Parties, w: World, w': World, sid: SessionId) {
    SidOk(ps, w', sid) && forall p :: p in w'.net && p !in w.net ==> PacketOk(ps, w', p)
  }

  /** A new session id: nothing was known about it. */
  lemma StartKeeps(ps: Parties, w: World, w': World, s: Side, sid: SessionId, hs: LocalHs, relayed: bool)
    requires SidOk(ps, w, sid) && w.Started(sid).None? && w'.Started(sid) == Some(Start(s, hs, relayed))
    requires w'.MadeFor(sid) == w.MadeFor(sid) && w'.At(Peer(s)) == w.At(Peer(s))
    requires EntryAt(w'.At(s), sid).pending == Some(hs) && EntryAt(w'.At(s), sid).session == EntryAt(w.At(s), sid).session
    ensures SidOk(ps, w', sid) && w'.MadeFor(sid) == []
  {
    hide SessionOk, EntryAt;
  }

  lemma ConnectKeeps(ps: Parties, w: World, s: Side, sid: SessionId, hs: LocalHs, pin: Option<Bytes32>)
    requires SidOk(ps, w, sid)
    ensures StepOk(ps, w, Next(ps, w, Connect(s, sid, hs, pin)), sid)
  {
    var w' := Next(ps, w, Connect(s, sid, hs, pin));
    if w' != w {
      StartActs(w.At(s), sid, hs, pin, sid);
      hide StartRelay, EntryAt, SidOk, Blob;
      StartKeeps(ps, w, w', s, sid, hs, true);
    }
  }

  lemma ConnectDirectKeeps(ps: Parties, w: World, s: Side, sid: SessionId, hs: LocalHs, pin: Option<Bytes32>)
    requires SidOk(ps, w, sid)
    ensures StepOk(ps, w, Next(ps, w, ConnectDirect(s, sid, hs, pin)), sid)
  {
    var w' := Next(ps, w, ConnectDirect(s, sid, hs, pin));
    if w' != w {
      StartActs(w.At(s), sid, hs, pin, sid);
      hide StartDirect, EntryAt, SidOk;
      StartKeeps(ps, w, w', s, sid, hs, false);
    }
  }

  /** The responder made a state m for sid, and nothing else changed. */
  lemma CreatedKeeps(ps: Parties, w: World, w': World, sid: SessionId, st: Start, m: Made, made: seq<Made>, e: Session)
    requires SidOk(ps, w, sid) && w.Started(sid) == Some(st) && w'.Started(sid) == Some(st) && w'.dropped == w.dropped
    requires made == w.MadeFor(sid) + [m] && w'.MadeFor(sid) == made
    requires SessionOk(ps, Peer(st.side), sid, st, made, e) && (st.relayed ==> m.v3)
    requires EntryAt(w.At(Peer(st.side)), sid).session.None?
    requires EntryAt(w'.At(Peer(st.side)), sid) == EntryAt(w.At(Peer(st.side)), sid).(session := Some(e))
    requires w'.At(st.side) == w.At(st.side)
    ensures SidOk(ps, w', sid)
  {
    var f := EntryAt(w.At(st.side), sid);
    if f.session.Some? { SessionStays(ps, st.side, sid, st, w.MadeFor(sid), made, f.session.value); }
    hide SessionOk, EntryAt;
  }

  lemma Announced(ps: Parties, w: World, w': World, sid: SessionId, p: Packet)
    requires SidOk(ps, w', sid) && w'.net <= w.net + {p} && PacketOk(ps, w', p)
    ensures StepOk(ps, w, w', sid)
  {
    hide SidOk, PacketOk;
  }

  /** A repeat adds at most a packet with the values already committed to. */
  lemma RepeatKeeps(ps: Parties, w: World, w': World, sid: SessionId, p: Packet)
    requires SidOk(ps, w, sid) && SameSid(w, w', sid) && w'.net <= w.net + {p}
    requires p in w'.net ==> p.sid == sid && PacketOk(ps, w, p)
    ensures StepOk(ps, w, w', sid)
  {
    SameStaysOk(ps, w, w', sid);
    hide SidOk, BodyOk, EntryAt;
  }

  lemma HelloRepeats(ps: Parties, w: World, p: Packet, from: Addr, hs: LocalHs)
    requires Sound(ps) && p.body.Hello? && SidOk(ps, w, p.sid) && PacketOk(ps, w, p)
    requires InFlight(w.At(p.to), p.sid) || p.sid in w.At(p.to).sessions
    ensures StepOk(ps, w, OnReceive(ps, w, p, from, hs), p.sid)
  {
    var b, sid, c, g := p.body, p.sid, ps.At(p.to), w.At(p.to);
    var st, made := w.Started(sid).value, w.MadeFor(sid);
    assert p.to == Peer(st.side);
    hide Sound, BodyOk, Shown, SessionOk;
    var w' := OnReceive(ps, w, p, from, hs);
    assert EntryAt(g, sid).session == Lookup(g.sessions, sid);
    if !InFlight(g, sid) { Reanswered(ps, sid, st, made, g.sessions[sid]); }
    HelloActs(c, g, sid, from, b.key, b.theirs, b.caps, hs, sid);
    hide SidOk, AfterHello, EntryAt, InFlight, MakeAck;
    if InFlight(g, sid) {
      RepeatKeeps(ps, w, w', sid, p);
    } else {
      var ack := MakeAck(c, g.sessions[sid].ourHs, g.sessions[sid].crypto.forwardSecret);
      RepeatKeeps(ps, w, w', sid, Packet(st.side, sid, HelloAck(ack)));
    }
  }

  lemma HelloKeeps(ps: Parties, w: World, p: Packet, from: Addr, hs: LocalHs)
    requires Sound(ps) && p.body.Hello? && SidOk(ps, w, p.sid) && PacketOk(ps, w, p)
    ensures StepOk(ps, w, OnReceive(ps, w, p, from, hs), p.sid)
  {
    var b, sid, c, g := p.body, p.sid, ps.At(p.to), w.At(p.to);
    if InFlight(g, sid) || sid in g.sessions {
      HelloRepeats(ps, w, p, from, hs);
      hide StepOk;
    } else {
      var st, made := w.Started(sid).value, w.MadeFor(sid);
      assert p.to == Peer(st.side) && !st.relayed;
      hide Sound, BodyOk, DirectSession, Shown, SessionOk, SidOk;
      HelloActs(c, g, sid, from, b.key, b.theirs, b.caps, hs, sid);
      HelloCreates(ps, sid, st, made, from, b, hs);
      assert EntryAt(g, sid).session.None?;
      var m := Made(hs, b.theirs.eph.Some?);
      hide AfterHello, EntryAt, InFlight, MakeAck;
      var w' := OnReceive(ps, w, p, from, hs);
      CreatedKeeps(ps, w, w', sid, st, m, made + [m], DirectSession(c, sid, S.Responder, from, b.key, b.theirs, b.caps, hs));
      Announced(ps, w, w', sid, Packet(st.side, sid, HelloAck(MakeAck(c, hs, m.v3))));
      hide StepOk;
    }
  }

  lemma IncomingRepeats(ps: Parties, w: World, p: Packet, from: Addr, hs: LocalHs)
    requires Sound(ps) && p.body.Incoming? && SidOk(ps, w, p.sid) && PacketOk(ps, w, p)
    requires !w.At(p.to).registered || p.sid in w.At(p.to).sessions
    ensures StepOk(ps, w, OnReceive(ps, w, p, from, hs), p.sid)
  {
    var b, sid, c, g := p.body, p.sid, ps.At(p.to), w.At(p.to);
    var st, made := w.Started(sid).value, w.MadeFor(sid);
    assert p.to == Peer(st.side) && st.relayed;
    hide Sound, BodyOk, RelaySession, Blob, SplitBlob, Shown, SessionOk;
    var w' := OnReceive(ps, w, p, from, hs);
    assert EntryAt(g, sid).session == Lookup(g.sessions, sid);
    if sid in g.sessions { Reanswered(ps, sid, st, made, g.sessions[sid]); }
    IncomingActs(c, g, sid, from, b.hello, hs, sid);
    hide SidOk, AfterIncoming, EntryAt;
    if g.registered {
      RepeatKeeps(ps, w, w', sid, Packet(st.side, sid, PeerFound(c.BlobFor(g.sessions[sid].ourHs))));
    } else {
      RepeatKeeps(ps, w, w', sid, p);
    }
  }

  /** The world after a first Incoming. */
  lemma IncomingWorld(ps: Parties, w: World, p: Packet, from: Addr, hs: LocalHs)
    requires p.body.Incoming? && SplitBlob(p.body.hello).Some? && SplitBlob(p.body.hello).value.1.eph.Some?
    requires w.At(p.to).registered && p.sid !in w.At(p.to).sessions
    ensures var w', c, e := OnReceive(ps, w, p, from, hs), ps.At(p.to), EntryAt(w.At(p.to), p.sid);
      && w'.Started(p.sid) == w.Started(p.sid) && w'.dropped == w.dropped
      && w'.MadeFor(p.sid) == w.MadeFor(p.sid) + [Made(hs, true)]
      && w'.At(Peer(p.to)) == w.At(Peer(p.to))
      && w'.net == w.net + {Packet(Peer(p.to), p.sid, PeerFound(c.BlobFor(hs)))}
      && e.session.None?
      && EntryAt(w'.At(p.to), p.sid) == e.(session := Some(RelaySession(c, p.sid, S.Responder, from, p.body.hello, hs)))
  {
    hide RelaySession, SplitBlob, Blob;
    assert EntryAt(w.At(p.to), p.sid).session.None?;
    IncomingActs(ps.At(p.to), w.At(p.to), p.sid, from, p.body.hello, hs, p.sid);
    hide AfterIncoming, EntryAt;
  }

  lemma IncomingKeeps(ps: Parties, w: World, p: Packet, from: Addr, hs: LocalHs)
    requires Sound(ps) && p.body.Incoming? && SidOk(ps, w, p.sid) && PacketOk(ps, w, p)
    ensures StepOk(ps, w, OnReceive(ps, w, p, from, hs), p.sid)
  {
    var b, sid, c, g := p.body, p.sid, ps.At(p.to), w.At(p.to);
    if !g.registered || sid in g.sessions {
      IncomingRepeats(ps, w, p, from, hs);
      hide StepOk;
    } else {
      var st, made := w.Started(sid).value, w.MadeFor(sid);
      assert p.to == Peer(st.side) && st.relayed;
      hide Sound, BodyOk, RelaySession, Blob, SplitBlob, SessionOk, SidOk, OnReceive, EntryAt;
      var m := Made(hs, true);
      var w' := OnReceive(ps, w, p, from, hs);
      IncomingCreates(ps, sid, st, made, from, b, hs);
      IncomingWorld(ps, w, p, from, hs);
      CreatedKeeps(ps, w, w', sid, st, m, made + [m], RelaySession(c, sid, S.Responder, from, b.hello, hs));
      Announced(ps, w, w', sid, Packet(st.side, sid, PeerFound(c.BlobFor(hs))));
      hide StepOk;
    }
  }

  /** Only the entry at the initiator changed. */
  lemma InitiatorKeeps(ps: Parties, w: World, w': World, sid: SessionId, st: Start)
    requires SidOk(ps, w, sid) && w.Started(sid) == Some(st) && SameHistory(w, w', sid)
    requires w'.At(Peer(st.side)) == w.At(Peer(st.side))
    requires EntryOk(ps, st.side, sid, EntryAt(w'.At(st.side), sid), Some(st), w.MadeFor(sid))
    ensures SidOk(ps, w', sid)
  {
    hide EntryOk, EntryAt, MadeOk;
  }

  lemma AckKeeps(ps: Parties, w: World, p: Packet, from: Addr, hs: LocalHs)
    requires Sound(ps) && p.body.HelloAck? && SidOk(ps, w, p.sid) && PacketOk(ps, w, p)
    ensures StepOk(ps, w, OnReceive(ps, w, p, from, hs), p.sid)
  {
    var sid, c, g := p.sid, ps.At(p.to), w.At(p.to);
    var st, made := w.Started(sid).value, w.MadeFor(sid);
    assert p.to == st.side;
    AckPairs(ps, sid, st, made, from, p.body.ack);
    AckActs(c, g, sid, from, p.body.ack, sid);
    assert EntryOk(ps, st.side, sid, EntryAt(g, sid), Some(st), made);
    hide SidOk, SessionOk, DirectSession, BodyOk, EntryAt, AfterHelloAck;
    InitiatorKeeps(ps, w, OnReceive(ps, w, p, from, hs), sid, st);
  }

  lemma FoundKeeps(ps: Parties, w: World, p: Packet, from: Addr, hs: LocalHs)
    requires Sound(ps) && p.body.PeerFound? && SidOk(ps, w, p.sid) && PacketOk(ps, w, p)
    ensures StepOk(ps, w, OnReceive(ps, w, p, from, hs), p.sid)
  {
    var sid, c, g := p.sid, ps.At(p.to), w.At(p.to);
    var st, made := w.Started(sid).value, w.MadeFor(sid);
    assert p.to == st.side && st.relayed;
    FoundPairs(ps, sid, st, made, from, p.body.answer);
    FoundActs(c, g, sid, from, p.body.answer, sid);
    assert EntryOk(ps, st.side, sid, EntryAt(g, sid), Some(st), made);
    hide SidOk, SessionOk, RelaySession, BodyOk, EntryAt, AfterPeerFound, SplitBlob;
    InitiatorKeeps(ps, w, OnReceive(ps, w, p, from, hs), sid, st);
  }

  lemma SamePeerOk(ps: Parties, s: Side, sid: SessionId, st: Start, made: seq<Made>, e: Session, now: Session)
    requires SessionOk(ps, s, sid, st, made, e) && SamePeer(e, now)
    ensures SessionOk(ps, s, sid, st, made, now)
  {
    hide InitiatorCrypto, ResponderCrypto;
  }

  lemma RerouteKeeps(ps: Parties, w: World, s: Side, sid: SessionId, now: Session)
    requires SidOk(ps, w, sid)
    ensures StepOk(ps, w, Next(ps, w, Reroute(s, sid, now)), sid)
  {
    var g := w.At(s);
    if sid in g.sessions && SamePeer(g.sessions[sid], now) {
      ReplaceActs(g, sid, now, sid);
      assert EntryAt(g, sid).session == Some(g.sessions[sid]);
      hide SidOk, EntryAt;
      ReplacedKeeps(ps, w, Next(ps, w, Reroute(s, sid, now)), s, sid, now);
    }
  }

  lemma ReplacedKeeps(ps: Parties, w: World, w': World, s: Side, sid: SessionId, now: Session)
    requires SidOk(ps, w, sid) && SameHistory(w, w', sid) && w'.At(Peer(s)) == w.At(Peer(s))
    requires var e := EntryAt(w.At(s), sid);
      e.session.Some? && SamePeer(e.session.value, now) && EntryAt(w'.At(s), sid) == e.(session := Some(now))
    ensures SidOk(ps, w', sid)
  {
    SamePeerOk(ps, s, sid, w.Started(sid).value, w.MadeFor(sid), EntryAt(w.At(s), sid).session.value, now);
    hide SessionOk, SamePeer, EntryAt;
  }

  lemma CleanupKeeps(ps: Parties, w: World, step: Step)
    requires step.TimedOut? || step.Returned?
    requires SidOk(ps, w, step.sid)
    ensures StepOk(ps, w, Next(ps, w, step), step.sid)
  {
    var s, sid := step.s, step.sid;
    CleanupActs(w.At(s), sid, sid);
    if StartedBy(w, s, sid) {
      var st := w.Started(sid).value;
      assert st.side == s && EntryOk(ps, s, sid, EntryAt(w.At(s), sid), Some(st), w.MadeFor(sid));
      hide SidOk, SessionOk, EntryAt, Sweep, Finish;
      InitiatorKeeps(ps, w, Next(ps, w, step), sid, st);
    }
  }

  lemma CloseKeeps(ps: Parties, w: World, s: Side, sid: SessionId)
    requires SidOk(ps, w, sid)
    ensures StepOk(ps, w, Next(ps, w, Close(s, sid)), sid)
  {
    CleanupActs(w.At(s), sid, sid);
    assert sid in w.At(s).sessions <==> EntryAt(w.At(s), sid).session.Some?;
    assert StartedBy(w, s, sid) <==> w.Started(sid).Some? && w.Started(sid).value.side == s;
    hide SidOk, EntryAt, DropSession;
    var w' := Next(ps, w, Close(s, sid));
    assert w'.net == w.net && w'.Started(sid) == w.Started(sid) && w'.MadeFor(sid) == w.MadeFor(sid);
    ClosedKeeps(ps, w, w', s, sid);
  }

  /** The state at s is gone; when s was the responder that is recorded. */
  lemma ClosedKeeps(ps: Parties, w: World, w': World, s: Side, sid: SessionId)
    requires SidOk(ps, w, sid) && w'.Started(sid) == w.Started(sid) && w'.MadeFor(sid) == w.MadeFor(sid)
    requires w'.At(Peer(s)) == w.At(Peer(s)) && EntryAt(w'.At(s), sid) == EntryAt(w.At(s), sid).(session := None)
    requires sid in w.dropped ==> sid in w'.dropped
    requires EntryAt(w.At(s), sid).session.Some? && !(w.Started(sid).Some? && w.Started(sid).value.side == s) ==> sid in w'.dropped
    ensures SidOk(ps, w', sid)
  {
    hide SessionOk, EntryAt;
  }

  lemma OwnSidKeeps(ps: Parties, w: World, step: Step)
    requires Sound(ps) && Inv(ps, w) && SidOf(step).Some?
    ensures StepOk(ps, w, Next(ps, w, step), SidOf(step).value)
  {
    assert SidOk(ps, w, SidOf(step).value);
    match step {
      case Connect(s, sid, hs, pin) => ConnectKeeps(ps, w, s, sid, hs, pin);
      case ConnectDirect(s, sid, hs, pin) => ConnectDirectKeeps(ps, w, s, sid, hs, pin);
      case Receive(p, from, hs) =>
        if p in w.net {
          match p.body {
            case Hello(_, _, _) => HelloKeeps(ps, w, p, from, hs);
            case HelloAck(_) => AckKeeps(ps, w, p, from, hs);
            case Incoming(_) => IncomingKeeps(ps, w, p, from, hs);
            case PeerFound(_) => FoundKeeps(ps, w, p, from, hs);
          }
        }
        assert Next(ps, w, step) == if p in w.net then OnReceive(ps, w, p, from, hs) else w;
      case Reroute(s, sid, now) => RerouteKeeps(ps, w, s, sid, now);
      case Close(s, sid) => CloseKeeps(ps, w, s, sid);
      case _ => CleanupKeeps(ps, w, step);
    }
    hide SidOk, PacketOk, OnReceive, Sound, Next;
  }

  lemma NextKeepsInv(ps: Parties, w: World, step: Step)
    requires Sound(ps) && Inv(ps, w)
    ensures Inv(ps, Next(ps, w, step))
  {
    var w' := Next(ps, w, step);
    if SidOf(step).Some? { OwnSidKeeps(ps, w, step); } else { assert w'.net == w.net; }
    hide SidOk, PacketOk, Next, Sound;
    forall sid: SessionId ensures SidOk(ps, w', sid) {
      if SidOf(step) != Some(sid) {
        OthersUntouched(ps, w, step, sid);
        SameStaysOk(ps, w, w', sid);
      }
    }
    forall p | p in w'.net ensures PacketOk(ps, w', p) {
      if p in w.net {
        HistoryGrows(ps, w, step, p.sid);
        PacketStays(ps, w, w', p);
      }
    }
  }

  lemma {:induction false} RunKeepsInv(ps: Parties, w: World, steps: seq<Step>)
    requires Sound(ps) && Inv(ps, w)
    ensures Inv(ps, Run(ps, w, steps))
    decreases |steps|
  {
    hide Inv, Sound, Next;
    if |steps| > 0 {
      NextKeepsInv(ps, w, steps[0]);
      RunKeepsInv(ps, Next(ps, w, steps[0]), steps[1..]);
    }
  }
}
