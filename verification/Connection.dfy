/** A node's session table and the datagram handlers that drive it.  Each handler runs under the
    node lock for one datagram at a time, so it is one atomic step.

    `Inner` is the table as a value, with one function per handler. */
module Connection {
  import opened Options
  import opened SecureSession
  import opened Handshake

  type SessionId = nat

  datatype Transport = Direct | Relay
  datatype Mode = Auto | P2pOnly | RelayOnly

  datatype Session = Session(
    peerAddr: Addr,
    peerLan: Option<Addr>,
    crypto: Crypto,
    peerPubkey: Bytes32,
    transport: Transport,
    directOk: bool,
    ourHs: LocalHs,
    peerCaps: nat,
    pathChecked: bool,
    relayPreferred: bool,
    measureOnDirect: bool)

  /** Identity, mode and advertised capabilities: fixed for the life of a node. */
  datatype Config = Config(x: Suite, secret: Bytes32, mode: Mode, caps: nat, lan: Option<Addr>) {
    function Public(): Bytes32 { x.pub(secret) }

    function BlobFor(hs: LocalHs): seq<nat> {
      Blob(Public(), hs.salt, x.pub(hs.eph), caps, lan)
    }
  }

  /** The shared maps.  A waiter is a connect call blocked in `peerFound` or `helloDone`; `woken`
      holds the ids whose waiter was notified.  `mismatch` holds a flag for every pinned connect
      still waiting, raised when an answer carried another key. */
  datatype Inner = Inner(
    registered: bool,
    sessions: map<SessionId, Session>,
    pendingSalt: map<SessionId, LocalHs>,
    expected: map<SessionId, Bytes32>,
    peerFound: set<SessionId>,
    helloDone: set<SessionId>,
    woken: set<SessionId>,
    mismatch: map<SessionId, bool>)

  // ---- session records ----

  /** A rendezvous session: starts on the relay, may upgrade to a punched path. */
  function RelaySession(c: Config, sid: SessionId, role: Role, addr: Addr, blob: seq<nat>, hs: LocalHs): Session
    requires SplitBlob(blob).Some?
  {
    var (key, theirs, caps) := SplitBlob(blob).value;
    Session(addr, ParseLan(blob), SessionHs(c.x, c.secret, key, role, sid, hs, theirs), key, Relay,
            false, hs, caps, false, false, role == Responder)
  }

  /** A direct-IP session: the typed address is the path, there is no relay to compare with. */
  function DirectSession(c: Config, sid: SessionId, role: Role, from: Addr, key: Bytes32, theirs: PeerHs, caps: nat, hs: LocalHs): Session {
    Session(from, None, SessionHs(c.x, c.secret, key, role, sid, hs, theirs), key, Direct,
            false, hs, caps, true, false, false)
  }

  /** Only path fields differ. */
  predicate SamePeer(s: Session, t: Session) {
    s.crypto == t.crypto && s.ourHs == t.ourHs && s.peerPubkey == t.peerPubkey
  }

  // ---- the handlers, on values ----

  function Pinned(g: Inner, sid: SessionId, key: Bytes32): bool {
    sid in g.expected && g.expected[sid] != key
  }

  function RaiseMismatch(g: Inner, sid: SessionId): Inner {
    if sid in g.mismatch then g.(mismatch := g.mismatch[sid := true]) else g
  }

  function AfterPeerFound(c: Config, g: Inner, sid: SessionId, addr: Addr, answer: seq<nat>): Inner {
    if SplitBlob(answer).None? then g
    else if Pinned(g, sid, SplitBlob(answer).value.0) then RaiseMismatch(g, sid)
    else if sid !in g.pendingSalt then g
    else
      g.(pendingSalt := g.pendingSalt - {sid},
         expected := g.expected - {sid},
         sessions := g.sessions[sid := RelaySession(c, sid, Initiator, addr, answer, g.pendingSalt[sid])],
         woken := if sid in g.peerFound then g.woken + {sid} else g.woken)
  }

  function AfterIncoming(c: Config, g: Inner, sid: SessionId, addr: Addr, hello: seq<nat>, hs: LocalHs): Inner {
    if SplitBlob(hello).None? || sid in g.sessions || !g.registered then g
    else g.(sessions := g.sessions[sid := RelaySession(c, sid, Responder, addr, hello, hs)])
  }

  /** The Accept answer, if one is sent. */
  function IncomingAnswer(c: Config, g: Inner, sid: SessionId, hello: seq<nat>, hs: LocalHs): Option<seq<nat>> {
    if SplitBlob(hello).None? || !g.registered then None
    else if sid in g.sessions then Some(c.BlobFor(g.sessions[sid].ourHs))
    else Some(c.BlobFor(hs))
  }

  /** One of our outbound connects owns this id. */
  predicate InFlight(g: Inner, sid: SessionId) { sid in g.pendingSalt || sid in g.helloDone }

  function AfterHello(c: Config, g: Inner, sid: SessionId, from: Addr, key: Bytes32, theirs: PeerHs, caps: nat, hs: LocalHs): Inner {
    if InFlight(g, sid) || sid in g.sessions then g
    else g.(sessions := g.sessions[sid := DirectSession(c, sid, Responder, from, key, theirs, caps, hs)])
  }

  /** HelloAck2 carries the ephemeral key, the legacy HelloAck does not. */
  datatype Ack = Ack(pubkey: Bytes32, shown: PeerHs, caps: nat)

  function MakeAck(c: Config, hs: LocalHs, v3: bool): Ack {
    Ack(c.Public(), Shown(c.x, hs, v3), if v3 then c.caps else 0)
  }

  function HelloAnswer(c: Config, g: Inner, sid: SessionId, theirs: PeerHs, hs: LocalHs): Option<Ack> {
    if InFlight(g, sid) then None
    else if sid in g.sessions then
      Some(MakeAck(c, g.sessions[sid].ourHs, g.sessions[sid].crypto.forwardSecret))
    else Some(MakeAck(c, hs, theirs.eph.Some?))
  }

  function AfterHelloAck(c: Config, g: Inner, sid: SessionId, from: Addr, ack: Ack): Inner {
    var wake := if sid in g.helloDone then g.woken + {sid} else g.woken;
    if sid !in g.sessions then
      if Pinned(g, sid, ack.pubkey) then RaiseMismatch(g, sid)
      else if sid !in g.pendingSalt then g
      else
        g.(pendingSalt := g.pendingSalt - {sid},
           expected := g.expected - {sid},
           sessions := g.sessions[sid := DirectSession(c, sid, Initiator, from, ack.pubkey, ack.shown, ack.caps, g.pendingSalt[sid])],
           woken := wake)
    else if Pinned(g, sid, g.sessions[sid].peerPubkey) then
      RaiseMismatch(g.(sessions := g.sessions - {sid}), sid)
    else g.(woken := wake)
  }

  /** A punch or its ack arrived from `from`: adopt that path if it is one of the candidates. */
  function Punched(s: Session, from: Addr): Session {
    if from != s.peerAddr && Some(from) != s.peerLan then s
    else
      s.(peerAddr := if !(s.directOk && IsPrivateV4(s.peerAddr)) || IsPrivateV4(from) then from else s.peerAddr,
         directOk := true,
         transport := if s.relayPreferred then s.transport else Direct)
  }

  function AfterPunch(c: Config, g: Inner, sid: SessionId, from: Addr): Inner {
    if c.mode == RelayOnly || sid !in g.sessions then g
    else g.(sessions := g.sessions[sid := Punched(g.sessions[sid], from)])
  }

  // ---- dispatch ----

  datatype Body =
    | Hello(key: Bytes32, theirs: PeerHs, caps: nat)   // Hello has no ephemeral key, Hello2 has
    | HelloAck(ack: Ack)
    | Incoming(hello: seq<nat>)
    | PeerFound(answer: seq<nat>)

  /** One datagram about session id sid, from address `from`; hs is what the node would mint. */
  function Handle(c: Config, g: Inner, sid: SessionId, from: Addr, b: Body, hs: LocalHs): Inner {
    match b
    case Hello(key, theirs, caps) => AfterHello(c, g, sid, from, key, theirs, caps, hs)
    case HelloAck(ack) => AfterHelloAck(c, g, sid, from, ack)
    case Incoming(hello) => AfterIncoming(c, g, sid, from, hello, hs)
    case PeerFound(answer) => AfterPeerFound(c, g, sid, from, answer)
  }

  // ---- the connect calls, one lock section at a time ----

  function StartRelay(g: Inner, sid: SessionId, hs: LocalHs, pin: Option<Bytes32>): Inner {
    g.(peerFound := g.peerFound + {sid},
       pendingSalt := g.pendingSalt[sid := hs],
       expected := if pin.Some? then g.expected[sid := pin.value] else g.expected,
       mismatch := if pin.Some? then g.mismatch[sid := false] else g.mismatch)
  }

  function StartDirect(g: Inner, sid: SessionId, hs: LocalHs, pin: Option<Bytes32>): Inner {
    g.(helloDone := g.helloDone + {sid},
       pendingSalt := g.pendingSalt[sid := hs],
       expected := if pin.Some? then g.expected[sid := pin.value] else g.expected,
       mismatch := if pin.Some? then g.mismatch[sid := false] else g.mismatch)
  }

  /** Everything the timeout path (or the cancel guard) sweeps. */
  function Sweep(g: Inner, sid: SessionId): Inner {
    g.(peerFound := g.peerFound - {sid}, helloDone := g.helloDone - {sid}, woken := g.woken - {sid},
       mismatch := g.mismatch - {sid}, pendingSalt := g.pendingSalt - {sid}, expected := g.expected - {sid},
       sessions := g.sessions - {sid})
  }

  /** The waiter returned in time: only the waiter bookkeeping goes. */
  function Finish(g: Inner, sid: SessionId): Inner {
    g.(peerFound := g.peerFound - {sid}, helloDone := g.helloDone - {sid}, woken := g.woken - {sid},
       mismatch := g.mismatch - {sid})
  }

  function DropSession(g: Inner, sid: SessionId): Inner { g.(sessions := g.sessions - {sid}) }
}
