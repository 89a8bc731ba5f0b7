/** Session set-up between two nodes over a network that loses, duplicates and reorders.

    Lost datagrams are those never received; `net` only grows, so any datagram may be received
    any number of times and in any order.  The relay forwards Connect as Incoming and Accept as
    PeerFound.  `started`, `made` and `dropped` are history: who began which session id, which
    responder states were created for it, and whether a responder state was thrown away. */
module KeyAgreement {
  import opened Options
  import S = SecureSession
  import opened Handshake
  import opened Connection
  import opened Entries

  datatype Side = A | B

  function Peer(s: Side): Side { if s == A then B else A }

  datatype Packet = Packet(to: Side, sid: SessionId, body: Body)

  datatype Start = Start(side: Side, hs: LocalHs, relayed: bool)
  datatype Made = Made(hs: LocalHs, v3: bool)

  datatype Parties = Parties(a: Config, b: Config) {
    function At(s: Side): Config { if s == A then a else b }
  }

  datatype World = World(
    a: Inner,
    b: Inner,
    net: set<Packet>,
    started: map<SessionId, Start>,
    made: map<SessionId, seq<Made>>,
    dropped: set<SessionId>)
  {
    function At(s: Side): Inner { if s == A then a else b }

    function With(s: Side, g: Inner): World { if s == A then this.(a := g) else this.(b := g) }

    function Started(sid: SessionId): Option<Start> { Lookup(started, sid) }

    function MadeFor(sid: SessionId): seq<Made> { if sid in made then made[sid] else [] }
  }

  const EMPTY: Inner := Inner(false, map[], map[], map[], {}, {}, {}, map[])
  const INIT: World := World(EMPTY, EMPTY, {}, map[], map[], {})

  datatype Step =
    | Register(s: Side, on: bool)
    | Connect(s: Side, sid: SessionId, hs: LocalHs, pin: Option<Bytes32>)
    | ConnectDirect(s: Side, sid: SessionId, hs: LocalHs, pin: Option<Bytes32>)
    | Receive(p: Packet, from: Addr, hs: LocalHs)    // hs: minted if a responder state is created
    | TimedOut(s: Side, sid: SessionId)
    | Returned(s: Side, sid: SessionId)
    | Close(s: Side, sid: SessionId)                 // the Session handle was dropped
    | Reroute(s: Side, sid: SessionId, now: Session) // any change of path fields

  function Sent(w: World, p: Packet): World { w.(net := w.net + {p}) }

  function Created(w: World, sid: SessionId, m: Made): World {
    w.(made := w.made[sid := w.MadeFor(sid) + [m]])
  }

  function OnHello(ps: Parties, w: World, to: Side, sid: SessionId, from: Addr, key: Bytes32, theirs: PeerHs, caps: nat, hs: LocalHs): World {
    var c, g := ps.At(to), w.At(to);
    var w1 := w.With(to, AfterHello(c, g, sid, from, key, theirs, caps, hs));
    var w2 := if InFlight(g, sid) || sid in g.sessions then w1 else Created(w1, sid, Made(hs, theirs.eph.Some?));
    var answer := HelloAnswer(c, g, sid, theirs, hs);
    if answer.Some? then Sent(w2, Packet(Peer(to), sid, HelloAck(answer.value))) else w2
  }

  function OnIncoming(ps: Parties, w: World, to: Side, sid: SessionId, from: Addr, hello: seq<nat>, hs: LocalHs): World {
    var c, g := ps.At(to), w.At(to);
    var w1 := w.With(to, AfterIncoming(c, g, sid, from, hello, hs));
    var w2 := if SplitBlob(hello).None? || sid in g.sessions || !g.registered then w1
      else Created(w1, sid, Made(hs, SplitBlob(hello).value.1.eph.Some?));
    var answer := IncomingAnswer(c, g, sid, hello, hs);
    if answer.Some? then Sent(w2, Packet(Peer(to), sid, PeerFound(answer.value))) else w2
  }

  function OnReceive(ps: Parties, w: World, p: Packet, from: Addr, hs: LocalHs): World {
    match p.body
    case Hello(key, theirs, caps) => OnHello(ps, w, p.to, p.sid, from, key, theirs, caps, hs)
    case HelloAck(ack) => w.With(p.to, AfterHelloAck(ps.At(p.to), w.At(p.to), p.sid, from, ack))
    case Incoming(hello) => OnIncoming(ps, w, p.to, p.sid, from, hello, hs)
    case PeerFound(answer) => w.With(p.to, AfterPeerFound(ps.At(p.to), w.At(p.to), p.sid, from, answer))
  }

  predicate StartedBy(w: World, s: Side, sid: SessionId) { sid in w.started && w.started[sid].side == s }

  function Next(ps: Parties, w: World, step: Step): World {
    match step
    case Register(s, on) => w.With(s, w.At(s).(registered := on))
    case Connect(s, sid, hs, pin) =>
      if sid in w.started || !w.At(s).registered then w
      else
        Sent(w.With(s, StartRelay(w.At(s), sid, hs, pin)).(started := w.started[sid := Start(s, hs, true)]),
             Packet(Peer(s), sid, Incoming(ps.At(s).BlobFor(hs))))
    case ConnectDirect(s, sid, hs, pin) =>
      if sid in w.started then w
      else
        var c := ps.At(s);
        Sent(Sent(w.With(s, StartDirect(w.At(s), sid, hs, pin)).(started := w.started[sid := Start(s, hs, false)]),
                  Packet(Peer(s), sid, Hello(c.Public(), Shown(c.x, hs, true), c.caps))),
             Packet(Peer(s), sid, Hello(c.Public(), Shown(c.x, hs, false), 0)))
    case Receive(p, from, hs) => if p in w.net then OnReceive(ps, w, p, from, hs) else w
    case TimedOut(s, sid) => if StartedBy(w, s, sid) then w.With(s, Sweep(w.At(s), sid)) else w
    case Returned(s, sid) => if StartedBy(w, s, sid) then w.With(s, Finish(w.At(s), sid)) else w
    case Close(s, sid) =>
      var w' := w.With(s, DropSession(w.At(s), sid));
      if sid in w.At(s).sessions && !StartedBy(w, s, sid) then w'.(dropped := w.dropped + {sid}) else w'
    case Reroute(s, sid, now) =>
      if sid in w.At(s).sessions && SamePeer(w.At(s).sessions[sid], now) then
        w.With(s, w.At(s).(sessions := w.At(s).sessions[sid := now]))
      else w
  }

  function Run(ps: Parties, w: World, steps: seq<Step>): World
    decreases |steps|
  {
    if |steps| == 0 then w else Run(ps, Next(ps, w, steps[0]), steps[1..])
  }

  /** One crypto suite whose Diffie-Hellman commutes, and real port numbers. */
  ghost predicate Sound(ps: Parties) {
    && ps.a.x == ps.b.x
    && Commutes(ps.a.x)
    && forall s: Side :: ps.At(s).lan.Some? ==> ps.At(s).lan.value.port < 65536
  }

  // ---- what every step keeps ----

  /** The initiator's state: keyed against the peer's public values in m. */
  function InitiatorCrypto(ps: Parties, sid: SessionId, st: Start, m: Made): Crypto {
    var c := ps.At(st.side);
    SessionHs(c.x, c.secret, ps.At(Peer(st.side)).Public(), S.Initiator, sid, st.hs, Shown(c.x, m.hs, m.v3))
  }

  function ResponderCrypto(ps: Parties, sid: SessionId, st: Start, m: Made): Crypto {
    var c := ps.At(Peer(st.side));
    SessionHs(c.x, c.secret, ps.At(st.side).Public(), S.Responder, sid, m.hs, Shown(c.x, st.hs, m.v3))
  }

  ghost predicate SessionOk(ps: Parties, s: Side, sid: SessionId, st: Start, made: seq<Made>, e: Session) {
    && e.peerPubkey == ps.At(Peer(s)).Public()
    && if st.side == s then
         exists m :: m in made && e.crypto == InitiatorCrypto(ps, sid, st, m)
       else
         exists m :: m in made && e.ourHs == m.hs && e.crypto == ResponderCrypto(ps, sid, st, m)
  }

  ghost predicate BodyOk(ps: Parties, to: Side, st: Start, made: seq<Made>, body: Body) {
    var c, d := ps.At(st.side), ps.At(Peer(st.side));
    match body
    case Hello(key, theirs, caps) =>
      to == Peer(st.side) && !st.relayed && key == c.Public() && theirs == Shown(c.x, st.hs, theirs.eph.Some?)
    case HelloAck(ack) =>
      to == st.side && ack.pubkey == d.Public() && exists m :: m in made && ack.shown == Shown(c.x, m.hs, m.v3)
    case Incoming(hello) =>
      to == Peer(st.side) && st.relayed && hello == c.BlobFor(st.hs)
    case PeerFound(answer) =>
      to == st.side && st.relayed && exists m :: m in made && answer == d.BlobFor(m.hs)
  }

  /** Everything known about one session id at one node. */
  ghost predicate EntryOk(ps: Parties, s: Side, sid: SessionId, e: Entry, st: Option<Start>, made: seq<Made>) {
    && (e.pending.Some? ==> st.Some? && st.value.side == s && e.pending.value == st.value.hs)
    && (e.session.Some? ==> st.Some? && SessionOk(ps, s, sid, st.value, made, e.session.value))
    && (e.pin.Some? ==> st.Some? && st.value.side == s)
  }

  ghost predicate PacketOk(ps: Parties, w: World, p: Packet) {
    w.Started(p.sid).Some? && BodyOk(ps, p.to, w.Started(p.sid).value, w.MadeFor(p.sid), p.body)
  }

  /** The responder's entry for sid holds a session. */
  predicate Held(w: World, sid: SessionId, st: Start) { EntryAt(w.At(Peer(st.side)), sid).session.Some? }

  /** Relayed sessions always exchange ephemeral keys; unless dropped, a responder state is
      created once and kept. */
  ghost predicate MadeOk(st: Option<Start>, made: seq<Made>, dropped: bool, held: bool) {
    && (made != [] ==> st.Some?)
    && (st.Some? && st.value.relayed ==> forall m :: m in made ==> m.v3)
    && (!dropped ==> |made| <= 1 && (made != [] ==> held))
  }

  ghost predicate SidOk(ps: Parties, w: World, sid: SessionId) {
    var st := w.Started(sid);
    && EntryOk(ps, A, sid, EntryAt(w.a, sid), st, w.MadeFor(sid))
    && EntryOk(ps, B, sid, EntryAt(w.b, sid), st, w.MadeFor(sid))
    && MadeOk(st, w.MadeFor(sid), sid in w.dropped, st.Some? && Held(w, sid, st.value))
  }

  ghost predicate Inv(ps: Parties, w: World) {
    && (forall sid: SessionId :: SidOk(ps, w, sid))
    && (forall p :: p in w.net ==> PacketOk(ps, w, p))
  }

  // ---- monotonicity ----

  ghost predicate Grows(made: seq<Made>, made': seq<Made>) { forall m :: m in made ==> m in made' }

  lemma SessionStays(ps: Parties, s: Side, sid: SessionId, st: Start, made: seq<Made>, made': seq<Made>, e: Session)
    requires SessionOk(ps, s, sid, st, made, e) && Grows(made, made')
    ensures SessionOk(ps, s, sid, st, made', e)
  {
    hide InitiatorCrypto, ResponderCrypto;
  }

  lemma BodyStays(ps: Parties, to: Side, st: Start, made: seq<Made>, made': seq<Made>, body: Body)
    requires BodyOk(ps, to, st, made, body) && Grows(made, made')
    ensures BodyOk(ps, to, st, made', body)
  {
    hide Shown;
  }

  // ---- the handlers, one by one ----

  /** A responder state built from a genuine first message, and the answer it sends. */
  lemma HelloCreates(ps: Parties, sid: SessionId, st: Start, made: seq<Made>, from: Addr, b: Body, hs: LocalHs)
    requires Sound(ps) && b.Hello? && BodyOk(ps, Peer(st.side), st, made, b)
    ensures var c, m := ps.At(Peer(st.side)), Made(hs, b.theirs.eph.Some?);
      && SessionOk(ps, Peer(st.side), sid, st, made + [m],
                   DirectSession(c, sid, S.Responder, from, b.key, b.theirs, b.caps, hs))
      && BodyOk(ps, st.side, st, made + [m], HelloAck(MakeAck(c, hs, m.v3)))
  {
    var m := Made(hs, b.theirs.eph.Some?);
    assert m in made + [m];
    hide SessionHs, Shown;
  }

  lemma IncomingCreates(ps: Parties, sid: SessionId, st: Start, made: seq<Made>, from: Addr, b: Body, hs: LocalHs)
    requires Sound(ps) && b.Incoming? && BodyOk(ps, Peer(st.side), st, made, b)
    ensures SplitBlob(b.hello).Some? && SplitBlob(b.hello).value.1.eph.Some?
    ensures var c, m := ps.At(Peer(st.side)), Made(hs, true);
      && SessionOk(ps, Peer(st.side), sid, st, made + [m], RelaySession(c, sid, S.Responder, from, b.hello, hs))
      && BodyOk(ps, st.side, st, made + [m], PeerFound(c.BlobFor(hs)))
  {
    var c, d, m := ps.At(st.side), ps.At(Peer(st.side)), Made(hs, true);
    BlobRoundTrip(c.Public(), st.hs.salt, c.x.pub(st.hs.eph), c.caps, c.lan);
    assert m in made + [m];
    hide SessionHs, Blob, SplitBlob, ParseLan;
  }

  /** A repeated first message is answered with the values already committed to. */
  lemma Reanswered(ps: Parties, sid: SessionId, st: Start, made: seq<Made>, e: Session)
    requires Sound(ps) && SessionOk(ps, Peer(st.side), sid, st, made, e)
    ensures BodyOk(ps, st.side, st, made, HelloAck(MakeAck(ps.At(Peer(st.side)), e.ourHs, e.crypto.forwardSecret)))
    ensures st.relayed ==> BodyOk(ps, st.side, st, made, PeerFound(ps.At(Peer(st.side)).BlobFor(e.ourHs)))
  {
    var m :| m in made && e.ourHs == m.hs && e.crypto == ResponderCrypto(ps, sid, st, m);
    assert e.crypto.forwardSecret == m.v3;
    hide SessionHs, Blob, ResponderCrypto, Commutes;
  }

  lemma AckPairs(ps: Parties, sid: SessionId, st: Start, made: seq<Made>, from: Addr, ack: Ack)
    requires Sound(ps) && BodyOk(ps, st.side, st, made, HelloAck(ack))
    ensures SessionOk(ps, st.side, sid, st, made,
                      DirectSession(ps.At(st.side), sid, S.Initiator, from, ack.pubkey, ack.shown, ack.caps, st.hs))
  {
    hide SessionHs, Shown;
  }

  lemma FoundPairs(ps: Parties, sid: SessionId, st: Start, made: seq<Made>, from: Addr, answer: seq<nat>)
    requires Sound(ps) && BodyOk(ps, st.side, st, made, PeerFound(answer)) && forall m :: m in made ==> m.v3
    ensures SplitBlob(answer).Some?
    ensures SessionOk(ps, st.side, sid, st, made, RelaySession(ps.At(st.side), sid, S.Initiator, from, answer, st.hs))
  {
    var c, d := ps.At(st.side), ps.At(Peer(st.side));
    var m :| m in made && answer == d.BlobFor(m.hs);
    BlobRoundTrip(d.Public(), m.hs.salt, d.x.pub(m.hs.eph), d.caps, d.lan);
    assert SplitBlob(answer).value.1 == Shown(c.x, m.hs, m.v3);
    hide SessionHs, Blob, SplitBlob, ParseLan, Shown;
  }
}
