/** Key agreement over whole runs, and a run that shows why its condition is there. */
module Agreement {
  import opened Options
  import S = SecureSession
  import opened Handshake
  import opened Connection
  import opened Entries
  import opened KeyAgreement
  import opened AgreementSteps

  // ---- the theorem ----

  /** In every run, when both nodes hold state for a session id and its responder never threw an
      earlier state away, they hold the same key, channel binding and forward-secrecy flag, each
      against the other's identity. */
  lemma SessionsAgree(ps: Parties, steps: seq<Step>, sid: SessionId)
    requires Sound(ps)
    ensures
      var w := Run(ps, INIT, steps);
      sid in w.a.sessions && sid in w.b.sessions && sid !in w.dropped ==>
        && SameSession(w.a.sessions[sid].crypto, w.b.sessions[sid].crypto)
        && w.a.sessions[sid].crypto.role != w.b.sessions[sid].crypto.role
        && w.a.sessions[sid].peerPubkey == ps.b.Public()
        && w.b.sessions[sid].peerPubkey == ps.a.Public()
  {
    assert Inv(ps, INIT);
    RunKeepsInv(ps, INIT, steps);
    var w := Run(ps, INIT, steps);
    if sid in w.a.sessions && sid in w.b.sessions && sid !in w.dropped {
      assert SidOk(ps, w, sid);
      assert EntryAt(w.a, sid).session.Some? && EntryAt(w.b, sid).session.Some?;
      HeldAgree(ps, sid, w.Started(sid).value, w.MadeFor(sid), w.a.sessions[sid], w.b.sessions[sid]);
    }
  }

  lemma CryptosAgree(ps: Parties, sid: SessionId, st: Start, m: Made)
    requires Sound(ps)
    ensures var c, d := InitiatorCrypto(ps, sid, st, m), ResponderCrypto(ps, sid, st, m);
      SameSession(c, d) && c.role == S.Initiator && d.role == S.Responder
  {
    hide Commutes;
    var c, d := ps.At(st.side), ps.At(Peer(st.side));
    KeysAgree(c.x, c.secret, d.secret, sid, st.hs, m.hs, m.v3, S.Initiator, S.Responder);
  }

  lemma HeldAgree(ps: Parties, sid: SessionId, st: Start, made: seq<Made>, e: Session, f: Session)
    requires Sound(ps) && |made| <= 1
    requires SessionOk(ps, A, sid, st, made, e) && SessionOk(ps, B, sid, st, made, f)
    ensures SameSession(e.crypto, f.crypto) && e.crypto.role != f.crypto.role
  {
    hide InitiatorCrypto, ResponderCrypto, Sound;
    assert made != [];
    var m := made[0];
    CryptosAgree(ps, sid, st, m);
    assert forall k :: k in made ==> k == m;
  }

  // ---- why the responder must not drop its state ----

  /** A connects directly; B answers with h1, A pairs with it, B closes, and a duplicate of the
      first Hello2 makes B create a second state with h2. */
  function DropRun(ps: Parties, sid: SessionId, from: Addr, hs: LocalHs, h1: LocalHs, h2: LocalHs): seq<Step> {
    var hello := Packet(B, sid, Hello(ps.a.Public(), Shown(ps.a.x, hs, true), ps.a.caps));
    var ack := Packet(A, sid, HelloAck(MakeAck(ps.b, h1, true)));
    [ConnectDirect(A, sid, hs, None), Receive(hello, from, h1), Receive(ack, from, h1), Close(B, sid), Receive(hello, from, h2)]
  }

  function Paired(ps: Parties, sid: SessionId, from: Addr, hs: LocalHs, h: LocalHs): Session {
    DirectSession(ps.a, sid, S.Initiator, from, ps.b.Public(), Shown(ps.b.x, h, true), ps.b.caps, hs)
  }

  function Answering(ps: Parties, sid: SessionId, from: Addr, hs: LocalHs, h: LocalHs): Session {
    DirectSession(ps.b, sid, S.Responder, from, ps.a.Public(), Shown(ps.a.x, hs, true), ps.a.caps, h)
  }

  lemma DropRunEnds(ps: Parties, sid: SessionId, from: Addr, hs: LocalHs, h1: LocalHs, h2: LocalHs)
    ensures var w := Run(ps, INIT, DropRun(ps, sid, from, hs, h1, h2));
      && Lookup(w.a.sessions, sid) == Some(Paired(ps, sid, from, hs, h1))
      && Lookup(w.b.sessions, sid) == Some(Answering(ps, sid, from, hs, h2))
  {
    hide DirectSession;
    var steps := DropRun(ps, sid, from, hs, h1, h2);
    var w1 := Next(ps, INIT, steps[0]);
    assert steps[1].p in w1.net && w1.a.pendingSalt == map[sid := hs] && w1.a.expected == map[] && w1.a.sessions == map[];
    assert w1.b == EMPTY;
    var w2 := Next(ps, w1, steps[1]);
    assert w2.a == w1.a && w2.b == EMPTY.(sessions := map[sid := Answering(ps, sid, from, hs, h1)]) && w1.net <= w2.net && steps[2].p in w2.net;
    var w3 := Next(ps, w2, steps[2]);
    assert w3.b == w2.b && w3.a.sessions == map[sid := Paired(ps, sid, from, hs, h1)] && w3.net == w2.net;
    var w4 := Next(ps, w3, steps[3]);
    assert w4.b == EMPTY && w4.a == w3.a && w4.net == w3.net;
    var w5 := Next(ps, w4, steps[4]);
    assert w5.a == w4.a && w5.b.sessions == map[sid := Answering(ps, sid, from, hs, h2)];
    RunFive(ps, INIT, steps);
  }

  lemma RunFive(ps: Parties, w: World, steps: seq<Step>)
    requires |steps| == 5
    ensures Run(ps, w, steps) ==
      Next(ps, Next(ps, Next(ps, Next(ps, Next(ps, w, steps[0]), steps[1]), steps[2]), steps[3]), steps[4])
  {
    hide Next;
    RunTwo(ps, w, steps);
    var w2, s2 := Next(ps, Next(ps, w, steps[0]), steps[1]), steps[2..];
    RunTwo(ps, w2, s2);
    var w4, s4 := Next(ps, Next(ps, w2, s2[0]), s2[1]), s2[2..];
    assert s4[1..] == [] && Run(ps, w4, s4) == Run(ps, Next(ps, w4, s4[0]), []);
  }

  lemma RunTwo(ps: Parties, w: World, steps: seq<Step>)
    requires |steps| >= 2
    ensures Run(ps, w, steps) == Run(ps, Next(ps, Next(ps, w, steps[0]), steps[1]), steps[2..])
  {
    hide Next;
    assert steps[1..][0] == steps[1] && steps[1..][1..] == steps[2..];
  }

  // ---- when keys agree ----

  /** What the key is the digest of, in either version. */
  function KeyInput(x: Suite, secret: Bytes32, key: Bytes32, sid: SessionId, ours: LocalHs, theirs: PeerHs): seq<nat> {
    var (lo, hi) := Sorted(x.pub(secret), key);
    var (slo, shi) := Sorted(ours.salt, theirs.salt);
    if theirs.eph.None? then
      Text("pulsar-session-key-v2") + lo + hi + x.dh(secret, key) + slo + shi + S.BigEndian(sid, 8)
    else
      var (elo, ehi) := Sorted(x.pub(ours.eph), theirs.eph.value);
      Text("pulsar-session-key-v3") + lo + hi + x.dh(secret, key) + elo + ehi + x.dh(ours.eph, theirs.eph.value) + slo + shi + S.BigEndian(sid, 8)
  }

  lemma KeyIsDigest(x: Suite, secret: Bytes32, key: Bytes32, r: S.Role, sid: SessionId, ours: LocalHs, theirs: PeerHs)
    ensures SessionHs(x, secret, key, r, sid, ours, theirs).key == x.hash(KeyInput(x, secret, key, sid, ours, theirs))
    ensures SessionHs(x, secret, key, r, sid, ours, theirs).forwardSecret == theirs.eph.Some?
  {
    hide Sorted, Text, S.BigEndian, LexLe;
  }

  /** Every ingredient can be read off the input at a fixed place. */
  lemma InputLayout(x: Suite, secret: Bytes32, key: Bytes32, sid: SessionId, ours: LocalHs, theirs: PeerHs)
    ensures var t := KeyInput(x, secret, key, sid, ours, theirs);
      && |t| == (if theirs.eph.None? then 189 else 285)
      && Sorted(x.pub(secret), key) == (t[21..53], t[53..85]) && x.dh(secret, key) == t[85..117]
      && S.BigEndian(sid, 8) == t[|t| - 8..]
      && Sorted(ours.salt, theirs.salt) == (t[|t| - 72..|t| - 40], t[|t| - 40..|t| - 8])
      && (theirs.eph.Some? ==>
            Sorted(x.pub(ours.eph), theirs.eph.value) == (t[117..149], t[149..181]) && x.dh(ours.eph, theirs.eph.value) == t[181..213])
  {
    hide Sorted, S.BigEndian, LexLe;
    var t := KeyInput(x, secret, key, sid, ours, theirs);
    var (lo, hi) := Sorted(x.pub(secret), key);
    var (slo, shi) := Sorted(ours.salt, theirs.salt);
    var tail := slo + shi + S.BigEndian(sid, 8);
    var tag := if theirs.eph.None? then Text("pulsar-session-key-v2") else Text("pulsar-session-key-v3");
    var head := tag + lo + hi + x.dh(secret, key);
    assert |tag| == 21;
    hide Text;
    HeadParts(tag, lo, hi, x.dh(secret, key));
    Parts(slo, shi, S.BigEndian(sid, 8));
    if theirs.eph.None? {
      assert t == head + tail;
      LayoutOf(t, head, [], tail);
    } else {
      var (elo, ehi) := Sorted(x.pub(ours.eph), theirs.eph.value);
      var mid := elo + ehi + x.dh(ours.eph, theirs.eph.value);
      assert t == head + mid + tail;
      Parts(elo, ehi, x.dh(ours.eph, theirs.eph.value));
      LayoutOf(t, head, mid, tail);
      MiddleOf(t, head, mid, tail);
    }
  }

  lemma HeadParts(tag: seq<nat>, a: Bytes32, b: Bytes32, c: Bytes32)
    requires |tag| == 21
    ensures var head := tag + a + b + c; |head| == 117 && head[21..53] == a && head[53..85] == b && head[85..117] == c
  { }

  lemma Parts(a: Bytes32, b: Bytes32, c: seq<nat>)
    ensures var s := a + b + c; |s| == 64 + |c| && s[..32] == a && s[32..64] == b && s[64..] == c
  { }

  lemma MiddleOf(t: seq<nat>, head: seq<nat>, mid: seq<nat>, tail: seq<nat>)
    requires t == head + mid + tail && |head| == 117 && |mid| == 96
    ensures t[117..149] == mid[..32] && t[149..181] == mid[32..64] && t[181..213] == mid[64..]
  { }

  lemma LayoutOf(t: seq<nat>, head: seq<nat>, mid: seq<nat>, tail: seq<nat>)
    requires t == head + mid + tail && |head| == 117 && |tail| == 72
    ensures t[21..53] == head[21..53] && t[53..85] == head[53..85] && t[85..117] == head[85..117]
    ensures t[|t| - 72..|t| - 40] == tail[..32] && t[|t| - 40..|t| - 8] == tail[32..64] && t[|t| - 8..] == tail[64..]
    ensures t[117..|t| - 72] == mid
  { }

  /** Equal key inputs come from the same pair of identities, the same session id, the same salts
      and the same version: no two sessions that differ in one of these share an input. */
  lemma KeyInputsSeparate(x: Suite, secret: Bytes32, key: Bytes32, sid: SessionId, ours: LocalHs, theirs: PeerHs,
                          secret': Bytes32, key': Bytes32, sid': SessionId, ours': LocalHs, theirs': PeerHs)
    requires sid < S.U64 && sid' < S.U64
    requires KeyInput(x, secret, key, sid, ours, theirs) == KeyInput(x, secret', key', sid', ours', theirs')
    ensures sid == sid' && theirs.eph.Some? == theirs'.eph.Some?
    ensures Sorted(x.pub(secret), key) == Sorted(x.pub(secret'), key') && x.dh(secret, key) == x.dh(secret', key')
    ensures Sorted(ours.salt, theirs.salt) == Sorted(ours'.salt, theirs'.salt)
    ensures theirs.eph.Some? ==> Sorted(x.pub(ours.eph), theirs.eph.value) == Sorted(x.pub(ours'.eph), theirs'.eph.value)
  {
    InputLayout(x, secret, key, sid, ours, theirs);
    InputLayout(x, secret', key', sid', ours', theirs');
    hide KeyInput, Sorted, S.BigEndian;
    assert S.Pow256(8) == S.U64;
    S.BigEndianInjective(sid, sid', 8);
  }

  /** A sorted pair and one member determine the other. */
  lemma SortedDetermines(a: Bytes32, b: Bytes32, c: Bytes32)
    requires Sorted(a, c) == Sorted(b, c)
    ensures a == b
  {
    hide LexLe;
  }

  /** What the peer is shown of a responder record. */
  function Public(ps: Parties, m: Made): PeerHs { Shown(ps.a.x, m.hs, m.v3) }

  /** The responder's key input for a record. */
  function InputFor(ps: Parties, sid: SessionId, st: Start, m: Made): seq<nat> {
    var c := ps.At(Peer(st.side));
    KeyInput(c.x, c.secret, ps.At(st.side).Public(), sid, m.hs, Shown(c.x, st.hs, m.v3))
  }

  /** Equal inputs come from records that showed the same. */
  lemma InputsSeparate(ps: Parties, sid: SessionId, st: Start, m: Made, n: Made)
    requires Sound(ps) && m.v3 == n.v3 && InputFor(ps, sid, st, m) == InputFor(ps, sid, st, n)
    ensures Public(ps, m) == Public(ps, n)
  {
    hide Commutes;
    var c, key := ps.At(Peer(st.side)), ps.At(st.side).Public();
    var theirs := Shown(c.x, st.hs, m.v3);
    InputLayout(c.x, c.secret, key, sid, m.hs, theirs);
    InputLayout(c.x, c.secret, key, sid, n.hs, theirs);
    hide KeyInput, Sorted;
    SortedDetermines(m.hs.salt, n.hs.salt, theirs.salt);
    if m.v3 { SortedDetermines(c.x.pub(m.hs.eph), c.x.pub(n.hs.eph), theirs.eph.value); }
  }

  /** The initiator paired with record m, the responder holds record n: barring a collision of the
      two inputs they agree exactly when m and n showed the same. */
  lemma AgreeIffSameRecord(ps: Parties, sid: SessionId, st: Start, m: Made, n: Made)
    requires Sound(ps) && NoCollision(ps.a.x, InputFor(ps, sid, st, m), InputFor(ps, sid, st, n))
    ensures SameSession(InitiatorCrypto(ps, sid, st, m), ResponderCrypto(ps, sid, st, n)) <==> Public(ps, m) == Public(ps, n)
  {
    CryptosAgree(ps, sid, st, m);
    CryptosAgree(ps, sid, st, n);
    var c, key := ps.At(Peer(st.side)), ps.At(st.side).Public();
    assert c.x == ps.a.x;
    KeyIsDigest(c.x, c.secret, key, S.Responder, sid, m.hs, Shown(c.x, st.hs, m.v3));
    KeyIsDigest(c.x, c.secret, key, S.Responder, sid, n.hs, Shown(c.x, st.hs, n.v3));
    assert Public(ps, m) == Public(ps, n) ==> InitiatorCrypto(ps, sid, st, m) == InitiatorCrypto(ps, sid, st, n) by {
      assert ps.At(st.side).x == ps.a.x;
      hide SessionHs, Commutes;
    }
    if m.v3 == n.v3 && InputFor(ps, sid, st, m) == InputFor(ps, sid, st, n) { InputsSeparate(ps, sid, st, m, n); }
    hide SessionHs, KeyInput, Commutes, InitiatorCrypto;
  }

  /** In every run, drops included: when both nodes hold a session id, the initiator paired with one
      of the responder's records and the responder holds one of them; barring a collision of their
      two key inputs, the ends agree exactly when the two records showed the same. */
  lemma SessionsAgreeIff(ps: Parties, steps: seq<Step>, sid: SessionId)
    requires Sound(ps)
    ensures
      var w := Run(ps, INIT, steps);
      sid in w.a.sessions && sid in w.b.sessions ==>
        && w.Started(sid).Some?
        && (exists m, n :: HeldRecords(ps, w, sid, m, n))
        && (forall m, n :: HeldRecords(ps, w, sid, m, n) && RecordsApart(ps, w, sid, m, n) ==>
              (SameSession(w.a.sessions[sid].crypto, w.b.sessions[sid].crypto) <==> Public(ps, m) == Public(ps, n)))
  {
    assert Inv(ps, INIT);
    RunKeepsInv(ps, INIT, steps);
    var w := Run(ps, INIT, steps);
    if sid in w.a.sessions && sid in w.b.sessions {
      assert SidOk(ps, w, sid);
      hide Inv, Run;
      var m0, n0 := RecordsOf(ps, w, sid);
      var st := w.Started(sid).value;
      hide SidOk, InitiatorCrypto, ResponderCrypto, InputFor, NoCollision, Sound;
      forall m, n | HeldRecords(ps, w, sid, m, n) && RecordsApart(ps, w, sid, m, n)
        ensures SameSession(w.a.sessions[sid].crypto, w.b.sessions[sid].crypto) <==> Public(ps, m) == Public(ps, n)
      {
        AgreeIffSameRecord(ps, sid, st, m, n);
      }
    }
  }

  /** The key inputs of the two records do not collide. */
  predicate RecordsApart(ps: Parties, w: World, sid: SessionId, m: Made, n: Made)
    requires w.Started(sid).Some?
  {
    NoCollision(ps.a.x, InputFor(ps, sid, w.Started(sid).value, m), InputFor(ps, sid, w.Started(sid).value, n))
  }

  /** m is the record the initiator paired with, n the one the responder holds. */
  ghost predicate HeldRecords(ps: Parties, w: World, sid: SessionId, m: Made, n: Made)
    requires sid in w.a.sessions && sid in w.b.sessions && w.Started(sid).Some?
  {
    var st := w.Started(sid).value;
    var i, j := if st.side == A then w.a.sessions[sid] else w.b.sessions[sid], if st.side == A then w.b.sessions[sid] else w.a.sessions[sid];
    && m in w.MadeFor(sid) && i.crypto == InitiatorCrypto(ps, sid, st, m)
    && n in w.MadeFor(sid) && j.ourHs == n.hs && j.crypto == ResponderCrypto(ps, sid, st, n)
  }

  lemma RecordsOf(ps: Parties, w: World, sid: SessionId) returns (m: Made, n: Made)
    requires SidOk(ps, w, sid) && sid in w.a.sessions && sid in w.b.sessions
    ensures w.Started(sid).Some? && HeldRecords(ps, w, sid, m, n)
  {
    assert EntryAt(w.a, sid).session == Some(w.a.sessions[sid]) && EntryAt(w.b, sid).session == Some(w.b.sessions[sid]);
    var st, made := w.Started(sid).value, w.MadeFor(sid);
    hide EntryAt, InitiatorCrypto, ResponderCrypto;
    var i, j := if st.side == A then w.a.sessions[sid] else w.b.sessions[sid], if st.side == A then w.b.sessions[sid] else w.a.sessions[sid];
    assert SessionOk(ps, st.side, sid, st, made, i) && SessionOk(ps, Peer(st.side), sid, st, made, j);
    m :| m in made && i.crypto == InitiatorCrypto(ps, sid, st, m);
    n :| n in made && j.ourHs == n.hs && j.crypto == ResponderCrypto(ps, sid, st, n);
  }

  /** The condition of `SessionsAgree` is needed: after a drop the two ends can hold the same
      session id under different keys. */
  lemma DropBreaksAgreement(ps: Parties, sid: SessionId, from: Addr, hs: LocalHs, h1: LocalHs, h2: LocalHs)
    requires Sound(ps) && h1.salt != h2.salt
    requires var st := Start(A, hs, false);
      NoCollision(ps.a.x, InputFor(ps, sid, st, Made(h1, true)), InputFor(ps, sid, st, Made(h2, true)))
    ensures var w := Run(ps, INIT, DropRun(ps, sid, from, hs, h1, h2));
      && sid in w.a.sessions && sid in w.b.sessions
      && var c, d := w.a.sessions[sid].crypto, w.b.sessions[sid].crypto;
         && c.key != d.key
         && (NoCollision(ps.a.x, BindingInput(c.key), BindingInput(d.key)) ==> c.binding != d.binding)
  {
    var st, m, n := Start(A, hs, false), Made(h1, true), Made(h2, true);
    DropRunEnds(ps, sid, from, hs, h1, h2);
    AgreeIffSameRecord(ps, sid, st, m, n);
    hide DropRun, Run, SessionHs, NoCollision;
    assert Paired(ps, sid, from, hs, h1).crypto == InitiatorCrypto(ps, sid, st, m);
    assert Answering(ps, sid, from, hs, h2).crypto == ResponderCrypto(ps, sid, st, n);
    SameKeySameSession(ps, sid, st, m, n);
    var c, d := InitiatorCrypto(ps, sid, st, m), ResponderCrypto(ps, sid, st, n);
    if NoCollision(ps.a.x, BindingInput(c.key), BindingInput(d.key)) && c.key != d.key { BindingsApart(ps, sid, st, m, n); }
    hide BindingInput;
  }

  lemma BindingsApart(ps: Parties, sid: SessionId, st: Start, m: Made, n: Made)
    requires Sound(ps)
    requires var c, d := InitiatorCrypto(ps, sid, st, m), ResponderCrypto(ps, sid, st, n);
      c.key != d.key && NoCollision(ps.a.x, BindingInput(c.key), BindingInput(d.key))
    ensures InitiatorCrypto(ps, sid, st, m).binding != ResponderCrypto(ps, sid, st, n).binding
  {
    hide SessionHs, Commutes, BindingInput, NoCollision;
    var c, d := ps.At(st.side), ps.At(Peer(st.side));
    assert c.x == ps.a.x && d.x == ps.a.x;
    BindingsSeparate(c.x, c.secret, d.Public(), S.Initiator, sid, st.hs, Shown(c.x, m.hs, m.v3),
                     d.secret, c.Public(), S.Responder, sid, n.hs, Shown(d.x, st.hs, n.v3));
  }

  /** Two forward-secret ends with one key also have one binding. */
  lemma SameKeySameSession(ps: Parties, sid: SessionId, st: Start, m: Made, n: Made)
    requires Sound(ps) && m.v3 == n.v3
    ensures var c, d := InitiatorCrypto(ps, sid, st, m), ResponderCrypto(ps, sid, st, n); c.key == d.key ==> SameSession(c, d)
  {
    hide Commutes, DeriveKey, DeriveKeyV3;
  }

  // ---- the assumptions can be met ----

  function ToySuite(zero: Bytes32): Suite { Suite(k => k, (a, b) => zero, m => zero) }

  /** There are parties as `SessionsAgree` wants them, for every pair of modes and addresses. */
  lemma SoundPartiesExist(zero: Bytes32, m: Mode, n: Mode, lan: Option<Addr>)
    requires lan.Some? ==> lan.value.port < 65536
    ensures Sound(Parties(Config(ToySuite(zero), zero, m, 0, lan), Config(ToySuite(zero), zero, n, 0, lan)))
  { }
}
