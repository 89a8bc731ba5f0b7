/** The node object: the shared maps its handlers and connect calls update under the lock.  Each
    method is proved against the value function of `Connection`, and says what that means: which
    entries it leaves alone, what a pin lets through, and that an answer always carries the values
    of the state that is held. */
module Nodes {
  import opened Options
  import opened SecureSession
  import opened Handshake
  import opened Connection
  import opened Entries

  /** The fields of a new record that the contracts below speak about. */
  lemma RelaySessionIs(c: Config, sid: SessionId, role: Role, addr: Addr, blob: seq<nat>, hs: LocalHs)
    requires SplitBlob(blob).Some?
    ensures var e := RelaySession(c, sid, role, addr, blob, hs);
      e.ourHs == hs && e.peerPubkey == SplitBlob(blob).value.0 && e.peerCaps == SplitBlob(blob).value.2 && e.peerAddr == addr && e.peerLan == ParseLan(blob)
  { }

  lemma DirectSessionIs(c: Config, sid: SessionId, role: Role, from: Addr, key: Bytes32, theirs: PeerHs, caps: nat, hs: LocalHs)
    ensures var e := DirectSession(c, sid, role, from, key, theirs, caps, hs);
      && e.ourHs == hs && e.peerPubkey == key && e.crypto.forwardSecret == theirs.eph.Some?
      && e.peerAddr == from && e.peerLan.None? && e.peerCaps == caps
  { }

  /** What a punch may do to a session: nothing on a relay-only node or from a stranger; otherwise
      the direct path is proven and the address is one of the candidates, a proven private one
      giving way only to a private one. */
  predicate BetterPath(mode: Mode, s: Session, r: Session, from: Addr) {
    && (mode == RelayOnly || (from != s.peerAddr && Some(from) != s.peerLan) ==> r == s)
    && (mode != RelayOnly && (from == s.peerAddr || Some(from) == s.peerLan) ==> r.directOk)
    && (r.peerAddr == s.peerAddr || Some(r.peerAddr) == s.peerLan)
    && (r.directOk && r.peerAddr != from ==> r == s || (s.directOk && IsPrivateV4(s.peerAddr) && !IsPrivateV4(from)))
    && (s.directOk && IsPrivateV4(s.peerAddr) ==> IsPrivateV4(r.peerAddr))
    && (s.relayPreferred ==> r.transport == s.transport)
    && (r.directOk && !s.directOk && !s.relayPreferred ==> r.transport == Direct)
    && SamePeer(s, r)
  }

  lemma PunchedIsBetter(mode: Mode, s: Session, from: Addr)
    ensures BetterPath(mode, s, if mode == RelayOnly then s else Punched(s, from), from)
  {
    hide IsPrivateV4;
  }

  class Node {
    const c: Config
    var registered: bool
    var sessions: map<SessionId, Session>
    var pendingSalt: map<SessionId, LocalHs>
    var expected: map<SessionId, Bytes32>
    var peerFound: set<SessionId>
    var helloDone: set<SessionId>
    var woken: set<SessionId>
    var mismatch: map<SessionId, bool>

    ghost function State(): Inner
      reads this
    {
      Inner(registered, sessions, pendingSalt, expected, peerFound, helloDone, woken, mismatch)
    }

    constructor (c: Config)
      ensures this.c == c && State() == Inner(false, map[], map[], map[], {}, {}, {}, map[])
    {
      this.c := c;
      registered := false;
      sessions, pendingSalt, expected, mismatch := map[], map[], map[], map[];
      peerFound, helloDone, woken := {}, {}, {};
    }

    /** Check a key against the pin; raise the mismatch flag when they differ. */
    method CheckPin(sid: SessionId, key: Bytes32) returns (ok: bool)
      modifies this`mismatch
      ensures ok == !Pinned(old(State()), sid, key)
      ensures State() == if ok then old(State()) else RaiseMismatch(old(State()), sid)
    {
      ok := !(sid in expected && expected[sid] != key);
      if !ok && sid in mismatch { mismatch := mismatch[sid := true]; }
    }

    method OnPeerFound(sid: SessionId, addr: Addr, answer: seq<nat>)
      modifies this
      ensures State() == AfterPeerFound(c, old(State()), sid, addr, answer)
      ensures forall k :: k != sid ==> EntryAt(State(), k) == old(EntryAt(State(), k))
      ensures old(sid in expected) && sid !in expected ==> sid in sessions && sessions[sid].peerPubkey == old(expected)[sid]
      ensures sid in sessions && (old(sid !in sessions) || sessions[sid] != old(sessions)[sid]) ==>
        old(sid in pendingSalt) && sessions[sid].ourHs == old(pendingSalt)[sid] && sid !in pendingSalt && !Pinned(old(State()), sid, sessions[sid].peerPubkey)
      ensures old(sid in pendingSalt) && sid !in pendingSalt ==>
        sid in sessions && sessions[sid].peerAddr == addr && sessions[sid].peerLan == ParseLan(answer)
      ensures sid in woken <==> old(sid in woken) || (sid in peerFound && old(sid in pendingSalt) && sid !in pendingSalt)
      ensures old(sid in pendingSalt) && sid !in pendingSalt <==> SplitBlob(answer).Some? && old(sid in pendingSalt) && !Pinned(old(State()), sid, SplitBlob(answer).value.0)
      ensures woken - {sid} == old(woken) - {sid}
    {
      hide RelaySession, SplitBlob, ParseLan;
      forall k ensures k != sid ==> EntryAt(AfterPeerFound(c, State(), sid, addr, answer), k) == EntryAt(State(), k) {
        FoundActs(c, State(), sid, addr, answer, k);
      }
      if SplitBlob(answer).Some? && sid in pendingSalt { RelaySessionIs(c, sid, Initiator, addr, answer, pendingSalt[sid]); }
      var parts := SplitBlob(answer);
      if parts.None? { return; }
      var ok := CheckPin(sid, parts.value.0);
      if !ok { return; }
      if sid !in pendingSalt { return; }
      var hs := pendingSalt[sid];
      pendingSalt := pendingSalt - {sid};
      expected := expected - {sid};
      sessions := sessions[sid := RelaySession(c, sid, Initiator, addr, answer, hs)];
      if sid in peerFound { woken := woken + {sid}; }
    }

    method OnIncoming(sid: SessionId, addr: Addr, hello: seq<nat>, hs: LocalHs) returns (answer: Option<seq<nat>>)
      modifies this`sessions
      ensures State() == AfterIncoming(c, old(State()), sid, addr, hello, hs)
      ensures answer == IncomingAnswer(c, old(State()), sid, hello, hs)
      ensures forall k :: k != sid ==> EntryAt(State(), k) == old(EntryAt(State(), k))
      ensures old(sid in sessions) ==> sessions == old(sessions)
      ensures answer.Some? ==> sid in sessions && answer.value == c.BlobFor(sessions[sid].ourHs)
      ensures answer.None? ==> sessions == old(sessions)
      ensures old(sid !in sessions) && sid in sessions ==>
        answer.Some? && SplitBlob(hello).Some? && sessions[sid].ourHs == hs && sessions[sid].peerPubkey == SplitBlob(hello).value.0
        && sessions[sid].peerAddr == addr && sessions[sid].peerLan == ParseLan(hello)
    {
      hide RelaySession, SplitBlob, ParseLan, Blob;
      forall k ensures k != sid ==> EntryAt(AfterIncoming(c, State(), sid, addr, hello, hs), k) == EntryAt(State(), k) {
        IncomingActs(c, State(), sid, addr, hello, hs, k);
      }
      if SplitBlob(hello).Some? { RelaySessionIs(c, sid, Responder, addr, hello, hs); }
      if SplitBlob(hello).None? { return None; }
      if sid in sessions {
        return if registered then Some(c.BlobFor(sessions[sid].ourHs)) else None;
      }
      if !registered { return None; }
      sessions := sessions[sid := RelaySession(c, sid, Responder, addr, hello, hs)];
      answer := Some(c.BlobFor(hs));
    }

    method OnHello(sid: SessionId, from: Addr, key: Bytes32, theirs: PeerHs, caps: nat, hs: LocalHs) returns (answer: Option<Ack>)
      modifies this`sessions
      ensures State() == AfterHello(c, old(State()), sid, from, key, theirs, caps, hs)
      ensures answer == HelloAnswer(c, old(State()), sid, theirs, hs)
      ensures forall k :: k != sid ==> EntryAt(State(), k) == old(EntryAt(State(), k))
      ensures old(sid in sessions || InFlight(State(), sid)) ==> sessions == old(sessions)
      ensures answer.Some? ==> sid in sessions && answer.value == MakeAck(c, sessions[sid].ourHs, sessions[sid].crypto.forwardSecret)
      ensures answer.None? <==> old(InFlight(State(), sid))
      ensures old(sid !in sessions && !InFlight(State(), sid)) ==>
        sid in sessions && sessions[sid].ourHs == hs && sessions[sid].peerPubkey == key && sessions[sid].peerAddr == from && sessions[sid].peerCaps == caps
    {
      hide MakeAck;
      forall k ensures k != sid ==> EntryAt(AfterHello(c, State(), sid, from, key, theirs, caps, hs), k) == EntryAt(State(), k) {
        HelloActs(c, State(), sid, from, key, theirs, caps, hs, k);
      }
      DirectSessionIs(c, sid, Responder, from, key, theirs, caps, hs);
      hide DirectSession;
      if sid in pendingSalt || sid in helloDone { return None; }
      if sid in sessions {
        return Some(MakeAck(c, sessions[sid].ourHs, sessions[sid].crypto.forwardSecret));
      }
      sessions := sessions[sid := DirectSession(c, sid, Responder, from, key, theirs, caps, hs)];
      answer := Some(MakeAck(c, hs, theirs.eph.Some?));
    }

    method OnHelloAck(sid: SessionId, from: Addr, ack: Ack)
      modifies this
      ensures State() == AfterHelloAck(c, old(State()), sid, from, ack)
      ensures forall k :: k != sid ==> EntryAt(State(), k) == old(EntryAt(State(), k))
      ensures old(sid in expected) && sid in sessions ==> sessions[sid].peerPubkey == old(expected)[sid]
      ensures old(sid !in sessions) && sid in sessions ==>
        old(sid in pendingSalt) && sid !in pendingSalt && sessions[sid].ourHs == old(pendingSalt)[sid] && sessions[sid].peerPubkey == ack.pubkey
        && sessions[sid].peerAddr == from && sessions[sid].peerCaps == ack.caps
      ensures sid in woken <==> old(sid in woken) || (sid in helloDone && sid in sessions)
      ensures sid in sessions <==> if old(sid in sessions) then !Pinned(old(State()), sid, old(sessions)[sid].peerPubkey)
        else old(sid in pendingSalt) && !Pinned(old(State()), sid, ack.pubkey)
      ensures woken - {sid} == old(woken) - {sid}
    {
      forall k ensures k != sid ==> EntryAt(AfterHelloAck(c, State(), sid, from, ack), k) == EntryAt(State(), k) {
        AckActs(c, State(), sid, from, ack, k);
      }
      if sid in pendingSalt { DirectSessionIs(c, sid, Initiator, from, ack.pubkey, ack.shown, ack.caps, pendingSalt[sid]); }
      hide DirectSession;
      if sid !in sessions {
        var ok := CheckPin(sid, ack.pubkey);
        if !ok { return; }
        if sid !in pendingSalt { return; }
        var hs := pendingSalt[sid];
        pendingSalt := pendingSalt - {sid};
        expected := expected - {sid};
        sessions := sessions[sid := DirectSession(c, sid, Initiator, from, ack.pubkey, ack.shown, ack.caps, hs)];
      } else {
        var ok := CheckPin(sid, sessions[sid].peerPubkey);
        if !ok {
          sessions := sessions - {sid};
          return;
        }
      }
      if sid in helloDone { woken := woken + {sid}; }
    }

    /** `connect_pinned` up to sending Connect. */
    method BeginRelay(sid: SessionId, hs: LocalHs, pin: Option<Bytes32>)
      modifies this
      ensures State() == StartRelay(old(State()), sid, hs, pin)
      ensures forall k :: k != sid ==> EntryAt(State(), k) == old(EntryAt(State(), k))
    {
      peerFound := peerFound + {sid};
      pendingSalt := pendingSalt[sid := hs];
      if pin.Some? {
        expected := expected[sid := pin.value];
        mismatch := mismatch[sid := false];
      }
    }

    /** `connect_direct` up to sending the Hellos. */
    method BeginDirect(sid: SessionId, hs: LocalHs, pin: Option<Bytes32>)
      modifies this
      ensures State() == StartDirect(old(State()), sid, hs, pin)
      ensures forall k :: k != sid ==> EntryAt(State(), k) == old(EntryAt(State(), k))
      ensures InFlight(State(), sid)
    {
      helloDone := helloDone + {sid};
      pendingSalt := pendingSalt[sid := hs];
      if pin.Some? {
        expected := expected[sid := pin.value];
        mismatch := mismatch[sid := false];
      }
    }

    /** The waiter timed out, or the cancel guard fired: sweep, and say whether the identity
        changed. */
    method GiveUp(sid: SessionId) returns (changed: bool)
      modifies this
      ensures State() == Sweep(old(State()), sid)
      ensures EntryAt(State(), sid) == Entry(None, None, None)
      ensures forall k :: k != sid ==> EntryAt(State(), k) == old(EntryAt(State(), k))
      ensures changed == (sid in old(mismatch) && old(mismatch)[sid])
    {
      changed := sid in mismatch && mismatch[sid];
      peerFound, helloDone, woken := peerFound - {sid}, helloDone - {sid}, woken - {sid};
      mismatch := mismatch - {sid};
      pendingSalt := pendingSalt - {sid};
      expected := expected - {sid};
      sessions := sessions - {sid};
    }

    /** The waiter was notified: the bookkeeping goes, the state stays. */
    method Settle(sid: SessionId) returns (held: bool)
      modifies this
      ensures State() == Finish(old(State()), sid)
      ensures forall k :: EntryAt(State(), k) == old(EntryAt(State(), k))
      ensures held == (sid in sessions)
    {
      peerFound, helloDone, woken := peerFound - {sid}, helloDone - {sid}, woken - {sid};
      mismatch := mismatch - {sid};
      held := sid in sessions;
    }

    method Close(sid: SessionId)
      modifies this`sessions
      ensures State() == DropSession(old(State()), sid)
    {
      sessions := sessions - {sid};
    }

    method OnPunch(sid: SessionId, from: Addr)
      modifies this`sessions
      ensures State() == AfterPunch(c, old(State()), sid, from)
      ensures forall k :: k in sessions <==> k in old(sessions)
      ensures forall k :: k in sessions && k != sid ==> sessions[k] == old(sessions)[k]
      ensures sid in sessions ==> BetterPath(c.mode, old(sessions)[sid], sessions[sid], from)
    {
      hide IsPrivateV4, BetterPath;
      if sid in sessions { PunchedIsBetter(c.mode, sessions[sid], from); }
      if c.mode == RelayOnly { return; }
      if sid in sessions {
        var s := sessions[sid];
        if from == s.peerAddr || Some(from) == s.peerLan {
          if !(s.directOk && IsPrivateV4(s.peerAddr)) || IsPrivateV4(from) {
            s := s.(peerAddr := from);
          }
          s := s.(directOk := true);
          if !s.relayPreferred { s := s.(transport := Direct); }
          sessions := sessions[sid := s];
        } else {
          assert sessions[sid := s] == sessions;
        }
      }
    }
  }
}
