/** The session table seen one session id at a time: a handler acts on the entry of its own id
    and on no other. */
module Entries {
  import opened Options
  import S = SecureSession
  import opened Handshake
  import opened Connection

  datatype Entry = Entry(pending: Option<LocalHs>, session: Option<Session>, pin: Option<Bytes32>)

  function Lookup<V>(m: map<SessionId, V>, sid: SessionId): Option<V> { if sid in m then Some(m[sid]) else None }

  function EntryAt(g: Inner, sid: SessionId): Entry {
    Entry(Lookup(g.pendingSalt, sid), Lookup(g.sessions, sid), Lookup(g.expected, sid))
  }

  function Refused(e: Entry, key: Bytes32): bool { e.pin.Some? && e.pin.value != key }

  function HelloEntry(c: Config, e: Entry, sid: SessionId, from: Addr, key: Bytes32, theirs: PeerHs, caps: nat, hs: LocalHs, busy: bool): Entry {
    if busy || e.session.Some? then e
    else e.(session := Some(DirectSession(c, sid, S.Responder, from, key, theirs, caps, hs)))
  }

  function AckEntry(c: Config, e: Entry, sid: SessionId, from: Addr, ack: Ack): Entry {
    if e.session.Some? then
      if Refused(e, e.session.value.peerPubkey) then e.(session := None) else e
    else if Refused(e, ack.pubkey) || e.pending.None? then e
    else Entry(None, Some(DirectSession(c, sid, S.Initiator, from, ack.pubkey, ack.shown, ack.caps, e.pending.value)), None)
  }

  function IncomingEntry(c: Config, e: Entry, sid: SessionId, addr: Addr, hello: seq<nat>, hs: LocalHs, registered: bool): Entry {
    if SplitBlob(hello).None? || e.session.Some? || !registered then e
    else e.(session := Some(RelaySession(c, sid, S.Responder, addr, hello, hs)))
  }

  function FoundEntry(c: Config, e: Entry, sid: SessionId, addr: Addr, answer: seq<nat>): Entry {
    if SplitBlob(answer).None? || Refused(e, SplitBlob(answer).value.0) || e.pending.None? then e
    else Entry(None, Some(RelaySession(c, sid, S.Initiator, addr, answer, e.pending.value)), None)
  }

  lemma HelloActs(c: Config, g: Inner, sid: SessionId, from: Addr, key: Bytes32, theirs: PeerHs, caps: nat, hs: LocalHs, k: SessionId)
    ensures EntryAt(AfterHello(c, g, sid, from, key, theirs, caps, hs), k) ==
      if k == sid then HelloEntry(c, EntryAt(g, sid), sid, from, key, theirs, caps, hs, InFlight(g, sid)) else EntryAt(g, k)
  {
    hide DirectSession;
  }

  lemma AckActs(c: Config, g: Inner, sid: SessionId, from: Addr, ack: Ack, k: SessionId)
    ensures EntryAt(AfterHelloAck(c, g, sid, from, ack), k) ==
      if k == sid then AckEntry(c, EntryAt(g, sid), sid, from, ack) else EntryAt(g, k)
  {
    hide DirectSession;
  }

  lemma IncomingActs(c: Config, g: Inner, sid: SessionId, addr: Addr, hello: seq<nat>, hs: LocalHs, k: SessionId)
    ensures EntryAt(AfterIncoming(c, g, sid, addr, hello, hs), k) ==
      if k == sid then IncomingEntry(c, EntryAt(g, sid), sid, addr, hello, hs, g.registered) else EntryAt(g, k)
  {
    hide RelaySession, SplitBlob;
  }

  lemma FoundActs(c: Config, g: Inner, sid: SessionId, addr: Addr, answer: seq<nat>, k: SessionId)
    ensures EntryAt(AfterPeerFound(c, g, sid, addr, answer), k) ==
      if k == sid then FoundEntry(c, EntryAt(g, sid), sid, addr, answer) else EntryAt(g, k)
  {
    hide RelaySession, SplitBlob;
  }

  lemma StartActs(g: Inner, sid: SessionId, hs: LocalHs, pin: Option<Bytes32>, k: SessionId)
    ensures var e := EntryAt(g, sid);
      var r := if k == sid then Entry(Some(hs), e.session, if pin.Some? then pin else e.pin) else EntryAt(g, k);
      EntryAt(StartRelay(g, sid, hs, pin), k) == r && EntryAt(StartDirect(g, sid, hs, pin), k) == r
  { }

  lemma CleanupActs(g: Inner, sid: SessionId, k: SessionId)
    ensures EntryAt(Sweep(g, sid), k) == if k == sid then Entry(None, None, None) else EntryAt(g, k)
    ensures EntryAt(Finish(g, sid), k) == EntryAt(g, k)
    ensures EntryAt(DropSession(g, sid), k) == if k == sid then EntryAt(g, sid).(session := None) else EntryAt(g, k)
  { }

  lemma ReplaceActs(g: Inner, sid: SessionId, now: Session, k: SessionId)
    ensures EntryAt(g.(sessions := g.sessions[sid := now]), k) ==
      if k == sid then EntryAt(g, sid).(session := Some(now)) else EntryAt(g, k)
  { }
}
