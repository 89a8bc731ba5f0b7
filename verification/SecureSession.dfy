/** The data phase of a session as a state machine over its interleavings: concurrent senders on
    both ends, and a network that loses, duplicates, reorders and forges datagrams.

    Sending is two steps, as in the code: a sequence number is taken under the node lock, the
    payload is sealed after the lock is released.  The AEAD (section 2.8 of RFC 8439) is ideal:
    a ciphertext opens exactly when it was sealed under the same key and nonce. */
module SecureSession {
  import opened Options
  import opened Replay

  type Payload = seq<nat>

  datatype Role = Initiator | Responder

  function Other(r: Role): Role { if r == Initiator then Responder else Initiator }

  // ---- nonces ----

  const U64: nat := 0x1_0000_0000_0000_0000

  /** The k low bytes of n, most significant first. */
  function BigEndian(n: nat, k: nat): (r: seq<nat>)
    ensures |r| == k
    decreases k
  {
    if k == 0 then [] else BigEndian(n / 256, k - 1) + [n % 256]
  }

  function Pow256(k: nat): nat { if k == 0 then 1 else 256 * Pow256(k - 1) }

  lemma {:induction false} BigEndianInjective(m: nat, n: nat, k: nat)
    requires m < Pow256(k) && n < Pow256(k) && BigEndian(m, k) == BigEndian(n, k)
    ensures m == n
    decreases k
  {
    if k > 0 {
      var x, y := BigEndian(m, k), BigEndian(n, k);
      assert x[..k - 1] == BigEndian(m / 256, k - 1) && y[..k - 1] == BigEndian(n / 256, k - 1);
      assert x[k - 1] == m % 256 && y[k - 1] == n % 256;
      BigEndianInjective(m / 256, n / 256, k - 1);
    }
  }

  function SendDir(r: Role): nat { if r == Initiator then 0 else 1 }
  function RecvDir(r: Role): nat { 1 - SendDir(r) }

  /** Direction byte, three zero bytes, big-endian sequence number. */
  function Nonce(dir: nat, s: nat): (r: seq<nat>)
    ensures |r| == 12
  {
    [dir, 0, 0, 0] + BigEndian(s, 8)
  }

  lemma NonceInjective(d: nat, s: nat, d': nat, s': nat)
    requires s < U64 && s' < U64 && Nonce(d, s) == Nonce(d', s')
    ensures d == d' && s == s'
  {
    var x, y := Nonce(d, s), Nonce(d', s');
    assert x[0] == d && y[0] == d';
    assert x[4..] == BigEndian(s, 8) && y[4..] == BigEndian(s', 8);
    assert Pow256(8) == U64;
    BigEndianInjective(s, s', 8);
  }

  // ---- the state machine ----

  /** A sequence number taken under the lock, its payload not sealed yet. */
  datatype Ticket = Ticket(s: nat, payload: Payload)

  /** One call of seal: who, which number, what. */
  datatype Seal = Seal(sender: Role, s: nat, payload: Payload) {
    function Nonce'(): seq<nat> { Nonce(SendDir(sender), s) }
  }

  /** What travels: the output of a seal call, or bytes nobody sealed. */
  datatype Cipher = Sealed(nonce: seq<nat>, payload: Payload) | Forged(bytes: seq<nat>)

  /** wired: the reader's channel is in place.  A responder has it from the start; an initiator
      gets it at the end of its connect call, and what arrives before is opened and dropped. */
  datatype End = End(sendSeq: nat, tickets: set<Ticket>, window: Window, wired: bool, delivered: seq<Ticket>)

  datatype World = World(initiator: End, responder: End, log: seq<Seal>) {
    function At(r: Role): End { if r == Initiator then initiator else responder }

    function With(r: Role, e: End): World {
      if r == Initiator then this.(initiator := e) else this.(responder := e)
    }
  }

  const START: End := End(0, {}, Window(None, {}), false, [])
  const INIT: World := World(START, START.(wired := true), [])

  datatype Step =
    | Take(r: Role, payload: Payload)      // snapshot: read and bump send_seq
    | Abandon(r: Role, ticket: Ticket)     // the number was taken but the send failed
    | DoSeal(r: Role, ticket: Ticket)      // seal off-lock and put on the wire
    | Wire(r: Role)                        // the connect call hands its Session to the caller
    | Receive(r: Role, s: nat, c: Cipher)  // any datagram, any number of times

  /** The ciphertext is the output of some earlier seal call. */
  ghost predicate WasSealed(log: seq<Seal>, c: Cipher) {
    c.Sealed? && exists i :: 0 <= i < |log| && log[i].Nonce'() == c.nonce && log[i].payload == c.payload
  }

  /** Decryption under the receive-direction nonce for s. */
  ghost predicate Opens(w: World, r: Role, s: nat, c: Cipher) {
    WasSealed(w.log, c) && c.nonce == Nonce(RecvDir(r), s)
  }

  /** What `deliver` passes on. */
  function HandedUp(e: End, t: Ticket): seq<Ticket> { if e.wired then [t] else [] }

  ghost function Next(w: World, step: Step): World {
    match step
    case Take(r, payload) =>
      var e := w.At(r);
      if e.sendSeq >= U64 then w
      else w.With(r, e.(sendSeq := e.sendSeq + 1, tickets := e.tickets + {Ticket(e.sendSeq, payload)}))
    case Abandon(r, t) =>
      w.With(r, w.At(r).(tickets := w.At(r).tickets - {t}))
    case DoSeal(r, t) =>
      if t !in w.At(r).tickets then w
      else w.With(r, w.At(r).(tickets := w.At(r).tickets - {t})).(log := w.log + [Seal(r, t.s, t.payload)])
    case Wire(r) => w.With(r, w.At(r).(wired := true))
    case Receive(r, s, c) =>
      var e := w.At(r);
      if s >= U64 || !Opens(w, r, s, c) || !e.window.Fresh(s) then w
      else w.With(r, e.(window := e.window.Accept(s), delivered := e.delivered + HandedUp(e, Ticket(s, c.payload))))
  }

  ghost function Run(w: World, steps: seq<Step>): (r: World)
    decreases |steps|
  {
    if |steps| == 0 then w else Run(Next(w, steps[0]), steps[1..])
  }

  // ---- what every step keeps ----

  /** Numbers handed out are below the counter; a number is a ticket or sealed, never both. */
  ghost predicate SenderOk(e: End, log: seq<Seal>, r: Role) {
    && e.sendSeq <= U64
    && (forall t :: t in e.tickets ==> t.s < e.sendSeq)
    && (forall t, t' :: t in e.tickets && t' in e.tickets && t.s == t'.s ==> t == t')
    && (forall i :: 0 <= i < |log| && log[i].sender == r ==>
          log[i].s < e.sendSeq && forall t :: t in e.tickets ==> t.s != log[i].s)
  }

  /** Deliveries are accepted numbers, all different, each sealed by the other end. */
  ghost predicate ReceiverOk(e: End, log: seq<Seal>, r: Role) {
    && e.window.Ok()
    && (forall i :: 0 <= i < |e.delivered| ==> e.delivered[i].s in e.window.accepted)
    && (forall i, j :: 0 <= i < j < |e.delivered| ==> e.delivered[i].s != e.delivered[j].s)
    && (forall i :: 0 <= i < |e.delivered| ==> SealedBy(log, Other(r), e.delivered[i]))
  }

  ghost predicate SealedBy(log: seq<Seal>, r: Role, t: Ticket) {
    Seal(r, t.s, t.payload) in log
  }

  ghost predicate LogOk(log: seq<Seal>) {
    forall i, j :: 0 <= i < j < |log| ==> log[i].sender != log[j].sender || log[i].s != log[j].s
  }

  ghost predicate Inv(w: World) {
    && (forall r: Role :: SenderOk(w.At(r), w.log, r) && ReceiverOk(w.At(r), w.log, r))
    && LogOk(w.log)
  }

  /** What opens at r under number s was sealed by the other end under that number. */
  lemma OpensIsSealed(w: World, r: Role, s: nat, c: Cipher)
    requires Inv(w) && s < U64 && Opens(w, r, s, c)
    ensures SealedBy(w.log, Other(r), Ticket(s, c.payload))
  {
    var i :| 0 <= i < |w.log| && w.log[i].Nonce'() == c.nonce && w.log[i].payload == c.payload;
    var l := w.log[i];
    assert SenderOk(w.At(l.sender), w.log, l.sender);
    NonceInjective(SendDir(l.sender), l.s, RecvDir(r), s);
    assert l == Seal(Other(r), s, c.payload);
  }

  lemma TakeKeeps(e: End, log: seq<Seal>, r: Role, payload: Payload)
    requires SenderOk(e, log, r) && e.sendSeq < U64
    ensures SenderOk(e.(sendSeq := e.sendSeq + 1, tickets := e.tickets + {Ticket(e.sendSeq, payload)}), log, r)
  { }

  lemma SealKeeps(e: End, log: seq<Seal>, r: Role, t: Ticket)
    requires SenderOk(e, log, r) && t in e.tickets && LogOk(log)
    ensures SenderOk(e.(tickets := e.tickets - {t}), log + [Seal(r, t.s, t.payload)], r)
    ensures LogOk(log + [Seal(r, t.s, t.payload)])
  { }

  lemma AbandonKeeps(e: End, log: seq<Seal>, r: Role, t: Ticket)
    requires SenderOk(e, log, r) && ReceiverOk(e, log, r)
    ensures SenderOk(e.(tickets := e.tickets - {t}), log, r) && ReceiverOk(e.(tickets := e.tickets - {t}), log, r)
  { }

  /** The receiving half does not look at the sending half. */
  lemma ReceiverOnly(e: End, e': End, log: seq<Seal>, r: Role)
    requires ReceiverOk(e, log, r) && e'.window == e.window && e'.delivered == e.delivered
    ensures ReceiverOk(e', log, r)
  { }

  lemma SenderOnly(e: End, e': End, log: seq<Seal>, r: Role)
    requires SenderOk(e, log, r) && e'.sendSeq == e.sendSeq && e'.tickets == e.tickets
    ensures SenderOk(e', log, r)
  { }

  lemma OtherSealed(e: End, log: seq<Seal>, r: Role, more: Seal)
    requires SenderOk(e, log, r) && more.sender != r
    ensures SenderOk(e, log + [more], r)
  { }

  lemma StillDelivered(e: End, log: seq<Seal>, r: Role, more: Seal)
    requires ReceiverOk(e, log, r)
    ensures ReceiverOk(e, log + [more], r)
  {
    forall i | 0 <= i < |e.delivered| ensures SealedBy(log + [more], Other(r), e.delivered[i]) {
      assert SealedBy(log, Other(r), e.delivered[i]);
    }
  }

  lemma DeliverKeeps(e: End, log: seq<Seal>, r: Role, s: nat, payload: Payload)
    requires ReceiverOk(e, log, r) && e.window.Fresh(s) && SealedBy(log, Other(r), Ticket(s, payload))
    ensures ReceiverOk(e.(window := e.window.Accept(s), delivered := e.delivered + HandedUp(e, Ticket(s, payload))), log, r)
  {
    AcceptKeepsOk(e.window, s);
  }

  lemma NextKeepsInv(w: World, step: Step)
    requires Inv(w)
    ensures Inv(Next(w, step))
  {
    var w' := Next(w, step);
    hide SenderOk, ReceiverOk, LogOk, Next;
    forall q: Role ensures SenderOk(w'.At(q), w'.log, q) && ReceiverOk(w'.At(q), w'.log, q) {
      StepKeeps(w, step, q);
    }
    StepKeeps(w, step, Initiator);
  }

  /** What a step must leave of end q. */
  ghost predicate EndOk(w: World, q: Role) {
    SenderOk(w.At(q), w.log, q) && ReceiverOk(w.At(q), w.log, q) && LogOk(w.log)
  }

  lemma StepKeeps(w: World, step: Step, q: Role)
    requires Inv(w)
    ensures EndOk(Next(w, step), q)
  {
    assert EndOk(w, q);
    match step {
      case Take(r, payload) => TakeStep(w, r, payload, q);
      case Abandon(r, t) => AbandonStep(w, r, t, q);
      case DoSeal(r, t) => assert EndOk(w, r); SealStep(w, r, t, q);
      case Wire(r) => WireStep(w, r, q);
      case Receive(r, s, c) => ReceiveStep(w, r, s, c, q);
    }
    hide EndOk, Next;
  }

  lemma TakeStep(w: World, r: Role, payload: Payload, q: Role)
    requires EndOk(w, q)
    ensures EndOk(Next(w, Take(r, payload)), q)
  {
    hide SenderOk, ReceiverOk, LogOk;
    var e := w.At(q);
    if r == q && e.sendSeq < U64 {
      TakeKeeps(e, w.log, q, payload);
      ReceiverOnly(e, Next(w, Take(r, payload)).At(q), w.log, q);
    }
  }

  lemma AbandonStep(w: World, r: Role, t: Ticket, q: Role)
    requires EndOk(w, q)
    ensures EndOk(Next(w, Abandon(r, t)), q)
  {
    hide SenderOk, ReceiverOk, LogOk;
    if r == q { AbandonKeeps(w.At(q), w.log, q, t); }
  }

  lemma WireStep(w: World, r: Role, q: Role)
    requires EndOk(w, q)
    ensures EndOk(Next(w, Wire(r)), q)
  {
    hide SenderOk, ReceiverOk, LogOk;
    if r == q {
      SenderOnly(w.At(q), Next(w, Wire(r)).At(q), w.log, q);
      ReceiverOnly(w.At(q), Next(w, Wire(r)).At(q), w.log, q);
    }
  }

  lemma SealStep(w: World, r: Role, t: Ticket, q: Role)
    requires EndOk(w, q) && EndOk(w, r)
    ensures EndOk(Next(w, DoSeal(r, t)), q)
  {
    hide SenderOk, ReceiverOk, LogOk;
    var e, w' := w.At(q), Next(w, DoSeal(r, t));
    if t in w.At(r).tickets {
      SealKeeps(w.At(r), w.log, r, t);
      StillDelivered(e, w.log, q, Seal(r, t.s, t.payload));
      ReceiverOnly(e, w'.At(q), w'.log, q);
      if r != q { OtherSealed(e, w.log, q, Seal(r, t.s, t.payload)); }
    }
  }

  lemma ReceiveStep(w: World, r: Role, s: nat, c: Cipher, q: Role)
    requires Inv(w) && EndOk(w, q)
    ensures EndOk(Next(w, Receive(r, s, c)), q)
  {
    hide SenderOk, ReceiverOk, LogOk;
    var e := w.At(q);
    if r == q && s < U64 && Opens(w, r, s, c) && e.window.Fresh(s) {
      OpensIsSealed(w, r, s, c);
      DeliverKeeps(e, w.log, q, s, c.payload);
      SenderOnly(e, Next(w, Receive(r, s, c)).At(q), w.log, q);
    }
  }

  lemma {:induction false} RunKeepsInv(w: World, steps: seq<Step>)
    requires Inv(w)
    ensures Inv(Run(w, steps))
    decreases |steps|
  {
    if |steps| > 0 {
      NextKeepsInv(w, steps[0]);
      RunKeepsInv(Next(w, steps[0]), steps[1..]);
    }
  }

  // ---- theorems over all runs ----

  /** No two seals under the session key ever share a nonce. */
  lemma NoncesNeverRepeat(steps: seq<Step>, i: nat, j: nat)
    requires i < j < |Run(INIT, steps).log|
    ensures Run(INIT, steps).log[i].Nonce'() != Run(INIT, steps).log[j].Nonce'()
  {
    RunKeepsInv(INIT, steps);
    var w := Run(INIT, steps);
    var a, b := w.log[i], w.log[j];
    assert SenderOk(w.At(a.sender), w.log, a.sender) && SenderOk(w.At(b.sender), w.log, b.sender);
    if a.Nonce'() == b.Nonce'() {
      NonceInjective(SendDir(a.sender), a.s, SendDir(b.sender), b.s);
    }
  }

  /** Everything handed up at r was sealed by the other end, with that payload, under that
      number; two deliveries never come from the same seal call. */
  lemma DeliveredAtMostOnce(steps: seq<Step>, r: Role)
    ensures
      var w := Run(INIT, steps);
      var d := w.At(r).delivered;
      && (forall i :: 0 <= i < |d| ==> SealedBy(w.log, Other(r), d[i]))
      && (forall i, j :: 0 <= i < j < |d| ==> d[i].s != d[j].s)
  {
    RunKeepsInv(INIT, steps);
    assert ReceiverOk(Run(INIT, steps).At(r), Run(INIT, steps).log, r);
  }

  /** The sequence numbers of the datagrams that authenticated at r, in order of arrival. */
  ghost function Arrived(w: World, steps: seq<Step>, r: Role): seq<nat>
    decreases |steps|
  {
    if |steps| == 0 then []
    else
      var rest := Arrived(Next(w, steps[0]), steps[1..], r);
      match steps[0]
      case Receive(q, s, c) => if q == r && s < U64 && Opens(w, r, s, c) then [s] + rest else rest
      case _ => rest
  }

  /** The replay window is moved by authentic datagrams alone. */
  lemma {:induction false} WindowRemembersArrived(w: World, steps: seq<Step>, r: Role, past: seq<nat>)
    requires Remembers(w.At(r).window, past)
    ensures Remembers(Run(w, steps).At(r).window, past + Arrived(w, steps, r))
    decreases |steps|
  {
    hide Remembers, Opens;
    if |steps| == 0 {
      assert past + [] == past;
    } else {
      var w', rest := Next(w, steps[0]), Arrived(Next(w, steps[0]), steps[1..], r);
      match steps[0] {
        case Receive(q, s, c) =>
          if q == r && s < U64 && Opens(w, r, s, c) {
            AcceptRemembers(w.At(r).window, past, s);
            WindowRemembersArrived(w', steps[1..], r, past + [s]);
            assert past + [s] + rest == past + ([s] + rest);
          } else {
            WindowRemembersArrived(w', steps[1..], r, past);
          }
        case _ =>
          WindowRemembersArrived(w', steps[1..], r, past);
      }
    }
  }

  /** After any run, a datagram moves the receiver's window exactly when it authenticates, its
      number has not arrived before, and no authentic arrival was 1024 or more ahead of it; its
      payload is handed up exactly when the end is also wired.  Anything else, forgeries included,
      changes nothing. */
  lemma ReceiveOutcome(steps: seq<Step>, r: Role, s: nat, c: Cipher)
    ensures
      var w := Run(INIT, steps);
      var w' := Next(w, Receive(r, s, c));
      if s < U64 && Opens(w, r, s, c) && Acceptable(Arrived(INIT, steps, r), s) then
        && w'.At(r).window == w.At(r).window.Accept(s) && s in w'.At(r).window.accepted
        && w'.At(r).delivered == w.At(r).delivered + (if w.At(r).wired then [Ticket(s, c.payload)] else [])
        && w'.At(Other(r)) == w.At(Other(r)) && w'.log == w.log
      else
        w' == w
  {
    var past := Arrived(INIT, steps, r);
    assert Remembers(INIT.At(r).window, []);
    WindowRemembersArrived(INIT, steps, r, []);
    assert [] + past == past;
    FreshIffAcceptable(Run(INIT, steps).At(r).window, past, s);
  }

  /** A responder is wired from the start, an initiator exactly after a Wire step. */
  lemma {:induction false} WiredAfter(w: World, steps: seq<Step>, r: Role)
    ensures Run(w, steps).At(r).wired <==> w.At(r).wired || Wire(r) in steps
    decreases |steps|
  {
    if |steps| > 0 {
      assert steps == [steps[0]] + steps[1..];
      WiredAfter(Next(w, steps[0]), steps[1..], r);
      hide Opens;
    }
  }

  /** A payload that arrives before its end is wired is lost for good: its number is spent. */
  lemma UnwiredIsLost(steps: seq<Step>, more: seq<Step>, r: Role, s: nat, c: Cipher)
    requires s < U64 && Opens(Run(INIT, steps), r, s, c) && Acceptable(Arrived(INIT, steps, r), s)
    ensures
      var w' := Next(Run(INIT, steps), Receive(r, s, c));
      Next(Run(w', more), Receive(r, s, c)) == Run(w', more)
  {
    var w := Run(INIT, steps);
    var w' := Next(w, Receive(r, s, c));
    RunKeepsInv(INIT, steps);
    ReceiveOutcome(steps, r, s, c);
    NextKeepsInv(w, Receive(r, s, c));
    SpentStays(w', more, r, s);
    RunKeepsInv(w', more);
    assert ReceiverOk(Run(w', more).At(r), Run(w', more).log, r);
  }

  /** An accepted number is never fresh again. */
  lemma {:induction false} SpentStays(w: World, steps: seq<Step>, r: Role, s: nat)
    requires s in w.At(r).window.accepted
    ensures s in Run(w, steps).At(r).window.accepted
    decreases |steps|
  {
    hide Opens;
    if |steps| > 0 { SpentStays(Next(w, steps[0]), steps[1..], r, s); }
  }

  // ---- what is delivered is what was sent ----

  /** The payloads that r's senders passed in, in the order in which they took their numbers. */
  function Sends(steps: seq<Step>, r: Role): seq<Payload>
    decreases |steps|
  {
    if |steps| == 0 then []
    else (if steps[0].Take? && steps[0].r == r then [steps[0].payload] else []) + Sends(steps[1..], r)
  }

  /** The end r and the log stem from the payloads `past`: the n-th of them got number n - 1. */
  ghost predicate Stems(w: World, r: Role, past: seq<Payload>) {
    && w.At(r).sendSeq == (if |past| < U64 then |past| else U64)
    && (forall t :: t in w.At(r).tickets ==> t.s < |past| && t.payload == past[t.s])
    && (forall i :: 0 <= i < |w.log| && w.log[i].sender == r ==> w.log[i].s < |past| && w.log[i].payload == past[w.log[i].s])
  }

  lemma NextStems(w: World, step: Step, r: Role, past: seq<Payload>)
    requires Stems(w, r, past)
    ensures Stems(Next(w, step), r, past + Sends([step], r))
  {
    hide Opens;
    assert Sends([step], r) == if step.Take? && step.r == r then [step.payload] else [] by { assert [step][1..] == []; }
    assert past + [] == past;
  }

  lemma {:induction false} RunStems(w: World, steps: seq<Step>, r: Role, past: seq<Payload>)
    requires Stems(w, r, past)
    ensures Stems(Run(w, steps), r, past + Sends(steps, r))
    decreases |steps|
  {
    hide Stems, Next, Sends;
    if |steps| == 0 {
      SendsNone(steps, r);
      assert past + [] == past;
    } else {
      var a, b := Sends([steps[0]], r), Sends(steps[1..], r);
      NextStems(w, steps[0], r, past);
      RunStems(Next(w, steps[0]), steps[1..], r, past + a);
      SendsSplit(steps, r);
      assert (past + a) + b == past + (a + b);
    }
  }

  lemma SendsNone(steps: seq<Step>, r: Role)
    requires |steps| == 0
    ensures Sends(steps, r) == []
  { }

  lemma SendsSplit(steps: seq<Step>, r: Role)
    requires |steps| > 0
    ensures Sends(steps, r) == Sends([steps[0]], r) + Sends(steps[1..], r)
  {
    assert [steps[0]][1..] == [];
    assert Sends([steps[0]], r) == (if steps[0].Take? && steps[0].r == r then [steps[0].payload] else []) + [];
  }

  /** In every run, a seal under number s carries the payload of the sender's send number s, counting
      from zero, and every delivery at r carries that of the other end's. */
  lemma DeliversWhatWasSent(steps: seq<Step>, r: Role)
    ensures
      var w := Run(INIT, steps);
      && (forall i :: 0 <= i < |w.log| ==>
            w.log[i].s < |Sends(steps, w.log[i].sender)| && w.log[i].payload == Sends(steps, w.log[i].sender)[w.log[i].s])
      && (forall i :: 0 <= i < |w.At(r).delivered| ==>
            var t := w.At(r).delivered[i]; t.s < |Sends(steps, Other(r))| && t.payload == Sends(steps, Other(r))[t.s])
  {
    var w := Run(INIT, steps);
    RunStems(INIT, steps, Initiator, []);
    RunStems(INIT, steps, Responder, []);
    assert [] + Sends(steps, Initiator) == Sends(steps, Initiator) && [] + Sends(steps, Responder) == Sends(steps, Responder);
    DeliveredAtMostOnce(steps, r);
    hide Run, Sends;
    forall i | 0 <= i < |w.At(r).delivered|
      ensures var t := w.At(r).delivered[i]; t.s < |Sends(steps, Other(r))| && t.payload == Sends(steps, Other(r))[t.s]
    {
      var t := w.At(r).delivered[i];
      assert SealedBy(w.log, Other(r), t);
      var j :| 0 <= j < |w.log| && w.log[j] == Seal(Other(r), t.s, t.payload);
    }
  }

  /** And it arrives: a fresh payload sent, sealed and received at a wired end is handed up. */
  lemma SendArrives(steps: seq<Step>, r: Role, payload: Payload)
    requires |Sends(steps, r)| < U64 && Run(INIT, steps).At(Other(r)).wired
    requires Acceptable(Arrived(INIT, steps, Other(r)), |Sends(steps, r)|)
    ensures
      var n := |Sends(steps, r)|;
      var w := Run(INIT, steps);
      var w1 := Next(w, Take(r, payload));
      var w2 := Next(w1, DoSeal(r, Ticket(n, payload)));
      var w3 := Next(w2, Receive(Other(r), n, Sealed(Nonce(SendDir(r), n), payload)));
      w3.At(Other(r)).delivered == w.At(Other(r)).delivered + [Ticket(n, payload)]
  {
    var n := |Sends(steps, r)|;
    var w := Run(INIT, steps);
    RunStems(INIT, steps, r, []);
    assert [] + Sends(steps, r) == Sends(steps, r);
    assert w.At(r).sendSeq == n;
    var past := Arrived(INIT, steps, Other(r));
    assert Remembers(INIT.At(Other(r)).window, []);
    WindowRemembersArrived(INIT, steps, Other(r), []);
    assert [] + past == past;
    FreshIffAcceptable(w.At(Other(r)).window, past, n);
    hide *;
    SentAndReceived(w, r, n, payload);
  }

  lemma SentAndReceived(w: World, r: Role, n: nat, payload: Payload)
    requires w.At(r).sendSeq == n < U64 && w.At(Other(r)).wired && w.At(Other(r)).window.Fresh(n)
    ensures
      var w1 := Next(w, Take(r, payload));
      var w2 := Next(w1, DoSeal(r, Ticket(n, payload)));
      var w3 := Next(w2, Receive(Other(r), n, Sealed(Nonce(SendDir(r), n), payload)));
      w3.At(Other(r)).delivered == w.At(Other(r)).delivered + [Ticket(n, payload)]
  {
    hide Nonce;
    var w1 := Next(w, Take(r, payload));
    var w2 := Next(w1, DoSeal(r, Ticket(n, payload)));
    assert w2.log == w.log + [Seal(r, n, payload)] && w2.At(Other(r)) == w.At(Other(r));
    assert w2.log[|w.log|] == Seal(r, n, payload);
    assert Opens(w2, Other(r), n, Sealed(Nonce(SendDir(r), n), payload));
  }
}
