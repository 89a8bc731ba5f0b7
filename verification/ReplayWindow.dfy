/** The sliding-window anti-replay check (section 3.4.3 of RFC 4303, in the multi-word form
    of RFC 6479): 1024 sequence numbers over sixteen 64-bit words.

    `Window` is the specification, a plain set of accepted sequence numbers with its
    highest member; `ReplayWindow` is the bitmap that is shifted in place. */
module Replay {
  import opened Options

  const WINDOW: nat := 1024
  const WORDS: nat := 16

  // ---- 64-bit words, as their bits, least significant first ----

  type Word = w: seq<bool> | |w| == 64 witness seq(64, i => false)

  function Zero(): (r: Word)
    ensures forall b :: 0 <= b < 64 ==> !r[b]
  {
    seq(64, i => false)
  }

  function One(): (r: Word)
    ensures forall b :: 0 <= b < 64 ==> (r[b] <==> b == 0)
  {
    seq(64, i => i == 0)
  }

  function Shl(w: Word, n: nat): (r: Word)
    requires n < 64
    ensures forall b :: 0 <= b < 64 ==> (r[b] <==> n <= b && w[b - n])
  {
    seq(64, b requires 0 <= b < 64 => n <= b && w[b - n])
  }

  function Shr(w: Word, n: nat): (r: Word)
    requires n < 64
    ensures forall b :: 0 <= b < 64 ==> (r[b] <==> b + n < 64 && w[b + n])
  {
    seq(64, b requires 0 <= b < 64 => b + n < 64 && w[b + n])
  }

  function Or(v: Word, w: Word): (r: Word)
    ensures forall b :: 0 <= b < 64 ==> (r[b] <==> v[b] || w[b])
  {
    seq(64, b requires 0 <= b < 64 => v[b] || w[b])
  }

  function And(v: Word, w: Word): (r: Word)
    ensures forall b :: 0 <= b < 64 ==> (r[b] <==> v[b] && w[b])
  {
    seq(64, b requires 0 <= b < 64 => v[b] && w[b])
  }

  lemma MaskTest(w: Word, b: nat)
    requires b < 64
    ensures And(w, Shl(One(), b)) != Zero() <==> w[b]
  {
    var m := And(w, Shl(One(), b));
    if w[b] {
      assert m[b] && !Zero()[b];
    } else {
      assert m == Zero();
    }
  }

  // ---- the specification: which numbers were accepted ----

  datatype Window = Window(high: Option<nat>, accepted: set<nat>) {
    ghost predicate Ok() {
      if high.None? then accepted == {}
      else high.value in accepted && forall s :: s in accepted ==> s <= high.value
    }

    /** Neither seen nor older than the window. */
    predicate Fresh(seq': nat) {
      high.None? || seq' > high.value || (high.value - seq' < WINDOW && seq' !in accepted)
    }

    function Accept(seq': nat): (w: Window) {
      if Fresh(seq') then
        Window(if high.None? || seq' > high.value then Some(seq') else high, accepted + {seq'})
      else this
    }
  }

  /** The verdicts of a run of accept calls. */
  function Verdicts(w: Window, seqs: seq<nat>): (r: seq<bool>)
    ensures |r| == |seqs|
    decreases |seqs|
  {
    if |seqs| == 0 then [] else [w.Fresh(seqs[0])] + Verdicts(w.Accept(seqs[0]), seqs[1..])
  }

  lemma AcceptKeepsOk(w: Window, s: nat)
    requires w.Ok()
    ensures w.Accept(s).Ok() && w.accepted <= w.Accept(s).accepted
    ensures w.Fresh(s) ==> s !in w.accepted
  { }

  /** What the window knows after the numbers `past` were presented: the highest of them, and
      each of them unless it has already fallen out of the window. */
  ghost predicate Remembers(w: Window, past: seq<nat>) {
    && w.Ok()
    && (w.high.None? <==> |past| == 0)
    && (w.high.Some? ==> w.high.value in past)
    && (forall s :: s in w.accepted ==> s in past)
    && (forall s :: s in past ==> w.high.Some? && s <= w.high.value)
    && (forall s :: s in past ==> s in w.accepted || s + WINDOW <= w.high.value)
  }

  lemma AcceptRemembers(w: Window, past: seq<nat>, s: nat)
    requires Remembers(w, past)
    ensures Remembers(w.Accept(s), past + [s])
  {
    AcceptKeepsOk(w, s);
    var p := past + [s];
    assert p[|past|] == s;
    assert forall x :: x in p <==> x in past || x == s;
  }

  /** Neither presented before nor 1024 or more behind something presented before. */
  ghost predicate Acceptable(past: seq<nat>, s: nat) {
    forall x :: x in past ==> x != s && x < s + WINDOW
  }

  lemma FreshIffAcceptable(w: Window, past: seq<nat>, s: nat)
    requires Remembers(w, past)
    ensures w.Fresh(s) <==> Acceptable(past, s)
  {
    if w.Fresh(s) {
      forall x | x in past ensures x != s && x < s + WINDOW { }
    }
  }

  lemma {:induction false} VerdictsFrom(w: Window, past: seq<nat>, seqs: seq<nat>, i: nat)
    requires Remembers(w, past) && i < |seqs|
    ensures Verdicts(w, seqs)[i] <==> Acceptable(past + seqs[..i], seqs[i])
    decreases |seqs|
  {
    if i == 0 {
      assert past + seqs[..0] == past;
      FreshIffAcceptable(w, past, seqs[0]);
    } else {
      AcceptRemembers(w, past, seqs[0]);
      VerdictsFrom(w.Accept(seqs[0]), past + [seqs[0]], seqs[1..], i - 1);
      assert past + [seqs[0]] + seqs[1..][..i - 1] == past + seqs[..i];
    }
  }

  /** The filter over any run, in closed form: the i-th number is accepted exactly when it was
      not presented before and nothing presented before is 1024 or more ahead of it.  Hence a
      number is accepted at most once, and every unseen one within the window is accepted. */
  lemma ReplayFilter(seqs: seq<nat>, i: nat)
    requires i < |seqs|
    ensures Verdicts(Window(None, {}), seqs)[i] <==>
      forall j :: 0 <= j < i ==> seqs[j] != seqs[i] && seqs[j] < seqs[i] + WINDOW
  {
    var past := seqs[..i];
    VerdictsFrom(Window(None, {}), [], seqs, i);
    assert [] + past == past;
    if Acceptable(past, seqs[i]) {
      forall j | 0 <= j < i ensures seqs[j] != seqs[i] && seqs[j] < seqs[i] + WINDOW {
        assert past[j] in past;
      }
    }
  }

  // ---- the bitmap ----

  /** Bit o of the sixteen words. */
  ghost predicate BitOf(words: seq<Word>, o: nat)
    requires |words| == WORDS && o < WINDOW
  {
    words[o / 64][o % 64]
  }

  /** Every recorded offset grows by n; those past the edge are forgotten. */
  ghost predicate ShiftedBy(was: seq<Word>, now: seq<Word>, n: nat)
    requires |was| == |now| == WORDS
  {
    forall o :: 0 <= o < WINDOW ==> (BitOf(now, o) <==> n <= o && BitOf(was, o - n))
  }

  /** New word i of a shift by 64 ws + bs bits. */
  function ShiftedWord(was: seq<Word>, i: nat, ws: nat, bs: nat): (r: Word)
    requires |was| == WORDS && i < WORDS && bs < 64
  {
    if bs == 0 then (if i >= ws then was[i - ws] else Zero())
    else if i < ws then Zero()
    else if i == ws then Shl(was[0], bs)
    else Or(Shl(was[i - ws], bs), Shr(was[i - ws - 1], 64 - bs))
  }

  lemma ShiftedWordBit(was: seq<Word>, i: nat, ws: nat, bs: nat, b: nat)
    requires |was| == WORDS && i < WORDS && bs < 64 && b < 64
    ensures ShiftedWord(was, i, ws, bs)[b] <==>
      if b >= bs then i >= ws && was[i - ws][b - bs]
      else i > ws && was[i - ws - 1][b + 64 - bs]
  {
    hide Shl, Shr, Or;
  }

  lemma BitAt(words: seq<Word>, o: nat, q: nat, r: nat)
    requires |words| == WORDS && o == 64 * q + r && r < 64 && o < WINDOW
    ensures q < WORDS && BitOf(words, o) == words[q][r]
  {
    SplitOffset(o, q, r);
  }

  lemma SplitOffset(o: nat, q: nat, r: nat)
    requires o == 64 * q + r && r < 64
    ensures o / 64 == q && o % 64 == r
  { }

  lemma WordsShifted(was: seq<Word>, now: seq<Word>, n: nat)
    requires |was| == |now| == WORDS
    requires forall i :: 0 <= i < WORDS ==> now[i] == ShiftedWord(was, i, n / 64, n % 64)
    ensures ShiftedBy(was, now, n)
  {
    forall o | 0 <= o < WINDOW ensures BitOf(now, o) <==> n <= o && BitOf(was, o - n) {
      ShiftedBit(was, now, n, o, o / 64, o % 64, n / 64, n % 64);
    }
  }

  lemma ShiftedBit(was: seq<Word>, now: seq<Word>, n: nat, o: nat, i: nat, b: nat, ws: nat, bs: nat)
    requires |was| == |now| == WORDS && o < WINDOW && o == 64 * i + b && b < 64 && n == 64 * ws + bs && bs < 64
    requires i < WORDS && now[i] == ShiftedWord(was, i, ws, bs)
    ensures BitOf(now, o) <==> n <= o && BitOf(was, o - n)
  {
    hide BitOf, ShiftedWord;
    BitAt(now, o, i, b);
    ShiftedWordBit(was, i, ws, bs, b);
    if n <= o {
      if b >= bs {
        BitAt(was, o - n, i - ws, b - bs);
      } else {
        BitAt(was, o - n, i - ws - 1, b + 64 - bs);
      }
    }
  }

  class ReplayWindow {
    var high: Option<nat>
    const bitmap: array<Word>
    /** The set of accepted numbers that the bitmap stands for. */
    ghost var accepted: set<nat>

    ghost predicate Valid()
      reads this, bitmap
    {
      && bitmap.Length == WORDS
      && Model().Ok()
      && (high.Some? ==> forall o :: 0 <= o < WINDOW ==>
            (BitOf(bitmap[..], o) <==> o <= high.value && high.value - o in accepted))
    }

    ghost function Model(): Window
      reads this
    {
      Window(high, accepted)
    }

    constructor ()
      ensures Valid() && Model() == Window(None, {}) && fresh(bitmap)
    {
      high, accepted := None, {};
      bitmap := new Word[WORDS](_ => Zero());
    }

    method GetBit(offset: nat) returns (bit: bool)
      requires bitmap.Length == WORDS && offset < WINDOW
      ensures bit == BitOf(bitmap[..], offset)
    {
      var word, b := offset / 64, offset % 64;
      MaskTest(bitmap[word], b);
      bit := And(bitmap[word], Shl(One(), b)) != Zero();
    }

    method SetBit(offset: nat)
      requires bitmap.Length == WORDS && offset < WINDOW
      modifies bitmap
      ensures forall o :: 0 <= o < WINDOW ==>
        (BitOf(bitmap[..], o) <==> o == offset || old(BitOf(bitmap[..], o)))
    {
      var word, b := offset / 64, offset % 64;
      bitmap[word] := Or(bitmap[word], Shl(One(), b));
      forall o | 0 <= o < WINDOW
        ensures BitOf(bitmap[..], o) <==> o == offset || old(BitOf(bitmap[..], o))
      {
        assert o == 64 * (o / 64) + o % 64 && offset == 64 * word + b;
      }
    }

    /** Slide the window: a multi-word left shift in place, from the top word down. */
    method Shift(n: nat)
      requires bitmap.Length == WORDS
      modifies bitmap
      ensures ShiftedBy(old(bitmap[..]), bitmap[..], n)
    {
      ghost var was := bitmap[..];
      if n >= WINDOW {
        for i := 0 to WORDS
          invariant forall k :: 0 <= k < i ==> bitmap[k] == Zero()
        {
          bitmap[i] := Zero();
        }
        return;
      }
      var ws, bs := n / 64, n % 64;
      if bs == 0 {
        for i := WORDS downto 0
          invariant forall k :: i <= k < WORDS ==> bitmap[k] == ShiftedWord(was, k, ws, bs)
          invariant forall k :: 0 <= k < i ==> bitmap[k] == was[k]
        {
          bitmap[i] := if i >= ws then bitmap[i - ws] else Zero();
        }
      } else {
        for i := WORDS downto 0
          invariant forall k :: i <= k < WORDS ==> bitmap[k] == ShiftedWord(was, k, ws, bs)
          invariant forall k :: 0 <= k < i ==> bitmap[k] == was[k]
        {
          var v := Zero();
          if i >= ws {
            v := Shl(bitmap[i - ws], bs);
            if i > ws {
              v := Or(v, Shr(bitmap[i - ws - 1], 64 - bs));
            }
          }
          bitmap[i] := v;
        }
      }
      WordsShifted(was, bitmap[..], n);
    }

    /** Accept a number exactly when the set model finds it fresh, and record it. */
    method Accept(seq': nat) returns (ok: bool)
      requires Valid()
      modifies this`high, this`accepted, bitmap
      ensures Valid()
      ensures ok == old(Model()).Fresh(seq')
      ensures Model() == old(Model()).Accept(seq')
    {
      match high {
        case None =>
          high := Some(seq');
          for i := 0 to WORDS
            invariant forall k :: 0 <= k < i ==> bitmap[k] == Zero()
            invariant high == Some(seq') && accepted == {}
          {
            bitmap[i] := Zero();
          }
          SetBit(0);
          ok := true;
        case Some(h) =>
          if seq' > h {
            ghost var was := bitmap[..];
            Shift(seq' - h);
            high := Some(seq');
            SetBit(0);
            ok := true;
          } else {
            var offset := h - seq';
            if offset >= WINDOW { return false; }
            var seen := GetBit(offset);
            if seen { return false; }
            SetBit(offset);
            ok := true;
          }
      }
      accepted := accepted + {seq'};
    }
  }
}
