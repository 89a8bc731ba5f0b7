/** The Reed-Solomon encoder/decoder over shard buffers that are overwritten in place. */
module Codec {
  import opened Fields
  import opened LinearAlgebra
  import opened Polynomials
  import opened Matrices
  import opened ErasureCode
  import Erasures
  import opened Options

  datatype Error =
    | TooFewShards | TooManyShards
    | TooFewDataShards | TooManyDataShards
    | TooFewParityShards | TooManyParityShards
    | TooFewBufferShards | TooManyBufferShards
    | IncorrectShardSize | TooFewShardsPresent | EmptyShard | InvalidIndex

  datatype Result<+T> = Ok(value: T) | Err(error: Error)

  // ---- argument checks ----

  function CheckCount(have: nat, want: nat, few: Error, many: Error): (r: Result<()>)
    ensures r.Ok? <==> have == want
  {
    if have < want then Err(few) else if have > want then Err(many) else Ok(())
  }

  /** The first shard fixes the size: it may not be empty and all others must match. */
  function CheckSizes(lens: seq<nat>): (r: Result<()>)
    requires |lens| > 0
    ensures r.Ok? <==> lens[0] > 0 && forall i :: 0 <= i < |lens| ==> lens[i] == lens[0]
  {
    if lens[0] == 0 then Err(EmptyShard)
    else if exists i :: 0 <= i < |lens| && lens[i] != lens[0] then Err(IncorrectShardSize)
    else Ok(())
  }

  // ---- shard buffers ----

  /** Buffers that do not alias, as exclusive borrows guarantee. */
  ghost predicate Disjoint<E>(s: seq<array<E>>) {
    forall i, j :: 0 <= i < j < |s| ==> s[i] != s[j]
  }

  ghost predicate AllLen<E>(s: seq<array<E>>, len: nat) {
    forall i :: 0 <= i < |s| ==> s[i].Length == len
  }

  function Lens<E>(s: seq<array<E>>): (r: seq<nat>)
    ensures |r| == |s| && forall i :: 0 <= i < |s| ==> r[i] == s[i].Length
  {
    seq(|s|, i requires 0 <= i < |s| => s[i].Length)
  }

  ghost function Contents<E>(s: seq<array<E>>): (m: Mat<E>)
    reads s
    ensures |m| == |s| && forall i :: 0 <= i < |s| ==> m[i] == s[i][..]
  {
    seq(|s|, i requires 0 <= i < |s| reads s => s[i][..])
  }

  // ---- what the checks decide, case by case ----

  /** Lengths of which the first is positive and the others equal it. */
  ghost predicate Uniform(lens: seq<nat>) {
    |lens| > 0 && lens[0] > 0 && forall j :: 0 <= j < |lens| ==> lens[j] == lens[0]
  }

  /** The right number of shards, else which error. */
  ghost predicate CountJudged(r: Result<()>, have: nat, want: nat, few: Error, many: Error) {
    (have < want ==> r == Err(few)) && (have > want ==> r == Err(many))
  }

  /** Equal nonzero lengths, else which error. */
  ghost predicate SizesJudged(r: Result<()>, lens: seq<nat>) {
    && (|lens| > 0 && lens[0] == 0 ==> r == Err(EmptyShard))
    && (|lens| > 0 && lens[0] > 0 && (exists j :: 0 <= j < |lens| && lens[j] != lens[0]) ==> r == Err(IncorrectShardSize))
  }

  /** One list of shards: accepted exactly when it has the right number of them, all of one nonzero
      length; otherwise the error of the first check that fails. */
  ghost predicate Judged(r: Result<()>, lens: seq<nat>, want: nat, few: Error, many: Error) {
    && (r.Ok? <==> |lens| == want && Uniform(lens))
    && CountJudged(r, |lens|, want, few, many)
    && (|lens| == want ==> SizesJudged(r, lens))
  }

  /** Two lists that must also agree with each other. */
  ghost predicate PairJudged(r: Result<()>, a: seq<nat>, wantA: nat, fewA: Error, manyA: Error,
                             b: seq<nat>, wantB: nat, fewB: Error, manyB: Error) {
    && (r.Ok? <==> |a| == wantA && |b| == wantB && Uniform(a) && Uniform(b) && a[0] == b[0])
    && CountJudged(r, |a|, wantA, fewA, manyA)
    && (|a| == wantA ==> CountJudged(r, |b|, wantB, fewB, manyB))
    && (|a| == wantA && |b| == wantB ==> SizesJudged(r, a))
    && (|a| == wantA && |b| == wantB && Uniform(a) ==> SizesJudged(r, b))
    && (|a| == wantA && |b| == wantB && Uniform(a) && Uniform(b) && a[0] != b[0] ==> r == Err(IncorrectShardSize))
  }

  /** One data shard against the parity shards. */
  ghost predicate SingleJudged(r: Result<()>, i: nat, k: nat, single: nat, parity: seq<nat>, want: nat) {
    if i >= k then r == Err(InvalidIndex)
    else
      && (r.Ok? <==> |parity| == want && Uniform(parity) && parity[0] == single)
      && CountJudged(r, |parity|, want, TooFewParityShards, TooManyParityShards)
      && (|parity| == want ==> SizesJudged(r, parity))
      && (|parity| == want && Uniform(parity) && parity[0] != single ==> r == Err(IncorrectShardSize))
  }

  // ---- slice arithmetic (trait defaults) ----

  method MulSlice<E>(f: Field<E>, c: E, input: array<E>, out: array<E>)
    requires input.Length == out.Length && input != out
    modifies out
    ensures out[..] == Scale(f, c, input[..])
  {
    for i := 0 to out.Length
      invariant forall j :: 0 <= j < i ==> out[j] == f.mul(c, input[j])
    {
      out[i] := f.mul(c, input[i]);
    }
  }

  method MulSliceAdd<E>(f: Field<E>, c: E, input: array<E>, out: array<E>)
    requires input.Length == out.Length && input != out
    modifies out
    ensures out[..] == Plus(f, old(out[..]), Scale(f, c, input[..]))
  {
    for i := 0 to out.Length
      invariant forall j :: 0 <= j < i ==> out[j] == f.add(old(out[j]), f.mul(c, input[j]))
      invariant forall j :: i <= j < out.Length ==> out[j] == old(out[j])
    {
      out[i] := f.add(out[i], f.mul(c, input[i]));
    }
  }

  // ---- coding ----

  /** One output after input number i: overwritten by the first input, accumulated after. */
  function CodeStep<E>(f: Field<E>, c: E, i: nat, input: Vec<E>, out: Vec<E>): (r: Vec<E>)
    requires |input| == |out|
    ensures |r| == |out|
  {
    if i == 0 then Scale(f, c, input) else Plus(f, out, Scale(f, c, input))
  }

  /** The partial sum over the first i inputs grows by one CodeStep. */
  lemma CodeStepSums<E(!new)>(f: Field<E>, row: Vec<E>, d: Mat<E>, i: nat, len: nat, out: Vec<E>)
    requires Lawful(f) && IsMat(d, |row|, len) && i < |row| && |out| == len
    requires i > 0 ==> out == VecMat(f, row[..i], d[..i], len)
    ensures CodeStep(f, row[i], i, d[i], out) == VecMat(f, row[..i + 1], d[..i + 1], len)
  {
    forall j | 0 <= j < len
      ensures CodeStep(f, row[i], i, d[i], out)[j] == VecMat(f, row[..i + 1], d[..i + 1], len)[j]
    {
      var r, c := row[..i + 1], Col(d[..i + 1], j);
      DotGrows(f, r, c);
      assert r[..i] == row[..i] && c[..i] == Col(d[..i], j);
      AddZero(f, f.mul(row[i], d[i][j]));
    }
  }

  lemma DotGrows<E>(f: Field<E>, a: Vec<E>, b: Vec<E>)
    requires |a| == |b| > 0
    ensures var n := |a| - 1; Dot(f, a, b) == f.add(Dot(f, a[..n], b[..n]), f.mul(a[n], b[n]))
    ensures |a| == 1 ==> Dot(f, a[..|a| - 1], b[..|b| - 1]) == f.zero
  { }

  method CodeSingleSlice<E(!new)>(f: Field<E>, rows: Mat<E>, i: nat, input: array<E>, outputs: seq<array<E>>)
    requires |rows| == |outputs| && forall r :: 0 <= r < |rows| ==> i < |rows[r]|
    requires Disjoint(outputs) && AllLen(outputs, input.Length) && input !in outputs
    modifies outputs
    ensures forall r :: 0 <= r < |outputs| ==>
      outputs[r][..] == CodeStep(f, rows[r][i], i, input[..], old(outputs[r][..]))
  {
    for r := 0 to |outputs|
      invariant forall q :: 0 <= q < r ==>
        outputs[q][..] == CodeStep(f, rows[q][i], i, input[..], old(outputs[q][..]))
      invariant forall q :: r <= q < |outputs| ==> outputs[q][..] == old(outputs[q][..])
    {
      if i == 0 {
        MulSlice(f, rows[r][i], input, outputs[r]);
      } else {
        MulSliceAdd(f, rows[r][i], input, outputs[r]);
      }
    }
  }

  /** Every output becomes its row times the inputs. */
  method CodeSomeSlices<E(!new)>(f: Field<E>, rows: Mat<E>, inputs: seq<array<E>>, outputs: seq<array<E>>, len: nat)
    requires Lawful(f) && |inputs| > 0 && IsMat(rows, |outputs|, |inputs|)
    requires AllLen(inputs, len) && AllLen(outputs, len) && Disjoint(outputs)
    requires forall i :: 0 <= i < |inputs| ==> inputs[i] !in outputs
    modifies outputs
    ensures Contents(inputs) == old(Contents(inputs))
    ensures Contents(outputs) == MatMul(f, rows, Contents(inputs), len)
  {
    ghost var d := Contents(inputs);
    for i := 0 to |inputs|
      invariant Contents(inputs) == d
      invariant i > 0 ==> forall r :: 0 <= r < |outputs| ==> outputs[r][..] == VecMat(f, rows[r][..i], d[..i], len)
    {
      label before:
      CodeSingleSlice(f, rows, i, inputs[i], outputs);
      assert inputs[i][..] == d[i];
      forall r | 0 <= r < |outputs| ensures outputs[r][..] == VecMat(f, rows[r][..i + 1], d[..i + 1], len) {
        CodeStepSums(f, rows[r], d, i, len, old@before(outputs[r][..]));
      }
    }
    forall r | 0 <= r < |outputs| ensures outputs[r][..] == MatMul(f, rows, d, len)[r] {
      assert rows[r][..|inputs|] == rows[r] && d[..|inputs|] == d;
    }
  }

  /** Data followed by its coded parity is the codeword. */
  lemma EncodedIsCodeword<E(!new)>(f: Field<E>, m: Mat<E>, d: Mat<E>, len: nat, c: Mat<E>)
    requires Lawful(f) && CodingMatrix(f, m, |d|) && IsMat(d, |d|, len) && |c| == |m|
    requires c[..|d|] == d && c[|d|..] == MatMul(f, m[|d|..], d, len)
    ensures c == Codeword(f, m, d, len)
  {
    var w := Codeword(f, m, d, len);
    Systematic(f, m, d, len);
    forall i | 0 <= i < |m| ensures c[i] == w[i] {
      if i < |d| {
        assert c[i] == c[..|d|][i] && w[i] == w[..|d|][i];
      } else {
        assert c[i] == c[|d|..][i - |d|];
      }
    }
  }

  lemma VerdictIsCodeword<E(!new)>(f: Field<E>, m: Mat<E>, d: Mat<E>, len: nat, all: Mat<E>, parity: Mat<E>)
    requires Lawful(f) && CodingMatrix(f, m, |d|) && IsMat(d, |d|, len) && |all| == |m|
    requires all[..|d|] == d && parity == MatMul(f, m[|d|..], d, len)
    ensures parity == all[|d|..] <==> all == Codeword(f, m, d, len)
  {
    if parity == all[|d|..] {
      EncodedIsCodeword(f, m, d, len, all);
    }
  }

  method SameShards<E(==)>(a: seq<array<E>>, b: seq<array<E>>) returns (same: bool)
    requires |a| == |b|
    ensures same <==> Contents(a) == Contents(b)
  {
    for i := 0 to |a|
      invariant forall j :: 0 <= j < i ==> a[j][..] == b[j][..]
    {
      if a[i][..] != b[i][..] {
        assert Contents(a)[i] != Contents(b)[i];
        return false;
      }
    }
    same := true;
  }

  // ---- the decode-matrix cache ----

  datatype CacheEntry<E> = CacheEntry(key: seq<nat>, matrix: Mat<E>)

  const CACHE_CAPACITY: nat := 254

  /** An entry is sound when it is the inverse of the rows of the first k shards that are
      present under the erasure pattern its key names. */
  ghost predicate EntryOk<E>(f: Field<E>, m: Mat<E>, k: nat, e: CacheEntry<E>) {
    exists present: seq<bool> ::
      && |present| == |m| && Erasures.Invalid(present) == e.key && k <= |Erasures.Valid(present)|
      && (forall i :: 0 <= i < k ==> Erasures.Valid(present)[i] < |m|)
      && IsInverse(f, Rows(m, Erasures.Valid(present)[..k]), e.matrix, k)
  }

  /** A sound entry found under the missing indices of `present` is the right inverse,
      whatever pattern it was stored for. */
  lemma EntryDecodes<E(!new)>(f: Field<E>, m: Mat<E>, k: nat, e: CacheEntry<E>, present: seq<bool>)
    requires EntryOk(f, m, k, e) && |present| == |m| && Erasures.Invalid(present) == e.key
    ensures k <= |Erasures.Valid(present)|
    ensures forall i :: 0 <= i < k ==> Erasures.Valid(present)[i] < |m|
    ensures IsInverse(f, Rows(m, Erasures.Valid(present)[..k]), e.matrix, k)
  {
    var p: seq<bool> :|
      && |p| == |m| && Erasures.Invalid(p) == e.key && k <= |Erasures.Valid(p)|
      && (forall i :: 0 <= i < k ==> Erasures.Valid(p)[i] < |m|)
      && IsInverse(f, Rows(m, Erasures.Valid(p)[..k]), e.matrix, k);
    Erasures.InvalidDeterminesMask(p, present, |m|);
    assert p == present;
  }

  /** The cached matrix equals the one a fresh inversion would give. */
  lemma CachedEqualsFresh<E(!new)>(f: Field<E>, m: Mat<E>, k: nat, e: CacheEntry<E>, present: seq<bool>, inv: Mat<E>)
    requires Lawful(f) && EntryOk(f, m, k, e) && |present| == |m| && Erasures.Invalid(present) == e.key
    requires k <= |Erasures.Valid(present)| && IsChoice(Erasures.Valid(present)[..k], k, |m|)
    requires IsInverse(f, Rows(m, Erasures.Valid(present)[..k]), inv, k)
    ensures e.matrix == inv
  {
    hide EntryOk, IsInverse;
    EntryDecodes(f, m, k, e, present);
    InverseUnique(f, Rows(m, Erasures.Valid(present)[..k]), e.matrix, inv, k);
  }

  lemma EntryFor<E(!new)>(f: Field<E>, m: Mat<E>, k: nat, key: seq<nat>, inv: Mat<E>, present: seq<bool>)
    requires |present| == |m| && Erasures.Invalid(present) == key && k <= |Erasures.Valid(present)|
    requires IsChoice(Erasures.Valid(present)[..k], k, |m|)
    requires IsInverse(f, Rows(m, Erasures.Valid(present)[..k]), inv, k)
    ensures EntryOk(f, m, k, CacheEntry(key, inv))
  {
    forall i | 0 <= i < k ensures Erasures.Valid(present)[i] < |m| {
      assert Erasures.Valid(present)[i] == Erasures.Valid(present)[..k][i];
    }
  }

  // ---- reconstruction: what is checked ----

  /** The scan over the shards, in order: sizes of the present ones must be nonzero and equal. */
  function ScanSizes(lens: seq<Option<nat>>, i: nat, size: Option<nat>): (r: Result<()>)
    requires i <= |lens|
    decreases |lens| - i
  {
    if i == |lens| then Ok(())
    else if lens[i].None? then ScanSizes(lens, i + 1, size)
    else if lens[i].value == 0 then Err(EmptyShard)
    else if size.Some? && lens[i].value != size.value then Err(IncorrectShardSize)
    else ScanSizes(lens, i + 1, lens[i])
  }

  function Mask<T>(s: seq<Option<T>>): (p: seq<bool>)
    ensures |p| == |s| && forall i :: 0 <= i < |s| ==> p[i] == s[i].Some?
  {
    seq(|s|, i requires 0 <= i < |s| => s[i].Some?)
  }

  function ReconstructCheck(lens: seq<Option<nat>>, k: nat, n: nat): (r: Result<()>) {
    var count := CheckCount(|lens|, n, TooFewShards, TooManyShards);
    if count.Err? then count
    else
      var scan := ScanSizes(lens, 0, None);
      if scan.Err? then scan
      else if |Erasures.Valid(Mask(lens))| < k then Err(TooFewShardsPresent)
      else Ok(())
  }

  /** Shard i is there and is empty or differs from one before it. */
  predicate BadAt(lens: seq<Option<nat>>, i: nat)
    requires i < |lens|
  {
    lens[i].Some? && (lens[i].value == 0 || exists j :: 0 <= j < i && lens[j].Some? && lens[j].value != lens[i].value)
  }

  ghost predicate FirstBad(lens: seq<Option<nat>>, i: nat)
    requires i < |lens|
  {
    BadAt(lens, i) && forall j :: 0 <= j < i ==> !BadAt(lens, j)
  }

  /** The verdict on shards of which some are missing: the number of slots, the first bad shard, and
      then whether enough are left. */
  ghost predicate MissingJudged(r: Result<()>, lens: seq<Option<nat>>, k: nat, n: nat) {
    && CountJudged(r, |lens|, n, TooFewShards, TooManyShards)
    && (|lens| == n ==>
          && (forall i :: 0 <= i < |lens| && FirstBad(lens, i) ==>
                r == Err(if lens[i].value == 0 then EmptyShard else IncorrectShardSize))
          && ((forall i :: 0 <= i < |lens| ==> !BadAt(lens, i)) ==>
                r == if |Erasures.Valid(Mask(lens))| < k then Err(TooFewShardsPresent) else Ok(())))
  }

  /** The size carried by the scan is that of every shard present so far. */
  lemma {:induction false} ScanJudges(lens: seq<Option<nat>>, i: nat, size: Option<nat>)
    requires i <= |lens| && forall j :: 0 <= j < i ==> !BadAt(lens, j)
    requires forall j :: 0 <= j < i && lens[j].Some? ==> size == lens[j]
    requires size.Some? ==> exists j :: 0 <= j < i && lens[j].Some?
    ensures forall b :: i <= b < |lens| && FirstBad(lens, b) ==>
      ScanSizes(lens, i, size) == Err(if lens[b].value == 0 then EmptyShard else IncorrectShardSize)
    ensures (forall j :: 0 <= j < |lens| ==> !BadAt(lens, j)) ==> ScanSizes(lens, i, size) == Ok(())
    decreases |lens| - i
  {
    if i < |lens| {
      if size.Some? {
        var j :| 0 <= j < i && lens[j].Some?;
        assert lens[j].value == size.value;
      }
      if BadAt(lens, i) {
        assert FirstBad(lens, i);
        forall b | i <= b < |lens| && FirstBad(lens, b)
          ensures ScanSizes(lens, i, size) == Err(if lens[b].value == 0 then EmptyShard else IncorrectShardSize)
        {
          assert b == i;
        }
      } else {
        ScanJudges(lens, i + 1, if lens[i].Some? then lens[i] else size);
      }
    }
  }

  lemma CheckJudges(lens: seq<Option<nat>>, k: nat, n: nat)
    ensures MissingJudged(ReconstructCheck(lens, k, n), lens, k, n)
  {
    ScanJudges(lens, 0, None);
    hide BadAt;
  }

  /** Shard slots: null is a shard that is not there. */
  ghost function View<E>(slots: seq<array?<E>>): (v: seq<Option<Vec<E>>>)
    reads set i | 0 <= i < |slots| && slots[i] != null :: slots[i]
    ensures |v| == |slots|
    ensures forall i :: 0 <= i < |v| ==>
      v[i] == if slots[i] == null then None else Some(slots[i][..])
  {
    seq(|slots|, i requires 0 <= i < |slots|
                   reads set j | 0 <= j < |slots| && slots[j] != null :: slots[j]
                   => if slots[i] == null then None else Some(slots[i][..]))
  }

  ghost function ViewLens<E>(v: seq<Option<Vec<E>>>): (r: seq<Option<nat>>)
    ensures |r| == |v|
    ensures forall i :: 0 <= i < |v| ==> r[i] == if v[i].None? then None else Some(|v[i].value|)
  {
    seq(|v|, i requires 0 <= i < |v| => if v[i].None? then None else Some(|v[i].value|))
  }

  /** Every shard that is there is the one of the codeword c. */
  ghost predicate Agrees<E>(v: seq<Option<Vec<E>>>, c: Mat<E>) {
    |v| == |c| && forall i :: 0 <= i < |v| && v[i].Some? ==> v[i].value == c[i]
  }

  /** Non-null slots do not alias. */
  ghost predicate SlotsDisjoint<E>(slots: seq<array?<E>>) {
    forall i, j :: 0 <= i < j < |slots| && slots[i] != null ==> slots[i] != slots[j]
  }

  /** The shards handed to reconstruction, some of them missing. */
  class ShardSet<E> {
    var slots: seq<array?<E>>

    constructor (slots: seq<array?<E>>)
      ensures this.slots == slots
    {
      this.slots := slots;
    }
  }

  ghost predicate AllSizes<E>(slots: seq<array?<E>>, size: nat) {
    forall i :: 0 <= i < |slots| && slots[i] != null ==> slots[i].Length == size
  }

  /** First pass: count the present shards and check their sizes. */
  method Survey<E>(slots: seq<array?<E>>) returns (count: nat, size: Option<nat>, res: Result<()>)
    ensures res == ScanSizes(ViewLens(View(slots)), 0, None)
    ensures res.Ok? ==> count == |Erasures.Valid(Mask(View(slots)))|
    ensures res.Ok? && count > 0 ==> size.Some? && size.value > 0 && AllSizes(slots, size.value)
  {
    ghost var lens, p := ViewLens(View(slots)), Mask(View(slots));
    count, size := 0, None;
    for i := 0 to |slots|
      invariant ScanSizes(lens, 0, None) == ScanSizes(lens, i, size)
      invariant count == |Erasures.Indices(p, true, i)|
      invariant count > 0 <==> size.Some?
      invariant size.Some? ==> size.value > 0
      invariant forall j :: 0 <= j < i && slots[j] != null ==> size.Some? && slots[j].Length == size.value
    {
      var slot := slots[i];
      if slot != null {
        if slot.Length == 0 { return count, size, Err(EmptyShard); }
        count := count + 1;
        if size.Some? && slot.Length != size.value { return count, size, Err(IncorrectShardSize); }
        size := Some(slot.Length);
      }
    }
    res := Ok(());
  }

  /** The buffers picked from the slots at the indices idx. */
  ghost predicate PickedFrom<E>(picked: seq<array<E>>, slots: seq<array?<E>>, idx: seq<nat>) {
    |picked| == |idx| && forall t :: 0 <= t < |idx| ==> idx[t] < |slots| && picked[t] == slots[idx[t]]
  }

  lemma PickedAppend<E>(picked: seq<array<E>>, slots: seq<array?<E>>, idx: seq<nat>, i: nat, b: array<E>)
    requires PickedFrom(picked, slots, idx) && i < |slots| && slots[i] == b
    ensures PickedFrom(picked + [b], slots, idx + [i])
  { }

  lemma PickedKeeps<E>(picked: seq<array<E>>, slots: seq<array?<E>>, idx: seq<nat>, i: nat, b: array?<E>)
    requires PickedFrom(picked, slots, idx) && i < |slots| && forall t :: 0 <= t < |idx| ==> idx[t] < i
    ensures PickedFrom(picked, slots[i := b], idx)
  { }

  function Take<T>(s: seq<T>, k: nat): (r: seq<T>) {
    if |s| <= k then s else s[..k]
  }

  /** The lists that the second pass builds. */
  datatype Groups<E> = Groups(
    slots: seq<array?<E>>,
    sub: seq<array<E>>,
    missingData: seq<array<E>>,
    missingParity: seq<array<E>>,
    valid: seq<nat>,
    invalid: seq<nat>)

  /** Where the slots stand after the first i shards: present ones are untouched, missing ones
      that will be rebuilt have a buffer. */
  ghost predicate SlotsOk<E>(was: seq<array?<E>>, slots: seq<array?<E>>, p: seq<bool>, i: nat, k: nat, dataOnly: bool, size: nat) {
    && |was| == |slots| == |p| && AllSizes(slots, size) && SlotsDisjoint(slots)
    && forall j :: 0 <= j < |p| ==>
      if p[j] || i <= j || (k <= j && dataOnly) then slots[j] == was[j] else slots[j] != null
  }

  /** The groups after the first i shards, for the erasure pattern p and k data shards. */
  ghost predicate Grouped<E>(g: Groups<E>, was: seq<array?<E>>, p: seq<bool>, i: nat, k: nat, dataOnly: bool, size: nat) {
    && i <= |p| && k <= |p| && SlotsOk(was, g.slots, p, i, k, dataOnly, size)
    && g.valid == Take(Erasures.Indices(p, true, i), k) && g.invalid == Erasures.Indices(p, false, i)
    && PickedFrom(g.sub, was, g.valid)
    && var n := |Erasures.Indices(p, false, if i < k then i else k)|;
    && n <= |g.invalid|
    && PickedFrom(g.missingData, g.slots, g.invalid[..n])
    && PickedFrom(g.missingParity, g.slots, if dataOnly then [] else g.invalid[n..])
  }

  function AddPresent<E>(g: Groups<E>, i: nat, k: nat, b: array<E>): (r: Groups<E>) {
    if |g.sub| < k then g.(sub := g.sub + [b], valid := g.valid + [i]) else g
  }

  function AddMissing<E>(g: Groups<E>, i: nat): (r: Groups<E>) {
    g.(invalid := g.invalid + [i])
  }

  function AddInitialized<E>(g: Groups<E>, i: nat, k: nat, b: array<E>): (r: Groups<E>)
    requires i < |g.slots|
  {
    var h := g.(slots := g.slots[i := b], invalid := g.invalid + [i]);
    if i < k then h.(missingData := g.missingData + [b]) else h.(missingParity := g.missingParity + [b])
  }

  lemma AddPresentGrouped<E>(g: Groups<E>, was: seq<array?<E>>, p: seq<bool>, i: nat, k: nat, dataOnly: bool, size: nat, b: array<E>)
    requires Grouped(g, was, p, i, k, dataOnly, size) && i < |p| && p[i] && was[i] == b
    ensures Grouped(AddPresent(g, i, k, b), was, p, i + 1, k, dataOnly, size)
  {
    hide PickedFrom;
    var h := AddPresent(g, i, k, b);
    PickedAppend(g.sub, was, g.valid, i, b);
    assert SlotsOk(was, h.slots, p, i + 1, k, dataOnly, size);
    assert |g.sub| == |g.valid| by { PickedLen(g.sub, was, g.valid); }
  }

  lemma PickedLen<E>(picked: seq<array<E>>, slots: seq<array?<E>>, idx: seq<nat>)
    requires PickedFrom(picked, slots, idx)
    ensures |picked| == |idx|
  { }

  lemma PickedAt<E>(picked: seq<array<E>>, slots: seq<array?<E>>, idx: seq<nat>, t: nat)
    requires PickedFrom(picked, slots, idx) && t < |idx|
    ensures |picked| == |idx| && idx[t] < |slots| && picked[t] == slots[idx[t]]
  { }

  lemma AddMissingGrouped<E>(g: Groups<E>, was: seq<array?<E>>, p: seq<bool>, i: nat, k: nat, size: nat)
    requires Grouped(g, was, p, i, k, true, size) && k <= i < |p| && !p[i]
    ensures Grouped(AddMissing(g, i), was, p, i + 1, k, true, size)
  {
    var h := AddMissing(g, i);
    assert SlotsOk(was, h.slots, p, i + 1, k, true, size);
    var n := |Erasures.Indices(p, false, k)|;
    assert h.invalid[..n] == g.invalid[..n];
  }

  lemma SlotsOkInit<E>(was: seq<array?<E>>, slots: seq<array?<E>>, p: seq<bool>, i: nat, k: nat, dataOnly: bool, size: nat, b: array<E>)
    requires SlotsOk(was, slots, p, i, k, dataOnly, size) && i < |p| && !p[i] && (i < k || !dataOnly)
    requires b.Length == size && forall j :: 0 <= j < |slots| ==> slots[j] != b
    ensures SlotsOk(was, slots[i := b], p, i + 1, k, dataOnly, size)
  { }

  lemma GroupedIntro<E>(g: Groups<E>, was: seq<array?<E>>, p: seq<bool>, i: nat, k: nat, dataOnly: bool, size: nat, n: nat)
    requires i <= |p| && k <= |p| && SlotsOk(was, g.slots, p, i, k, dataOnly, size)
    requires g.valid == Take(Erasures.Indices(p, true, i), k) && g.invalid == Erasures.Indices(p, false, i)
    requires PickedFrom(g.sub, was, g.valid)
    requires n == |Erasures.Indices(p, false, if i < k then i else k)| <= |g.invalid|
    requires PickedFrom(g.missingData, g.slots, g.invalid[..n])
    requires PickedFrom(g.missingParity, g.slots, if dataOnly then [] else g.invalid[n..])
    ensures Grouped(g, was, p, i, k, dataOnly, size)
  { }

  /** A missing shard joins the invalid list and no other. */
  lemma MissingLists(p: seq<bool>, i: nat, k: nat)
    requires i < |p| && !p[i]
    ensures Erasures.Indices(p, false, i + 1) == Erasures.Indices(p, false, i) + [i]
    ensures Erasures.Indices(p, true, i + 1) == Erasures.Indices(p, true, i)
  { }

  lemma GroupedElim<E>(g: Groups<E>, was: seq<array?<E>>, p: seq<bool>, i: nat, k: nat, dataOnly: bool, size: nat, n: nat)
    requires Grouped(g, was, p, i, k, dataOnly, size) && i <= |p| && k <= |p| && n == |Erasures.Indices(p, false, if i < k then i else k)|
    ensures SlotsOk(was, g.slots, p, i, k, dataOnly, size) && |g.slots| == |p| && n <= |g.invalid|
    ensures g.valid == Take(Erasures.Indices(p, true, i), k) && g.invalid == Erasures.Indices(p, false, i)
    ensures PickedFrom(g.sub, was, g.valid) && PickedFrom(g.missingData, g.slots, g.invalid[..n])
    ensures PickedFrom(g.missingParity, g.slots, if dataOnly then [] else g.invalid[n..])
  { }

  lemma AddDataGrouped<E>(g: Groups<E>, was: seq<array?<E>>, p: seq<bool>, i: nat, k: nat, dataOnly: bool, size: nat, b: array<E>)
    requires Grouped(g, was, p, i, k, dataOnly, size) && i < |p| && !p[i] && i < k <= |p| && |g.slots| == |p|
    requires b.Length == size && forall j :: 0 <= j < |g.slots| ==> g.slots[j] != b
    ensures Grouped(AddInitialized(g, i, k, b), was, p, i + 1, k, dataOnly, size)
  {
    hide Grouped, PickedFrom, SlotsOk, SlotsDisjoint, AllSizes, Take, Erasures.Indices;
    var h, n := AddInitialized(g, i, k, b), |Erasures.Indices(p, false, i)|;
    GroupedElim(g, was, p, i, k, dataOnly, size, n);
    SlotsOkInit(was, g.slots, p, i, k, dataOnly, size, b);
    MissingLists(p, i, k);
    Erasures.IndicesSorted(p, false, i);
    assert g.invalid[..n] == g.invalid && g.invalid[n..] == [];
    assert h.invalid[..n + 1] == h.invalid && h.invalid[n + 1..] == [];
    PickedKeeps(g.missingData, g.slots, g.invalid, i, b);
    PickedKeeps(g.missingParity, g.slots, [], i, b);
    PickedAppend(g.missingData, h.slots, g.invalid, i, b);
    GroupedIntro(h, was, p, i + 1, k, dataOnly, size, n + 1);
  }

  lemma AddParityGrouped<E>(g: Groups<E>, was: seq<array?<E>>, p: seq<bool>, i: nat, k: nat, size: nat, b: array<E>)
    requires Grouped(g, was, p, i, k, false, size) && k <= i < |p| && !p[i] && |g.slots| == |p|
    requires b.Length == size && forall j :: 0 <= j < |g.slots| ==> g.slots[j] != b
    ensures Grouped(AddInitialized(g, i, k, b), was, p, i + 1, k, false, size)
  {
    hide Grouped, PickedFrom, SlotsOk, SlotsDisjoint, AllSizes, Take, Erasures.Indices;
    var h, n := AddInitialized(g, i, k, b), |Erasures.Indices(p, false, k)|;
    GroupedElim(g, was, p, i, k, false, size, n);
    SlotsOkInit(was, g.slots, p, i, k, false, size, b);
    MissingLists(p, i, k);
    Erasures.IndicesSorted(p, false, i);
    var low, high := g.invalid[..n], g.invalid[n..];
    AppendSplit(g.invalid, n, i);
    PickedKeeps(g.missingData, g.slots, low, i, b);
    PickedKeeps(g.missingParity, g.slots, high, i, b);
    PickedAppend(g.missingParity, h.slots, high, i, b);
    GroupedIntro(h, was, p, i + 1, k, false, size, n);
  }

  lemma AppendSplit(s: seq<nat>, n: nat, i: nat)
    requires n <= |s|
    ensures (s + [i])[..n] == s[..n] && (s + [i])[n..] == s[n..] + [i]
  { }

  /** Second pass: initialise the missing shards that will be rebuilt and group the buffers. */
  method Separate<E>(f: Field<E>, was: seq<array?<E>>, size: nat, k: nat, dataOnly: bool, ghost p: seq<bool>)
    returns (g: Groups<E>)
    requires |was| == |p| && (forall j :: 0 <= j < |p| ==> (p[j] <==> was[j] != null))
    requires SlotsDisjoint(was) && AllSizes(was, size) && k <= |p|
    ensures Grouped(g, was, p, |p|, k, dataOnly, size)
    ensures |g.slots| == |was| && forall j :: 0 <= j < |p| && !p[j] && g.slots[j] != null ==> fresh(g.slots[j])
  {
    hide Grouped;
    g := Groups(was, [], [], [], [], []);
    GroupedStart(was, p, k, dataOnly, size);
    for i := 0 to |was|
      invariant Grouped(g, was, p, i, k, dataOnly, size)
      invariant |g.slots| == |was| && forall j :: i <= j < |p| ==> g.slots[j] == was[j]
      invariant forall j :: 0 <= j < i && !p[j] && g.slots[j] != null ==> fresh(g.slots[j])
    {
      var slot := g.slots[i];
      if slot != null {
        AddPresentGrouped(g, was, p, i, k, dataOnly, size, slot);
        g := AddPresent(g, i, k, slot);
      } else if k <= i && dataOnly {
        AddMissingGrouped(g, was, p, i, k, size);
        g := AddMissing(g, i);
      } else {
        var b := new E[size](_ => f.zero);
        if i < k {
          AddDataGrouped(g, was, p, i, k, dataOnly, size, b);
        } else {
          AddParityGrouped(g, was, p, i, k, size, b);
        }
        g := AddInitialized(g, i, k, b);
      }
    }
  }

  lemma GroupedStart<E>(was: seq<array?<E>>, p: seq<bool>, k: nat, dataOnly: bool, size: nat)
    requires |was| == |p| && SlotsDisjoint(was) && AllSizes(was, size) && k <= |p|
    ensures Grouped(Groups(was, [], [], [], [], []), was, p, 0, k, dataOnly, size)
  { }

  lemma GroupedEnd<E>(g: Groups<E>, was: seq<array?<E>>, p: seq<bool>, k: nat, dataOnly: bool, size: nat)
    requires Grouped(g, was, p, |p|, k, dataOnly, size) && k <= |Erasures.Valid(p)|
    ensures k <= |p| && |g.slots| == |was| == |p| && forall j :: 0 <= j < |p| ==>
      if p[j] || (k <= j && dataOnly) then g.slots[j] == was[j] else g.slots[j] != null
    ensures g.valid == Erasures.Valid(p)[..k] && g.invalid == Erasures.Invalid(p)
  { }

  /** The survivors group holds the first k present shards. */
  lemma SurvivorsPicked<E>(g: Groups<E>, was: seq<array?<E>>, p: seq<bool>, k: nat, dataOnly: bool, size: nat)
    requires Grouped(g, was, p, |p|, k, dataOnly, size) && k <= |Erasures.Valid(p)|
    requires forall j :: 0 <= j < |p| ==> (p[j] <==> was[j] != null)
    ensures |g.sub| == k && |g.slots| == |was| == |p| && forall t :: 0 <= t < k ==>
      g.valid[t] < |p| && p[g.valid[t]] && g.sub[t] == was[g.valid[t]]
    ensures AllLen(g.sub, size) && PickedFrom(g.sub, g.slots, g.valid)
    ensures forall i :: 0 <= i < k ==> g.slots[i] != null && g.slots[i].Length == size
  {
    Erasures.IndicesSorted(p, true, |p|);
  }

  lemma PickedDisjoint<E>(a: seq<array<E>>, slots: seq<array?<E>>, idx: seq<nat>)
    requires PickedFrom(a, slots, idx) && SlotsDisjoint(slots) && Distinct(idx)
    ensures Disjoint(a)
  {
    forall i, j | 0 <= i < j < |a| ensures a[i] != a[j] {
      assert idx[i] != idx[j];
      if idx[i] < idx[j] { } else { assert idx[j] < idx[i]; }
    }
  }

  lemma PickedApart<E>(a: seq<array<E>>, ia: seq<nat>, b: seq<array<E>>, ib: seq<nat>, slots: seq<array?<E>>)
    requires PickedFrom(a, slots, ia) && PickedFrom(b, slots, ib) && SlotsDisjoint(slots)
    requires forall i, j :: 0 <= i < |ia| && 0 <= j < |ib| ==> ia[i] != ib[j]
    ensures forall i, j :: 0 <= i < |a| && 0 <= j < |b| ==> a[i] != b[j]
  {
    forall i, j | 0 <= i < |a| && 0 <= j < |b| ensures a[i] != b[j] {
      assert ia[i] != ib[j];
      if ia[i] < ib[j] { } else { assert ib[j] < ia[i]; }
    }
  }

  /** The missing indices split into those of data and those of parity shards. */
  lemma InvalidSplit(p: seq<bool>, k: nat)
    requires k <= |p|
    ensures var inv, n := Erasures.Invalid(p), |Erasures.Indices(p, false, k)|;
      && n <= |inv| && inv[..n] == Erasures.Indices(p, false, k)
      && (forall i :: 0 <= i < |inv| ==> inv[i] < |p| && !p[inv[i]])
      && (forall i :: 0 <= i < n ==> inv[i] < k)
      && (forall i :: n <= i < |inv| ==> k <= inv[i])
      && Distinct(inv)
  {
    Erasures.IndicesSorted(p, false, |p|);
    Erasures.IndicesSorted(p, false, k);
    Erasures.IndicesPrefix(p, false, k, |p|);
    Erasures.LaterIndices(p, false, k, |p|);
    var inv, n := Erasures.Invalid(p), |Erasures.Indices(p, false, k)|;
    forall i | 0 <= i < n ensures inv[i] < k {
      assert inv[i] == Erasures.Indices(p, false, k)[i];
    }
  }

  /** Which slots the missing groups come from. */
  lemma MissingPicked<E>(g: Groups<E>, was: seq<array?<E>>, p: seq<bool>, k: nat, dataOnly: bool, size: nat)
    requires Grouped(g, was, p, |p|, k, dataOnly, size)
    ensures |g.slots| == |p| && k <= |p| && AllSizes(g.slots, size) && SlotsDisjoint(g.slots)
    ensures g.invalid == Erasures.Invalid(p)
    ensures var n := |g.missingData|;
      && n == |Erasures.Indices(p, false, k)| && n <= |g.invalid|
      && PickedFrom(g.missingData, g.slots, g.invalid[..n])
      && PickedFrom(g.missingParity, g.slots, if dataOnly then [] else g.invalid[n..])
  { }

  lemma DistinctSlice(s: seq<nat>, n: nat)
    requires Distinct(s) && n <= |s|
    ensures Distinct(s[..n]) && Distinct(s[n..])
  { }

  /** The groups name different buffers. */
  lemma GroupsApart<E>(g: Groups<E>, was: seq<array?<E>>, p: seq<bool>, k: nat, dataOnly: bool, size: nat)
    requires Grouped(g, was, p, |p|, k, dataOnly, size) && k <= |Erasures.Valid(p)|
    requires forall j :: 0 <= j < |p| ==> (p[j] <==> was[j] != null)
    ensures Disjoint(g.missingData) && Disjoint(g.missingParity)
    ensures forall i, j :: 0 <= i < |g.sub| && 0 <= j < |g.missingData| ==> g.sub[i] != g.missingData[j]
    ensures |g.slots| == |p| && k <= |p|
    ensures forall i, j :: 0 <= i < k && 0 <= j < |g.missingParity| ==> g.slots[i] != g.missingParity[j]
  {
    hide *;
    MissingPicked(g, was, p, k, dataOnly, size);
    InvalidSplit(p, k);
    var n := |g.missingData|;
    DistinctSlice(g.invalid, n);
    PickedDisjoint(g.missingData, g.slots, g.invalid[..n]);
    if dataOnly {
      NoneDisjoint(g.missingParity, g.slots);
    } else {
      PickedDisjoint(g.missingParity, g.slots, g.invalid[n..]);
      DataApart(g.slots, g.missingParity, g.invalid[n..], k);
    }
    SubApart(g, was, p, k, dataOnly, size);
  }

  lemma NoneDisjoint<E>(a: seq<array<E>>, slots: seq<array?<E>>)
    requires PickedFrom(a, slots, [])
    ensures a == [] && Disjoint(a)
  { }

  lemma DataApart<E>(slots: seq<array?<E>>, b: seq<array<E>>, ib: seq<nat>, k: nat)
    requires PickedFrom(b, slots, ib) && SlotsDisjoint(slots) && k <= |slots|
    requires forall j :: 0 <= j < |ib| ==> k <= ib[j]
    ensures forall i, j :: 0 <= i < k && 0 <= j < |b| ==> slots[i] != b[j]
  {
    forall i, j | 0 <= i < k && 0 <= j < |b| ensures slots[i] != b[j] {
      assert i < ib[j] && b[j] == slots[ib[j]];
    }
  }

  lemma SubApart<E>(g: Groups<E>, was: seq<array?<E>>, p: seq<bool>, k: nat, dataOnly: bool, size: nat)
    requires Grouped(g, was, p, |p|, k, dataOnly, size) && k <= |Erasures.Valid(p)|
    requires forall j :: 0 <= j < |p| ==> (p[j] <==> was[j] != null)
    ensures forall i, j :: 0 <= i < |g.sub| && 0 <= j < |g.missingData| ==> g.sub[i] != g.missingData[j]
  {
    hide *;
    SurvivorsPicked(g, was, p, k, dataOnly, size);
    MissingPicked(g, was, p, k, dataOnly, size);
    InvalidSplit(p, k);
    var low := g.invalid[..|g.missingData|];
    PickedLen(g.sub, g.slots, g.valid);
    forall i, j | 0 <= i < |g.valid| && 0 <= j < |low| ensures g.valid[i] != low[j] {
      assert p[g.valid[i]] && !p[g.invalid[j]];
    }
    PickedApart(g.sub, g.valid, g.missingData, low, g.slots);
  }

  lemma PickedLens<E>(a: seq<array<E>>, slots: seq<array?<E>>, idx: seq<nat>, size: nat)
    requires PickedFrom(a, slots, idx) && AllSizes(slots, size)
    ensures AllLen(a, size)
  { }

  /** b is the buffer of a missing shard. */
  ghost predicate MissingAt<E>(slots: seq<array?<E>>, p: seq<bool>, b: array<E>)
    requires |slots| == |p|
  {
    exists j :: 0 <= j < |p| && !p[j] && slots[j] == b
  }

  lemma PickedIsMissing<E>(a: seq<array<E>>, slots: seq<array?<E>>, idx: seq<nat>, p: seq<bool>)
    requires PickedFrom(a, slots, idx) && |p| == |slots| && forall t :: 0 <= t < |idx| ==> idx[t] < |p| && !p[idx[t]]
    ensures forall t :: 0 <= t < |a| ==> MissingAt(slots, p, a[t])
  {
    forall t | 0 <= t < |a| ensures MissingAt(slots, p, a[t]) {
      assert !p[idx[t]] && slots[idx[t]] == a[t];
    }
  }

  /** The buffers that get written are those of missing shards. */
  lemma MissingBuffers<E>(g: Groups<E>, was: seq<array?<E>>, p: seq<bool>, k: nat, dataOnly: bool, size: nat)
    requires Grouped(g, was, p, |p|, k, dataOnly, size) && |p| == |g.slots|
    ensures forall t :: 0 <= t < |g.missingData| ==> MissingAt(g.slots, p, g.missingData[t])
    ensures forall t :: 0 <= t < |g.missingParity| ==> MissingAt(g.slots, p, g.missingParity[t])
  {
    hide *;
    MissingPicked(g, was, p, k, dataOnly, size);
    InvalidSplit(p, k);
    var n := |g.missingData|;
    PickedIsMissing(g.missingData, g.slots, g.invalid[..n], p);
    if dataOnly {
      NoneDisjoint(g.missingParity, g.slots);
    } else {
      PickedIsMissing(g.missingParity, g.slots, g.invalid[n..], p);
    }
  }

  lemma SurvivorsApart<E>(g: Groups<E>, was: seq<array?<E>>, p: seq<bool>, k: nat, dataOnly: bool, size: nat)
    requires Grouped(g, was, p, |p|, k, dataOnly, size) && k <= |Erasures.Valid(p)|
    requires forall j :: 0 <= j < |p| ==> (p[j] <==> was[j] != null)
    ensures |p| == |was|
    ensures forall i :: 0 <= i < |p| && p[i] ==> was[i] !in g.missingData && was[i] !in g.missingParity
  {
    hide *;
    GroupedEnd(g, was, p, k, dataOnly, size);
    MissingPicked(g, was, p, k, dataOnly, size);
    MissingBuffers(g, was, p, k, dataOnly, size);
    forall i | 0 <= i < |p| && p[i] ensures was[i] !in g.missingData && was[i] !in g.missingParity {
      SurvivorApart(g.slots, p, i, g.missingData);
      SurvivorApart(g.slots, p, i, g.missingParity);
    }
  }

  lemma SurvivorApart<E>(slots: seq<array?<E>>, p: seq<bool>, i: nat, a: seq<array<E>>)
    requires SlotsDisjoint(slots) && |p| == |slots| && i < |p| && p[i] && slots[i] != null
    requires forall t :: 0 <= t < |a| ==> MissingAt(slots, p, a[t])
    ensures slots[i] !in a
  {
    forall t | 0 <= t < |a| ensures a[t] != slots[i] {
      assert MissingAt(slots, p, a[t]);
      var j :| 0 <= j < |p| && !p[j] && slots[j] == a[t];
    }
  }

  method RebuildData<E(!new)>(f: Field<E>, g: Groups<E>, ghost was: seq<array?<E>>, ghost p: seq<bool>,
                              k: nat, dec: Mat<E>, size: nat, dataOnly: bool)
    requires Lawful(f) && k > 0 && k <= |Erasures.Valid(p)| && IsMat(dec, k, k)
    requires Grouped(g, was, p, |p|, k, dataOnly, size)
    requires forall j :: 0 <= j < |p| ==> (p[j] <==> was[j] != null)
    modifies g.missingData
    ensures |g.sub| == k && AllLen(g.sub, size) && Contents(g.sub) == old(Contents(g.sub))
    ensures forall j :: 0 <= j < k && !p[j] ==>
      g.slots[j] != null && g.slots[j][..] == VecMat(f, dec[j], Contents(g.sub), size)
  {
    SurvivorsPicked(g, was, p, k, dataOnly, size);
    MissingPicked(g, was, p, k, dataOnly, size);
    InvalidSplit(p, k);
    GroupsApart(g, was, p, k, dataOnly, size);
    GroupedEnd(g, was, p, k, dataOnly, size);
    hide Grouped, SlotsDisjoint;
    var n := |g.missingData|;
    PickedLens(g.missingData, g.slots, g.invalid[..n], size);
    hide MatMul, VecMat, PickedFrom;
    var rows := Rows(dec, g.invalid[..n]);
    CodeSomeSlices(f, rows, g.sub, g.missingData, size);
    forall j | 0 <= j < k && !p[j] ensures g.slots[j][..] == VecMat(f, dec[j], Contents(g.sub), size) {
      Erasures.IndexPosition(p, false, j, k);
      var t := |Erasures.Indices(p, false, j)|;
      PickedAt(g.missingData, g.slots, g.invalid[..n], t);
      assert Contents(g.missingData)[t] == VecMat(f, rows[t], Contents(g.sub), size);
    }
  }

  method RebuildParity<E(!new)>(f: Field<E>, m: Mat<E>, g: Groups<E>, ghost was: seq<array?<E>>, ghost p: seq<bool>,
                                all: seq<array<E>>, size: nat)
    requires Lawful(f) && 0 < |all| <= |Erasures.Valid(p)| && IsMat(m, |p|, |all|)
    requires Grouped(g, was, p, |p|, |all|, false, size)
    requires forall j :: 0 <= j < |p| ==> (p[j] <==> was[j] != null)
    requires AllLen(all, size) && forall i :: 0 <= i < |all| ==> all[i] == g.slots[i]
    modifies g.missingParity
    ensures Contents(all) == old(Contents(all))
    ensures forall j :: |all| <= j < |p| && !p[j] ==>
      g.slots[j] != null && g.slots[j][..] == VecMat(f, m[j], Contents(all), size)
  {
    var k := |all|;
    MissingPicked(g, was, p, k, false, size);
    InvalidSplit(p, k);
    GroupsApart(g, was, p, k, false, size);
    GroupedEnd(g, was, p, k, false, size);
    hide Grouped, SlotsDisjoint;
    var n := |g.missingData|;
    PickedLens(g.missingParity, g.slots, g.invalid[n..], size);
    hide MatMul, VecMat, PickedFrom;
    var rows := Rows(m, g.invalid[n..]);
    CodeSomeSlices(f, rows, all, g.missingParity, size);
    forall j | k <= j < |p| && !p[j] ensures g.slots[j][..] == VecMat(f, m[j], Contents(all), size) {
      Erasures.IndexPosition(p, false, j, |p|);
      var t := |Erasures.Indices(p, false, j)|;
      PickedAt(g.missingParity, g.slots, g.invalid[n..], t - n);
      assert Contents(g.missingParity)[t - n] == VecMat(f, rows[t - n], Contents(all), size);
    }
  }

  /** Merge the surviving and the rebuilt data shards back into index order. */
  method GatherData<E>(invalid: seq<nat>, sub: seq<array<E>>, missingData: seq<array<E>>, k: nat,
                       ghost slots: seq<array?<E>>, ghost p: seq<bool>)
    returns (all: seq<array<E>>)
    requires |slots| == |p| && k <= |p| && k <= |Erasures.Valid(p)|
    requires invalid == Erasures.Invalid(p)
    requires PickedFrom(sub, slots, Erasures.Valid(p)[..k])
    requires PickedFrom(missingData, slots, Erasures.Indices(p, false, k))
    ensures |all| == k && forall i :: 0 <= i < k ==> all[i] == slots[i]
  {
    hide PickedFrom;
    var old', new', next := 0, 0, 0;
    all := [];
    while new' < |invalid| && invalid[new'] < k
      invariant next <= k && Gathered(all, slots, p, next, old', new')
      decreases |invalid| - new'
    {
      var upTo := invalid[new'];
      Erasures.LaterIndices(p, false, next, |p|);
      all, old', next := PushGood(sub, all, upTo, old', next, new', k, slots, p);
      Erasures.IndicesSorted(p, false, |p|);
      Erasures.IndexPosition(p, false, next, k);
      PickedAt(missingData, slots, Erasures.Indices(p, false, k), new');
      all, new', next := all + [missingData[new']], new' + 1, next + 1;
    }
    all, old', next := PushGood(sub, all, k, old', next, new', k, slots, p);
  }

  /** Push the surviving data shards up to the next missing one. */
  method PushGood<E>(sub: seq<array<E>>, all0: seq<array<E>>, upTo: nat, old0: nat, next0: nat, ghost new': nat, k: nat,
                     ghost slots: seq<array?<E>>, ghost p: seq<bool>)
    returns (all: seq<array<E>>, old': nat, next: nat)
    requires |slots| == |p| && next0 <= upTo <= k <= |p| && k <= |Erasures.Valid(p)|
    requires new' < |Erasures.Invalid(p)| ==> upTo <= Erasures.Invalid(p)[new']
    requires PickedFrom(sub, slots, Erasures.Valid(p)[..k]) && Gathered(all0, slots, p, next0, old0, new')
    ensures next == upTo && Gathered(all, slots, p, next, old', new')
  {
    hide PickedFrom;
    all, old', next := all0, old0, next0;
    while next < upTo
      invariant next <= upTo && Gathered(all, slots, p, next, old', new')
    {
      Erasures.GapIsPresent(p, next, new', |p|);
      Erasures.IndexPosition(p, true, next, |p|);
      Erasures.IndicesSorted(p, true, next);
      PickedAt(sub, slots, Erasures.Valid(p)[..k], old');
      all, old', next := all + [sub[old']], old' + 1, next + 1;
    }
  }

  /** After both coding steps the buffers hold what `Rebuilt` asks for. */
  lemma RebuiltFromSlots<E(!new)>(f: Field<E>, m: Mat<E>, g: Groups<E>, was: seq<array?<E>>, p: seq<bool>,
                                  dec: Mat<E>, sub: Mat<E>, all: seq<array<E>>, size: nat, dataOnly: bool)
    requires var k := |all|;
      && Grouped(g, was, p, |p|, k, dataOnly, size) && k <= |Erasures.Valid(p)|
      && (forall j :: 0 <= j < |p| ==> (p[j] <==> was[j] != null))
      && IsMat(m, |p|, k) && IsMat(dec, k, k) && IsChoice(g.valid, k, |p|) && IsMat(sub, k, size)
      && (forall t :: 0 <= t < k ==> was[g.valid[t]] != null && was[g.valid[t]][..] == sub[t])
      && (forall i :: 0 <= i < k ==> all[i] == g.slots[i] && all[i].Length == size)
      && (forall i :: 0 <= i < k && !p[i] ==> all[i][..] == VecMat(f, dec[i], sub, size))
      && (!dataOnly ==> forall i :: k <= i < |p| && !p[i] ==>
           g.slots[i] != null && g.slots[i][..] == VecMat(f, m[i], Contents(all), size))
    ensures Rebuilt(f, m, |all|, View(was), View(g.slots), g.valid, dec, sub, Contents(all), size)
  { }

  /** Decode the missing data shards, then re-encode the missing parity from all data. */
  method CodeMissing<E(!new)>(f: Field<E>, m: Mat<E>, g: Groups<E>, ghost was: seq<array?<E>>, ghost p: seq<bool>,
                              k: nat, dec: Mat<E>, size: nat, dataOnly: bool)
    returns (all: seq<array<E>>)
    requires Lawful(f) && 0 < k <= |Erasures.Valid(p)| && IsMat(m, |p|, k) && IsMat(dec, k, k)
    requires Grouped(g, was, p, |p|, k, dataOnly, size)
    requires forall j :: 0 <= j < |p| ==> (p[j] <==> was[j] != null)
    modifies g.missingData, g.missingParity
    ensures |was| == |g.slots| == |p|
    ensures forall i :: 0 <= i < |p| && p[i] ==> was[i][..] == old(was[i][..])
    ensures |g.sub| == |g.valid| == |all| == k && AllLen(g.sub, size) && AllLen(all, size)
    ensures forall t :: 0 <= t < k ==> g.valid[t] < |p| && p[g.valid[t]] && g.sub[t] == was[g.valid[t]]
    ensures forall i :: 0 <= i < k ==> all[i] == g.slots[i]
    ensures forall i :: 0 <= i < k && !p[i] ==> all[i][..] == VecMat(f, dec[i], Contents(g.sub), size)
    ensures !dataOnly ==> forall i :: k <= i < |p| && !p[i] ==>
      g.slots[i] != null && g.slots[i][..] == VecMat(f, m[i], Contents(all), size)
  {
    hide Grouped, PickedFrom, VecMat;
    GroupedEnd(g, was, p, k, dataOnly, size);
    SurvivorsApart(g, was, p, k, dataOnly, size);
    SurvivorsPicked(g, was, p, k, dataOnly, size);
    MissingPicked(g, was, p, k, dataOnly, size);
    InvalidSplit(p, k);
    GroupsApart(g, was, p, k, dataOnly, size);
    hide SlotsDisjoint;
    ghost var subV := Contents(g.sub);
    RebuildData(f, g, was, p, k, dec, size, dataOnly);
    all := GatherData(g.invalid, g.sub, g.missingData, k, g.slots, p);
    ghost var allV := Contents(all);
    if !dataOnly {
      RebuildParity(f, m, g, was, p, all, size);
    }
    assert Contents(g.sub) == subV;
    forall i | 0 <= i < k && !p[i] ensures all[i][..] == VecMat(f, dec[i], subV, size) {
      assert Contents(all)[i] == allV[i];
    }
  }

  /** The first `next` data shards are gathered; the counters count what was used. */
  ghost predicate Gathered<E>(all: seq<array<E>>, slots: seq<array?<E>>, p: seq<bool>, next: nat, old': nat, new': nat)
    requires |slots| == |p|
  {
    && next <= |p| && |all| == next && (forall i :: 0 <= i < next ==> all[i] == slots[i])
    && old' == |Erasures.Indices(p, true, next)| && new' == |Erasures.Indices(p, false, next)|
  }

  /** Whatever codeword the shards `before` were part of, the shards `after` are part of it. */
  ghost predicate Restores<E(!new)>(f: Field<E>, m: Mat<E>, k: nat, before: seq<Option<Vec<E>>>, after: seq<Option<Vec<E>>>)
    requires IsMat(m, |m|, k)
  {
    forall d: Mat<E>, len: nat :: IsMat(d, k, len) && Agrees(before, Codeword(f, m, d, len)) ==>
      Agrees(after, Codeword(f, m, d, len))
  }

  /** What the third pass computes, on values: missing data shards from the survivors' values
      `sub`, missing parity shards from all data values. */
  ghost predicate Rebuilt<E>(f: Field<E>, m: Mat<E>, k: nat, before: seq<Option<Vec<E>>>, after: seq<Option<Vec<E>>>,
                             valid: seq<nat>, dec: Mat<E>, sub: Mat<E>, all: Mat<E>, size: nat)
  {
    && IsMat(m, |m|, k) && IsMat(dec, k, k) && k <= |m| == |before| == |after| && IsChoice(valid, k, |m|)
    && IsMat(sub, k, size) && IsMat(all, k, size)
    && (forall t :: 0 <= t < k ==> before[valid[t]] == Some(sub[t]))
    && (forall i :: 0 <= i < k ==> after[i] == Some(all[i]))
    && (forall i :: 0 <= i < |m| && before[i].Some? ==> after[i] == before[i])
    && (forall i :: 0 <= i < k && before[i].None? ==> all[i] == VecMat(f, dec[i], sub, size))
    && (forall i :: k <= i < |m| && before[i].None? && after[i].Some? ==>
          after[i].value == VecMat(f, m[i], all, size))
  }

  /** The survivors decode to the data. */
  lemma SurvivorsDecode<E(!new)>(f: Field<E>, m: Mat<E>, before: seq<Option<Vec<E>>>,
                                 valid: seq<nat>, dec: Mat<E>, sub: Mat<E>, size: nat, d: Mat<E>, len: nat)
    requires Lawful(f) && |d| > 0 && CodingMatrix(f, m, |d|) && IsMat(d, |d|, len)
    requires IsChoice(valid, |d|, |m|) && IsInverse(f, Rows(m, valid), dec, |d|)
    requires Agrees(before, Codeword(f, m, d, len)) && IsMat(sub, |d|, size)
    requires forall t :: 0 <= t < |d| ==> before[valid[t]] == Some(sub[t])
    ensures size == len && MatMul(f, dec, sub, size) == d
  {
    assert IsMat(m, |m|, |d|);
    hide IsInverse, MatMul, CodingMatrix;
    var c := Codeword(f, m, d, len);
    forall t | 0 <= t < |d| ensures sub[t] == c[valid[t]] {
      assert before[valid[t]].value == c[valid[t]];
    }
    assert sub == Rows(c, valid);
    assert |sub[0]| == len;
    DecodeRestores(f, m, d, len, valid, dec);
  }

  /** Value-level heart of reconstruction: rebuilt shards belong to every codeword that the
      surviving shards belong to. */
  lemma RestoredAgrees<E(!new)>(f: Field<E>, m: Mat<E>, before: seq<Option<Vec<E>>>, after: seq<Option<Vec<E>>>,
                                valid: seq<nat>, dec: Mat<E>, sub: Mat<E>, all: Mat<E>, size: nat, d: Mat<E>, len: nat)
    requires Lawful(f) && |d| > 0 && CodingMatrix(f, m, |d|) && IsMat(d, |d|, len)
    requires Rebuilt(f, m, |d|, before, after, valid, dec, sub, all, size)
    requires IsInverse(f, Rows(m, valid), dec, |d|) && Agrees(before, Codeword(f, m, d, len))
    ensures Agrees(after, Codeword(f, m, d, len))
  {
    hide IsInverse, CodingMatrix;
    var c := Codeword(f, m, d, len);
    SurvivorsDecode(f, m, before, valid, dec, sub, size, d, len);
    Systematic(f, m, d, len);
    forall i | 0 <= i < |d| ensures all[i] == d[i] {
      assert c[i] == c[..|d|][i];
      if before[i].None? {
        assert all[i] == MatMul(f, dec, sub, len)[i];
      } else {
        assert before[i].value == c[i];
      }
    }
    assert all == d;
    forall i | 0 <= i < |after| && after[i].Some? ensures after[i].value == c[i] {
      if i < |d| { assert c[i] == c[..|d|][i]; }
    }
  }

  lemma NothingMissing<E(!new)>(f: Field<E>, m: Mat<E>, k: nat, v: seq<Option<Vec<E>>>)
    requires IsMat(m, |m|, k)
    ensures Restores(f, m, k, v, v)
  { }

  lemma RebuiltRestores<E(!new)>(f: Field<E>, m: Mat<E>, k: nat, before: seq<Option<Vec<E>>>, after: seq<Option<Vec<E>>>,
                                 valid: seq<nat>, dec: Mat<E>, sub: Mat<E>, all: Mat<E>, size: nat)
    requires Lawful(f) && k > 0 && CodingMatrix(f, m, k)
    requires Rebuilt(f, m, k, before, after, valid, dec, sub, all, size)
    requires IsInverse(f, Rows(m, valid), dec, k)
    ensures Restores(f, m, k, before, after)
  {
    forall d: Mat<E>, len: nat | IsMat(d, k, len) && Agrees(before, Codeword(f, m, d, len))
      ensures Agrees(after, Codeword(f, m, d, len))
    {
      RestoredAgrees(f, m, before, after, valid, dec, sub, all, size, d, len);
    }
  }

  lemma {:induction false} EqualSizesPass(lens: seq<Option<nat>>, i: nat, size: Option<nat>, len: nat)
    requires i <= |lens| && len > 0 && (size.Some? ==> size.value == len)
    requires forall j :: 0 <= j < |lens| && lens[j].Some? ==> lens[j].value == len
    ensures ScanSizes(lens, i, size) == Ok(())
    decreases |lens| - i
  {
    if i < |lens| { EqualSizesPass(lens, i + 1, if lens[i].Some? then lens[i] else size, len); }
  }

  /** Shards of one codeword pass the checks exactly when enough of them are left. */
  lemma EncodedPassesCheck<E(!new)>(f: Field<E>, m: Mat<E>, d: Mat<E>, len: nat, v: seq<Option<Vec<E>>>)
    requires IsMat(m, |m|, |d|) && IsMat(d, |d|, len) && len > 0 && Agrees(v, Codeword(f, m, d, len))
    ensures ReconstructCheck(ViewLens(v), |d|, |m|) ==
      if |Erasures.Valid(Mask(v))| >= |d| then Ok(()) else Err(TooFewShardsPresent)
  {
    hide MatMul;
    EqualSizesPass(ViewLens(v), 0, None, len);
    assert Mask(ViewLens(v)) == Mask(v);
  }

  /** The codec for `dataCount` data and `parityCount` parity shards. */
  class ReedSolomon<E(==,!new)> {
    const f: Field<E>
    const dataCount: nat
    const parityCount: nat
    const totalCount: nat
    const matrix: Mat<E>
    /** Least recently used last. */
    var cache: seq<CacheEntry<E>>

    ghost predicate Valid()
      reads this
    {
      && Lawful(f) && dataCount > 0 && parityCount > 0 && totalCount == dataCount + parityCount
      && |matrix| == totalCount && CodingMatrix(f, matrix, dataCount)
      && |cache| <= CACHE_CAPACITY
      && forall i :: 0 <= i < |cache| ==> EntryOk(f, matrix, dataCount, cache[i])
    }

    constructor (f: Field<E>, dataCount: nat, parityCount: nat)
      requires Lawful(f) && dataCount > 0 && parityCount > 0 && dataCount + parityCount <= f.order
      ensures Valid() && this.f == f && this.dataCount == dataCount && this.parityCount == parityCount
    {
      this.f := f;
      this.dataCount := dataCount;
      this.parityCount := parityCount;
      totalCount := dataCount + parityCount;
      var m := BuildMatrix(f, dataCount, dataCount + parityCount);
      matrix := m;
      cache := [];
    }

    function ParityRows(): (m: Mat<E>)
      requires dataCount <= |matrix|
    {
      matrix[dataCount..]
    }

    function EncodeCheck(shards: seq<array<E>>): (r: Result<()>)
      ensures totalCount > 0 ==> Judged(r, Lens(shards), totalCount, TooFewShards, TooManyShards)
    {
      var count := CheckCount(|shards|, totalCount, TooFewShards, TooManyShards);
      if count.Err? || |shards| == 0 then count else CheckSizes(Lens(shards))
    }

    function EncodeSepCheck(data: seq<array<E>>, parity: seq<array<E>>): (r: Result<()>)
      ensures dataCount > 0 && parityCount > 0 ==>
        PairJudged(r, Lens(data), dataCount, TooFewDataShards, TooManyDataShards,
                   Lens(parity), parityCount, TooFewParityShards, TooManyParityShards)
    {
      var c1 := CheckCount(|data|, dataCount, TooFewDataShards, TooManyDataShards);
      var c2 := CheckCount(|parity|, parityCount, TooFewParityShards, TooManyParityShards);
      if c1.Err? then c1 else if c2.Err? then c2
      else if |data| == 0 || |parity| == 0 then Ok(())
      else
        var s1, s2 := CheckSizes(Lens(data)), CheckSizes(Lens(parity));
        if s1.Err? then s1 else if s2.Err? then s2
        else if data[0].Length != parity[0].Length then Err(IncorrectShardSize) else Ok(())
    }

    method EncodeSep(data: seq<array<E>>, parity: seq<array<E>>) returns (res: Result<()>)
      requires Valid() && Disjoint(parity) && forall i :: 0 <= i < |data| ==> data[i] !in parity
      modifies parity
      ensures res == EncodeSepCheck(data, parity)
      ensures PairJudged(res, Lens(data), dataCount, TooFewDataShards, TooManyDataShards,
                         Lens(parity), parityCount, TooFewParityShards, TooManyParityShards)
      ensures Contents(data) == old(Contents(data))
      ensures res.Err? ==> Contents(parity) == old(Contents(parity))
      ensures res.Ok? ==> Contents(parity) == MatMul(f, ParityRows(), Contents(data), data[0].Length)
    {
      res := EncodeSepCheck(data, parity);
      if res.Ok? {
        CodeSomeSlices(f, ParityRows(), data, parity, data[0].Length);
      }
    }

    /** On success the buffers hold the codeword of the data they held before. */
    method Encode(shards: seq<array<E>>) returns (res: Result<()>)
      requires Valid() && Disjoint(shards)
      modifies shards
      ensures res == EncodeCheck(shards) && Judged(res, Lens(shards), dataCount + parityCount, TooFewShards, TooManyShards)
      ensures res.Err? ==> Contents(shards) == old(Contents(shards))
      ensures res.Ok? ==> Contents(shards) == Codeword(f, matrix, old(Contents(shards))[..dataCount], shards[0].Length)
    {
      res := EncodeCheck(shards);
      if res.Ok? {
        ghost var d := Contents(shards)[..dataCount];
        assert Contents(shards[..dataCount]) == d;
        var r := EncodeSep(shards[..dataCount], shards[dataCount..]);
        Systematic(f, matrix, d, shards[0].Length);
        EncodedIsCodeword(f, matrix, d, shards[0].Length, Contents(shards));
      }
    }

    function VerifyCheck(shards: seq<array<E>>, buffer: seq<array<E>>): (r: Result<()>)
      ensures totalCount > 0 && parityCount > 0 ==>
        PairJudged(r, Lens(shards), totalCount, TooFewShards, TooManyShards,
                   Lens(buffer), parityCount, TooFewBufferShards, TooManyBufferShards)
    {
      var c1 := CheckCount(|shards|, totalCount, TooFewShards, TooManyShards);
      var c2 := CheckCount(|buffer|, parityCount, TooFewBufferShards, TooManyBufferShards);
      if c1.Err? then c1 else if c2.Err? then c2
      else if |shards| == 0 || |buffer| == 0 then Ok(())
      else
        var s1, s2 := CheckSizes(Lens(shards)), CheckSizes(Lens(buffer));
        if s1.Err? then s1 else if s2.Err? then s2
        else if shards[0].Length != buffer[0].Length then Err(IncorrectShardSize) else Ok(())
    }

    /** The buffer ends up holding the expected parity; the verdict compares it. */
    method VerifyWithBuffer(shards: seq<array<E>>, buffer: seq<array<E>>) returns (res: Result<bool>)
      requires Valid() && Disjoint(buffer) && forall i :: 0 <= i < |shards| ==> shards[i] !in buffer
      modifies buffer
      ensures Contents(shards) == old(Contents(shards))
      ensures var check := VerifyCheck(shards, buffer);
        && PairJudged(check, Lens(shards), totalCount, TooFewShards, TooManyShards,
                      Lens(buffer), parityCount, TooFewBufferShards, TooManyBufferShards)
        && if check.Err? then res == Err(check.error) && Contents(buffer) == old(Contents(buffer)) else res.Ok?
      ensures res.Ok? ==> (res.value <==>
        Contents(shards) == Codeword(f, matrix, Contents(shards)[..dataCount], shards[0].Length))
      ensures res.Ok? ==>
        Contents(buffer) == MatMul(f, ParityRows(), Contents(shards)[..dataCount], shards[0].Length)
    {
      assert IsMat(ParityRows(), parityCount, dataCount);
      hide EntryOk, CodingMatrix, Codeword, MatMul;
      var check := VerifyCheck(shards, buffer);
      if check.Err? { return Err(check.error); }
      ghost var all := Contents(shards);
      var len := shards[0].Length;
      ghost var d := all[..dataCount];
      assert Contents(shards[..dataCount]) == d;
      CodeSomeSlices(f, ParityRows(), shards[..dataCount], buffer, len);
      var same := SameShards(buffer, shards[dataCount..]);
      assert Contents(shards[dataCount..]) == all[dataCount..];
      VerdictIsCodeword(f, matrix, d, len, all, Contents(buffer));
      res := Ok(same);
    }

    /** True exactly when the shards are the codeword of their data part. */
    method Verify(shards: seq<array<E>>) returns (res: Result<bool>)
      requires Valid()
      ensures var check := EncodeCheck(shards);
        && Judged(check, Lens(shards), dataCount + parityCount, TooFewShards, TooManyShards)
        && if check.Err? then res == Err(check.error) else
           res.Ok? && (res.value <==>
             Contents(shards) == Codeword(f, matrix, Contents(shards)[..dataCount], shards[0].Length))
    {
      var check := EncodeCheck(shards);
      if check.Err? { return Err(check.error); }
      ghost var all := Contents(shards);
      var len := shards[0].Length;
      var buffer: seq<array<E>> := [];
      for i := 0 to parityCount
        invariant |buffer| == i && AllLen(buffer, len) && Disjoint(buffer)
        invariant forall j :: 0 <= j < i ==> fresh(buffer[j]) && buffer[j] !in shards
        invariant Contents(shards) == all
      {
        var b := new E[len](_ => f.zero);
        buffer := buffer + [b];
      }
      res := VerifyWithBuffer(shards, buffer);
    }

    function SingleSepCheck(i: nat, single: array<E>, parity: seq<array<E>>): (r: Result<()>)
      ensures parityCount > 0 ==> SingleJudged(r, i, dataCount, single.Length, Lens(parity), parityCount)
    {
      var count := CheckCount(|parity|, parityCount, TooFewParityShards, TooManyParityShards);
      if i >= dataCount then Err(InvalidIndex)
      else if count.Err? || |parity| == 0 then count
      else
        var sizes := CheckSizes(Lens(parity));
        if sizes.Err? then sizes
        else if parity[0].Length != single.Length then Err(IncorrectShardSize) else Ok(())
    }

    /** Fold data shard i into the parity. */
    method EncodeSingleSep(i: nat, single: array<E>, parity: seq<array<E>>) returns (res: Result<()>)
      requires Valid() && Disjoint(parity) && single !in parity
      modifies parity
      ensures res == SingleSepCheck(i, single, parity) && SingleJudged(res, i, dataCount, single.Length, Lens(parity), parityCount)
      ensures res.Err? ==> Contents(parity) == old(Contents(parity))
      ensures res.Ok? ==> forall r :: 0 <= r < parityCount ==>
        parity[r][..] == CodeStep(f, matrix[dataCount + r][i], i, single[..], old(parity[r][..]))
    {
      res := SingleSepCheck(i, single, parity);
      if res.Ok? {
        CodeSingleSlice(f, ParityRows(), i, single, parity);
      }
    }

    function SingleCheck(i: nat, shards: seq<array<E>>): (r: Result<()>)
      ensures i >= dataCount ==> r == Err(InvalidIndex)
      ensures i < dataCount && totalCount > 0 ==> Judged(r, Lens(shards), totalCount, TooFewShards, TooManyShards)
    {
      if i >= dataCount then Err(InvalidIndex) else EncodeCheck(shards)
    }

    /** What is good for all shards is good for the parity part. */
    lemma SinglePasses(i: nat, shards: seq<array<E>>)
      requires SingleCheck(i, shards).Ok? && parityCount > 0 && totalCount == dataCount + parityCount
      ensures |shards| == totalCount && SingleSepCheck(i, shards[i], shards[dataCount..]).Ok?
    {
      var parity := shards[dataCount..];
      assert forall j :: 0 <= j < |parity| ==> Lens(parity)[j] == Lens(shards)[dataCount + j];
      hide CheckSizes;
    }

    method EncodeSingle(i: nat, shards: seq<array<E>>) returns (res: Result<()>)
      requires Valid() && Disjoint(shards)
      modifies shards
      ensures res == SingleCheck(i, shards) && (i >= dataCount ==> res == Err(InvalidIndex))
      ensures i < dataCount ==> Judged(res, Lens(shards), dataCount + parityCount, TooFewShards, TooManyShards)
      ensures res.Err? ==> Contents(shards) == old(Contents(shards))
      ensures res.Ok? ==> forall q :: 0 <= q < dataCount ==> shards[q][..] == old(shards[q][..])
      ensures res.Ok? ==> forall r :: dataCount <= r < totalCount ==>
        shards[r][..] == CodeStep(f, matrix[r][i], i, shards[i][..], old(shards[r][..]))
    {
      hide EntryOk, CodingMatrix, CodeStep, CheckSizes, Judged, SingleJudged, SingleSepCheck;
      res := SingleCheck(i, shards);
      if res.Ok? {
        SinglePasses(i, shards);
        hide SingleCheck;
        FoldSingle(i, shards);
      }
    }

    method FoldSingle(i: nat, shards: seq<array<E>>)
      requires Valid() && Disjoint(shards) && |shards| == totalCount && i < dataCount
      requires SingleSepCheck(i, shards[i], shards[dataCount..]).Ok?
      modifies shards
      ensures forall q :: 0 <= q < dataCount ==> shards[q][..] == old(shards[q][..])
      ensures forall r :: dataCount <= r < totalCount ==>
        |matrix[r]| > i && |shards[r][..]| == |old(shards[r][..])| && |shards[i][..]| == |shards[r][..]| &&
        shards[r][..] == CodeStep(f, matrix[r][i], i, shards[i][..], old(shards[r][..]))
    {
      assert IsMat(matrix, totalCount, dataCount);
      hide EntryOk, CodingMatrix, CodeStep, CheckSizes, SingleJudged;
      var parity := shards[dataCount..];
      assert parity[0].Length == shards[i].Length && AllLen(parity, shards[i].Length);
      hide SingleSepCheck;
      var r := EncodeSingleSep(i, shards[i], parity);
      forall q | dataCount <= q < totalCount
        ensures shards[q][..] == CodeStep(f, matrix[q][i], i, shards[i][..], old(shards[q][..]))
      {
        assert shards[q] == parity[q - dataCount];
      }
    }

    /** The parity shards hold the partial sums over the first j data shards. */
    ghost predicate ParitySoFar(shards: seq<array<E>>, j: nat)
      requires j <= dataCount && |shards| == totalCount == |matrix| && IsMat(matrix, totalCount, dataCount) && dataCount < totalCount
      reads shards
    {
      AllLen(shards, shards[0].Length) &&
      PartialParity(f, matrix, dataCount, Contents(shards), j, shards[0].Length)
    }

    /** The cached inverse for these missing indices, or a fresh one.  Whatever was cached or
        evicted before, the result inverts the rows of the shards at hand. */
    method GetDataDecodeMatrix(valid: seq<nat>, invalid: seq<nat>, ghost present: seq<bool>) returns (m: Mat<E>)
      requires Valid() && |present| == totalCount && dataCount <= |Erasures.Valid(present)|
      requires valid == Erasures.Valid(present)[..dataCount] && invalid == Erasures.Invalid(present)
      modifies this`cache
      ensures Valid()
      ensures IsChoice(valid, dataCount, totalCount) && IsInverse(f, Rows(matrix, valid), m, dataCount)
      ensures forall inv :: IsInverse(f, Rows(matrix, valid), inv, dataCount) ==> m == inv
    {
      hide EntryOk, IsInverse, CodingMatrix;
      Erasures.FirstValidIsChoice(present, dataCount);
      var i := Find(invalid);
      if i < |cache| {
        EntryDecodes(f, matrix, dataCount, cache[i], present);
        m := cache[i].matrix;
        cache := [cache[i]] + cache[..i] + cache[i + 1..];
      } else {
        m := InvertRows(f, matrix, valid, dataCount);
        EntryFor(f, matrix, dataCount, invalid, m, present);
        cache := [CacheEntry(invalid, m)] + if |cache| == CACHE_CAPACITY then cache[..|cache| - 1] else cache;
      }
      forall inv | IsInverse(f, Rows(matrix, valid), inv, dataCount) ensures m == inv {
        InverseUnique(f, Rows(matrix, valid), m, inv, dataCount);
      }
    }

    /** Rebuild missing shards.  An error changes nothing.  On success the shards that were there
        are untouched, the data shards (and, unless dataOnly, the parity shards) are all there,
        and they are the shards of the one codeword that the survivors came from. */
    method ReconstructInternal(shards: ShardSet<E>, dataOnly: bool) returns (res: Result<()>)
      requires Valid() && SlotsDisjoint(shards.slots)
      modifies this`cache, shards
      ensures Valid()
      ensures res == ReconstructCheck(old(ViewLens(View(shards.slots))), dataCount, totalCount)
      ensures MissingJudged(res, old(ViewLens(View(shards.slots))), dataCount, totalCount)
      ensures |shards.slots| == |old(shards.slots)|
      ensures res.Err? ==> shards.slots == old(shards.slots)
      ensures forall i :: 0 <= i < |shards.slots| && (old(shards.slots)[i] != null || (dataCount <= i && dataOnly)) ==>
        shards.slots[i] == old(shards.slots)[i]
      ensures res.Ok? ==> forall i :: 0 <= i < totalCount && (i < dataCount || !dataOnly) ==> shards.slots[i] != null
      ensures res.Ok? ==> Restores(f, matrix, dataCount, old(View(shards.slots)), View(shards.slots))
    {
      assert IsMat(matrix, totalCount, dataCount);
      hide Restores, EntryOk, CodingMatrix, IsInverse, ReconstructCheck, Grouped, MissingJudged;
      var was := shards.slots;
      CheckJudges(ViewLens(View(was)), dataCount, totalCount);
      var check, size := Precheck(was);
      if check.Err? { return check; }
      if size.None? {
        NothingMissing(f, matrix, dataCount, View(was));
        return check;
      }
      shards.slots := RebuildMissing(was, size.value, dataOnly);
      res := check;
    }

    /** The slots with every missing shard rebuilt that was asked for. */
    method RebuildMissing(was: seq<array?<E>>, size: nat, dataOnly: bool) returns (slots: seq<array?<E>>)
      requires Valid() && |was| == totalCount && SlotsDisjoint(was) && AllSizes(was, size)
      requires dataCount <= |Erasures.Valid(Mask(View(was)))|
      modifies this`cache
      ensures Valid()
      ensures |slots| == |was| && forall i :: 0 <= i < |was| ==>
        if was[i] != null || (dataCount <= i && dataOnly) then slots[i] == was[i] else slots[i] != null
      ensures View(was) == old(View(was))
      ensures Restores(f, matrix, dataCount, View(was), View(slots))
    {
      hide Restores, EntryOk, CodingMatrix, IsInverse, Grouped;
      ghost var p := Mask(View(was));
      var g := Separate(f, was, size, dataCount, dataOnly, p);
      GroupedEnd(g, was, p, dataCount, dataOnly, size);
      MissingBuffers(g, was, p, dataCount, dataOnly, size);
      var dec := GetDataDecodeMatrix(g.valid, g.invalid, p);
      Rebuild(g, was, p, dec, size, dataOnly);
      slots := g.slots;
    }

    /** The checks before anything is touched; no size when all shards are present. */
    method Precheck(slots: seq<array?<E>>) returns (res: Result<()>, size: Option<nat>)
      requires Valid()
      ensures res == ReconstructCheck(ViewLens(View(slots)), dataCount, totalCount)
      ensures res.Ok? ==> |slots| == totalCount
      ensures res.Ok? && size.None? ==> forall i :: 0 <= i < totalCount ==> slots[i] != null
      ensures res.Ok? && size.Some? ==> AllSizes(slots, size.value)
      ensures res.Ok? && size.Some? ==> dataCount <= |Erasures.Valid(Mask(View(slots)))|
    {
      hide EntryOk, CodingMatrix;
      ghost var p := Mask(View(slots));
      if |slots| < totalCount { return Err(TooFewShards), None; }
      if |slots| > totalCount { return Err(TooManyShards), None; }
      assert Mask(ViewLens(View(slots))) == p;
      var count;
      count, size, res := Survey(slots);
      if res.Err? { return; }
      if count == totalCount {
        forall i | 0 <= i < |p| ensures p[i] {
          Erasures.IndicesCount(p, |p|);
          if !p[i] { Erasures.IndexPosition(p, false, i, |p|); }
        }
        return Ok(()), None;
      }
      if count < dataCount { return Err(TooFewShardsPresent), None; }
      res := Ok(());
    }

    /** Third pass: the rebuilt slots belong to every codeword the survivors belong to. */
    method Rebuild(g: Groups<E>, ghost was: seq<array?<E>>, ghost p: seq<bool>, dec: Mat<E>, size: nat, dataOnly: bool)
      requires Valid() && |p| == totalCount && dataCount <= |Erasures.Valid(p)|
      requires Grouped(g, was, p, |p|, dataCount, dataOnly, size)
      requires forall j :: 0 <= j < |p| ==> (p[j] <==> was[j] != null)
      requires IsChoice(g.valid, dataCount, totalCount) && IsInverse(f, Rows(matrix, g.valid), dec, dataCount)
      modifies g.missingData, g.missingParity
      ensures View(was) == old(View(was))
      ensures Restores(f, matrix, dataCount, View(was), View(g.slots))
    {
      assert IsMat(matrix, totalCount, dataCount) && IsMat(dec, dataCount, dataCount);
      hide IsInverse, CodingMatrix, EntryOk, VecMat, MatMul, Restores, Grouped, PickedFrom, Rebuilt;
      ghost var before := View(was);
      var all := CodeMissing(f, matrix, g, was, p, dataCount, dec, size, dataOnly);
      assert View(was) == before;
      RebuiltFromSlots(f, matrix, g, was, p, dec, Contents(g.sub), all, size, dataOnly);
      RebuiltRestores(f, matrix, dataCount, before, View(g.slots), g.valid, dec, Contents(g.sub), Contents(all), size);
    }

    /** Position of a key in the cache, or its length. */
    method Find(key: seq<nat>) returns (i: nat)
      ensures i <= |cache|
      ensures i < |cache| ==> cache[i].key == key
    {
      i := 0;
      while i < |cache| && cache[i].key != key
        invariant i <= |cache|
      {
        i := i + 1;
      }
    }
  }

  /** `new`: the three argument errors, or a codec. */
  method NewCodec<E(==,!new)>(f: Field<E>, dataCount: nat, parityCount: nat) returns (res: Result<ReedSolomon<E>>)
    requires Lawful(f)
    ensures res.Ok? <==> dataCount > 0 && parityCount > 0 && dataCount + parityCount <= f.order
    ensures dataCount == 0 ==> res == Err(TooFewDataShards)
    ensures dataCount > 0 && parityCount == 0 ==> res == Err(TooFewParityShards)
    ensures dataCount > 0 && parityCount > 0 && dataCount + parityCount > f.order ==> res == Err(TooManyShards)
    ensures res.Ok? ==> fresh(res.value) && res.value.Valid() && res.value.f == f
    ensures res.Ok? ==> res.value.dataCount == dataCount && res.value.parityCount == parityCount
  {
    if dataCount == 0 { return Err(TooFewDataShards); }
    if parityCount == 0 { return Err(TooFewParityShards); }
    if dataCount + parityCount > f.order { return Err(TooManyShards); }
    var c := new ReedSolomon(f, dataCount, parityCount);
    res := Ok(c);
  }

  /** Vandermonde times the inverse of its top block; the inversion cannot fail. */
  method BuildMatrix<E(==,!new)>(f: Field<E>, k: nat, n: nat) returns (m: Mat<E>)
    requires Lawful(f) && k <= n <= f.order
    ensures |m| == n && CodingMatrix(f, m, k)
  {
    hide RowsOf, CodingMatrix, IsInverse, TrivialKernel, MatMul, Vandermonde;
    var v := NewVandermonde(f, n, k);
    var top := v.SubMatrix(f, 0, 0, k, k);
    ghost var idx: seq<nat> := seq(k, i requires 0 <= i => i);
    VandermondeKernel(f, n, k, idx);
    forall r | 0 <= r < k ensures top.Value()[r] == v.Value()[r] {
      assert v.Value()[r][0..k] == v.Value()[r];
    }
    assert top.Value() == Rows(v.Value(), idx) == v.Value()[..k];
    var inv := top.Invert(f);
    var p := v.Multiply(f, inv.m);
    BuildMatrixIsCoding(f, n, k, top.Value(), inv.m.Value());
    m := p.ToRows();
  }

  /** Copy the chosen rows into a square matrix and invert it; the inversion cannot fail. */
  method InvertRows<E(==,!new)>(f: Field<E>, matrix: Mat<E>, idx: seq<nat>, k: nat) returns (m: Mat<E>)
    requires Lawful(f) && CodingMatrix(f, matrix, k) && IsChoice(idx, k, |matrix|)
    ensures IsInverse(f, Rows(matrix, idx), m, k)
  {
    hide RowsOf, IsInverse, TrivialKernel;
    assert TrivialKernel(f, Rows(matrix, idx), k);
    var sub := CopyRows(f, matrix, idx, k);
    var inv := sub.Invert(f);
    m := inv.m.ToRows();
  }

  method CopyRows<E(==,!new)>(f: Field<E>, matrix: Mat<E>, idx: seq<nat>, k: nat) returns (sub: Matrix<E>)
    requires IsMat(matrix, |matrix|, k) && forall i :: 0 <= i < |idx| ==> idx[i] < |matrix|
    ensures sub.Valid() && sub.rowCount == |idx| && sub.colCount == k
    ensures sub.Value() == Rows(matrix, idx)
  {
    hide RowsOf;
    sub := new Matrix(f, |idx|, k);
    for r := 0 to |idx|
      invariant forall q :: 0 <= q < r ==> sub.Value()[q] == matrix[idx[q]]
    {
      for c := 0 to k
        invariant forall q :: 0 <= q < r ==> sub.Value()[q] == matrix[idx[q]]
        invariant sub.Value()[r][..c] == matrix[idx[r]][..c]
      {
        sub.Set(r, c, matrix[idx[r]][c]);
      }
    }
  }

  // ---- shard-by-shard encoding ----

  datatype SbsError = TooManyCalls | LeftoverShards | RsError(e: Error)
  datatype SbsResult = SbsOk | SbsErr(error: SbsError)

  /** Shards c whose parity rows hold the partial sums over the first j data shards. */
  ghost predicate PartialParity<E>(f: Field<E>, m: Mat<E>, k: nat, c: Mat<E>, j: nat, len: nat)
    requires IsMat(m, |m|, k) && IsMat(c, |m|, len) && j <= k <= |m|
  {
    j > 0 ==> forall r :: k <= r < |m| ==> c[r] == VecMat(f, m[r][..j], c[..j], len)
  }

  /** Partial sums over all k data shards are the codeword. */
  lemma AllPartsIsCodeword<E(!new)>(f: Field<E>, m: Mat<E>, k: nat, len: nat, c: Mat<E>)
    requires Lawful(f) && k > 0 && CodingMatrix(f, m, k) && IsMat(c, |m|, len) && PartialParity(f, m, k, c, k, len)
    ensures c == Codeword(f, m, c[..k], len)
  {
    var d := c[..k];
    forall r | 0 <= r < |m| - k ensures c[k..][r] == MatMul(f, m[k..], d, len)[r] {
      assert m[k + r][..k] == m[k + r];
    }
    EncodedIsCodeword(f, m, d, len, c);
  }

  /** Folding in data shard i advances the partial sums by one. */
  lemma PartialAdvances<E(!new)>(f: Field<E>, m: Mat<E>, k: nat, c: Mat<E>, c': Mat<E>, i: nat, len: nat)
    requires Lawful(f) && CodingMatrix(f, m, k) && i < k && IsMat(c, |m|, len) && IsMat(c', |m|, len)
    requires PartialParity(f, m, k, c, i, len)
    requires forall q :: 0 <= q < k ==> c'[q] == c[q]
    requires forall r :: k <= r < |m| ==> c'[r] == CodeStep(f, m[r][i], i, c[i], c[r])
    ensures PartialParity(f, m, k, c', i + 1, len)
    ensures i + 1 == k ==> c' == Codeword(f, m, c[..k], len)
  {
    var d := c[..k];
    assert c'[..k] == d;
    forall r | k <= r < |m| ensures c'[r] == VecMat(f, m[r][..i + 1], c'[..i + 1], len) {
      assert d[..i] == c[..i] && d[..i + 1] == c'[..i + 1];
      CodeStepSums(f, m[r], d, i, len, c[r]);
    }
    if i + 1 == k { AllPartsIsCodeword(f, m, k, len, c'); }
  }

  class ShardByShard<E(==,!new)> {
    const codec: ReedSolomon<E>
    var curInput: nat

    constructor (codec: ReedSolomon<E>)
      ensures this.codec == codec && curInput == 0
    {
      this.codec := codec;
      curInput := 0;
    }

    predicate ParityReady()
      reads this
    {
      curInput == codec.dataCount
    }

    function Check(shards: seq<array<E>>): (r: SbsResult)
      reads this
    {
      if ParityReady() then SbsErr(TooManyCalls)
      else
        var c := codec.EncodeCheck(shards);
        if c.Err? then SbsErr(RsError(c.error)) else SbsOk
    }

    /** One more data shard.  Starting from parity that holds the first `curInput` partial sums
        (nothing at all when `curInput` is 0) each call advances it by one, and the call that
        takes the last data shard leaves exactly what one-shot encoding produces. */
    method Encode(shards: seq<array<E>>) returns (res: SbsResult)
      requires codec.Valid() && curInput <= codec.dataCount && Disjoint(shards)
      modifies this, shards
      ensures curInput <= codec.dataCount
      ensures res == old(Check(shards))
      ensures old(curInput) == codec.dataCount ==> res == SbsErr(TooManyCalls)
      ensures old(curInput) < codec.dataCount ==>
        exists r :: Judged(r, Lens(shards), codec.totalCount, TooFewShards, TooManyShards) && res == (if r.Ok? then SbsOk else SbsErr(RsError(r.error)))
      ensures res.SbsErr? ==> curInput == old(curInput) && Contents(shards) == old(Contents(shards))
      ensures res.SbsOk? ==> curInput == old(curInput) + 1
      ensures res.SbsOk? ==> Contents(shards)[..codec.dataCount] == old(Contents(shards))[..codec.dataCount]
      ensures res.SbsOk? && old(codec.ParitySoFar(shards, curInput)) ==> codec.ParitySoFar(shards, curInput)
      ensures res.SbsOk? && old(codec.ParitySoFar(shards, curInput)) && ParityReady() ==>
        Contents(shards) ==
        Codeword(codec.f, codec.matrix, old(Contents(shards))[..codec.dataCount], shards[0].Length)
    {
      assert IsMat(codec.matrix, codec.totalCount, codec.dataCount);
      hide EntryOk, CodingMatrix, VecMat, Codeword, CodeStep, PartialParity, CheckSizes;
      res := Check(shards);
      assert !ParityReady() ==> Judged(codec.EncodeCheck(shards), Lens(shards), codec.totalCount, TooFewShards, TooManyShards);
      hide Judged;
      if res.SbsErr? { return; }
      ghost var c0 := Contents(shards);
      var r := codec.EncodeSingle(curInput, shards);
      assert r.Ok?;  // the unwrap in the source cannot fail
      curInput := curInput + 1;
      assert Contents(shards)[..codec.dataCount] == c0[..codec.dataCount];
      if old(codec.ParitySoFar(shards, curInput)) {
        PartialAdvances(codec.f, codec.matrix, codec.dataCount, c0, Contents(shards), curInput - 1, shards[0].Length);
      }
    }

    method Reset() returns (res: SbsResult)
      modifies this
      ensures res == if 0 < old(curInput) != codec.dataCount then SbsErr(LeftoverShards) else SbsOk
      ensures curInput == if res.SbsOk? then 0 else old(curInput)
    {
      if curInput > 0 && !ParityReady() { return SbsErr(LeftoverShards); }
      curInput := 0;
      res := SbsOk;
    }
  }

  // ---- the round trip ----

  function Left(lost: seq<bool>): (left: seq<bool>)
    ensures |left| == |lost| && forall i :: 0 <= i < |lost| ==> left[i] == !lost[i]
  {
    seq(|lost|, i requires 0 <= i < |lost| => !lost[i])
  }

  /** Encode, lose any set of shards, reconstruct.  It succeeds exactly when at least as many
      shards are left as there are data shards, and then every data shard (and every parity shard
      unless only data was asked for) is there and is the one that was encoded. */
  method LostShardsComeBack<E(==,!new)>(rs: ReedSolomon<E>, shards: seq<array<E>>, lost: seq<bool>, dataOnly: bool)
    returns (s: ShardSet<E>, res: Result<()>)
    requires rs.Valid() && Disjoint(shards) && |lost| == |shards|
    requires |shards| == rs.dataCount + rs.parityCount && Uniform(Lens(shards))
    modifies shards, rs`cache
    ensures rs.Valid() && fresh(s) && |s.slots| == |shards|
    ensures res == if |Erasures.Valid(Left(lost))| >= rs.dataCount then Ok(()) else Err(TooFewShardsPresent)
    ensures res.Ok? ==> forall i :: 0 <= i < |shards| && (i < rs.dataCount || !dataOnly) ==>
      s.slots[i] != null && s.slots[i][..] == Codeword(rs.f, rs.matrix, old(Contents(shards))[..rs.dataCount], shards[0].Length)[i]
  {
    ghost var d, len := Contents(shards)[..rs.dataCount], shards[0].Length;
    var encoded := rs.Encode(shards);
    ghost var c := Codeword(rs.f, rs.matrix, d, len);
    s := new ShardSet(seq(|shards|, i requires 0 <= i < |shards| => if lost[i] then null else shards[i]));
    ghost var v := View(s.slots);
    hide CodingMatrix, EntryOk, Codeword, ReconstructCheck;
    assert Agrees(v, c);
    assert Mask(v) == Left(lost);
    EncodedPassesCheck(rs.f, rs.matrix, d, len, v);
    res := rs.ReconstructInternal(s, dataOnly);
    if res.Ok? {
      assert Agrees(View(s.slots), c);
    }
  }
}
