/** Multiplying a whole slice by one byte: the loop unrolled by four, and the vector form that
    handles sixteen bytes at a time and leaves the tail to the scalar loop.

    A vector is two 64-bit lanes, as in the generic C code; byte loads and stores are
    little-endian. */
module Slices {
  import opened Gf256
  import opened Tables
  import opened LinearAlgebra

  // ---- the scalar loops ----

  /** The unrolled body. */
  method MulFour(t: array2<bv8>, c: bv8, input: array<bv8>, out: array<bv8>, n: nat)
    requires MulTableOk(t) && input.Length == out.Length && input != out && n + 4 <= out.Length
    modifies out
    ensures forall j :: 0 <= j < out.Length ==> out[j] == if n <= j < n + 4 then Mul(c, input[j]) else old(out[j])
  {
    hide Index, Mul;
    out[n] := t[Index(c), Index(input[n])];
    out[n + 1] := t[Index(c), Index(input[n + 1])];
    out[n + 2] := t[Index(c), Index(input[n + 2])];
    out[n + 3] := t[Index(c), Index(input[n + 3])];
  }

  method XorFour(t: array2<bv8>, c: bv8, input: array<bv8>, out: array<bv8>, n: nat)
    requires MulTableOk(t) && input.Length == out.Length && input != out && n + 4 <= out.Length
    modifies out
    ensures forall j :: 0 <= j < out.Length ==> out[j] == if n <= j < n + 4 then Add(old(out[j]), Mul(c, input[j])) else old(out[j])
  {
    hide Index, Mul, Add;
    out[n] := Add(out[n], t[Index(c), Index(input[n])]);
    out[n + 1] := Add(out[n + 1], t[Index(c), Index(input[n + 1])]);
    out[n + 2] := Add(out[n + 2], t[Index(c), Index(input[n + 2])]);
    out[n + 3] := Add(out[n + 3], t[Index(c), Index(input[n + 3])]);
  }

  /** out[from..] := c * input[from..], four at a time while more than four are left. */
  method MulSlicePure(t: array2<bv8>, c: bv8, input: array<bv8>, out: array<bv8>, from: nat)
    requires MulTableOk(t) && input.Length == out.Length && input != out && from <= out.Length
    modifies out
    ensures forall j :: 0 <= j < from ==> out[j] == old(out[j])
    ensures forall j :: from <= j < out.Length ==> out[j] == Mul(c, input[j])
  {
    hide Index, Mul;
    var n, len := from, out.Length;
    if len - from > 4 {
      while n < len - 4
        invariant from <= n <= len
        invariant forall j :: 0 <= j < from ==> out[j] == old(out[j])
        invariant forall j :: from <= j < n ==> out[j] == Mul(c, input[j])
      {
        MulFour(t, c, input, out, n);
        n := n + 4;
      }
    }
    while n < len
      invariant from <= n <= len
      invariant forall j :: 0 <= j < from ==> out[j] == old(out[j])
      invariant forall j :: from <= j < n ==> out[j] == Mul(c, input[j])
    {
      out[n] := t[Index(c), Index(input[n])];
      n := n + 1;
    }
  }

  method MulSliceXorPure(t: array2<bv8>, c: bv8, input: array<bv8>, out: array<bv8>, from: nat)
    requires MulTableOk(t) && input.Length == out.Length && input != out && from <= out.Length
    modifies out
    ensures forall j :: 0 <= j < from ==> out[j] == old(out[j])
    ensures forall j :: from <= j < out.Length ==> out[j] == Add(old(out[j]), Mul(c, input[j]))
  {
    hide Index, Mul, Add;
    var n, len := from, out.Length;
    if len - from > 4 {
      while n < len - 4
        invariant from <= n <= len
        invariant forall j :: 0 <= j < from || n <= j < len ==> out[j] == old(out[j])
        invariant forall j :: from <= j < n ==> out[j] == Add(old(out[j]), Mul(c, input[j]))
      {
        XorFour(t, c, input, out, n);
        n := n + 4;
      }
    }
    while n < len
      invariant from <= n <= len
      invariant forall j :: 0 <= j < from || n <= j < len ==> out[j] == old(out[j])
      invariant forall j :: from <= j < n ==> out[j] == Add(old(out[j]), Mul(c, input[j]))
    {
      out[n] := Add(out[n], t[Index(c), Index(input[n])]);
      n := n + 1;
    }
  }

  // ---- lanes ----

  type Bytes8 = s: seq<bv8> | |s| == 8 witness [0, 0, 0, 0, 0, 0, 0, 0]

  datatype Lane = Lane(bits: bv64)

  function Pack(b0: bv8, b1: bv8, b2: bv8, b3: bv8, b4: bv8, b5: bv8, b6: bv8, b7: bv8): bv64 {
    (b7 as bv64 << 56) | (b6 as bv64 << 48) | (b5 as bv64 << 40) | (b4 as bv64 << 32) |
    (b3 as bv64 << 24) | (b2 as bv64 << 16) | (b1 as bv64 << 8) | (b0 as bv64)
  }

  function Load(b: Bytes8): Lane { Lane(Pack(b[0], b[1], b[2], b[3], b[4], b[5], b[6], b[7])) }

  function Unpack(l: bv64): Bytes8 {
    [(l & 0xff) as bv8, ((l >> 8) & 0xff) as bv8, ((l >> 16) & 0xff) as bv8, ((l >> 24) & 0xff) as bv8,
     ((l >> 32) & 0xff) as bv8, ((l >> 40) & 0xff) as bv8, ((l >> 48) & 0xff) as bv8, ((l >> 56) & 0xff) as bv8]
  }

  function Store(l: Lane): Bytes8 { Unpack(l.bits) }

  const LOW_MASK: bv64 := 0x0f0f_0f0f_0f0f_0f0f

  function LowNibble(b: bv8): bv8 { b & 0x0f }

  function And(a: Lane, b: Lane): Lane { Lane(a.bits & b.bits) }
  function Xor(a: Lane, b: Lane): Lane { Lane(a.bits ^ b.bits) }
  function Shift(a: Lane): Lane { Lane(a.bits >> 4) }

  lemma PackAnd(b0: bv8, b1: bv8, b2: bv8, b3: bv8, b4: bv8, b5: bv8, b6: bv8, b7: bv8)
    ensures Pack(b0, b1, b2, b3, b4, b5, b6, b7) & LOW_MASK ==
      Pack(b0 & 0x0f, b1 & 0x0f, b2 & 0x0f, b3 & 0x0f, b4 & 0x0f, b5 & 0x0f, b6 & 0x0f, b7 & 0x0f)
  { }

  /** The bits that a 64-bit shift drags in from the next byte are masked away. */
  lemma PackShift(b0: bv8, b1: bv8, b2: bv8, b3: bv8, b4: bv8, b5: bv8, b6: bv8, b7: bv8)
    ensures (Pack(b0, b1, b2, b3, b4, b5, b6, b7) >> 4) & LOW_MASK ==
      Pack(b0 >> 4, b1 >> 4, b2 >> 4, b3 >> 4, b4 >> 4, b5 >> 4, b6 >> 4, b7 >> 4)
  { }

  lemma PackXor(b0: bv8, b1: bv8, b2: bv8, b3: bv8, b4: bv8, b5: bv8, b6: bv8, b7: bv8,
                c0: bv8, c1: bv8, c2: bv8, c3: bv8, c4: bv8, c5: bv8, c6: bv8, c7: bv8)
    ensures Pack(b0, b1, b2, b3, b4, b5, b6, b7) ^ Pack(c0, c1, c2, c3, c4, c5, c6, c7) ==
      Pack(Add(b0, c0), Add(b1, c1), Add(b2, c2), Add(b3, c3), Add(b4, c4), Add(b5, c5), Add(b6, c6), Add(b7, c7))
  { }

  lemma PackUnpack(b0: bv8, b1: bv8, b2: bv8, b3: bv8, b4: bv8, b5: bv8, b6: bv8, b7: bv8)
    ensures Unpack(Pack(b0, b1, b2, b3, b4, b5, b6, b7)) == [b0, b1, b2, b3, b4, b5, b6, b7]
  { }

  lemma StoreLoad(b: Bytes8)
    ensures Store(Load(b)) == b
  {
    PackUnpack(b[0], b[1], b[2], b[3], b[4], b[5], b[6], b[7]);
    hide Unpack, Pack;
  }

  // ---- vectors ----

  type Bytes16 = s: seq<bv8> | |s| == 16 witness [0, 0, 0, 0, 0, 0, 0, 0, 0, 0, 0, 0, 0, 0, 0, 0]

  datatype V128 = V128(lo: Lane, hi: Lane)

  function LoadV(b: Bytes16): V128 { V128(Load(b[..8]), Load(b[8..])) }
  function StoreV(v: V128): Bytes16 { Store(v.lo) + Store(v.hi) }

  lemma StoreLoadV(b: Bytes16)
    ensures StoreV(LoadV(b)) == b
  {
    StoreLoad(b[..8]);
    StoreLoad(b[8..]);
    hide Store, Load;
  }

  function AndV(a: V128, b: V128): V128 { V128(And(a.lo, b.lo), And(a.hi, b.hi)) }
  function XorV(a: V128, b: V128): V128 { V128(Xor(a.lo, b.lo), Xor(a.hi, b.hi)) }
  function ShiftV(a: V128): V128 { V128(Shift(a.lo), Shift(a.hi)) }

  /** One byte of a shuffle: the table entry its low nibble names, zero when its top bit is set. */
  function Pick16(table: Bytes16, m: bv8): bv8 {
    NibbleIndex(LowNibble(m));
    LowNibbleIsLow(m);
    if m & 0x80 != 0 then 0 else table[Index(LowNibble(m))]
  }

  lemma LowNibbleIsLow(m: bv8)
    ensures LowByte(LowNibble(m))
  { }

  function Picks(table: Bytes16, m: Bytes8): Bytes8 {
    [Pick16(table, m[0]), Pick16(table, m[1]), Pick16(table, m[2]), Pick16(table, m[3]), Pick16(table, m[4]), Pick16(table, m[5]), Pick16(table, m[6]), Pick16(table, m[7])]
  }

  function ShuffleLane(table: Bytes16, mask: Lane): Lane { Load(Picks(table, Store(mask))) }

  function ShuffleV(vec: V128, mask: V128): V128 {
    V128(ShuffleLane(StoreV(vec), mask.lo), ShuffleLane(StoreV(vec), mask.hi))
  }

  const MASK: V128 := V128(Lane(LOW_MASK), Lane(LOW_MASK))

  /** Sixteen products at once; keep says whether the previous output is added in. */
  function GalMulV(low: V128, high: V128, keep: bool, x: V128, previous: V128): V128 {
    var lowPart := ShuffleV(low, AndV(x, MASK));
    var highPart := ShuffleV(high, AndV(ShiftV(x), MASK));
    var r := XorV(lowPart, highPart);
    if keep then XorV(r, previous) else r
  }

  // ---- one byte ----

  /** Rows of the nibble tables for c. */
  ghost predicate RowsOk(low: Bytes16, high: Bytes16, c: bv8) {
    && (forall b: bv8 :: LowByte(b) ==> Index(b) < 16 && low[Index(b)] == Mul(c, b))
    && (forall b: bv8 :: HighByte(b) ==> HighRow(high, c, b))
  }

  ghost predicate HighRow(high: Bytes16, c: bv8, b: bv8) {
    Index(Nibble(b)) < 16 && high[Index(Nibble(b))] == Mul(c, b)
  }

  function HighPart(b: bv8): bv8 { b & 0xf0 }

  lemma Split(b: bv8)
    ensures LowByte(LowNibble(b)) && HighByte(HighPart(b)) && Add(LowNibble(b), HighPart(b)) == b
    ensures Nibble(HighPart(b)) == Nibble(b) && LowNibble(Nibble(b)) == Nibble(b) && Nibble(b) & 0x80 == 0
    ensures LowNibble(LowNibble(b)) == LowNibble(b) && LowNibble(b) & 0x80 == 0
  { }

  /** One byte through both nibble tables. */
  lemma NibblesMultiply(low: Bytes16, high: Bytes16, c: bv8, b: bv8)
    requires RowsOk(low, high, c)
    ensures Add(Pick16(low, LowNibble(b)), Pick16(high, Nibble(b))) == Mul(c, b)
  {
    Split(b);
    hide Index, Mul, Add, Nibble, LowNibble, HighPart, LowByte, HighByte;
    assert HighRow(high, c, HighPart(b));
    MulDistributes(c, LowNibble(b), HighPart(b));
  }

  // ---- one lane ----

  function Products(c: bv8, x: Bytes8): Bytes8 {
    [Mul(c, x[0]), Mul(c, x[1]), Mul(c, x[2]), Mul(c, x[3]), Mul(c, x[4]), Mul(c, x[5]), Mul(c, x[6]), Mul(c, x[7])]
  }

  function Sums(a: Bytes8, b: Bytes8): Bytes8 {
    [Add(a[0], b[0]), Add(a[1], b[1]), Add(a[2], b[2]), Add(a[3], b[3]), Add(a[4], b[4]), Add(a[5], b[5]), Add(a[6], b[6]), Add(a[7], b[7])]
  }

  function LowNibbles(x: Bytes8): Bytes8 {
    [LowNibble(x[0]), LowNibble(x[1]), LowNibble(x[2]), LowNibble(x[3]), LowNibble(x[4]), LowNibble(x[5]), LowNibble(x[6]), LowNibble(x[7])]
  }

  function HighNibbles(x: Bytes8): Bytes8 {
    [Nibble(x[0]), Nibble(x[1]), Nibble(x[2]), Nibble(x[3]), Nibble(x[4]), Nibble(x[5]), Nibble(x[6]), Nibble(x[7])]
  }

  lemma MaskedLane(x: Bytes8)
    ensures And(Load(x), Lane(LOW_MASK)) == Load(LowNibbles(x))
    ensures And(Shift(Load(x)), Lane(LOW_MASK)) == Load(HighNibbles(x))
  {
    PackAnd(x[0], x[1], x[2], x[3], x[4], x[5], x[6], x[7]);
    PackShift(x[0], x[1], x[2], x[3], x[4], x[5], x[6], x[7]);
    hide Pack;
  }

  lemma XorLanes(a: Bytes8, b: Bytes8)
    ensures Xor(Load(a), Load(b)) == Load(Sums(a, b))
  {
    PackXor(a[0], a[1], a[2], a[3], a[4], a[5], a[6], a[7],
            b[0], b[1], b[2], b[3], b[4], b[5], b[6], b[7]);
    hide Pack, Add;
  }

  lemma PicksMultiply(low: Bytes16, high: Bytes16, c: bv8, x: Bytes8)
    requires RowsOk(low, high, c)
    ensures Sums(Picks(low, LowNibbles(x)), Picks(high, HighNibbles(x))) == Products(c, x)
  {
    hide RowsOk, Pick16, LowNibble, Nibble, Add, Mul;
    forall k | 0 <= k < 8 ensures Add(Pick16(low, LowNibble(x[k])), Pick16(high, Nibble(x[k]))) == Mul(c, x[k]) {
      NibblesMultiply(low, high, c, x[k]);
    }
  }

  function MulLane(low: Bytes16, high: Bytes16, keep: bool, x: Lane, previous: Lane): Lane {
    var r := Xor(ShuffleLane(low, And(x, Lane(LOW_MASK))), ShuffleLane(high, And(Shift(x), Lane(LOW_MASK))));
    if keep then Xor(r, previous) else r
  }

  lemma LaneMultiplies(low: Bytes16, high: Bytes16, c: bv8, keep: bool, x: Bytes8, o: Bytes8)
    requires RowsOk(low, high, c)
    ensures Store(MulLane(low, high, keep, Load(x), Load(o))) ==
      if keep then Sums(Products(c, x), o) else Products(c, x)
  {
    hide RowsOk, Load, Store, Picks, Sums, Products, LowNibbles, HighNibbles, And, Xor, Shift;
    MaskedLane(x);
    StoreLoad(LowNibbles(x));
    StoreLoad(HighNibbles(x));
    PicksMultiply(low, high, c, x);
    XorLanes(Picks(low, LowNibbles(x)), Picks(high, HighNibbles(x)));
    XorLanes(Products(c, x), o);
    StoreLoad(Products(c, x));
    StoreLoad(Sums(Products(c, x), o));
  }

  // ---- one vector, and the loop over vectors ----

  function Product(c: bv8, keep: bool, b: bv8, o: bv8): bv8 {
    if keep then Add(o, Mul(c, b)) else Mul(c, b)
  }

  /** Every byte of a vector is multiplied by c, and added to the previous one when asked. */
  lemma VectorMultiplies(low: Bytes16, high: Bytes16, c: bv8, keep: bool, x: Bytes16, o: Bytes16)
    requires RowsOk(low, high, c)
    ensures var r := StoreV(GalMulV(LoadV(low), LoadV(high), keep, LoadV(x), LoadV(o)));
      forall k :: 0 <= k < 16 ==> r[k] == Product(c, keep, x[k], o[k])
  {
    hide RowsOk, Load, Store, MulLane, GalMulV, Sums, Products, Product;
    GalMulLanes(low, high, keep, LoadV(x), LoadV(o));
    LaneMultiplies(low, high, c, keep, x[..8], o[..8]);
    LaneMultiplies(low, high, c, keep, x[8..], o[8..]);
    HalfVector(c, keep, x[..8], o[..8]);
    HalfVector(c, keep, x[8..], o[8..]);
  }

  lemma GalMulLanes(low: Bytes16, high: Bytes16, keep: bool, x: V128, p: V128)
    ensures GalMulV(LoadV(low), LoadV(high), keep, x, p) ==
      V128(MulLane(low, high, keep, x.lo, p.lo), MulLane(low, high, keep, x.hi, p.hi))
  {
    hide LoadV, StoreV, ShuffleLane, And, Xor, Shift;
    StoreLoadV(low);
    StoreLoadV(high);
  }

  lemma HalfVector(c: bv8, keep: bool, x: Bytes8, o: Bytes8)
    ensures var r := if keep then Sums(Products(c, x), o) else Products(c, x);
      forall k :: 0 <= k < 8 ==> r[k] == Product(c, keep, x[k], o[k])
  {
    hide Add, Mul, Sums, Products;
    forall k | 0 <= k < 8 ensures Products(c, x)[k] == Mul(c, x[k]) && Sums(Products(c, x), o)[k] == Add(o[k], Mul(c, x[k])) {
      ProductsAt(c, x, k);
      SumsAt(Products(c, x), o, k);
      XorComm(Mul(c, x[k]), o[k]);
    }
  }

  lemma ProductsAt(c: bv8, x: Bytes8, k: nat)
    requires k < 8
    ensures Products(c, x)[k] == Mul(c, x[k])
  {
    hide Mul;
  }

  lemma SumsAt(a: Bytes8, b: Bytes8, k: nat)
    requires k < 8
    ensures Sums(a, b)[k] == Add(a[k], b[k])
  {
    hide Add;
  }

  /** Whole vectors only; returns how many bytes were done. */
  method GalMul(low: Bytes16, high: Bytes16, ghost c: bv8, keep: bool, input: array<bv8>, out: array<bv8>) returns (done: nat)
    requires RowsOk(low, high, c) && input.Length == out.Length && input != out
    modifies out
    ensures done <= out.Length < done + 16
    ensures forall j :: 0 <= j < done ==> out[j] == Product(c, keep, input[j], old(out[j]))
    ensures forall j :: done <= j < out.Length ==> out[j] == old(out[j])
  {
    hide RowsOk, Product, LoadV, StoreV, GalMulV;
    var lowV, highV := LoadV(low), LoadV(high);
    done := 0;
    for x := 0 to out.Length / 16
      invariant done == 16 * x
      invariant forall j :: 0 <= j < done ==> out[j] == Product(c, keep, input[j], old(out[j]))
      invariant forall j :: done <= j < out.Length ==> out[j] == old(out[j])
    {
      var i, o := input[done..done + 16], out[done..done + 16];
      var r := StoreV(GalMulV(lowV, highV, keep, LoadV(i), LoadV(o)));
      VectorMultiplies(low, high, c, keep, i, o);
      StoreBytes(out, done, r);
      done := done + 16;
    }
  }

  method StoreBytes(out: array<bv8>, at: nat, r: Bytes16)
    requires at + 16 <= out.Length
    modifies out
    ensures forall j :: 0 <= j < out.Length ==> out[j] == if at <= j < at + 16 then r[j - at] else old(out[j])
  {
    for k := 0 to 16
      invariant forall j :: 0 <= j < out.Length ==> out[j] == if at <= j < at + k then r[j - at] else old(out[j])
    {
      out[at + k] := r[k];
    }
  }

  /** The rows of c, as the vector code loads them. */
  method RowsOf(low: array2<bv8>, high: array2<bv8>, c: bv8) returns (l: Bytes16, h: Bytes16)
    requires HalfRowOk(low, high, c)
    ensures RowsOk(l, h, c)
  {
    hide Index, Mul, Nibble;
    assert LowEntry(low, c, 0) && HighEntry(high, c, 0);
    l := seq(16, i requires 0 <= i < 16 reads low => low[Index(c), i]);
    h := seq(16, i requires 0 <= i < 16 reads high => high[Index(c), i]);
    forall b: bv8 | LowByte(b) ensures Index(b) < 16 && l[Index(b)] == Mul(c, b) { assert LowEntry(low, c, b); }
    forall b: bv8 | HighByte(b) ensures HighRow(h, c, b) { assert HighEntry(high, c, b); }
  }

  // ---- the slice operations of the field ----

  lemma ScaleIsProducts(c: bv8, x: seq<bv8>, r: seq<bv8>)
    requires |r| == |x| && forall j :: 0 <= j < |x| ==> r[j] == Mul(c, x[j])
    ensures r == Scale(Gf8, c, x)
  {
    hide Mul;
  }

  lemma PlusIsSums(c: bv8, x: seq<bv8>, o: seq<bv8>, r: seq<bv8>)
    requires |r| == |x| == |o| && forall j :: 0 <= j < |x| ==> r[j] == Add(o[j], Mul(c, x[j]))
    ensures r == Plus(Gf8, o, Scale(Gf8, c, x))
  {
    hide Mul, Add;
  }

  /** Vector prefix, scalar tail: every byte of out becomes c times the byte of input. */
  method MulSlice(t: array2<bv8>, low: array2<bv8>, high: array2<bv8>, c: bv8, input: array<bv8>, out: array<bv8>)
    requires MulTableOk(t) && HalfRowOk(low, high, c) && input.Length == out.Length > 0 && input != out
    modifies out
    ensures out[..] == Scale(Gf8, c, input[..])
  {
    hide Mul, MulTableOk, HalfRowOk, RowsOk;
    var l, h := RowsOf(low, high, c);
    var done := GalMul(l, h, c, false, input, out);
    MulSlicePure(t, c, input, out, done);
    assert forall j :: 0 <= j < out.Length ==> out[j] == Mul(c, input[j]);
    ScaleIsProducts(c, input[..], out[..]);
  }

  /** ... or has it added. */
  method MulSliceXor(t: array2<bv8>, low: array2<bv8>, high: array2<bv8>, c: bv8, input: array<bv8>, out: array<bv8>)
    requires MulTableOk(t) && HalfRowOk(low, high, c) && input.Length == out.Length > 0 && input != out
    modifies out
    ensures out[..] == Plus(Gf8, old(out[..]), Scale(Gf8, c, input[..]))
  {
    hide Mul, Add, MulTableOk, HalfRowOk, RowsOk;
    var l, h := RowsOf(low, high, c);
    var done := GalMul(l, h, c, true, input, out);
    MulSliceXorPure(t, c, input, out, done);
    assert forall j :: 0 <= j < out.Length ==> out[j] == Add(old(out[j]), Mul(c, input[j]));
    PlusIsSums(c, input[..], old(out[..]), out[..]);
  }
}
