/** The generated GF(2^8) tables and the operations that use them.

    Each table is built by the loops of the build script and proved against polynomial
    multiplication (`Gf256.Mul`); log values, used as indices only, are integers. */
module Tables {
  import opened Gf256

  function Index(b: bv8): (r: nat)
    ensures r < 256
  {
    AsIntRange(b);
    AsInt(b)
  }

  lemma IndexInjective(a: bv8, b: bv8)
    requires Index(a) == Index(b)
    ensures a == b
  {
    AsIntInjective(a, b);
  }

  lemma IndexOfNth(n: nat)
    requires n < 256
    ensures Index(Nth(n)) == n
  {
    NthAsInt(n);
    hide AsInt, Nth;
  }

  lemma NthOfIndex(b: bv8)
    ensures Nth(Index(b)) == b
  {
    IndexOfNth(Index(b));
    IndexInjective(Nth(Index(b)), b);
    hide Index, Nth;
  }

  // ---- log and exp tables ----

  /** The byte after b in the order of the generator: doubled, reduced when it overflows. */
  function NextPower(b: bv8): bv8 {
    var wide: bv16 := (b as bv16) << 1;
    ((if 256 <= wide then (wide - 256) ^ 29 else wide) & 0xff) as bv8
  }

  lemma NextPowerIsTimesX(b: bv8)
    ensures NextPower(b) == TimesX(b)
    ensures var wide: bv16 := (b as bv16) << 1; 256 <= wide ==> (wide - 256) ^ 29 < 256
  { }

  ghost predicate LogOk(log: seq<int>) {
    |log| == 256 && forall b: bv8 :: b != 0 ==> 0 <= log[Index(b)] < 255 && Gen(log[Index(b)]) == b
  }

  ghost predicate ExpOk(exp: seq<bv8>) {
    |exp| == 510 && forall i :: 0 <= i < 510 ==> exp[i] == Gen(i)
  }

  method GenLogTable() returns (log: array<int>)
    ensures fresh(log) && LogOk(log[..])
  {
    hide Index, TimesX;
    log := new int[256](i => 0);
    var b: bv8 := 1;
    for l := 0 to 255
      invariant b == Gen(l)
      invariant forall i :: 0 <= i < l ==> log[Index(Gen(i))] == i
    {
      forall i | 0 <= i < l ensures Index(Gen(i)) != Index(b) {
        GenDistinct(i, l);
        if Index(Gen(i)) == Index(b) { IndexInjective(Gen(i), b); }
      }
      log[Index(b)] := l;
      NextPowerIsTimesX(b);
      b := NextPower(b);
    }
    forall c: bv8 | c != 0 ensures 0 <= log[..][Index(c)] < 255 && Gen(log[..][Index(c)]) == c {
      var i := GenCovers(c);
    }
  }

  method GenExpTable(log: array<int>) returns (exp: array<bv8>)
    requires LogOk(log[..])
    ensures fresh(exp) && ExpOk(exp[..])
  {
    hide Index, Gen, Nth;
    exp := new bv8[510](i => 0);
    ghost var t := log[..];
    for i := 1 to 256
      invariant forall k :: 1 <= k < i ==> 0 <= t[k] < 255 && exp[t[k]] == Nth(k) && exp[t[k] + 255] == Nth(k)
    {
      LogEntry(t, i);
      forall k | 1 <= k < i ensures t[k] != t[i] {
        LogEntry(t, k);
        if t[k] == t[i] { LogEntriesDiffer(t, k, i); }
      }
      exp[log[i]] := Nth(i);
      exp[log[i] + 255] := Nth(i);
    }
    forall j | 0 <= j < 510 ensures exp[..][j] == Gen(j) {
      ExpEntry(t, exp[..], j);
    }
  }

  lemma LogEntry(t: seq<int>, k: nat)
    requires LogOk(t) && 1 <= k < 256
    ensures 0 <= t[k] < 255 && Gen(t[k]) == Nth(k)
  {
    hide Index, Gen, AsInt;
    IndexOfNth(k);
    assert Nth(k) != 0 by {
      if Nth(k) == 0 {
        NthDistinct(k, 0);
      }
    }
  }

  lemma LogEntriesDiffer(t: seq<int>, j: nat, k: nat)
    requires |t| == 256 && LogOk(t) && 1 <= j < k < 256
    ensures t[j] != t[k]
  {
    hide Gen, Nth, LogOk;
    LogEntry(t, j);
    LogEntry(t, k);
    if t[j] == t[k] { NthDistinct(j, k); }
  }

  lemma ExpEntry(t: seq<int>, exp: seq<bv8>, j: nat)
    requires |t| == 256 && LogOk(t) && |exp| == 510 && j < 510
    requires forall k :: 1 <= k < 256 ==> 0 <= t[k] < 255 && exp[t[k]] == Nth(k) && exp[t[k] + 255] == Nth(k)
    ensures exp[j] == Gen(j)
  {
    hide Index, Gen, Nth, AsInt, LogOk;
    var r := if j < 255 then j else j - 255;
    var b := Gen(r);
    GenNonzero(r);
    NthOfIndex(b);
    var k := Index(b);
    assert k != 0 by { if k == 0 { IndexZero(b); } }
    LogEntry(t, k);
    assert Gen(t[k]) == Gen(r);
    assert t[k] == r by {
      if t[k] < r { GenDistinct(t[k], r); } else if r < t[k] { GenDistinct(r, t[k]); }
    }
    GenPeriods();
    GenShift(255, 1, r);
  }

  lemma IndexZero(b: bv8)
    requires Index(b) == 0
    ensures b == 0
  {
    AsIntRange(b);
  }

  lemma LogOf(t: seq<int>, b: bv8)
    requires LogOk(t) && b != 0
    ensures |t| == 256 && 0 <= t[Index(b)] < 255 && Gen(t[Index(b)]) == b
  { }

  // ---- multiplication ----

  /** Product by adding logarithms. */
  method Multiply(log: array<int>, exp: array<bv8>, a: bv8, b: bv8) returns (r: bv8)
    requires LogOk(log[..]) && ExpOk(exp[..])
    ensures r == Mul(a, b)
  {
    if a == 0 || b == 0 {
      MulZeroRight(a, 8);
      MulCommutes(0, b);
      MulZeroRight(b, 8);
      return 0;
    }
    hide Index, Gen, Mul;
    var la, lb := log[Index(a)], log[Index(b)];
    assert log[..][Index(a)] == la && log[..][Index(b)] == lb;
    GenAdd(la, lb);
    r := exp[..][la + lb];
  }

  /** Quotient by subtracting logarithms; a zero divisor is refused unless the dividend is zero. */
  method Divide(log: array<int>, exp: array<bv8>, a: bv8, b: bv8) returns (r: bv8)
    requires LogOk(log[..]) && ExpOk(exp[..]) && (a == 0 || b != 0)
    ensures b != 0 ==> Mul(b, r) == a && r == Div(a, b)
    ensures a == 0 ==> r == 0
  {
    if a == 0 {
      r := 0;
      MulZeroRight(b, 8);
      if b != 0 { QuotientUnique(a, b, r); }
      return;
    }
    hide Index, Gen, Mul, Div, LogOk;
    LogOf(log[..], a);
    LogOf(log[..], b);
    var la, lb := log[Index(a)], log[Index(b)];
    var l := la - lb;
    if l < 0 { l := l + 255; }
    r := exp[..][l];
    LogsDivide(la, lb, l);
    QuotientUnique(a, b, r);
  }

  /** The quotient of powers, with the logarithm brought back into range. */
  lemma LogsDivide(la: nat, lb: nat, l: nat)
    requires la < 255 && lb < 255 && l == if la < lb then la + 255 - lb else la - lb
    ensures Mul(Gen(lb), Gen(l)) == Gen(la)
  {
    hide Gen, Mul;
    GenAdd(lb, l);
    if la < lb {
      GenPeriods();
      GenShift(255, 1, la);
    }
  }

  lemma QuotientUnique(a: bv8, b: bv8, r: bv8)
    requires b != 0 && Mul(b, r) == a
    ensures r == Div(a, b)
  {
    hide *;
    DivUndoesMul(a, b);
    var d := Div(a, b);
    var i := GenCovers(b);
    var e := Gen(255 - i);
    GenAdd(255 - i, i);
    GenPeriods();
    MulAssociates(e, b, r);
    MulAssociates(e, b, d);
    MulCommutes(1, r);
    MulCommutes(1, d);
    MulOneRight(r);
    MulOneRight(d);
  }

  /** The n-fold product, for every n, from one table lookup. */
  method Power(log: array<int>, exp: array<bv8>, a: bv8, n: nat) returns (r: bv8)
    requires LogOk(log[..]) && ExpOk(exp[..])
    ensures r == Exp(a, n)
  {
    if n == 0 { return 1; }
    if a == 0 {
      ExpOfZero(n);
      return 0;
    }
    hide Index, Gen, Exp;
    var la := log[Index(a)];
    assert log[..][Index(a)] == la;
    ghost var all := la * n;
    var l := la * n;
    ghost var q: nat := 0;
    while 255 <= l
      invariant 0 <= l && all == q * 255 + l
    {
      l := l - 255;
      q := q + 1;
    }
    ExpGen(la, n);
    GenPeriods();
    GenShift(255, q, l);
    r := exp[..][l];
  }

  lemma ExpOfZero(n: nat)
    requires n > 0
    ensures Exp(0, n) == 0
  {
    ExpStep(0, n);
    MulCommutes(0, Exp(0, n - 1));
    MulZeroRight(Exp(0, n - 1), 8);
    hide MulBits;
  }

  // ---- the full table ----

  ghost predicate MulTableOk(t: array2<bv8>)
    reads t
  {
    t.Length0 == 256 && t.Length1 == 256 && forall a: bv8, b: bv8 :: t[Index(a), Index(b)] == Mul(a, b)
  }

  method GenMulTable(log: array<int>, exp: array<bv8>) returns (t: array2<bv8>)
    requires LogOk(log[..]) && ExpOk(exp[..])
    ensures fresh(t) && MulTableOk(t)
  {
    hide Index, Mul, Nth, LogOk, ExpOk;
    t := new bv8[256, 256];
    for a := 0 to 256
      invariant forall i, j :: 0 <= i < a && 0 <= j < 256 ==> t[i, j] == Mul(Nth(i), Nth(j))
    {
      for b := 0 to 256
        invariant forall i, j :: 0 <= i < a && 0 <= j < 256 ==> t[i, j] == Mul(Nth(i), Nth(j))
        invariant forall j :: 0 <= j < b ==> t[a, j] == Mul(Nth(a), Nth(j))
      {
        t[a, b] := Multiply(log, exp, Nth(a), Nth(b));
      }
    }
    forall a: bv8, b: bv8 ensures t[Index(a), Index(b)] == Mul(a, b) {
      NthOfIndex(a);
      NthOfIndex(b);
    }
  }

  // ---- the nibble tables ----

  predicate LowByte(b: bv8) { b & 0x0f == b }
  predicate HighByte(b: bv8) { b & 0xf0 == b }
  function Nibble(b: bv8): bv8 { b >> 4 }

  lemma NibbleIndex(b: bv8)
    ensures LowByte(b) ==> Index(b) < 16
    ensures Index(Nibble(b)) < 16
  { }

  lemma NibbleInjective(a: bv8, b: bv8)
    requires HighByte(a) && HighByte(b) && Nibble(a) == Nibble(b)
    ensures a == b
  { }

  /** The low table holds c times each low nibble, the high table c times each high nibble. */
  ghost predicate LowEntry(low: array2<bv8>, c: bv8, b: bv8)
    reads low
  {
    low.Length0 == 256 && low.Length1 == 16 && Index(b) < 16 && low[Index(c), Index(b)] == Mul(c, b)
  }

  ghost predicate HighEntry(high: array2<bv8>, c: bv8, b: bv8)
    reads high
  {
    high.Length0 == 256 && high.Length1 == 16 && Index(Nibble(b)) < 16 && high[Index(c), Index(Nibble(b))] == Mul(c, b)
  }

  ghost predicate HalfRowOk(low: array2<bv8>, high: array2<bv8>, c: bv8)
    reads low, high
  {
    (forall b: bv8 :: LowByte(b) ==> LowEntry(low, c, b)) && (forall b: bv8 :: HighByte(b) ==> HighEntry(high, c, b))
  }

  /** The entries of one product, where b is a low or a high nibble. */
  method FillHalfEntry(log: array<int>, exp: array<bv8>, c: bv8, b: nat, low: array2<bv8>, high: array2<bv8>)
    requires LogOk(log[..]) && ExpOk(exp[..]) && low != high && b < 256
    requires low.Length0 == 256 && high.Length0 == 256 && low.Length1 == 16 && high.Length1 == 16
    requires forall j :: 0 <= j < b && LowByte(Nth(j)) ==> LowEntry(low, c, Nth(j))
    requires forall j :: 0 <= j < b && HighByte(Nth(j)) ==> HighEntry(high, c, Nth(j))
    modifies low, high
    ensures forall j :: 0 <= j < b + 1 && LowByte(Nth(j)) ==> LowEntry(low, c, Nth(j))
    ensures forall j :: 0 <= j < b + 1 && HighByte(Nth(j)) ==> HighEntry(high, c, Nth(j))
    ensures forall d, j :: 0 <= d < 256 && d != Index(c) && 0 <= j < 16 ==> low[d, j] == old(low[d, j]) && high[d, j] == old(high[d, j])
  {
    hide Index, Mul, Nth, LogOk, ExpOk, LowByte, HighByte, Nibble;
    var nb := Nth(b);
    IndexOfNth(b);
    NibbleIndex(nb);
    var r := Multiply(log, exp, c, nb);
    if LowByte(nb) {
      forall j | 0 <= j < b ensures Index(Nth(j)) != b { IndexOfNth(j); }
      low[Index(c), b] := r;
    }
    if HighByte(nb) {
      forall j | 0 <= j < b && HighByte(Nth(j)) ensures Index(Nibble(Nth(j))) != Index(Nibble(nb)) {
        if Index(Nibble(Nth(j))) == Index(Nibble(nb)) { NibblesDiffer(j, b); }
      }
      high[Index(c), Index(Nibble(nb))] := r;
    }
  }

  /** One row of both tables; the other rows stay. */
  method FillHalfRow(log: array<int>, exp: array<bv8>, c: bv8, low: array2<bv8>, high: array2<bv8>)
    requires LogOk(log[..]) && ExpOk(exp[..]) && low != high
    requires low.Length0 == 256 && high.Length0 == 256 && low.Length1 == 16 && high.Length1 == 16
    modifies low, high
    ensures HalfRowOk(low, high, c)
    ensures forall d: bv8 :: d != c && old(HalfRowOk(low, high, d)) ==> HalfRowOk(low, high, d)
  {
    hide Index, Mul, Nth, LogOk, ExpOk, LowByte, HighByte, Nibble;
    for b := 0 to 256
      invariant forall j :: 0 <= j < b && LowByte(Nth(j)) ==> LowEntry(low, c, Nth(j))
      invariant forall j :: 0 <= j < b && HighByte(Nth(j)) ==> HighEntry(high, c, Nth(j))
      invariant forall d, j :: 0 <= d < 256 && d != Index(c) && 0 <= j < 16 ==> low[d, j] == old(low[d, j]) && high[d, j] == old(high[d, j])
    {
      FillHalfEntry(log, exp, c, b, low, high);
    }
    forall b: bv8 ensures (LowByte(b) ==> LowEntry(low, c, b)) && (HighByte(b) ==> HighEntry(high, c, b)) {
      NthOfIndex(b);
    }
    forall d: bv8 | d != c && old(HalfRowOk(low, high, d)) ensures HalfRowOk(low, high, d) {
      if Index(d) == Index(c) { IndexInjective(d, c); }
      forall b: bv8 | LowByte(b) ensures LowEntry(low, d, b) { assert old(LowEntry(low, d, b)); }
      forall b: bv8 | HighByte(b) ensures HighEntry(high, d, b) { assert old(HighEntry(high, d, b)); }
    }
  }

  lemma NibblesDiffer(j: nat, k: nat)
    requires j < k < 256 && HighByte(Nth(j)) && HighByte(Nth(k))
    ensures Index(Nibble(Nth(j))) != Index(Nibble(Nth(k)))
  {
    hide Index, Nth, HighByte, Nibble;
    if Index(Nibble(Nth(j))) == Index(Nibble(Nth(k))) {
      IndexInjective(Nibble(Nth(j)), Nibble(Nth(k)));
      NibbleInjective(Nth(j), Nth(k));
      NthDistinct(j, k);
    }
  }

  method GenMulTableHalf(log: array<int>, exp: array<bv8>) returns (low: array2<bv8>, high: array2<bv8>)
    requires LogOk(log[..]) && ExpOk(exp[..])
    ensures fresh(low) && fresh(high) && low != high
    ensures forall c: bv8 :: HalfRowOk(low, high, c)
  {
    hide Index, Mul, Nth, LogOk, ExpOk, LowByte, HighByte, Nibble;
    low := new bv8[256, 16];
    high := new bv8[256, 16];
    for a := 0 to 256
      invariant forall d :: 0 <= d < a ==> HalfRowOk(low, high, Nth(d))
    {
      IndexOfNth(a);
      FillHalfRow(log, exp, Nth(a), low, high);
      forall d | 0 <= d < a ensures HalfRowOk(low, high, Nth(d)) {
        if Nth(d) == Nth(a) { NthDistinct(d, a); }
      }
    }
    forall c: bv8 ensures HalfRowOk(low, high, c) { NthOfIndex(c); }
  }
}
