/** GF(2^8): bytes under xor and polynomial multiplication modulo
    x^8 + x^4 + x^3 + x^2 + 1 (generating polynomial 29, i.e. 0x11d). */
module Gf256 {
  import opened Fields

  function Add(a: bv8, b: bv8): bv8 { a ^ b }

  /** Multiplication by x, reduced. */
  function TimesX(b: bv8): bv8 {
    (b << 1) ^ (if b & 0x80 != 0 then 0x1d else 0)
  }

  /** Division by x, dropping the constant term. */
  function Half(a: bv8): bv8 { a >> 1 }

  /** b when the constant term of a is one. */
  function Pick(a: bv8, b: bv8): bv8 { if a & 1 != 0 then b else 0 }

  /** Polynomial multiplication over the low n bits of a, by Horner's rule. */
  function MulBits(a: bv8, b: bv8, n: nat): bv8
    decreases n
  {
    if n == 0 then 0 else Add(Pick(a, b), TimesX(MulBits(Half(a), b, n - 1)))
  }

  function Mul(a: bv8, b: bv8): bv8 { MulBits(a, b, 8) }

  // ---- one-step facts about bytes ----

  lemma XorComm(a: bv8, b: bv8)
    ensures Add(a, b) == Add(b, a)
  { }

  lemma XorAssoc(a: bv8, b: bv8, c: bv8)
    ensures Add(Add(a, b), c) == Add(a, Add(b, c))
  { }

  lemma XorZero(a: bv8)
    ensures Add(a, 0) == a && Add(0, a) == a && Add(a, a) == 0
  { }

  lemma AddMiddle(a: bv8, b: bv8, c: bv8, d: bv8)
    ensures Add(Add(a, b), Add(c, d)) == Add(Add(a, c), Add(b, d))
  {
    hide Add;
    XorAssoc(a, b, Add(c, d));
    XorAssoc(b, c, d);
    XorComm(b, c);
    XorAssoc(c, b, d);
    XorAssoc(a, c, Add(b, d));
  }

  /** The reduction term of TimesX. */
  function Carry(b: bv8): bv8 { if b & 0x80 != 0 then 0x1d else 0 }

  lemma CarryAdd(a: bv8, b: bv8)
    ensures Carry(Add(a, b)) == Add(Carry(a), Carry(b))
  {
    assert Add(a, b) & 0x80 == Add(a & 0x80, b & 0x80);
    assert (a & 0x80 == 0 || a & 0x80 == 0x80) && (b & 0x80 == 0 || b & 0x80 == 0x80);
  }

  lemma ShiftAdd(a: bv8, b: bv8)
    ensures Add(a, b) << 1 == Add(a << 1, b << 1)
  { }

  lemma TimesXParts(a: bv8)
    ensures TimesX(a) == Add(a << 1, Carry(a))
  { }

  lemma TimesXAdd(a: bv8, b: bv8)
    ensures TimesX(Add(a, b)) == Add(TimesX(a), TimesX(b))
  {
    hide *;
    TimesXParts(a);
    TimesXParts(b);
    TimesXParts(Add(a, b));
    ShiftAdd(a, b);
    CarryAdd(a, b);
    AddMiddle(a << 1, b << 1, Carry(a), Carry(b));
  }

  lemma TimesXZero()
    ensures TimesX(0) == 0
  { }

  lemma PickAdd(a: bv8, b: bv8, c: bv8)
    ensures Pick(a, Add(b, c)) == Add(Pick(a, b), Pick(a, c))
  { }

  lemma AddPick(a: bv8, b: bv8, c: bv8)
    ensures Pick(Add(a, b), c) == Add(Pick(a, c), Pick(b, c))
  { }

  lemma PickTimesX(a: bv8, b: bv8)
    ensures Pick(a, TimesX(b)) == TimesX(Pick(a, b)) && Pick(a, 0) == 0
  { }

  lemma HalfAdd(a: bv8, b: bv8)
    ensures Half(Add(a, b)) == Add(Half(a), Half(b))
  { }

  lemma MulStep(a: bv8, b: bv8, n: nat)
    requires n > 0
    ensures MulBits(a, b, n) == Add(Pick(a, b), TimesX(MulBits(Half(a), b, n - 1)))
  {
    hide Add, Pick, TimesX, Half;
  }

  lemma MulNone(a: bv8, b: bv8)
    ensures MulBits(a, b, 0) == 0
  { }

  // ---- bilinearity ----

  lemma {:induction false} LinearRight(a: bv8, b: bv8, c: bv8, n: nat)
    ensures MulBits(a, Add(b, c), n) == Add(MulBits(a, b, n), MulBits(a, c, n))
    decreases n
  {
    hide *;
    if n == 0 {
      MulNone(a, b);
      MulNone(a, c);
      MulNone(a, Add(b, c));
      XorZero(0);
    } else {
      var u, v := MulBits(Half(a), b, n - 1), MulBits(Half(a), c, n - 1);
      LinearRight(Half(a), b, c, n - 1);
      MulStep(a, b, n);
      MulStep(a, c, n);
      MulStep(a, Add(b, c), n);
      PickAdd(a, b, c);
      TimesXAdd(u, v);
      AddMiddle(Pick(a, b), Pick(a, c), TimesX(u), TimesX(v));
    }
  }

  lemma {:induction false} LinearLeft(a: bv8, b: bv8, c: bv8, n: nat)
    ensures MulBits(Add(a, b), c, n) == Add(MulBits(a, c, n), MulBits(b, c, n))
    decreases n
  {
    hide *;
    if n == 0 {
      MulNone(a, c);
      MulNone(b, c);
      MulNone(Add(a, b), c);
      XorZero(0);
    } else {
      var u, v := MulBits(Half(a), c, n - 1), MulBits(Half(b), c, n - 1);
      LinearLeft(Half(a), Half(b), c, n - 1);
      HalfAdd(a, b);
      MulStep(a, c, n);
      MulStep(b, c, n);
      MulStep(Add(a, b), c, n);
      AddPick(a, b, c);
      TimesXAdd(u, v);
      AddMiddle(Pick(a, c), Pick(b, c), TimesX(u), TimesX(v));
    }
  }

  /** a (x b) == x (a b) */
  lemma {:induction false} TimesXRight(a: bv8, b: bv8, n: nat)
    ensures MulBits(a, TimesX(b), n) == TimesX(MulBits(a, b, n))
    decreases n
  {
    hide *;
    if n == 0 {
      MulNone(a, b);
      MulNone(a, TimesX(b));
      TimesXZero();
    } else {
      TimesXRight(Half(a), b, n - 1);
      MulStep(a, b, n);
      MulStep(a, TimesX(b), n);
      PickTimesX(a, b);
      TimesXAdd(Pick(a, b), TimesX(MulBits(Half(a), b, n - 1)));
    }
  }

  lemma {:induction false} MulZeroRight(a: bv8, n: nat)
    ensures MulBits(a, 0, n) == 0
    decreases n
  {
    hide *;
    if n == 0 {
      MulNone(a, 0);
    } else {
      MulZeroRight(Half(a), n - 1);
      MulStep(a, 0, n);
      PickTimesX(a, 0);
      TimesXZero();
      XorZero(0);
    }
  }

  /** a times one keeps the low n bits of a (n of them, here as a mask). */
  lemma {:induction false} MulByOne(a: bv8, n: nat)
    requires n <= 8 && (n < 8 ==> a >> n == 0)
    ensures MulBits(a, 1, n) == a
    decreases n
  {
    if n == 0 {
      assert a == 0;
    } else {
      assert n - 1 < 8 && Half(a) >> (n - 1) == 0;
      MulByOne(Half(a), n - 1);
      MulStep(a, 1, n);
      PickOneHalf(a);
    }
  }

  lemma PickOneHalf(a: bv8)
    ensures Add(Pick(a, 1), TimesX(Half(a))) == a
  { }

  // ---- the ring laws ----

  lemma MulOneRight(a: bv8)
    ensures Mul(a, 1) == a
  {
    MulByOne(a, 8);
  }

  lemma MulPick(b: bv8, a: bv8)
    ensures Mul(b, Pick(a, 1)) == Pick(a, b)
  {
    MulOneRight(b);
    MulZeroRight(b, 8);
  }

  /** b (a restricted to n bits) == (a restricted to n bits) b */
  lemma {:induction false} Commutes(a: bv8, b: bv8, n: nat)
    ensures Mul(b, MulBits(a, 1, n)) == MulBits(a, b, n)
    decreases n
  {
    if n == 0 {
      MulNone(a, 1);
      MulNone(a, b);
      MulZeroRight(b, 8);
    } else {
      var w := MulBits(Half(a), 1, n - 1);
      Commutes(Half(a), b, n - 1);
      MulStep(a, 1, n);
      MulStep(a, b, n);
      LinearRight(b, Pick(a, 1), TimesX(w), 8);
      TimesXRight(b, w, 8);
      MulPick(b, a);
      hide Add, Pick, TimesX, Half, MulBits;
    }
  }

  lemma MulCommutes(a: bv8, b: bv8)
    ensures Mul(a, b) == Mul(b, a)
  {
    Commutes(a, b, 8);
    MulOneRight(a);
  }

  lemma TimesXLeft(a: bv8, b: bv8)
    ensures Mul(TimesX(a), b) == TimesX(Mul(a, b))
  {
    MulCommutes(TimesX(a), b);
    TimesXRight(b, a, 8);
    MulCommutes(a, b);
  }

  lemma {:induction false} Associates(a: bv8, b: bv8, c: bv8, n: nat)
    ensures Mul(MulBits(a, b, n), c) == MulBits(a, Mul(b, c), n)
    decreases n
  {
    if n == 0 {
      MulNone(a, b);
      MulNone(a, Mul(b, c));
      MulCommutes(0, c);
      MulZeroRight(c, 8);
    } else {
      var w := MulBits(Half(a), b, n - 1);
      Associates(Half(a), b, c, n - 1);
      MulStep(a, b, n);
      MulStep(a, Mul(b, c), n);
      LinearLeft(Pick(a, b), TimesX(w), c, 8);
      TimesXLeft(w, c);
      PickMul(a, b, c);
      hide Add, Pick, TimesX, Half, MulBits;
    }
  }

  lemma PickMul(a: bv8, b: bv8, c: bv8)
    ensures Mul(Pick(a, b), c) == Pick(a, Mul(b, c))
  {
    MulCommutes(0, c);
    MulZeroRight(c, 8);
    hide MulBits;
  }

  lemma MulAssociates(a: bv8, b: bv8, c: bv8)
    ensures Mul(Mul(a, b), c) == Mul(a, Mul(b, c))
  {
    Associates(a, b, c, 8);
  }

  // ---- the generator x ----

  /** x^i */
  function Gen(i: nat): bv8 { if i == 0 then 1 else TimesX(Gen(i - 1)) }

  lemma {:induction false} GenAdd(i: nat, j: nat)
    ensures Mul(Gen(i), Gen(j)) == Gen(i + j)
    decreases i
  {
    if i == 0 {
      MulCommutes(1, Gen(j));
      MulOneRight(Gen(j));
    } else {
      GenAdd(i - 1, j);
      TimesXLeft(Gen(i - 1), Gen(j));
      hide TimesX, MulBits;
    }
  }

  /** One Horner step, and multiplication as eight of them. */
  function Horner(a: bv8, b: bv8, acc: bv8): bv8 { Add(Pick(a, b), TimesX(acc)) }

  function Unrolled(a: bv8, b: bv8): bv8 {
    var a1 := Half(a); var a2 := Half(a1); var a3 := Half(a2); var a4 := Half(a3);
    var a5 := Half(a4); var a6 := Half(a5); var a7 := Half(a6);
    Horner(a, b, Horner(a1, b, Horner(a2, b, Horner(a3, b,
      Horner(a4, b, Horner(a5, b, Horner(a6, b, Horner(a7, b, 0))))))))
  }

  lemma MulIsUnrolled(a: bv8, b: bv8)
    ensures Mul(a, b) == Unrolled(a, b)
  {
    hide Add, Pick, TimesX, Half, MulBits;
    var a1 := Half(a); var a2 := Half(a1); var a3 := Half(a2); var a4 := Half(a3);
    var a5 := Half(a4); var a6 := Half(a5); var a7 := Half(a6);
    MulStep(a, b, 8);
    MulStep(a1, b, 7);
    MulStep(a2, b, 6);
    MulStep(a3, b, 5);
    MulStep(a4, b, 4);
    MulStep(a5, b, 3);
    MulStep(a6, b, 2);
    MulStep(a7, b, 1);
    MulNone(Half(a7), b);
  }

  /** Powers of x computed by multiplying known ones. */
  lemma GenPowers()
    ensures Gen(16) == 0x4c && Gen(32) == 0x9d && Gen(15) == 0x26 && Gen(17) == 0x98
  {
    assert Gen(1) == 2 && Gen(5) == 0x20 && Gen(8) == 0x1d;
    hide Gen;
    GenProduct(8, 8, 0x1d, 0x1d, 0x4c);
    GenProduct(16, 16, 0x4c, 0x4c, 0x9d);
    GenProduct(16, 1, 0x4c, 2, 0x98);
    GenProduct(5, 5, 0x20, 0x20, 0x74);
    GenProduct(10, 5, 0x74, 0x20, 0x26);
  }

  lemma GenPowers51()
    ensures Gen(51) == 0x0a
  {
    assert Gen(3) == 8;
    hide Gen;
    GenPowers();
    GenProduct(32, 16, 0x9d, 0x4c, 0x46);
    GenProduct(48, 3, 0x46, 8, 0x0a);
  }

  lemma GenPowers85()
    ensures Gen(85) == 0xd6
  {
    assert Gen(5) == 0x20;
    hide Gen;
    GenPowers();
    GenProduct(32, 32, 0x9d, 0x9d, 0x5f);
    GenProduct(64, 16, 0x5f, 0x4c, 0xfd);
    GenProduct(80, 5, 0xfd, 0x20, 0xd6);
  }

  lemma GenPowers255()
    ensures Gen(255) == 1
  {
    hide Gen;
    GenPowers85();
    GenProduct(85, 85, 0xd6, 0xd6, 0xd7);
    GenProduct(85, 170, 0xd6, 0xd7, 1);
  }

  /** x^255 == 1, and no proper divisor of 255 is a period. */
  lemma GenPeriods()
    ensures Gen(255) == 1
    ensures forall d :: d in {1, 3, 5, 15, 17, 51, 85} ==> Gen(d) != 1
  {
    assert Gen(1) == 2 && Gen(3) == 8 && Gen(5) == 0x20;
    hide *;
    GenPowers();
    GenPowers51();
    GenPowers85();
    GenPowers255();
  }

  lemma GenProduct(i: nat, j: nat, a: bv8, b: bv8, c: bv8)
    requires Gen(i) == a && Gen(j) == b && Unrolled(a, b) == c
    ensures Gen(i + j) == c
  {
    hide *;
    GenAdd(i, j);
    MulIsUnrolled(a, b);
  }

  lemma {:induction false} GenShift(d: nat, q: nat, r: nat)
    requires Gen(d) == 1
    ensures Gen(q * d + r) == Gen(r)
    decreases q
  {
    hide *;
    if q == 0 {
      assert q * d == 0;
    } else {
      GenShift(d, q - 1, r);
      GenAdd(d, (q - 1) * d + r);
      MulCommutes(1, Gen(r));
      MulOneRight(Gen(r));
      assert d + ((q - 1) * d + r) == q * d + r;
    }
  }

  lemma ProductGrows(q: nat, d: nat)
    ensures q >= 16 && d >= 16 ==> q * d >= 256
  {
    if q >= 16 && d >= 16 {
      assert q * d == (q - 16) * d + 16 * d;
    }
  }

  lemma DivisorsOf255(d: nat, q: nat)
    requires 0 < d < 255 && q * d == 255
    ensures d in {1, 3, 5, 15, 17, 51, 85}
  {
    if d > 15 {
      assert q <= 15 by { ProductGrows(q, d); }
      assert q in {1, 2, 3, 4, 5, 6, 7, 8, 9, 10, 11, 12, 13, 14, 15};
    } else {
      assert d in {1, 2, 3, 4, 5, 6, 7, 8, 9, 10, 11, 12, 13, 14, 15};
    }
  }

  /** x has order 255: no smaller power of it is one. */
  lemma {:induction false} GenOrder(d: nat)
    requires 0 < d < 255
    ensures Gen(d) != 1
    decreases d
  {
    hide *;
    if Gen(d) == 1 {
      var q, r := 255 / d, 255 % d;
      GenPeriods();
      GenShift(d, q, r);
      assert q * d + r == 255;
      if r == 0 { DivisorsOf255(d, q); } else { GenOrder(r); }
    }
  }

  lemma GenDistinct(i: nat, j: nat)
    requires i < j < 255
    ensures Gen(i) != Gen(j)
  {
    hide *;
    if Gen(i) == Gen(j) {
      GenPeriods();
      GenAdd(255 - i, i);
      GenAdd(255 - i, j);
      GenShift(255, 1, j - i);
      assert 255 - i + j == 1 * 255 + (j - i);
      GenOrder(j - i);
    }
  }

  lemma {:induction false} GenNonzero(i: nat)
    ensures Gen(i) != 0
  {
    if i > 0 { GenNonzero(i - 1); }
  }

  function AsInt(b: bv8): int { b as int }

  lemma AsIntRange(b: bv8)
    ensures 0 <= AsInt(b) < 256 && (AsInt(b) == 0 <==> b == 0)
  {
    assert (b as int) as bv8 == b;
  }

  lemma AsIntInjective(a: bv8, b: bv8)
    requires AsInt(a) == AsInt(b)
    ensures a == b
  {
    assert (a as int) as bv8 == a && (b as int) as bv8 == b;
  }

  /** The first n powers of x, as integers. */
  ghost function GenSet(n: nat): set<int> {
    if n == 0 then {} else GenSet(n - 1) + {AsInt(Gen(n - 1))}
  }

  lemma {:induction false} GenSetSize(n: nat)
    requires n <= 255
    ensures |GenSet(n)| == n
    ensures forall v :: v in GenSet(n) ==> 1 <= v < 256 && IsGen(v, n)
  {
    hide AsInt, Gen;
    if n > 0 {
      GenSetSize(n - 1);
      GenNonzero(n - 1);
      AsIntRange(Gen(n - 1));
      if AsInt(Gen(n - 1)) in GenSet(n - 1) {
        var i :| 0 <= i < n - 1 && AsInt(Gen(i)) == AsInt(Gen(n - 1));
        AsIntInjective(Gen(i), Gen(n - 1));
        GenDistinct(i, n - 1);
      }
      forall v | v in GenSet(n) ensures 1 <= v < 256 && IsGen(v, n) {
        if v in GenSet(n - 1) {
          var i :| 0 <= i < n - 1 && AsInt(Gen(i)) == v;
        }
      }
    }
  }

  ghost predicate IsGen(v: int, n: nat) {
    exists i :: 0 <= i < n && AsInt(Gen(i)) == v
  }

  /** {1, ..., n} */
  ghost function UpTo(n: nat): (s: set<int>)
    ensures |s| == n && forall v :: v in s <==> 1 <= v <= n
  {
    if n == 0 then {} else UpTo(n - 1) + {n}
  }

  lemma {:induction false} FullSet(s: set<int>, n: nat)
    requires |s| == n && forall v :: v in s ==> 1 <= v <= n
    ensures forall v :: 1 <= v <= n ==> v in s
  {
    var rest := UpTo(n) - s;
    assert s <= UpTo(n);
    assert UpTo(n) == s + rest;
    assert |UpTo(n)| == |s| + |rest|;
  }

  /** Every nonzero byte is a power of x. */
  lemma GenCovers(a: bv8) returns (i: nat)
    requires a != 0
    ensures i < 255 && Gen(i) == a
  {
    hide AsInt, Gen;
    GenSetSize(255);
    FullSet(GenSet(255), 255);
    AsIntRange(a);
    assert AsInt(a) in GenSet(255);
    i :| 0 <= i < 255 && AsInt(Gen(i)) == AsInt(a);
    AsIntInjective(Gen(i), a);
  }

  // ---- powers, quotients, and the field ----

  function Exp(a: bv8, n: nat): bv8 {
    if n == 0 then 1 else Mul(a, Exp(a, n - 1))
  }

  function Div(a: bv8, b: bv8): bv8 { Mul(a, Exp(b, 254)) }

  /** A count cast to a byte: counting up with wrap-around. */
  function Nth(n: nat): bv8 { if n == 0 then 0 else Nth(n - 1) + 1 }

  lemma {:induction false} ExpGen(l: nat, n: nat)
    ensures Exp(Gen(l), n) == Gen(l * n)
  {
    hide *;
    ExpStep(Gen(l), n);
    if n > 0 {
      ExpGen(l, n - 1);
      GenAdd(l, l * (n - 1));
      assert l + l * (n - 1) == l * n;
    }
  }

  lemma ExpStep(a: bv8, n: nat)
    ensures n == 0 ==> Exp(a, n) == 1 == Gen(0)
    ensures n > 0 ==> Exp(a, n) == Mul(a, Exp(a, n - 1))
  {
    hide Mul, TimesX;
  }

  lemma DivUndoesMul(a: bv8, b: bv8)
    requires b != 0
    ensures Mul(b, Div(a, b)) == a
  {
    var l := GenCovers(b);
    ExpGen(l, 254);
    GenAdd(l, l * 254);
    GenPeriods();
    GenShift(255, l, 0);
    assert l + l * 254 == l * 255 + 0;
    var e := Exp(b, 254);
    assert Mul(b, e) == 1;
    MulCommutes(a, e);
    MulAssociates(b, e, a);
    MulCommutes(1, a);
    MulOneRight(a);
  }

  lemma NextByte(b: bv8)
    requires AsInt(b) < 255
    ensures AsInt(b + 1) == AsInt(b) + 1
  { }

  lemma NthStep(n: nat)
    requires n > 0
    ensures Nth(n) == Nth(n - 1) + 1
  { }

  lemma {:induction false} NthAsInt(n: nat)
    requires n < 256
    ensures AsInt(Nth(n)) == n
  {
    hide AsInt;
    if n == 0 {
      AsIntRange(0);
    } else {
      NthAsInt(n - 1);
      NthStep(n);
      hide Nth;
      NextByte(Nth(n - 1));
    }
  }

  lemma NthDistinct(i: nat, j: nat)
    requires i < 256 && j < 256 && Nth(i) == Nth(j)
    ensures i == j
  {
    NthAsInt(i);
    NthAsInt(j);
    hide Nth;
  }

  /** The field the codec ships with. */
  const Gf8: Field<bv8> := Field(256, 0, 1, Add, Mul, Div, Exp, Nth)

  lemma {:induction false} ExpIsIterated(a: bv8, n: nat)
    ensures Exp(a, n) == Pow(Gf8, a, n)
  {
    hide Mul;
    if n > 0 { ExpIsIterated(a, n - 1); }
  }

  lemma Unary()
    ensures UnaryLaws(Gf8)
  {
    hide Add, Mul;
    forall a: bv8 ensures Add(0, a) == a && Add(a, a) == 0 && Mul(1, a) == a {
      XorZero(a);
      MulCommutes(1, a);
      MulOneRight(a);
    }
  }

  lemma Binary()
    ensures BinaryLaws(Gf8)
  {
    hide Add, Mul, Div;
    forall a: bv8, b: bv8
      ensures Add(a, b) == Add(b, a) && Mul(a, b) == Mul(b, a) && (b != 0 ==> Mul(b, Div(a, b)) == a)
    {
      XorComm(a, b);
      MulCommutes(a, b);
      if b != 0 { DivUndoesMul(a, b); }
    }
  }

  lemma Ternary()
    ensures TernaryLaws(Gf8)
  {
    hide Add, Mul;
    forall a: bv8, b: bv8, c: bv8
      ensures Add(Add(a, b), c) == Add(a, Add(b, c)) && Mul(Mul(a, b), c) == Mul(a, Mul(b, c))
           && Mul(a, Add(b, c)) == Add(Mul(a, b), Mul(a, c))
    {
      XorAssoc(a, b, c);
      MulAssociates(a, b, c);
      MulDistributes(a, b, c);
    }
  }

  lemma ExpAndNth()
    ensures ExpLaw(Gf8) && NthLaw(Gf8)
  {
    hide Exp, Nth, Pow;
    forall a: bv8, n: nat ensures Exp(a, n) == Pow(Gf8, a, n) { ExpIsIterated(a, n); }
    forall i: nat, j: nat | i < 256 && j < 256 && Nth(i) == Nth(j) ensures i == j { NthDistinct(i, j); }
  }

  /** GF(2^8) satisfies every law the codec relies on. */
  lemma Gf8IsLawful()
    ensures Lawful(Gf8)
  {
    hide UnaryLaws, BinaryLaws, TernaryLaws, ExpLaw, NthLaw;
    Unary();
    Binary();
    Ternary();
    ExpAndNth();
  }

  lemma MulDistributes(a: bv8, b: bv8, c: bv8)
    ensures Mul(a, Add(b, c)) == Add(Mul(a, b), Mul(a, c))
  {
    LinearRight(a, b, c, 8);
  }
}
