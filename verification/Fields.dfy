/** The `Field` trait of the erasure codec, as a dictionary of operations plus the laws
    that the codec relies on.

    The codec is generic over its field, so every algebraic result of this project is
    stated for an arbitrary lawful dictionary; `Gf256.Gf8` is the instance the library
    ships, and its laws are proved, not assumed.  Addition is its own inverse: the
    elimination code subtracts rows with `add`. */
module Fields {

  /** `order`, `zero`, ... are the members of the trait.  `div` is only meaningful for a
      nonzero divisor and `nth` only below `order`; the source panics outside. */
  datatype Field<!E> = Field(
    order: nat,
    zero: E,
    one: E,
    add: (E, E) -> E,
    mul: (E, E) -> E,
    div: (E, E) -> E,
    exp: (E, nat) -> E,
    nth: nat -> E)

  /** Always true.  They only serve as triggers, so that a law is used exactly where a
      proof asks for it. */
  ghost predicate At1<E>(a: E) { true }
  ghost predicate At2<E>(a: E, b: E) { true }
  ghost predicate At3<E>(a: E, b: E, c: E) { true }
  ghost predicate AtExp<E>(a: E, n: nat) { true }
  ghost predicate AtNth(i: nat, j: nat) { true }

  /** The n-fold product. */
  function Pow<E>(f: Field<E>, a: E, n: nat): E {
    if n == 0 then f.one else f.mul(a, Pow(f, a, n - 1))
  }

  ghost predicate UnaryLaws<E(!new)>(f: Field<E>) {
    forall a {:trigger At1(a)} :: At1(a) ==>
      f.add(f.zero, a) == a && f.add(a, a) == f.zero && f.mul(f.one, a) == a
  }

  ghost predicate BinaryLaws<E(!new)>(f: Field<E>) {
    forall a, b {:trigger At2(a, b)} :: At2(a, b) ==>
      && f.add(a, b) == f.add(b, a)
      && f.mul(a, b) == f.mul(b, a)
      && (b != f.zero ==> f.mul(b, f.div(a, b)) == a)
  }

  ghost predicate TernaryLaws<E(!new)>(f: Field<E>) {
    forall a, b, c {:trigger At3(a, b, c)} :: At3(a, b, c) ==>
      && f.add(f.add(a, b), c) == f.add(a, f.add(b, c))
      && f.mul(f.mul(a, b), c) == f.mul(a, f.mul(b, c))
      && f.mul(a, f.add(b, c)) == f.add(f.mul(a, b), f.mul(a, c))
  }

  ghost predicate ExpLaw<E(!new)>(f: Field<E>) {
    forall a, n: nat {:trigger AtExp(a, n)} :: AtExp(a, n) ==> f.exp(a, n) == Pow(f, a, n)
  }

  ghost predicate NthLaw<E>(f: Field<E>) {
    forall i: nat, j: nat {:trigger AtNth(i, j)} :: AtNth(i, j) ==>
      i < f.order && j < f.order && f.nth(i) == f.nth(j) ==> i == j
  }

  ghost predicate Lawful<E(!new)>(f: Field<E>) {
    f.one != f.zero && UnaryLaws(f) && BinaryLaws(f) && TernaryLaws(f) && ExpLaw(f) && NthLaw(f)
  }

  // ---- the laws, one at a time ----

  lemma AddZero<E(!new)>(f: Field<E>, a: E)
    requires Lawful(f)
    ensures f.add(f.zero, a) == a && f.add(a, f.zero) == a
  {
    assert At1(a) && At2(f.zero, a);
  }

  lemma AddSelf<E(!new)>(f: Field<E>, a: E)
    requires Lawful(f)
    ensures f.add(a, a) == f.zero
  {
    assert At1(a);
  }

  lemma AddComm<E(!new)>(f: Field<E>, a: E, b: E)
    requires Lawful(f)
    ensures f.add(a, b) == f.add(b, a)
  {
    assert At2(a, b);
  }

  lemma AddAssoc<E(!new)>(f: Field<E>, a: E, b: E, c: E)
    requires Lawful(f)
    ensures f.add(f.add(a, b), c) == f.add(a, f.add(b, c))
  {
    assert At3(a, b, c);
  }

  lemma MulOne<E(!new)>(f: Field<E>, a: E)
    requires Lawful(f)
    ensures f.mul(f.one, a) == a && f.mul(a, f.one) == a
  {
    assert At1(a) && At2(f.one, a);
  }

  lemma MulComm<E(!new)>(f: Field<E>, a: E, b: E)
    requires Lawful(f)
    ensures f.mul(a, b) == f.mul(b, a)
  {
    assert At2(a, b);
  }

  lemma MulAssoc<E(!new)>(f: Field<E>, a: E, b: E, c: E)
    requires Lawful(f)
    ensures f.mul(f.mul(a, b), c) == f.mul(a, f.mul(b, c))
  {
    assert At3(a, b, c);
  }

  lemma Distribute<E(!new)>(f: Field<E>, a: E, b: E, c: E)
    requires Lawful(f)
    ensures f.mul(a, f.add(b, c)) == f.add(f.mul(a, b), f.mul(a, c))
    ensures f.mul(f.add(b, c), a) == f.add(f.mul(b, a), f.mul(c, a))
  {
    assert At3(a, b, c) && At2(a, f.add(b, c)) && At2(a, b) && At2(a, c);
  }

  lemma DivMul<E(!new)>(f: Field<E>, a: E, b: E)
    requires Lawful(f) && b != f.zero
    ensures f.mul(b, f.div(a, b)) == a && f.mul(f.div(a, b), b) == a
  {
    assert At2(a, b) && At2(b, f.div(a, b));
  }

  lemma ExpIsPow<E(!new)>(f: Field<E>, a: E, n: nat)
    requires Lawful(f)
    ensures f.exp(a, n) == Pow(f, a, n)
  {
    assert AtExp(a, n);
  }

  lemma NthInjective<E(!new)>(f: Field<E>, i: nat, j: nat)
    requires Lawful(f) && i < f.order && j < f.order && f.nth(i) == f.nth(j)
    ensures i == j
  {
    assert AtNth(i, j);
  }

  // ---- consequences ----

  lemma MulZero<E(!new)>(f: Field<E>, a: E)
    requires Lawful(f)
    ensures f.mul(a, f.zero) == f.zero && f.mul(f.zero, a) == f.zero
  {
    Distribute(f, a, f.zero, f.zero);
    AddSelf(f, f.zero);
    AddSelf(f, f.mul(a, f.zero));
    MulComm(f, a, f.zero);
  }

  /** (a + b) + (c + d) == (a + c) + (b + d) */
  lemma AddSwap<E(!new)>(f: Field<E>, a: E, b: E, c: E, d: E)
    requires Lawful(f)
    ensures f.add(f.add(a, b), f.add(c, d)) == f.add(f.add(a, c), f.add(b, d))
  {
    AddAssoc(f, a, b, f.add(c, d));
    AddAssoc(f, b, c, d);
    AddComm(f, b, c);
    AddAssoc(f, c, b, d);
    AddAssoc(f, a, c, f.add(b, d));
  }

  /** Adding the same element twice restores the original: `add` undoes itself. */
  lemma AddTwice<E(!new)>(f: Field<E>, a: E, b: E)
    requires Lawful(f)
    ensures f.add(f.add(a, b), b) == a
  {
    AddAssoc(f, a, b, b);
    AddSelf(f, b);
    AddZero(f, a);
  }

  lemma SumZeroIffEqual<E(!new)>(f: Field<E>, a: E, b: E)
    requires Lawful(f)
    ensures f.add(a, b) == f.zero <==> a == b
  {
    AddSelf(f, b);
    AddTwice(f, a, b);
    AddZero(f, b);
  }

  lemma NoZeroDivisors<E(!new)>(f: Field<E>, a: E, b: E)
    requires Lawful(f) && a != f.zero && f.mul(a, b) == f.zero
    ensures b == f.zero
  {
    var i := f.div(f.one, a);
    DivMul(f, f.one, a);
    MulAssoc(f, i, a, b);
    MulOne(f, b);
    MulZero(f, i);
  }
}
