/** Vectors and matrices as values, over an arbitrary lawful field.  This is the
    specification language of the codec: the in-place code in `Matrices` and `Codec`
    is proved against it. */
module LinearAlgebra {
  import opened Fields

  type Vec<E> = seq<E>
  type Mat<E> = seq<seq<E>>

  ghost predicate IsMat<E>(m: Mat<E>, rows: nat, cols: nat) {
    |m| == rows && forall i :: 0 <= i < rows ==> |m[i]| == cols
  }

  // ---- vectors ----

  /** Sum of products, accumulated from the left as the coding and multiply loops do. */
  function Dot<E>(f: Field<E>, a: Vec<E>, b: Vec<E>): E
    requires |a| == |b|
  {
    if |a| == 0 then f.zero
    else f.add(Dot(f, a[..|a| - 1], b[..|b| - 1]), f.mul(a[|a| - 1], b[|b| - 1]))
  }

  function Scale<E>(f: Field<E>, s: E, v: Vec<E>): (r: Vec<E>)
    ensures |r| == |v| && forall i :: 0 <= i < |v| ==> r[i] == f.mul(s, v[i])
  {
    seq(|v|, i requires 0 <= i < |v| => f.mul(s, v[i]))
  }

  function Plus<E>(f: Field<E>, u: Vec<E>, v: Vec<E>): (r: Vec<E>)
    requires |u| == |v|
    ensures |r| == |v| && forall i :: 0 <= i < |v| ==> r[i] == f.add(u[i], v[i])
  {
    seq(|v|, i requires 0 <= i < |v| => f.add(u[i], v[i]))
  }

  function Zeros<E>(f: Field<E>, n: nat): (r: Vec<E>)
    ensures |r| == n && forall i :: 0 <= i < n ==> r[i] == f.zero
  {
    seq(n, i => f.zero)
  }

  /** The j-th unit vector of length n. */
  function Unit<E>(f: Field<E>, n: nat, j: nat): (r: Vec<E>)
    ensures |r| == n && forall i :: 0 <= i < n ==> r[i] == if i == j then f.one else f.zero
  {
    seq(n, i => if i == j then f.one else f.zero)
  }

  lemma {:induction false} DotScale<E(!new)>(f: Field<E>, s: E, a: Vec<E>, b: Vec<E>)
    requires Lawful(f) && |a| == |b|
    ensures Dot(f, Scale(f, s, a), b) == f.mul(s, Dot(f, a, b))
  {
    if |a| == 0 {
      MulZero(f, s);
    } else {
      var n := |a| - 1;
      DotScale(f, s, a[..n], b[..n]);
      assert Scale(f, s, a)[..n] == Scale(f, s, a[..n]);
      MulAssoc(f, s, a[n], b[n]);
      Distribute(f, s, Dot(f, a[..n], b[..n]), f.mul(a[n], b[n]));
    }
  }

  lemma {:induction false} DotPlus<E(!new)>(f: Field<E>, a: Vec<E>, c: Vec<E>, b: Vec<E>)
    requires Lawful(f) && |a| == |b| == |c|
    ensures Dot(f, Plus(f, a, c), b) == f.add(Dot(f, a, b), Dot(f, c, b))
  {
    if |a| == 0 {
      AddZero(f, f.zero);
    } else {
      var n := |a| - 1;
      DotPlus(f, a[..n], c[..n], b[..n]);
      assert Plus(f, a, c)[..n] == Plus(f, a[..n], c[..n]);
      Distribute(f, b[n], a[n], c[n]);
      AddSwap(f, Dot(f, a[..n], b[..n]), Dot(f, c[..n], b[..n]), f.mul(a[n], b[n]), f.mul(c[n], b[n]));
    }
  }

  lemma {:induction false} DotComm<E(!new)>(f: Field<E>, a: Vec<E>, b: Vec<E>)
    requires Lawful(f) && |a| == |b|
    ensures Dot(f, a, b) == Dot(f, b, a)
  {
    if |a| > 0 {
      var n := |a| - 1;
      DotComm(f, a[..n], b[..n]);
      MulComm(f, a[n], b[n]);
    }
  }

  lemma {:induction false} DotZeros<E(!new)>(f: Field<E>, a: Vec<E>, b: Vec<E>)
    requires Lawful(f) && |a| == |b|
    requires forall i :: 0 <= i < |a| ==> a[i] == f.zero || b[i] == f.zero
    ensures Dot(f, a, b) == f.zero
  {
    if |a| > 0 {
      var n := |a| - 1;
      DotZeros(f, a[..n], b[..n]);
      MulZero(f, a[n]);
      MulZero(f, b[n]);
      AddZero(f, f.zero);
    }
  }

  /** A product in which only position j can be nonzero. */
  lemma {:induction false} DotSingle<E(!new)>(f: Field<E>, a: Vec<E>, b: Vec<E>, j: nat)
    requires Lawful(f) && |a| == |b| && j < |a|
    requires forall i :: 0 <= i < |a| && i != j ==> a[i] == f.zero || b[i] == f.zero
    ensures Dot(f, a, b) == f.mul(a[j], b[j])
  {
    var n := |a| - 1;
    if j == n {
      DotZeros(f, a[..n], b[..n]);
      AddZero(f, f.mul(a[n], b[n]));
    } else {
      DotSingle(f, a[..n], b[..n], j);
      MulZero(f, a[n]);
      MulZero(f, b[n]);
      AddZero(f, f.mul(a[j], b[j]));
    }
  }

  lemma DotUnit<E(!new)>(f: Field<E>, a: Vec<E>, j: nat)
    requires Lawful(f) && j < |a|
    ensures Dot(f, a, Unit(f, |a|, j)) == a[j]
    ensures Dot(f, Unit(f, |a|, j), a) == a[j]
  {
    DotSingle(f, a, Unit(f, |a|, j), j);
    MulOne(f, a[j]);
    DotComm(f, a, Unit(f, |a|, j));
  }

  lemma {:induction false} DotConcat<E(!new)>(f: Field<E>, a: Vec<E>, b: Vec<E>, c: Vec<E>, d: Vec<E>)
    requires Lawful(f) && |a| == |c| && |b| == |d|
    ensures Dot(f, a + b, c + d) == f.add(Dot(f, a, c), Dot(f, b, d))
  {
    if |b| == 0 {
      assert a + b == a && c + d == c;
      AddZero(f, Dot(f, a, c));
    } else {
      var n := |b| - 1;
      DotConcat(f, a, b[..n], c, d[..n]);
      assert (a + b)[..|a + b| - 1] == a + b[..n];
      assert (c + d)[..|c + d| - 1] == c + d[..n];
      AddAssoc(f, Dot(f, a, c), Dot(f, b[..n], d[..n]), f.mul(b[n], d[n]));
    }
  }

  // ---- matrices ----

  function Identity<E>(f: Field<E>, n: nat): (m: Mat<E>)
    ensures |m| == n && forall i :: 0 <= i < n ==> m[i] == Unit(f, n, i)
  {
    seq(n, i requires 0 <= i => Unit(f, n, i))
  }

  function Col<E>(m: Mat<E>, j: nat): (v: Vec<E>)
    requires forall i :: 0 <= i < |m| ==> j < |m[i]|
    ensures |v| == |m| && forall i :: 0 <= i < |m| ==> v[i] == m[i][j]
  {
    seq(|m|, i requires 0 <= i < |m| => m[i][j])
  }

  function MatVec<E>(f: Field<E>, m: Mat<E>, x: Vec<E>): (v: Vec<E>)
    requires forall i :: 0 <= i < |m| ==> |m[i]| == |x|
    ensures |v| == |m| && forall i :: 0 <= i < |m| ==> v[i] == Dot(f, m[i], x)
  {
    seq(|m|, i requires 0 <= i < |m| => Dot(f, m[i], x))
  }

  /** Row vector times an (|u| x n) matrix. */
  function VecMat<E>(f: Field<E>, u: Vec<E>, m: Mat<E>, n: nat): (v: Vec<E>)
    requires IsMat(m, |u|, n)
    ensures |v| == n && forall j :: 0 <= j < n ==> v[j] == Dot(f, u, Col(m, j))
  {
    seq(n, j requires 0 <= j < n => Dot(f, u, Col(m, j)))
  }

  /** (|a| x k) times (k x n). */
  function MatMul<E>(f: Field<E>, a: Mat<E>, b: Mat<E>, n: nat): (m: Mat<E>)
    requires IsMat(a, |a|, |b|) && IsMat(b, |b|, n)
    ensures IsMat(m, |a|, n)
    ensures forall i :: 0 <= i < |a| ==> m[i] == VecMat(f, a[i], b, n)
  {
    seq(|a|, i requires 0 <= i < |a| => VecMat(f, a[i], b, n))
  }

  /** The rows of m named by idx, in that order. */
  function Rows<E>(m: Mat<E>, idx: seq<nat>): (r: Mat<E>)
    requires forall i :: 0 <= i < |idx| ==> idx[i] < |m|
    ensures |r| == |idx| && forall i :: 0 <= i < |idx| ==> r[i] == m[idx[i]]
  {
    seq(|idx|, i requires 0 <= i < |idx| => m[idx[i]])
  }

  /** u . (m x) == (u m) . x */
  lemma {:induction false} DotMatVec<E(!new)>(f: Field<E>, u: Vec<E>, m: Mat<E>, x: Vec<E>)
    requires Lawful(f) && IsMat(m, |u|, |x|)
    ensures Dot(f, u, MatVec(f, m, x)) == Dot(f, VecMat(f, u, m, |x|), x)
  {
    var n := |x|;
    if |u| == 0 {
      forall j | 0 <= j < n ensures VecMat(f, u, m, n)[j] == f.zero {
        assert Dot(f, u, Col(m, j)) == f.zero;
      }
      DotZeros(f, VecMat(f, u, m, n), x);
    } else {
      var k := |u| - 1;
      var m', u' := m[..k], u[..k];
      DotMatVec(f, u', m', x);
      assert MatVec(f, m, x)[..k] == MatVec(f, m', x);
      DotScale(f, u[k], m[k], x);
      DotPlus(f, VecMat(f, u', m', n), Scale(f, u[k], m[k]), x);
      VecMatGrows(f, u, m, n);
    }
  }

  /** The last row joins a row-vector product as a scaled row. */
  lemma VecMatGrows<E(!new)>(f: Field<E>, u: Vec<E>, m: Mat<E>, n: nat)
    requires |u| > 0 && IsMat(m, |u|, n)
    ensures var k := |u| - 1;
      VecMat(f, u, m, n) == Plus(f, VecMat(f, u[..k], m[..k], n), Scale(f, u[k], m[k]))
  {
    var k := |u| - 1;
    forall j | 0 <= j < n
      ensures VecMat(f, u, m, n)[j] == f.add(VecMat(f, u[..k], m[..k], n)[j], f.mul(u[k], m[k][j]))
    {
      assert Col(m, j)[..k] == Col(m[..k], j);
    }
  }

  /** (a b) x == a (b x) */
  lemma MatMulVec<E(!new)>(f: Field<E>, a: Mat<E>, b: Mat<E>, x: Vec<E>)
    requires Lawful(f) && IsMat(a, |a|, |b|) && IsMat(b, |b|, |x|)
    ensures MatVec(f, MatMul(f, a, b, |x|), x) == MatVec(f, a, MatVec(f, b, x))
  {
    forall i | 0 <= i < |a|
      ensures MatVec(f, MatMul(f, a, b, |x|), x)[i] == MatVec(f, a, MatVec(f, b, x))[i]
    {
      DotMatVec(f, a[i], b, x);
    }
  }

  lemma IdentityVec<E(!new)>(f: Field<E>, x: Vec<E>)
    requires Lawful(f)
    ensures MatVec(f, Identity(f, |x|), x) == x
  {
    forall i | 0 <= i < |x| ensures MatVec(f, Identity(f, |x|), x)[i] == x[i] {
      DotUnit(f, x, i);
    }
  }

  /** m e_j is the j-th column of m. */
  lemma MatVecUnit<E(!new)>(f: Field<E>, m: Mat<E>, n: nat, j: nat)
    requires Lawful(f) && IsMat(m, |m|, n) && j < n
    ensures MatVec(f, m, Unit(f, n, j)) == Col(m, j)
  {
    forall i | 0 <= i < |m| ensures MatVec(f, m, Unit(f, n, j))[i] == Col(m, j)[i] {
      DotUnit(f, m[i], j);
    }
  }

  // ---- kernels and inverses ----

  /** m x == 0 */
  ghost predicate InKernel<E>(f: Field<E>, m: Mat<E>, x: Vec<E>)
    requires IsMat(m, |m|, |x|)
  {
    forall i :: 0 <= i < |m| ==> Dot(f, m[i], x) == f.zero
  }

  ghost predicate IsZero<E>(f: Field<E>, x: Vec<E>) {
    forall i :: 0 <= i < |x| ==> x[i] == f.zero
  }

  /** Both matrices have the same homogeneous solutions. */
  ghost predicate SameKernel<E(!new)>(f: Field<E>, a: Mat<E>, b: Mat<E>, n: nat)
    requires IsMat(a, |a|, n) && IsMat(b, |b|, n)
  {
    forall x: Vec<E> :: |x| == n ==> (InKernel(f, a, x) <==> InKernel(f, b, x))
  }

  ghost predicate TrivialKernel<E(!new)>(f: Field<E>, m: Mat<E>, n: nat)
    requires IsMat(m, |m|, n)
  {
    forall x: Vec<E> :: |x| == n && InKernel(f, m, x) ==> IsZero(f, x)
  }

  /** a b == b a == I */
  ghost predicate IsInverse<E>(f: Field<E>, a: Mat<E>, b: Mat<E>, n: nat) {
    && IsMat(a, n, n) && IsMat(b, n, n)
    && MatMul(f, a, b, n) == Identity(f, n)
    && MatMul(f, b, a, n) == Identity(f, n)
  }

  lemma InverseUndoes<E(!new)>(f: Field<E>, a: Mat<E>, b: Mat<E>, x: Vec<E>)
    requires Lawful(f) && IsInverse(f, a, b, |x|)
    ensures MatVec(f, b, MatVec(f, a, x)) == x
    ensures MatVec(f, a, MatVec(f, b, x)) == x
  {
    MatMulVec(f, b, a, x);
    MatMulVec(f, a, b, x);
    IdentityVec(f, x);
  }

  lemma InverseKernel<E(!new)>(f: Field<E>, a: Mat<E>, b: Mat<E>, n: nat)
    requires Lawful(f) && IsInverse(f, a, b, n)
    ensures TrivialKernel(f, a, n)
  {
    forall x: Vec<E> | |x| == n && InKernel(f, a, x) ensures IsZero(f, x) {
      InverseUndoes(f, a, b, x);
      hide IsInverse, Dot;
      var ax := MatVec(f, a, x);
      forall i | 0 <= i < n ensures x[i] == f.zero {
        DotZeros(f, b[i], ax);
        assert MatVec(f, b, ax)[i] == f.zero;
      }
    }
  }

  /** If u == b v exactly when v == a u, then a and b are inverse matrices. */
  lemma InverseFromEquivalence<E(!new)>(f: Field<E>, a: Mat<E>, b: Mat<E>, n: nat)
    requires Lawful(f) && IsMat(a, n, n) && IsMat(b, n, n)
    requires forall u: Vec<E>, v: Vec<E> :: |u| == |v| == n ==>
      (MatVec(f, a, u) == v <==> MatVec(f, b, v) == u)
    ensures IsInverse(f, a, b, n)
  {
    ProductIsIdentity(f, b, a, n);
    ProductIsIdentity(f, a, b, n);
  }

  /** Matrices that act alike on every unit vector are equal. */
  lemma EqualOnUnits<E(!new)>(f: Field<E>, a: Mat<E>, b: Mat<E>, n: nat)
    requires Lawful(f) && |a| == |b| && IsMat(a, |a|, n) && IsMat(b, |a|, n)
    requires forall j :: 0 <= j < n ==> MatVec(f, a, Unit(f, n, j)) == MatVec(f, b, Unit(f, n, j))
    ensures a == b
  {
    forall i | 0 <= i < |a| ensures a[i] == b[i] {
      forall j | 0 <= j < n ensures a[i][j] == b[i][j] {
        MatVecUnit(f, a, n, j);
        MatVecUnit(f, b, n, j);
        assert Col(a, j)[i] == Col(b, j)[i];
      }
    }
  }

  /** If b (a u) == u for every unit vector u then b a == I. */
  lemma ProductIsIdentity<E(!new)>(f: Field<E>, b: Mat<E>, a: Mat<E>, n: nat)
    requires Lawful(f) && IsMat(a, n, n) && IsMat(b, n, n)
    requires forall j :: 0 <= j < n ==> MatVec(f, b, MatVec(f, a, Unit(f, n, j))) == Unit(f, n, j)
    ensures MatMul(f, b, a, n) == Identity(f, n)
  {
    forall j | 0 <= j < n
      ensures MatVec(f, MatMul(f, b, a, n), Unit(f, n, j)) == MatVec(f, Identity(f, n), Unit(f, n, j))
    {
      ProductOnVec(f, b, a, Unit(f, n, j));
    }
    EqualOnUnits(f, MatMul(f, b, a, n), Identity(f, n), n);
  }

  lemma ProductOnVec<E(!new)>(f: Field<E>, b: Mat<E>, a: Mat<E>, e: Vec<E>)
    requires Lawful(f) && IsMat(a, |e|, |e|) && IsMat(b, |e|, |e|)
    requires MatVec(f, b, MatVec(f, a, e)) == e
    ensures MatVec(f, MatMul(f, b, a, |e|), e) == MatVec(f, Identity(f, |e|), e)
  {
    MatMulVec(f, b, a, e);
    IdentityVec(f, e);
  }

  /** A matrix has at most one inverse. */
  lemma InverseUnique<E(!new)>(f: Field<E>, a: Mat<E>, b: Mat<E>, c: Mat<E>, n: nat)
    requires Lawful(f) && IsInverse(f, a, b, n) && IsInverse(f, a, c, n)
    ensures b == c
  {
    forall j | 0 <= j < n ensures MatVec(f, b, Unit(f, n, j)) == MatVec(f, c, Unit(f, n, j)) {
      InversesAgree(f, a, b, c, Unit(f, n, j));
    }
    EqualOnUnits(f, b, c, n);
  }

  lemma InversesAgree<E(!new)>(f: Field<E>, a: Mat<E>, b: Mat<E>, c: Mat<E>, x: Vec<E>)
    requires Lawful(f) && IsInverse(f, a, b, |x|) && IsInverse(f, a, c, |x|)
    ensures MatVec(f, b, x) == MatVec(f, c, x)
  {
    // b x == b (a (c x)) == c x
    InverseUndoes(f, a, c, x);
    InverseUndoes(f, a, b, MatVec(f, c, x));
  }
}
