/** The erasure code as mathematics: the coding matrix, codewords, and why any k surviving
    shards determine the data.  A list of equally long shards is a matrix with one shard per
    row, so encoding is a matrix product. */
module ErasureCode {
  import opened Fields
  import opened LinearAlgebra
  import opened Polynomials

  lemma ColMatMul<E(!new)>(f: Field<E>, a: Mat<E>, d: Mat<E>, n: nat, j: nat)
    requires IsMat(a, |a|, |d|) && IsMat(d, |d|, n) && j < n
    ensures Col(MatMul(f, a, d, n), j) == MatVec(f, a, Col(d, j))
  { }

  /** b (a d) == d for inverse matrices a, b. */
  lemma InverseRestores<E(!new)>(f: Field<E>, a: Mat<E>, b: Mat<E>, d: Mat<E>, n: nat)
    requires Lawful(f) && IsMat(d, |d|, n) && IsInverse(f, a, b, |d|)
    ensures MatMul(f, b, MatMul(f, a, d, n), n) == d
  {
    var r := MatMul(f, b, MatMul(f, a, d, n), n);
    forall i | 0 <= i < |d| ensures r[i] == d[i] {
      forall j | 0 <= j < n ensures r[i][j] == d[i][j] {
        InverseRestoresAt(f, a, b, d, n, i, j);
      }
    }
  }

  lemma InverseRestoresAt<E(!new)>(f: Field<E>, a: Mat<E>, b: Mat<E>, d: Mat<E>, n: nat, i: nat, j: nat)
    requires Lawful(f) && IsMat(d, |d|, n) && IsInverse(f, a, b, |d|) && i < |d| && j < n
    ensures MatMul(f, b, MatMul(f, a, d, n), n)[i][j] == d[i][j]
  {
    ColMatMul(f, a, d, n, j);
    InverseUndoes(f, a, b, Col(d, j));
    assert MatVec(f, b, MatVec(f, a, Col(d, j)))[i] == Col(d, j)[i];
  }

  lemma RowsOfProduct<E(!new)>(f: Field<E>, m: Mat<E>, d: Mat<E>, n: nat, idx: seq<nat>)
    requires IsMat(m, |m|, |d|) && IsMat(d, |d|, n)
    requires forall i :: 0 <= i < |idx| ==> idx[i] < |m|
    ensures Rows(MatMul(f, m, d, n), idx) == MatMul(f, Rows(m, idx), d, n)
  { }

  // ---- the coding matrix ----

  /** k columns, identity on top, and every choice of k distinct rows invertible. */
  ghost predicate CodingMatrix<E(!new)>(f: Field<E>, m: Mat<E>, k: nat) {
    && IsMat(m, |m|, k) && k <= |m|
    && (forall i :: 0 <= i < k ==> m[i] == Unit(f, k, i))
    && (forall idx: seq<nat> :: IsChoice(idx, k, |m|) ==> TrivialKernel(f, Rows(m, idx), k))
  }

  /** k distinct indices below n. */
  ghost predicate IsChoice(idx: seq<nat>, k: nat, n: nat) {
    && |idx| == k && Distinct(idx)
    && forall i :: 0 <= i < k ==> idx[i] < n
  }

  /** A tall Vandermonde matrix times the inverse of its top block is a coding matrix. */
  lemma BuildMatrixIsCoding<E(!new)>(f: Field<E>, n: nat, k: nat, top: Mat<E>, inv: Mat<E>)
    requires Lawful(f) && k <= n <= f.order
    requires top == Vandermonde(f, n, k)[..k] && IsInverse(f, top, inv, k)
    ensures CodingMatrix(f, MatMul(f, Vandermonde(f, n, k), inv, k), k)
  {
    var v := Vandermonde(f, n, k);
    var m := MatMul(f, v, inv, k);
    forall i | 0 <= i < k ensures m[i] == Unit(f, k, i) {
      assert m[i] == VecMat(f, top[i], inv, k);
      assert MatMul(f, top, inv, k)[i] == Identity(f, k)[i];
    }
    forall idx: seq<nat> | IsChoice(idx, k, |m|) ensures TrivialKernel(f, Rows(m, idx), k) {
      VandermondeKernel(f, n, k, idx);
      RowsOfProduct(f, v, inv, k, idx);
      ProductKernel(f, Rows(v, idx), top, inv, k);
    }
  }

  /** a inv has a trivial kernel when a has and inv is invertible. */
  lemma ProductKernel<E(!new)>(f: Field<E>, a: Mat<E>, top: Mat<E>, inv: Mat<E>, k: nat)
    requires Lawful(f) && IsMat(a, k, k) && TrivialKernel(f, a, k) && IsInverse(f, top, inv, k)
    ensures TrivialKernel(f, MatMul(f, a, inv, k), k)
  {
    var p := MatMul(f, a, inv, k);
    forall x: Vec<E> | |x| == k && InKernel(f, p, x) ensures IsZero(f, x) {
      var y := MatVec(f, inv, x);
      MatMulVec(f, a, inv, x);
      forall i | 0 <= i < k ensures Dot(f, a[i], y) == f.zero {
        assert MatVec(f, p, x)[i] == MatVec(f, a, y)[i];
      }
      assert InKernel(f, a, y);
      InverseUndoes(f, top, inv, x);
      forall i | 0 <= i < k ensures x[i] == f.zero {
        DotZeros(f, top[i], y);
        assert MatVec(f, top, y)[i] == x[i];
      }
    }
  }

  // ---- codewords ----

  /** All shards (data first, then parity) of the data d. */
  function Codeword<E>(f: Field<E>, m: Mat<E>, d: Mat<E>, len: nat): (c: Mat<E>)
    requires IsMat(m, |m|, |d|) && IsMat(d, |d|, len)
    ensures IsMat(c, |m|, len)
  {
    MatMul(f, m, d, len)
  }

  /** The code is systematic: the first k shards are the data. */
  lemma Systematic<E(!new)>(f: Field<E>, m: Mat<E>, d: Mat<E>, len: nat)
    requires Lawful(f) && CodingMatrix(f, m, |d|) && IsMat(d, |d|, len)
    ensures Codeword(f, m, d, len)[..|d|] == d
  {
    var c := Codeword(f, m, d, len);
    forall i | 0 <= i < |d| ensures c[i] == d[i] {
      forall j | 0 <= j < len ensures c[i][j] == d[i][j] {
        DotUnit(f, Col(d, j), i);
      }
    }
  }

  /** Any k surviving shards give back the data: decoding with the inverse of their rows. */
  lemma DecodeRestores<E(!new)>(f: Field<E>, m: Mat<E>, d: Mat<E>, len: nat, idx: seq<nat>, inv: Mat<E>)
    requires Lawful(f) && CodingMatrix(f, m, |d|) && IsMat(d, |d|, len)
    requires IsChoice(idx, |d|, |m|) && IsInverse(f, Rows(m, idx), inv, |d|)
    ensures MatMul(f, inv, Rows(Codeword(f, m, d, len), idx), len) == d
  {
    RowsOfProduct(f, m, d, len, idx);
    InverseRestores(f, Rows(m, idx), inv, d, len);
  }

  // ---- maximum distance ----

  /** Two data sets whose codewords agree on k distinct shards are equal: no fewer than n - k + 1
      shards tell different data apart. */
  lemma ShardsDetermineData<E(!new)>(f: Field<E>, m: Mat<E>, d: Mat<E>, e: Mat<E>, len: nat, idx: seq<nat>)
    requires Lawful(f) && CodingMatrix(f, m, |d|) && IsMat(d, |d|, len) && IsMat(e, |d|, len)
    requires IsChoice(idx, |d|, |m|)
    requires forall t :: 0 <= t < |d| ==> Codeword(f, m, d, len)[idx[t]] == Codeword(f, m, e, len)[idx[t]]
    ensures d == e
  {
    var a := Rows(m, idx);
    assert IsMat(a, |d|, |d|);
    forall j | 0 <= j < len ensures Col(d, j) == Col(e, j) {
      forall t | 0 <= t < |d| ensures Dot(f, a[t], Col(d, j)) == Dot(f, a[t], Col(e, j)) {
        assert Codeword(f, m, d, len)[idx[t]][j] == Codeword(f, m, e, len)[idx[t]][j];
      }
      KernelSeparates(f, a, |d|, Col(d, j), Col(e, j));
    }
    forall i | 0 <= i < |d| ensures d[i] == e[i] {
      forall j | 0 <= j < len ensures d[i][j] == e[i][j] {
        assert Col(d, j)[i] == Col(e, j)[i];
      }
    }
  }

  /** A matrix with a trivial kernel is one-to-one. */
  lemma KernelSeparates<E(!new)>(f: Field<E>, a: Mat<E>, k: nat, x: Vec<E>, y: Vec<E>)
    requires Lawful(f) && IsMat(a, k, k) && TrivialKernel(f, a, k) && |x| == k && |y| == k
    requires forall t :: 0 <= t < k ==> Dot(f, a[t], x) == Dot(f, a[t], y)
    ensures x == y
  {
    var z := Plus(f, x, y);
    forall t | 0 <= t < k ensures Dot(f, a[t], z) == f.zero {
      DotComm(f, a[t], z);
      DotComm(f, a[t], x);
      DotComm(f, a[t], y);
      DotPlus(f, x, y, a[t]);
      AddSelf(f, Dot(f, a[t], x));
    }
    assert InKernel(f, a, z);
    forall i | 0 <= i < k ensures x[i] == y[i] {
      SumZeroIffEqual(f, x[i], y[i]);
    }
  }
}
