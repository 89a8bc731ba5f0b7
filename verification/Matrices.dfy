/** The flat, in-place matrix of the codec and its Gauss-Jordan inversion.

    `Value()` is the matrix as rows; every operation is specified on it.  The elimination
    is proved through one invariant, "row operations preserve the solution set". */
module Matrices {
  import opened Fields
  import opened LinearAlgebra
  import opened Polynomials

  datatype InvertResult<E(==,!new)> = Inverse(m: Matrix<E>) | SingularMatrix

  // ---- the flat layout ----

  lemma RowFits(rows: nat, cols: nat, r: nat)
    requires r < rows
    ensures 0 <= r * cols <= r * cols + cols <= rows * cols
  {
    assert r * cols + cols == (r + 1) * cols;
    assert (r + 1) * cols <= rows * cols;
  }

  lemma RowsApart(cols: nat, r: nat, s: nat)
    requires r < s
    ensures r * cols + cols <= s * cols
  {
    RowFits(s, cols, r);
  }

  function RowAt<E>(d: seq<E>, rows: nat, cols: nat, r: nat): (v: Vec<E>)
    requires |d| == rows * cols && r < rows
    ensures |v| == cols
  {
    RowFits(rows, cols, r);
    d[r * cols..r * cols + cols]
  }

  /** Cut a flat buffer into rows. */
  function RowsOf<E>(d: seq<E>, rows: nat, cols: nat): (m: Mat<E>)
    requires |d| == rows * cols
    ensures |m| == rows
    ensures forall r :: 0 <= r < rows ==> |m[r]| == cols
  {
    seq(rows, r requires 0 <= r < rows => RowAt(d, rows, cols, r))
  }

  lemma RowsOfAt<E>(d: seq<E>, rows: nat, cols: nat, r: nat, c: nat)
    requires |d| == rows * cols && r < rows && c < cols
    ensures 0 <= r * cols + c < |d|
    ensures RowsOf(d, rows, cols)[r][c] == d[r * cols + c]
  {
    RowFits(rows, cols, r);
  }

  lemma RowsOfUpdate<E>(d: seq<E>, rows: nat, cols: nat, r: nat, c: nat, v: E)
    requires |d| == rows * cols && r < rows && c < cols
    ensures 0 <= r * cols + c < |d|
    ensures var m := RowsOf(d, rows, cols);
            RowsOf(d[r * cols + c := v], rows, cols) == m[r := m[r][c := v]]
  {
    RowFits(rows, cols, r);
    var m, m' := RowsOf(d, rows, cols), RowsOf(d[r * cols + c := v], rows, cols);
    forall i | 0 <= i < rows ensures m'[i] == m[r := m[r][c := v]][i] {
      RowFits(rows, cols, i);
      if i < r { RowsApart(cols, i, r); } else if r < i { RowsApart(cols, r, i); }
    }
  }

  /** A row overwritten with `to` up to column c. */
  ghost function Splice<E>(from: Vec<E>, to: Vec<E>, c: nat): (v: Vec<E>)
    requires |from| == |to| && c <= |to|
    ensures |v| == |to|
    ensures c == 0 ==> v == from
    ensures c == |to| ==> v == to
    ensures c < |to| ==> v[c] == from[c]
  {
    to[..c] + from[c..]
  }

  lemma SpliceStep<E>(from: Vec<E>, to: Vec<E>, c: nat)
    requires |from| == |to| && c < |to|
    ensures Splice(from, to, c)[c := to[c]] == Splice(from, to, c + 1)
  { }

  ghost function Block<E>(m: Mat<E>, rmin: nat, cmin: nat, rmax: nat, cmax: nat, n: nat): (b: Mat<E>)
    requires IsMat(m, |m|, n) && rmin <= rmax <= |m| && cmin <= cmax <= n
    ensures IsMat(b, rmax - rmin, cmax - cmin)
    ensures forall r :: 0 <= r < rmax - rmin ==> b[r] == m[rmin + r][cmin..cmax]
    ensures forall r, c :: 0 <= r < rmax - rmin && 0 <= c < cmax - cmin ==> b[r][c] == m[rmin + r][cmin + c]
  {
    seq(rmax - rmin, r requires 0 <= r < rmax - rmin => m[rmin + r][cmin..cmax])
  }

  // ---- row operations on values, and why they keep the kernel ----

  function AddRow<E>(f: Field<E>, m: Mat<E>, dst: nat, src: nat, s: E): (r: Mat<E>)
    requires dst < |m| && src < |m| && |m[dst]| == |m[src]|
  {
    m[dst := Plus(f, m[dst], Scale(f, s, m[src]))]
  }

  lemma SwapKeepsKernel<E(!new)>(f: Field<E>, m: Mat<E>, n: nat, r: nat, s: nat)
    requires IsMat(m, |m|, n) && r < |m| && s < |m|
    ensures SameKernel(f, m, m[r := m[s]][s := m[r]], n)
  {
    var m' := m[r := m[s]][s := m[r]];
    forall x: Vec<E> | |x| == n ensures InKernel(f, m, x) <==> InKernel(f, m', x) {
      if InKernel(f, m', x) {
        forall i | 0 <= i < |m| ensures Dot(f, m[i], x) == f.zero {
          assert m[i] == m'[if i == r then s else if i == s then r else i];
        }
      }
    }
  }

  lemma ScaleKeepsKernel<E(!new)>(f: Field<E>, m: Mat<E>, n: nat, r: nat, s: E)
    requires Lawful(f) && IsMat(m, |m|, n) && r < |m| && s != f.zero
    ensures SameKernel(f, m, m[r := Scale(f, s, m[r])], n)
  {
    var m' := m[r := Scale(f, s, m[r])];
    forall x: Vec<E> | |x| == n ensures InKernel(f, m, x) <==> InKernel(f, m', x) {
      DotScale(f, s, m[r], x);
      MulZero(f, s);
      if InKernel(f, m', x) {
        assert m'[r] == Scale(f, s, m[r]);
        NoZeroDivisors(f, s, Dot(f, m[r], x));
        forall i | 0 <= i < |m| ensures Dot(f, m[i], x) == f.zero {
          assert i != r ==> m'[i] == m[i];
        }
      }
    }
  }

  lemma AddRowKeepsKernel<E(!new)>(f: Field<E>, m: Mat<E>, n: nat, dst: nat, src: nat, s: E)
    requires Lawful(f) && IsMat(m, |m|, n) && dst < |m| && src < |m| && dst != src
    ensures SameKernel(f, m, AddRow(f, m, dst, src, s), n)
  {
    var m' := AddRow(f, m, dst, src, s);
    forall x: Vec<E> | |x| == n ensures InKernel(f, m, x) <==> InKernel(f, m', x) {
      DotScale(f, s, m[src], x);
      DotPlus(f, m[dst], Scale(f, s, m[src]), x);
      MulZero(f, s);
      AddZero(f, Dot(f, m[dst], x));
      if InKernel(f, m', x) {
        assert m'[src] == m[src];
        assert m'[dst] == Plus(f, m[dst], Scale(f, s, m[src]));
        forall i | 0 <= i < |m| ensures Dot(f, m[i], x) == f.zero {
          assert i != dst ==> m'[i] == m[i];
        }
      }
    }
  }

  // ---- shapes reached by the elimination ----

  /** The first k columns have ones on and zeros below the diagonal. */
  ghost predicate Stair<E>(f: Field<E>, m: Mat<E>, n: nat, k: nat)
    requires IsMat(m, |m|, n) && k <= |m| <= n
  {
    && (forall j :: 0 <= j < k ==> m[j][j] == f.one)
    && (forall i, j :: 0 <= j < k && j < i < |m| ==> m[i][j] == f.zero)
  }

  /** The first d columns also have zeros above the diagonal. */
  ghost predicate Cleared<E>(f: Field<E>, m: Mat<E>, n: nat, d: nat)
    requires IsMat(m, |m|, n) && d <= |m| <= n
  {
    forall i, j :: 0 <= j < d && 0 <= i < j ==> m[i][j] == f.zero
  }

  lemma SameKernelTrans<E(!new)>(f: Field<E>, a: Mat<E>, b: Mat<E>, c: Mat<E>, n: nat)
    requires IsMat(a, |a|, n) && IsMat(b, |b|, n) && IsMat(c, |c|, n)
    requires SameKernel(f, a, b, n) && SameKernel(f, b, c, n)
    ensures SameKernel(f, a, c, n)
  { }

  /** Column r has its pivot and zeros in the rows between r and k. */
  ghost predicate Pivoted<E>(f: Field<E>, m: Mat<E>, n: nat, r: nat, k: nat)
    requires IsMat(m, |m|, n) && r < k <= |m| <= n
  {
    && Stair(f, m, n, r) && m[r][r] == f.one
    && forall i :: r < i < k ==> m[i][r] == f.zero
  }

  lemma PivotedStart<E>(f: Field<E>, m: Mat<E>, n: nat, r: nat)
    requires IsMat(m, |m|, n) && r < |m| <= n && Stair(f, m, n, r) && m[r][r] == f.one
    ensures Pivoted(f, m, n, r, r + 1)
  { }

  lemma PivotedSkip<E>(f: Field<E>, m: Mat<E>, n: nat, r: nat, k: nat)
    requires IsMat(m, |m|, n) && r < k < |m| <= n && Pivoted(f, m, n, r, k) && m[k][r] == f.zero
    ensures Pivoted(f, m, n, r, k + 1)
  { }

  lemma PivotedEnd<E>(f: Field<E>, m: Mat<E>, n: nat, r: nat)
    requires IsMat(m, |m|, n) && r < |m| <= n && Pivoted(f, m, n, r, |m|)
    ensures Stair(f, m, n, r + 1)
  { }

  /** Subtracting the pivot row clears one entry below it and keeps the staircase. */
  lemma EliminateStep<E(!new)>(f: Field<E>, m: Mat<E>, n: nat, r: nat, k: nat)
    requires Lawful(f) && IsMat(m, |m|, n) && r < k < |m| <= n && Pivoted(f, m, n, r, k)
    ensures var m' := AddRow(f, m, k, r, m[k][r]);
      IsMat(m', |m|, n) && SameKernel(f, m, m', n) && Pivoted(f, m', n, r, k + 1)
  {
    var s := m[k][r];
    AddRowKeepsKernel(f, m, n, k, r, s);
    hide SameKernel;
    MulOne(f, s);
    AddSelf(f, s);
    MulZero(f, s);
    AddZero(f, f.zero);
  }

  /** Column d is clear in the rows above k. */
  ghost predicate ClearedTo<E>(f: Field<E>, m: Mat<E>, n: nat, d: nat, k: nat)
    requires IsMat(m, |m|, n) && k <= d < |m| <= n
  {
    && Stair(f, m, n, |m|) && Cleared(f, m, n, d)
    && forall i :: 0 <= i < k ==> m[i][d] == f.zero
  }

  lemma ClearStep<E(!new)>(f: Field<E>, m: Mat<E>, n: nat, d: nat, k: nat)
    requires Lawful(f) && IsMat(m, |m|, n) && k < d < |m| <= n && ClearedTo(f, m, n, d, k)
    ensures var m' := AddRow(f, m, k, d, m[k][d]);
      IsMat(m', |m|, n) && SameKernel(f, m, m', n) && ClearedTo(f, m', n, d, k + 1)
  {
    var s := m[k][d];
    AddRowKeepsKernel(f, m, n, k, d, s);
    hide SameKernel;
    MulOne(f, s);
    AddSelf(f, s);
    MulZero(f, s);
    AddZero(f, f.zero);
    AddZero(f, f.one);
  }

  /** A staircase whose next pivot column is all zero has a nonzero kernel vector, found by
      back substitution from x[r] == 1. */
  lemma {:induction false} KernelVector<E(!new)>(f: Field<E>, m: Mat<E>, n: nat, r: nat, i: nat)
    returns (x: Vec<E>)
    requires Lawful(f) && IsMat(m, |m|, n) && i <= r < |m| <= n && Stair(f, m, n, r)
    requires forall k :: r <= k < |m| ==> m[k][r] == f.zero
    ensures |x| == n && x[r] == f.one
    ensures forall j :: 0 <= j < n && (j < i || r < j) ==> x[j] == f.zero
    ensures forall k :: i <= k < |m| ==> Dot(f, m[k], x) == f.zero
    decreases r - i
  {
    if i == r {
      x := Unit(f, n, r);
      forall k | r <= k < |m| ensures Dot(f, m[k], x) == f.zero { DotUnit(f, m[k], r); }
    } else {
      var y := KernelVector(f, m, n, r, i + 1);
      var d, e := Dot(f, m[i], y), Unit(f, n, i);
      x := Plus(f, y, Scale(f, d, e));
      forall k | i <= k < |m| ensures Dot(f, m[k], x) == f.zero {
        DotComm(f, m[k], x);
        DotPlus(f, y, Scale(f, d, e), m[k]);
        DotScale(f, d, e, m[k]);
        DotUnit(f, m[k], i);
        DotComm(f, m[k], y);
        MulZero(f, d);
        MulOne(f, d);
        AddSelf(f, d);
        AddZero(f, f.zero);
      }
      forall j | 0 <= j < n && j != i ensures x[j] == y[j] {
        MulZero(f, d);
        AddZero(f, y[j]);
      }
    }
  }

  /** The augmented matrix [a | I] has (u, v) in its kernel exactly when v == a u, and
      [I | b] exactly when u == b v. */
  lemma AugmentedKernel<E(!new)>(f: Field<E>, w: Mat<E>, a: Mat<E>, n: nat, u: Vec<E>, v: Vec<E>)
    requires Lawful(f) && IsMat(a, n, n) && IsMat(w, n, n + n) && |u| == |v| == n
    requires forall i :: 0 <= i < n ==> w[i] == a[i] + Unit(f, n, i)
    ensures InKernel(f, w, u + v) <==> MatVec(f, a, u) == v
  {
    forall i | 0 <= i < n ensures Dot(f, w[i], u + v) == f.zero <==> Dot(f, a[i], u) == v[i] {
      DotConcat(f, a[i], Unit(f, n, i), u, v);
      DotUnit(f, v, i);
      SumZeroIffEqual(f, Dot(f, a[i], u), v[i]);
    }
    if InKernel(f, w, u + v) {
      forall i | 0 <= i < n ensures MatVec(f, a, u)[i] == v[i] { }
      assert MatVec(f, a, u) == v;
    }
  }

  lemma ReducedKernel<E(!new)>(f: Field<E>, w: Mat<E>, b: Mat<E>, n: nat, u: Vec<E>, v: Vec<E>)
    requires Lawful(f) && IsMat(b, n, n) && IsMat(w, n, n + n) && |u| == |v| == n
    requires forall i :: 0 <= i < n ==> w[i] == Unit(f, n, i) + b[i]
    ensures InKernel(f, w, u + v) <==> MatVec(f, b, v) == u
  {
    forall i | 0 <= i < n ensures Dot(f, w[i], u + v) == f.zero <==> Dot(f, b[i], v) == u[i] {
      DotConcat(f, Unit(f, n, i), b[i], u, v);
      DotUnit(f, u, i);
      SumZeroIffEqual(f, u[i], Dot(f, b[i], v));
    }
    if InKernel(f, w, u + v) {
      forall i | 0 <= i < n ensures MatVec(f, b, v)[i] == u[i] { }
      assert MatVec(f, b, v) == u;
    }
  }

  /** [a | I] and [I | b] with the same solutions: b is the inverse of a. */
  lemma EliminationInverts<E(!new)>(f: Field<E>, w: Mat<E>, w': Mat<E>, a: Mat<E>, b: Mat<E>, n: nat)
    requires Lawful(f) && IsMat(a, n, n) && IsMat(b, n, n) && IsMat(w, n, n + n) && IsMat(w', n, n + n)
    requires forall i :: 0 <= i < n ==> w[i] == a[i] + Unit(f, n, i)
    requires forall i :: 0 <= i < n ==> w'[i] == Unit(f, n, i) + b[i]
    requires SameKernel(f, w, w', n + n)
    ensures IsInverse(f, a, b, n)
  {
    forall u: Vec<E>, v: Vec<E> | |u| == |v| == n
      ensures MatVec(f, a, u) == v <==> MatVec(f, b, v) == u
    {
      AugmentedKernel(f, w, a, n, u, v);
      ReducedKernel(f, w', b, n, u, v);
      assert |u + v| == n + n;
    }
    InverseFromEquivalence(f, a, b, n);
  }

  /** x solves m x == 0, is one at r and zero right of the square block. */
  ghost predicate LeftSolution<E>(f: Field<E>, m: Mat<E>, n: nat, x: Vec<E>, r: nat)
    requires IsMat(m, |m|, n)
  {
    && |x| == n && r < |m| <= n && x[r] == f.one && InKernel(f, m, x)
    && forall j :: |m| <= j < n ==> x[j] == f.zero
  }

  /** A kernel vector of [a | I] that is zero in the right half is one of a. */
  lemma LeftKernel<E(!new)>(f: Field<E>, w: Mat<E>, a: Mat<E>, n: nat, x: Vec<E>, r: nat)
    requires Lawful(f) && IsMat(a, n, n) && IsMat(w, n, n + n)
    requires forall i :: 0 <= i < n ==> w[i] == a[i] + Unit(f, n, i)
    requires LeftSolution(f, w, n + n, x, r)
    ensures !TrivialKernel(f, a, n)
  {
    var u := x[..n];
    assert x == u + Zeros(f, n);
    AugmentedKernel(f, w, a, n, u, Zeros(f, n));
    assert MatVec(f, a, u) == Zeros(f, n);
    hide Dot;
    forall i | 0 <= i < n ensures Dot(f, a[i], u) == f.zero {
      assert MatVec(f, a, u)[i] == f.zero;
    }
    assert InKernel(f, a, u) && u[r] != f.zero;
  }

  /** The matrix: row `r`, column `c` lives at `data[r * colCount + c]`. */
  class Matrix<E(==,!new)> {
    const rowCount: nat
    const colCount: nat
    const data: array<E>

    ghost predicate Valid() {
      data.Length == rowCount * colCount
    }

    ghost function Value(): (m: Mat<E>)
      requires Valid()
      reads data
      ensures IsMat(m, rowCount, colCount)
    {
      RowsOf(data[..], rowCount, colCount)
    }

    /** The zero matrix. */
    constructor (f: Field<E>, rows: nat, cols: nat)
      ensures Valid() && rowCount == rows && colCount == cols && fresh(data)
      ensures forall r :: 0 <= r < rows ==> Value()[r] == Zeros(f, cols)
    {
      rowCount, colCount := rows, cols;
      data := new E[rows * cols](_ => f.zero);
      new;
      forall r | 0 <= r < rows ensures Value()[r] == Zeros(f, cols) { RowFits(rows, cols, r); }
    }

    method Get(r: nat, c: nat) returns (v: E)
      requires Valid() && r < rowCount && c < colCount
      ensures v == Value()[r][c]
    {
      RowsOfAt(data[..], rowCount, colCount, r, c);
      v := data[r * colCount + c];
    }

    method Set(r: nat, c: nat, v: E)
      requires Valid() && r < rowCount && c < colCount
      modifies data
      ensures Value() == old(Value())[r := old(Value())[r][c := v]]
    {
      RowsOfUpdate(data[..], rowCount, colCount, r, c, v);
      ghost var d := data[..];
      data[r * colCount + c] := v;
      assert data[..] == d[r * colCount + c := v];
    }

    method SwapRows(r1: nat, r2: nat)
      requires Valid() && r1 < rowCount && r2 < rowCount
      modifies data
      ensures Value() == old(Value())[r1 := old(Value())[r2]][r2 := old(Value())[r1]]
    {
      hide RowsOf;
      if r1 == r2 { return; }
      hide Splice;
      ghost var m := Value();
      ghost var p, q := m[r1], m[r2];
      for i := 0 to colCount
        invariant forall k :: 0 <= k < rowCount && k != r1 && k != r2 ==> Value()[k] == m[k]
        invariant Value()[r1] == Splice(p, q, i) && Value()[r2] == Splice(q, p, i)
      {
        var a := Get(r1, i);
        var b := Get(r2, i);
        Set(r1, i, b);
        Set(r2, i, a);
        SpliceStep(p, q, i);
        SpliceStep(q, p, i);
      }
    }

    /** The two inner column loops of the elimination. */
    method ScaleRow(f: Field<E>, r: nat, s: E)
      requires Valid() && r < rowCount
      modifies data
      ensures Value() == old(Value())[r := Scale(f, s, old(Value())[r])]
    {
      hide RowsOf;
      ghost var m := Value();
      ghost var row := Scale(f, s, m[r]);
      hide Splice;
      for c := 0 to colCount
        invariant Value() == m[r := Splice(m[r], row, c)]
      {
        var x := Get(r, c);
        Set(r, c, f.mul(s, x));
        SpliceStep(m[r], row, c);
      }
    }

    method AddScaledRow(f: Field<E>, dst: nat, src: nat, s: E)
      requires Valid() && dst < rowCount && src < rowCount && dst != src
      modifies data
      ensures Value() == AddRow(f, old(Value()), dst, src, s)
    {
      hide RowsOf;
      ghost var m := Value();
      ghost var row := Plus(f, m[dst], Scale(f, s, m[src]));
      hide Splice;
      for c := 0 to colCount
        invariant Value() == m[dst := Splice(m[dst], row, c)]
      {
        var x := Get(dst, c);
        var y := Get(src, c);
        Set(dst, c, f.add(x, f.mul(s, y)));
        SpliceStep(m[dst], row, c);
      }
    }

    /** Find a row at or below r with a nonzero entry in column r and swap it up. */
    method FindPivot(f: Field<E>, r: nat)
      requires Lawful(f) && Valid() && r < rowCount <= colCount && Stair(f, Value(), colCount, r)
      modifies data
      ensures SameKernel(f, old(Value()), Value(), colCount)
      ensures Stair(f, Value(), colCount, r)
      ensures Value()[r][r] == f.zero ==> forall k :: r <= k < rowCount ==> Value()[k][r] == f.zero
    {
      hide RowsOf;
      ghost var m := Value();
      var pivot := Get(r, r);
      if pivot == f.zero {
        for below := r + 1 to rowCount
          invariant Value() == m
          invariant forall k :: r <= k < below ==> m[k][r] == f.zero
        {
          var x := Get(below, r);
          if x != f.zero {
            SwapRows(r, below);
            SwapKeepsKernel(f, m, colCount, r, below);
            return;
          }
        }
      }
    }

    /** Scale the pivot of row r to one. */
    method NormalizePivot(f: Field<E>, r: nat)
      requires Lawful(f) && Valid() && r < rowCount <= colCount && Stair(f, Value(), colCount, r)
      requires Value()[r][r] != f.zero
      modifies data
      ensures SameKernel(f, old(Value()), Value(), colCount)
      ensures Stair(f, Value(), colCount, r) && Value()[r][r] == f.one
    {
      hide RowsOf;
      ghost var m := Value();
      var pivot := Get(r, r);
      if pivot != f.one {
        var s := f.div(f.one, pivot);
        DivMul(f, f.one, pivot);
        MulZero(f, pivot);
        ScaleRow(f, r, s);
        ScaleKeepsKernel(f, m, colCount, r, s);
        MulZero(f, s);
      }
    }

    /** Make row r the pivot row of column r: a one there, zeros below. */
    method EliminateColumn(f: Field<E>, r: nat)
      requires Lawful(f) && Valid() && r < rowCount <= colCount && Stair(f, Value(), colCount, r)
      requires Value()[r][r] != f.zero
      modifies data
      ensures SameKernel(f, old(Value()), Value(), colCount)
      ensures Stair(f, Value(), colCount, r + 1)
    {
      hide RowsOf;
      ghost var m := Value();
      NormalizePivot(f, r);
      PivotedStart(f, Value(), colCount, r);
      hide SameKernel, AddRow, Pivoted, Stair;
      for below := r + 1 to rowCount
        invariant SameKernel(f, m, Value(), colCount)
        invariant Pivoted(f, Value(), colCount, r, below)
      {
        var s := Get(below, r);
        ghost var w := Value();
        if s != f.zero {
          EliminateStep(f, w, colCount, r, below);
          AddScaledRow(f, below, r, s);
          SameKernelTrans(f, m, w, Value(), colCount);
        } else {
          PivotedSkip(f, w, colCount, r, below);
        }
      }
      PivotedEnd(f, Value(), colCount, r);
    }

    /** Clear column d above the diagonal. */
    method ClearAbove(f: Field<E>, d: nat)
      requires Lawful(f) && Valid() && d < rowCount <= colCount
      requires Stair(f, Value(), colCount, rowCount) && Cleared(f, Value(), colCount, d)
      modifies data
      ensures SameKernel(f, old(Value()), Value(), colCount)
      ensures Stair(f, Value(), colCount, rowCount) && Cleared(f, Value(), colCount, d + 1)
    {
      hide RowsOf;
      ghost var m := Value();
      for above := 0 to d
        invariant SameKernel(f, m, Value(), colCount)
        invariant ClearedTo(f, Value(), colCount, d, above)
      {
        hide SameKernel, AddRow;
        var s := Get(above, d);
        if s != f.zero {
          ghost var w := Value();
          ClearStep(f, w, colCount, d, above);
          AddScaledRow(f, above, d, s);
          SameKernelTrans(f, m, w, Value(), colCount);
        }
      }
    }

    /** In-place Gauss-Jordan elimination.  It never changes the solution set; on success the
        left block is the identity, on failure the columns left of rowCount admit a nonzero
        solution. */
    method GaussianElim(f: Field<E>) returns (ok: bool, ghost x: Vec<E>, ghost pivot: nat)
      requires Lawful(f) && Valid() && rowCount <= colCount
      modifies data
      ensures SameKernel(f, old(Value()), Value(), colCount)
      ensures ok ==> Stair(f, Value(), colCount, rowCount) && Cleared(f, Value(), colCount, rowCount)
      ensures !ok ==> LeftSolution(f, old(Value()), colCount, x, pivot)
    {
      hide RowsOf;
      ghost var m := Value();
      for r := 0 to rowCount
        invariant SameKernel(f, m, Value(), colCount)
        invariant Stair(f, Value(), colCount, r)
      {
        ghost var w := Value();
        FindPivot(f, r);
        SameKernelTrans(f, m, w, Value(), colCount);
        var p := Get(r, r);
        if p == f.zero {
          ok, pivot := false, r;
          x := KernelVector(f, Value(), colCount, r, 0);
          assert InKernel(f, Value(), x);
          return;
        }
        ghost var w' := Value();
        EliminateColumn(f, r);
        SameKernelTrans(f, m, w', Value(), colCount);
      }
      for d := 0 to rowCount
        invariant SameKernel(f, m, Value(), colCount)
        invariant Stair(f, Value(), colCount, rowCount) && Cleared(f, Value(), colCount, d)
      {
        ghost var w := Value();
        ClearAbove(f, d);
        SameKernelTrans(f, m, w, Value(), colCount);
      }
      ok, x, pivot := true, [], 0;
    }

    /** The finished matrix as a value. */
    method ToRows() returns (m: Mat<E>)
      requires Valid()
      ensures m == Value()
    {
      m := RowsOf(data[..], rowCount, colCount);
    }

    /** Lay rhs to the right of this matrix. */
    method Augment(f: Field<E>, rhs: Matrix<E>) returns (m: Matrix<E>)
      requires Valid() && rhs.Valid() && rowCount == rhs.rowCount
      ensures m.Valid() && fresh(m.data) && m.rowCount == rowCount && m.colCount == colCount + rhs.colCount
      ensures forall r :: 0 <= r < rowCount ==> m.Value()[r] == Value()[r] + rhs.Value()[r]
    {
      hide RowsOf;
      hide Splice;
      m := new Matrix(f, rowCount, colCount + rhs.colCount);
      ghost var va, vb := Value(), rhs.Value();
      for r := 0 to rowCount
        invariant Value() == va && rhs.Value() == vb
        invariant forall k :: 0 <= k < r ==> m.Value()[k] == va[k] + vb[k]
      {
        ghost var done, row := m.Value(), va[r] + vb[r];
        for c := 0 to colCount
          invariant Value() == va && rhs.Value() == vb
          invariant m.Value() == done[r := Splice(done[r], row, c)]
        {
          var x := Get(r, c);
          m.Set(r, c, x);
          SpliceStep(done[r], row, c);
        }
        for c := 0 to rhs.colCount
          invariant Value() == va && rhs.Value() == vb
          invariant m.Value() == done[r := Splice(done[r], row, colCount + c)]
        {
          var x := rhs.Get(r, c);
          m.Set(r, colCount + c, x);
          SpliceStep(done[r], row, colCount + c);
        }
      }
    }

    /** The block [rmin, rmax) x [cmin, cmax). */
    method SubMatrix(f: Field<E>, rmin: nat, cmin: nat, rmax: nat, cmax: nat) returns (m: Matrix<E>)
      requires Valid() && rmin <= rmax <= rowCount && cmin <= cmax <= colCount
      ensures m.Valid() && m.rowCount == rmax - rmin && m.colCount == cmax - cmin
      ensures m.Value() == Block(Value(), rmin, cmin, rmax, cmax, colCount)
    {
      hide RowsOf;
      hide Splice;
      m := new Matrix(f, rmax - rmin, cmax - cmin);
      ghost var v := Value();
      ghost var block := Block(v, rmin, cmin, rmax, cmax, colCount);
      for r := 0 to rmax - rmin
        invariant Value() == v
        invariant forall k :: 0 <= k < r ==> m.Value()[k] == block[k]
      {
        ghost var done := m.Value();
        for c := 0 to cmax - cmin
          invariant Value() == v
          invariant m.Value() == done[r := Splice(done[r], block[r], c)]
        {
          var x := Get(rmin + r, cmin + c);
          m.Set(r, c, x);
          SpliceStep(done[r], block[r], c);
        }
      }
    }

    /** Matrix product. */
    method Multiply(f: Field<E>, rhs: Matrix<E>) returns (m: Matrix<E>)
      requires Valid() && rhs.Valid() && colCount == rhs.rowCount
      ensures m.Valid() && m.rowCount == rowCount && m.colCount == rhs.colCount
      ensures m.Value() == MatMul(f, Value(), rhs.Value(), rhs.colCount)
    {
      hide RowsOf;
      m := new Matrix(f, rowCount, rhs.colCount);
      ghost var va, vb := Value(), rhs.Value();
      ghost var p := MatMul(f, va, vb, rhs.colCount);
      for r := 0 to rowCount
        invariant Value() == va && rhs.Value() == vb
        invariant forall k :: 0 <= k < r ==> m.Value()[k] == p[k]
      {
        for c := 0 to rhs.colCount
          invariant Value() == va && rhs.Value() == vb
          invariant forall k :: 0 <= k < r ==> m.Value()[k] == p[k]
          invariant m.Value()[r][..c] == p[r][..c]
        {
          var val := DotProduct(f, rhs, r, c);
          m.Set(r, c, val);
        }
      }
    }

    /** The innermost loop of the product. */
    method DotProduct(f: Field<E>, rhs: Matrix<E>, r: nat, c: nat) returns (val: E)
      requires Valid() && rhs.Valid() && colCount == rhs.rowCount && r < rowCount && c < rhs.colCount
      ensures val == Dot(f, Value()[r], Col(rhs.Value(), c))
    {
      hide RowsOf;
      val := f.zero;
      ghost var a, b := Value()[r], Col(rhs.Value(), c);
      for i := 0 to colCount
        invariant val == Dot(f, a[..i], b[..i])
      {
        var x := Get(r, i);
        var y := rhs.Get(i, c);
        val := f.add(val, f.mul(x, y));
        assert a[..i + 1][..i] == a[..i] && b[..i + 1][..i] == b[..i];
      }
      assert a[..colCount] == a && b[..colCount] == b;
    }

    /** The inverse, exactly when there is one: the result is two-sided, and a matrix is
        reported singular only if it kills a nonzero vector. */
    method Invert(f: Field<E>) returns (res: InvertResult<E>)
      requires Lawful(f) && Valid() && rowCount == colCount
      ensures res.Inverse? ==> res.m.Valid() && res.m.rowCount == res.m.colCount == rowCount
      ensures res.Inverse? ==> IsInverse(f, Value(), res.m.Value(), rowCount)
      ensures res.Inverse? <==> TrivialKernel(f, Value(), rowCount)
    {
      hide RowsOf;
      hide IsInverse, TrivialKernel, SameKernel, LeftSolution, Stair, Cleared;
      var n := rowCount;
      ghost var a := Value();
      var id := NewIdentity(f, n);
      var work := Augment(f, id);
      ghost var w := work.Value();
      ghost var x, r;
      var ok;
      ok, x, r := work.GaussianElim(f);
      if !ok {
        LeftKernel(f, w, a, n, x, r);
        return SingularMatrix;
      }
      var b := work.SubMatrix(f, 0, n, n, n + n);
      ReducedRows(f, work.Value(), n, b.Value());
      EliminationInverts(f, w, work.Value(), a, b.Value(), n);
      InverseKernel(f, a, b.Value(), n);
      res := Inverse(b);
    }
  }

  /** After elimination the left half is the identity. */
  lemma ReducedRows<E(!new)>(f: Field<E>, w: Mat<E>, n: nat, b: Mat<E>)
    requires IsMat(w, n, n + n) && Stair(f, w, n + n, n) && Cleared(f, w, n + n, n)
    requires IsMat(b, n, n) && forall i :: 0 <= i < n ==> b[i] == w[0 + i][n..n + n]
    ensures forall i :: 0 <= i < n ==> w[i] == Unit(f, n, i) + b[i]
  {
    forall i | 0 <= i < n ensures w[i] == Unit(f, n, i) + b[i] {
      assert w[i] == w[i][..n] + w[i][n..n + n];
      assert w[i][..n] == Unit(f, n, i);
    }
  }

  method NewIdentity<E(==,!new)>(f: Field<E>, n: nat) returns (m: Matrix<E>)
    ensures m.Valid() && m.rowCount == m.colCount == n
    ensures m.Value() == Identity(f, n)
  {
    hide RowsOf;
    m := new Matrix(f, n, n);
    for i := 0 to n
      invariant forall k :: 0 <= k < n ==> m.Value()[k] == if k < i then Unit(f, n, k) else Zeros(f, n)
    {
      m.Set(i, i, f.one);
    }
  }

  /** Row r is 1, p, p^2, ... for the point p == nth(r). */
  method NewVandermonde<E(==,!new)>(f: Field<E>, rows: nat, cols: nat) returns (m: Matrix<E>)
    requires Lawful(f) && rows <= f.order
    ensures m.Valid() && m.rowCount == rows && m.colCount == cols
    ensures m.Value() == Vandermonde(f, rows, cols)
  {
    hide RowsOf;
    m := new Matrix(f, rows, cols);
    ghost var v := Vandermonde(f, rows, cols);
    for r := 0 to rows
      invariant forall k :: 0 <= k < r ==> m.Value()[k] == v[k]
    {
      var p := f.nth(r);
      for c := 0 to cols
        invariant forall k :: 0 <= k < r ==> m.Value()[k] == v[k]
        invariant m.Value()[r][..c] == v[r][..c]
      {
        ExpIsPow(f, p, c);
        m.Set(r, c, f.exp(p, c));
      }
    }
  }
}
