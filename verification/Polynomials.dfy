/** Polynomials over a lawful field and the root-count argument: a nonzero polynomial with
    k coefficients has fewer than k roots.  Hence a Vandermonde matrix over distinct points
    has a trivial kernel, which is what makes the erasure code recoverable. */
module Polynomials {
  import opened Fields
  import opened LinearAlgebra

  /** u[0] + u[1] x + u[2] x^2 + ... */
  function Eval<E>(f: Field<E>, u: Vec<E>, x: E): E {
    if |u| == 0 then f.zero else f.add(u[0], f.mul(x, Eval(f, u[1..], x)))
  }

  /** 1, x, x^2, ..., x^(n-1): one row of the Vandermonde matrix. */
  function Powers<E>(f: Field<E>, x: E, n: nat): (r: Vec<E>)
    ensures |r| == n && forall i :: 0 <= i < n ==> r[i] == Pow(f, x, i)
  {
    seq(n, i requires 0 <= i => Pow(f, x, i))
  }

  lemma PowersTail<E(!new)>(f: Field<E>, x: E, n: nat)
    requires Lawful(f)
    ensures Powers(f, x, n + 1) == [f.one] + Scale(f, x, Powers(f, x, n))
  {
    forall i | 0 <= i <= n
      ensures Powers(f, x, n + 1)[i] == ([f.one] + Scale(f, x, Powers(f, x, n)))[i]
    { }
  }

  /** A row of the Vandermonde matrix applied to u evaluates the polynomial u. */
  lemma {:induction false} PowersDotIsEval<E(!new)>(f: Field<E>, x: E, u: Vec<E>)
    requires Lawful(f)
    ensures Dot(f, Powers(f, x, |u|), u) == Eval(f, u, x)
  {
    if |u| > 0 {
      var t := u[1..];
      PowersTail(f, x, |t|);
      PowersDotIsEval(f, x, t);
      DotScale(f, x, Powers(f, x, |t|), t);
      assert u == [u[0]] + t;
      DotConcat(f, [f.one], Scale(f, x, Powers(f, x, |t|)), [u[0]], t);
      DotSingle(f, [f.one], [u[0]], 0);
      MulOne(f, u[0]);
    }
  }

  /** Synthetic division by (x - p). */
  function Quotient<E>(f: Field<E>, u: Vec<E>, p: E): (q: Vec<E>)
    ensures |q| == if |u| == 0 then 0 else |u| - 1
  {
    if |u| <= 1 then [] else [Eval(f, u[1..], p)] + Quotient(f, u[1..], p)
  }

  /** u(x) == u(p) + (x - p) q(x) */
  lemma {:induction false} Division<E(!new)>(f: Field<E>, u: Vec<E>, p: E, x: E)
    requires Lawful(f)
    ensures Eval(f, u, x) == f.add(Eval(f, u, p), f.mul(f.add(x, p), Eval(f, Quotient(f, u, p), x)))
  {
    var d := f.add(x, p);
    if |u| == 0 {
      MulZero(f, d);
      AddZero(f, f.zero);
    } else if |u| == 1 {
      assert Eval(f, u[1..], x) == f.zero == Eval(f, u[1..], p);
      MulZero(f, x);
      MulZero(f, p);
      MulZero(f, d);
      AddZero(f, Eval(f, u, x));
    } else {
      var t, q := u[1..], Quotient(f, u[1..], p);
      var tx, tp, qx := Eval(f, t, x), Eval(f, t, p), Eval(f, q, x);
      Division(f, t, p, x);
      assert Quotient(f, u, p)[1..] == q;
      assert Eval(f, Quotient(f, u, p), x) == f.add(tp, f.mul(x, qx));
      DivisionStep(f, u[0], x, p, tp, qx);
    }
  }

  /** c + x (tp + d qx) == (c + p tp) + d (tp + x qx), with d == x + p */
  lemma DivisionStep<E(!new)>(f: Field<E>, c: E, x: E, p: E, tp: E, qx: E)
    requires Lawful(f)
    ensures
      var d := f.add(x, p);
      f.add(c, f.mul(x, f.add(tp, f.mul(d, qx)))) ==
      f.add(f.add(c, f.mul(p, tp)), f.mul(d, f.add(tp, f.mul(x, qx))))
  {
    var d := f.add(x, p);
    var xt, pt, w := f.mul(x, tp), f.mul(p, tp), f.mul(d, f.mul(x, qx));
    // left: c + (xt + w)
    Distribute(f, x, tp, f.mul(d, qx));
    MulAssoc(f, x, d, qx);
    MulComm(f, x, d);
    MulAssoc(f, d, x, qx);
    // right: (c + pt) + ((xt + pt) + w)
    Distribute(f, d, tp, f.mul(x, qx));
    Distribute(f, tp, x, p);
    AddAssoc(f, f.add(c, pt), f.add(xt, pt), w);
    AddComm(f, xt, pt);
    AddAssoc(f, c, pt, f.add(pt, xt));
    AddAssoc(f, pt, pt, xt);
    AddSelf(f, pt);
    AddZero(f, xt);
    AddAssoc(f, c, xt, w);
  }

  /** A polynomial with root p whose quotient by (x - p) vanishes is zero. */
  lemma {:induction false} ZeroQuotient<E(!new)>(f: Field<E>, u: Vec<E>, p: E)
    requires Lawful(f) && Eval(f, u, p) == f.zero && IsZero(f, Quotient(f, u, p))
    ensures IsZero(f, u)
  {
    if |u| == 1 {
      MulZero(f, p);
      AddZero(f, u[0]);
    } else if |u| > 1 {
      var t, q := u[1..], Quotient(f, u, p);
      assert q[0] == Eval(f, t, p);
      assert Quotient(f, t, p) == q[1..];
      ZeroQuotient(f, t, p);
      MulZero(f, p);
      AddZero(f, u[0]);
      forall i | 0 <= i < |u| ensures u[i] == f.zero {
        if i > 0 { assert u[i] == t[i - 1]; }
      }
    }
  }

  ghost predicate Distinct<T>(s: seq<T>) {
    forall i, j :: 0 <= i < j < |s| ==> s[i] != s[j]
  }

  /** k distinct roots force all k coefficients to be zero. */
  lemma {:induction false} RootCount<E(!new)>(f: Field<E>, u: Vec<E>, points: seq<E>)
    requires Lawful(f) && Distinct(points) && |points| == |u|
    requires forall i :: 0 <= i < |points| ==> Eval(f, u, points[i]) == f.zero
    ensures IsZero(f, u)
    decreases |u|
  {
    if |u| > 0 {
      var p, rest, q := points[0], points[1..], Quotient(f, u, points[0]);
      forall i | 0 <= i < |rest| ensures Eval(f, q, rest[i]) == f.zero {
        var x := rest[i];
        assert x == points[i + 1] && x != p;
        Division(f, u, p, x);
        var d := f.add(x, p);
        SumZeroIffEqual(f, x, p);
        AddZero(f, f.mul(d, Eval(f, q, x)));
        NoZeroDivisors(f, d, Eval(f, q, x));
      }
      RootCount(f, q, rest);
      ZeroQuotient(f, u, p);
    }
  }

  /** Row r is Powers(nth(r), cols). */
  function Vandermonde<E>(f: Field<E>, rows: nat, cols: nat): (m: Mat<E>)
    ensures |m| == rows && forall r :: 0 <= r < rows ==> m[r] == Powers(f, f.nth(r), cols)
    ensures IsMat(m, rows, cols)
  {
    seq(rows, r requires 0 <= r => Powers(f, f.nth(r), cols))
  }

  /** Any k distinct rows of a Vandermonde matrix with k columns have a trivial kernel. */
  lemma VandermondeKernel<E(!new)>(f: Field<E>, rows: nat, k: nat, idx: seq<nat>)
    requires Lawful(f) && rows <= f.order && |idx| == k && Distinct(idx)
    requires forall i :: 0 <= i < k ==> idx[i] < rows
    ensures TrivialKernel(f, Rows(Vandermonde(f, rows, k), idx), k)
  {
    var m := Rows(Vandermonde(f, rows, k), idx);
    var points := seq(k, i requires 0 <= i < k => f.nth(idx[i]));
    forall i, j | 0 <= i < j < k ensures points[i] != points[j] {
      if points[i] == points[j] { NthInjective(f, idx[i], idx[j]); }
    }
    forall x: Vec<E> | |x| == k && InKernel(f, m, x) ensures IsZero(f, x) {
      forall i | 0 <= i < k ensures Eval(f, x, points[i]) == f.zero {
        assert m[i] == Powers(f, points[i], k);
        PowersDotIsEval(f, points[i], x);
      }
      RootCount(f, x, points);
    }
  }
}
