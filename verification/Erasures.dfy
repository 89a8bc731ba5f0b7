/** Index lists of present and missing shards, as the reconstruction loop builds them. */
module Erasures {
  import opened Polynomials
  import opened ErasureCode

  /** The indices below i whose shard is present (want) or missing (!want), ascending. */
  function Indices(present: seq<bool>, want: bool, i: nat): (r: seq<nat>)
    requires i <= |present|
  {
    if i == 0 then []
    else Indices(present, want, i - 1) + if present[i - 1] == want then [i - 1] else []
  }

  function Valid(present: seq<bool>): seq<nat> { Indices(present, true, |present|) }
  function Invalid(present: seq<bool>): seq<nat> { Indices(present, false, |present|) }

  lemma {:induction false} IndicesSorted(present: seq<bool>, want: bool, i: nat)
    requires i <= |present|
    ensures var s := Indices(present, want, i);
      && (forall a :: 0 <= a < |s| ==> s[a] < i && present[s[a]] == want)
      && (forall a, b :: 0 <= a < b < |s| ==> s[a] < s[b])
      && |s| <= i
  {
    if i > 0 { IndicesSorted(present, want, i - 1); }
  }

  lemma {:induction false} IndicesCount(present: seq<bool>, i: nat)
    requires i <= |present|
    ensures |Indices(present, true, i)| + |Indices(present, false, i)| == i
  {
    if i > 0 { IndicesCount(present, i - 1); }
  }

  /** The lists only grow at the end. */
  lemma {:induction false} IndicesPrefix(present: seq<bool>, want: bool, i: nat, j: nat)
    requires i <= j <= |present|
    ensures Indices(present, want, i) <= Indices(present, want, j)
    decreases j
  {
    if i < j { IndicesPrefix(present, want, i, j - 1); }
  }

  /** Index x sits at the position that counts its predecessors. */
  lemma IndexPosition(present: seq<bool>, want: bool, x: nat, j: nat)
    requires x < j <= |present| && present[x] == want
    ensures var s, p := Indices(present, want, j), |Indices(present, want, x)|; p < |s| && s[p] == x
  {
    IndicesPrefix(present, want, x + 1, j);
  }

  /** Everything after the indices below x is at least x. */
  lemma {:induction false} LaterIndices(present: seq<bool>, want: bool, x: nat, j: nat)
    requires x <= j <= |present|
    ensures var s, p := Indices(present, want, j), |Indices(present, want, x)|;
      p <= |s| && forall t :: p <= t < |s| ==> x <= s[t]
    decreases j
  {
    if x < j { LaterIndices(present, want, x, j - 1); }
  }

  /** Between consecutive missing indices everything is present. */
  lemma {:induction false} GapIsPresent(present: seq<bool>, x: nat, t: nat, j: nat)
    requires x < j <= |present| && t == |Indices(present, false, x)|
    requires var s := Indices(present, false, j); t < |s| ==> x < s[t]
    ensures present[x]
  {
    if !present[x] { IndexPosition(present, false, x, j); }
  }

  /** The k first present indices are a choice of k distinct rows. */
  lemma FirstValidIsChoice(present: seq<bool>, k: nat)
    requires k <= |Valid(present)|
    ensures IsChoice(Valid(present)[..k], k, |present|)
  {
    IndicesSorted(present, true, |present|);
  }

  lemma IndicesStep(p: seq<bool>, want: bool, i: nat)
    requires 0 < i <= |p|
    ensures Indices(p, want, i) == if p[i - 1] == want then Indices(p, want, i - 1) + [i - 1] else Indices(p, want, i - 1)
  { }

  /** The last index tells whether the last shard is missing. */
  lemma LastIsMissing(p: seq<bool>, i: nat)
    requires 0 < i <= |p|
    ensures var s := Indices(p, false, i); !p[i - 1] <==> |s| > 0 && s[|s| - 1] == i - 1
  {
    hide Indices;
    IndicesStep(p, false, i);
    IndicesSorted(p, false, i - 1);
  }

  /** The missing indices determine which shards are present: this is why they can key the
      cache of decode matrices. */
  lemma {:induction false} InvalidDeterminesMask(p: seq<bool>, q: seq<bool>, i: nat)
    requires i <= |p| && i <= |q| && Indices(p, false, i) == Indices(q, false, i)
    ensures p[..i] == q[..i]
  {
    hide Indices;
    if i > 0 {
      LastIsMissing(p, i);
      LastIsMissing(q, i);
      assert p[i - 1] == q[i - 1];
      IndicesStep(p, false, i);
      IndicesStep(q, false, i);
      var s := Indices(p, false, i);
      assert !p[i - 1] ==> Indices(p, false, i - 1) == s[..|s| - 1] && Indices(q, false, i - 1) == s[..|s| - 1];
      InvalidDeterminesMask(p, q, i - 1);
      assert p[..i] == p[..i - 1] + [p[i - 1]] && q[..i] == q[..i - 1] + [q[i - 1]];
    }
  }
}
