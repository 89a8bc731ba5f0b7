/** The operating-point ladder: resolution and frame-rate rungs, each with the least bitrate at
    which it still looks clean.  Floating point is real arithmetic; the final cast to 32 bits
    saturates, as the code's does. */
module Ladder {
  datatype Codec = H264 | H265 | Av1

  datatype Point = Point(width: nat, height: nat, fps: nat, minKbps: nat) {
    function Load(): nat { width * height * fps }
  }

  const U32_MAX: nat := 0xFFFF_FFFF

  /** (height, fps, minimum) for H.264. */
  const REFERENCE: seq<(nat, nat, nat)> :=
    [(1080, 60, 8000), (1080, 30, 5000), (720, 60, 4000), (720, 30, 2500), (540, 30, 1200), (360, 30, 600)]

  function CodecFactor(c: Codec): real {
    match c
    case H264 => 1.0
    case H265 => 0.7
    case Av1 => 0.65
  }

  function Max(a: nat, b: nat): nat { if a < b then b else a }
  function Min(a: nat, b: nat): nat { if a < b then a else b }

  /** Round half up, then a saturating cast. */
  function Round(x: real): (r: nat)
    requires x >= 0.0
    ensures r <= U32_MAX
  {
    var n := (x + 0.5).Floor;
    if n > U32_MAX then U32_MAX else n
  }

  function MinKbpsFor(w: nat, h: nat, fps: nat): nat
    decreases fps > 60
  {
    if fps > 60 then
      Round(MinKbpsFor(w, h, 60) as real * (1.0 + 0.5 * (fps - 60) as real / 60.0))
    else
      Max(Round((w * h * fps) as real * (if fps >= 50 then 0.064 else 0.085) / 1000.0), 200)
  }

  function Even16(w: real): nat
    requires w >= 0.0
  {
    Max(Round(w / 16.0) * 16, 160)
  }

  // ---- candidates ----

  datatype Native = Native(w: nat, h: nat, fps: nat)

  function Known(n: Native): (r: Native)
    ensures r.w > 0 && r.h > 0 && r.fps > 0
  {
    Native(if n.w == 0 then 1920 else n.w, if n.h == 0 then 1080 else n.h, if n.fps == 0 then 60 else n.fps)
  }

  function FpsRungs(fps: nat): (r: seq<nat>)
    ensures r != []
  {
    if fps > 60 then [fps, 60, 30] else if fps >= 50 then [fps, 30] else [Max(fps, 1)]
  }

  /** The reference minimum of an exact height and rate, if there is one. */
  function Reference(table: seq<(nat, nat, nat)>, h: nat, fps: nat): (r: nat) {
    if table == [] then 0
    else if table[0].0 == h && table[0].1 == fps then table[0].2
    else Reference(table[1..], h, fps)
  }

  function Rung(codec: Codec, n: Native, h: nat, fps: nat): Point
    requires n.h > 0
  {
    var w := if h == n.h then n.w else Even16(h as real * (n.w as real / n.h as real));
    var known := Reference(REFERENCE, h, fps);
    var base := if known != 0 then known else MinKbpsFor(w, h, fps);
    Point(w, h, fps, Max(Round(base as real * CodecFactor(codec)), 200))
  }

  // ---- what the minimum of a rung is ----

  /** The minimums of the reference rungs, in the table's order. */
  function ReferenceMinimums(c: Codec): seq<nat> {
    match c
    case H264 => [8000, 5000, 4000, 2500, 1200, 600]
    case H265 => [5600, 3500, 2800, 1750, 840, 420]
    case Av1 => [5200, 3250, 2600, 1625, 780, 390]
  }

  lemma RungAtReference(codec: Codec, n: Native, i: nat)
    requires n.h > 0 && i < |REFERENCE|
    ensures Rung(codec, n, REFERENCE[i].0, REFERENCE[i].1).minKbps == ReferenceMinimums(codec)[i]
  {
    hide Even16, MinKbpsFor;
    ReferenceFinds(REFERENCE, i);
    match codec {
      case H264 => assert Round(REFERENCE[i].2 as real * 1.0) == REFERENCE[i].2;
      case H265 => assert Round(REFERENCE[i].2 as real * 0.7) == ReferenceMinimums(H265)[i];
      case Av1 => assert Round(REFERENCE[i].2 as real * 0.65) == ReferenceMinimums(Av1)[i];
    }
  }

  /** Each height and rate is in the table once, so its own minimum is the one found. */
  lemma {:induction false} ReferenceFinds(table: seq<(nat, nat, nat)>, i: nat)
    requires i < |table|
    requires forall j :: 0 <= j < i ==> table[j].0 != table[i].0 || table[j].1 != table[i].1
    ensures Reference(table, table[i].0, table[i].1) == table[i].2
    decreases i
  {
    if i > 0 { ReferenceFinds(table[1..], i - 1); }
  }

  lemma RoundGrows(x: real, y: real)
    requires 0.0 <= x <= y
    ensures Round(x) <= Round(y)
  { }

  lemma ProductsGrow(a: nat, b: nat, x: nat, y: nat)
    requires a <= b && x <= y
    ensures a * x <= b * y
  {
    assert b * y - a * x == (b - a) * x + b * (y - x);
  }

  /** Rates across the step at 50 fps, where the bits per pixel drop, must differ by enough. */
  predicate Comparable(fps: nat, fps': nat) {
    fps <= fps' && (fps < 50 <= fps' ==> 85 * fps <= 64 * Min(fps', 60))
  }

  lemma ScaledPixels(p: nat, fps: nat, p': nat, fps': nat)
    requires p <= p' && Comparable(fps, fps') && fps' <= 60
    ensures (p * fps) as real * (if fps >= 50 then 0.064 else 0.085) <= (p' * fps') as real * (if fps' >= 50 then 0.064 else 0.085)
  {
    ProductsGrow(p, p', fps, fps');
    if fps < 50 <= fps' {
      ProductsGrow(p, p', 85 * fps, 64 * fps');
      assert p * (85 * fps) == 85 * (p * fps) && p' * (64 * fps') == 64 * (p' * fps');
    }
  }

  lemma MinimumFits(w: nat, h: nat, fps: nat)
    ensures MinKbpsFor(w, h, fps) <= U32_MAX
  { }

  /** The factor on the estimate for 60 fps. */
  function Fast(fps: nat): (r: real)
    requires fps >= 60
    ensures r >= 1.0
  {
    1.0 + 0.5 * (fps - 60) as real / 60.0
  }

  function Sped(kbps: nat, fps: nat): nat
    requires fps >= 60
  {
    Round(kbps as real * Fast(fps))
  }

  lemma RealsGrow(a: real, b: real, x: real, y: real)
    requires 0.0 <= a <= b && 0.0 <= x <= y
    ensures 0.0 <= a * x <= b * y
  {
    assert b * y - a * x == (b - a) * x + b * (y - x);
    assert (b - a) * x >= 0.0;
    assert b * (y - x) >= 0.0;
    assert a * x >= 0.0;
  }

  lemma FastGrows(a: nat, b: nat, fps: nat, fps': nat)
    requires a <= b <= U32_MAX && 60 <= fps <= fps'
    ensures Sped(a, fps) <= Sped(b, fps') && (fps == 60 ==> Sped(a, fps) == a)
  {
    var x, y, u, v := a as real, b as real, Fast(fps), Fast(fps');
    RealsGrow(x, y, u, v);
    RoundGrows(x * u, y * v);
    assert a as real * Fast(60) == a as real;
  }

  lemma UpTo60(w: nat, h: nat, fps: nat, w': nat, h': nat, fps': nat)
    requires w <= w' && h <= h' && Comparable(fps, fps') && fps' <= 60
    ensures MinKbpsFor(w, h, fps) <= MinKbpsFor(w', h', fps')
  {
    ProductsGrow(w, w', h, h');
    ScaledPixels(w * h, fps, w' * h', fps');
    var x := (w * h * fps) as real * (if fps >= 50 then 0.064 else 0.085);
    var y := (w' * h' * fps') as real * (if fps' >= 50 then 0.064 else 0.085);
    assert x >= 0.0;
    RoundGrows(x / 1000.0, y / 1000.0);
    hide Round;
  }

  lemma Over60(w: nat, h: nat, fps: nat)
    requires fps >= 60
    ensures MinKbpsFor(w, h, fps) == Sped(MinKbpsFor(w, h, 60), fps)
  {
    if fps == 60 { MinimumFits(w, h, 60); FastGrows(MinKbpsFor(w, h, 60), MinKbpsFor(w, h, 60), 60, 60); }
    hide Round;
  }

  /** The estimate grows with the picture and with the rate. */
  lemma MinimumGrows(w: nat, h: nat, fps: nat, w': nat, h': nat, fps': nat)
    requires w <= w' && h <= h' && Comparable(fps, fps')
    ensures MinKbpsFor(w, h, fps) <= MinKbpsFor(w', h', fps')
  {
    hide MinKbpsFor, Sped;
    if fps' <= 60 { UpTo60(w, h, fps, w', h', fps'); } else {
      UpTo60(w, h, Min(fps, 60), w', h', 60);
      MinimumFits(w', h', 60);
      Over60(w', h', fps');
      if fps >= 60 {
        FastGrows(MinKbpsFor(w, h, 60), MinKbpsFor(w', h', 60), fps, fps');
        Over60(w, h, fps);
      } else {
        NoSmaller(MinKbpsFor(w, h, fps), MinKbpsFor(w', h', 60), fps');
      }
    }
  }

  lemma NoSmaller(a: nat, b: nat, fps: nat)
    requires a <= b <= U32_MAX && fps >= 60
    ensures a <= Sped(b, fps)
  {
    FastGrows(a, b, 60, fps);
  }

  /** Not in general: one more frame per second can ask for less. */
  lemma MinimumDropsAtFifty()
    ensures MinKbpsFor(1920, 1080, 50) < MinKbpsFor(1920, 1080, 49) && !Comparable(49, 50)
  { }

  lemma FactorGrows(codec: Codec, a: nat, b: nat)
    requires a <= b
    ensures Round(a as real * CodecFactor(codec)) <= Round(b as real * CodecFactor(codec))
  {
    RoundGrows(a as real * CodecFactor(codec), b as real * CodecFactor(codec));
  }

  /** Off the reference table, a larger and faster rung has no smaller minimum. */
  lemma RungGrows(codec: Codec, n: Native, h: nat, fps: nat, n': Native, h': nat, fps': nat)
    requires n.h > 0 && n'.h > 0 && Reference(REFERENCE, h, fps) == 0 == Reference(REFERENCE, h', fps')
    requires var p, q := Rung(codec, n, h, fps), Rung(codec, n', h', fps'); p.width <= q.width && h <= h' && Comparable(fps, fps')
    ensures Rung(codec, n, h, fps).minKbps <= Rung(codec, n', h', fps').minKbps
  {
    var w, w' := Rung(codec, n, h, fps).width, Rung(codec, n', h', fps').width;
    MinimumGrows(w, h, fps, w', h', fps');
    FactorGrows(codec, MinKbpsFor(w, h, fps), MinKbpsFor(w', h', fps'));
    hide Round, MinKbpsFor, Even16, Reference;
  }

  /** A scaled width is a multiple of 16, at least 160, and within 8 of the true one. */
  lemma Even16Rounds(w: real)
    requires w >= 0.0
    ensures Even16(w) % 16 == 0 && Even16(w) >= 160
    ensures 152.0 <= w <= 16.0 * U32_MAX as real ==> w - 8.0 <= Even16(w) as real <= w + 8.0
  { }

  /** Heights of the ladder: the native one and the reference heights under it. */
  predicate IsHeight(n: Native, h: nat) {
    h == n.h || (h < n.h && exists i :: 0 <= i < |REFERENCE| && REFERENCE[i].0 == h)
  }

  /** Low rungs exist only at the lowest rate. */
  predicate Allowed(h: nat, fps: nat, rungs: seq<nat>) {
    rungs != [] && fps in rungs && (h <= 540 ==> fps == rungs[|rungs| - 1])
  }

  /** The rungs of a ladder, as a set. */
  ghost predicate IsRung(codec: Codec, n: Native, p: Point)
    requires n.h > 0
  {
    exists h, fps :: IsHeight(n, h) && Allowed(h, fps, FpsRungs(n.fps)) && p == Rung(codec, n, h, fps)
  }

  // ---- order ----

  /** a sorts before or level with b: more bits first, ties by load. */
  predicate Before(a: Point, b: Point) {
    a.minKbps > b.minKbps || (a.minKbps == b.minKbps && a.Load() >= b.Load())
  }

  predicate Sorted(s: seq<Point>) { forall i, j :: 0 <= i < j < |s| ==> Before(s[i], s[j]) }

  /** Insert after everything that sorts before or level with p (so equal keys keep their order). */
  function Insert(s: seq<Point>, p: Point): (r: seq<Point>) {
    if s == [] then [p]
    else if Before(s[|s| - 1], p) then s + [p]
    else Insert(s[..|s| - 1], p) + [s[|s| - 1]]
  }

  lemma {:induction false} InsertSorts(s: seq<Point>, p: Point)
    requires Sorted(s)
    ensures Sorted(Insert(s, p))
    ensures forall q :: q in Insert(s, p) <==> q in s || q == p
  {
    if s != [] && !Before(s[|s| - 1], p) {
      var front, last := s[..|s| - 1], s[|s| - 1];
      InsertSorts(front, p);
      assert s == front + [last];
      var r := Insert(front, p);
      forall i | 0 <= i < |r| ensures Before(r[i], last) {
        assert r[i] in front || r[i] == p;
        if r[i] in front {
          var k :| 0 <= k < |front| && front[k] == r[i];
          assert Before(s[k], s[|s| - 1]);
        }
      }
    } else if s != [] {
      forall i | 0 <= i < |s| ensures Before(s[i], p) {
        assert i < |s| - 1 ==> Before(s[i], s[|s| - 1]);
      }
    }
  }

  /** The ladder the controller works with. */
  predicate LadderOk(s: seq<Point>) {
    s != [] && forall i, j :: 0 <= i < j < |s| ==> s[i].minKbps >= s[j].minKbps
  }

  // ---- build ----

  /** Every rung of the codec and native geometry, best first, and nothing else. */
  method Build(codec: Codec, native: Native) returns (out: seq<Point>)
    ensures LadderOk(out) && Sorted(out)
    ensures forall p :: p in out <==> IsRung(codec, Known(native), p)
    ensures forall i :: 0 <= i < |out| - 1 ==> out[i] != out[i + 1]
  {
    var n := Known(native);
    var heights := HeightsOf(n);
    var rungs := FpsRungs(n.fps);
    var all: seq<Point> := [];
    for i := 0 to |heights|
      invariant Sorted(all)
      invariant forall p :: p in all <==> FromFirst(codec, n, heights, rungs, i, p)
    {
      all := PushHeight(codec, n, heights[i], rungs, all);
      forall p ensures p in all <==> FromFirst(codec, n, heights, rungs, i + 1, p) {
        FromNext(codec, n, heights, rungs, i, p);
      }
    }
    out := Dedup(all);
    LadderContents(codec, n, heights, all);
    assert Allowed(n.h, rungs[|rungs| - 1], rungs) && IsHeight(n, n.h);
    assert IsRung(codec, n, Rung(codec, n, n.h, rungs[|rungs| - 1]));
    assert Rung(codec, n, n.h, rungs[|rungs| - 1]) in out;
  }

  /** p is a rung of one of the first i heights. */
  ghost predicate FromFirst(codec: Codec, n: Native, heights: seq<nat>, rungs: seq<nat>, i: nat, p: Point)
    requires n.h > 0 && i <= |heights|
  {
    exists k, fps :: 0 <= k < i && Allowed(heights[k], fps, rungs) && p == Rung(codec, n, heights[k], fps)
  }

  lemma FromNext(codec: Codec, n: Native, heights: seq<nat>, rungs: seq<nat>, i: nat, p: Point)
    requires n.h > 0 && i < |heights|
    ensures FromFirst(codec, n, heights, rungs, i + 1, p) <==>
      (FromFirst(codec, n, heights, rungs, i, p) || exists fps :: Allowed(heights[i], fps, rungs) && p == Rung(codec, n, heights[i], fps))
  {
    hide Allowed, Rung;
    if FromFirst(codec, n, heights, rungs, i + 1, p) {
      var k, fps :| 0 <= k < i + 1 && Allowed(heights[k], fps, rungs) && p == Rung(codec, n, heights[k], fps);
      assert k == i || FromFirst(codec, n, heights, rungs, i, p);
    }
  }

  lemma LadderContents(codec: Codec, n: Native, heights: seq<nat>, all: seq<Point>)
    requires n.h > 0 && forall h :: h in heights <==> IsHeight(n, h)
    requires forall p :: p in all <==> FromFirst(codec, n, heights, FpsRungs(n.fps), |heights|, p)
    ensures forall p :: p in all <==> IsRung(codec, n, p)
  {
    hide Rung, Allowed, IsHeight;
    forall p ensures p in all <==> IsRung(codec, n, p) {
      if p in all {
        var k, fps :| 0 <= k < |heights| && Allowed(heights[k], fps, FpsRungs(n.fps)) && p == Rung(codec, n, heights[k], fps);
        assert heights[k] in heights;
      }
      if IsRung(codec, n, p) {
        var h, fps :| IsHeight(n, h) && Allowed(h, fps, FpsRungs(n.fps)) && p == Rung(codec, n, h, fps);
        assert h in heights;
        var k :| 0 <= k < |heights| && heights[k] == h;
      }
    }
  }

  method HeightsOf(n: Native) returns (heights: seq<nat>)
    ensures forall h :: h in heights <==> IsHeight(n, h)
  {
    heights := [n.h];
    for i := 0 to |REFERENCE|
      invariant forall h :: h in heights <==> h == n.h || (h < n.h && exists k :: 0 <= k < i && REFERENCE[k].0 == h)
    {
      var h := REFERENCE[i].0;
      if h < n.h && h !in heights { heights := heights + [h]; }
    }
  }

  method PushHeight(codec: Codec, n: Native, h: nat, rungs: seq<nat>, before: seq<Point>) returns (all: seq<Point>)
    requires n.h > 0 && rungs != [] && Sorted(before)
    ensures Sorted(all)
    ensures forall p :: p in all <==> p in before || exists fps :: Allowed(h, fps, rungs) && p == Rung(codec, n, h, fps)
  {
    all := before;
    for i := 0 to |rungs|
      invariant Sorted(all)
      invariant forall p :: p in all <==> (p in before || exists k :: 0 <= k < i && Allowed(h, rungs[k], rungs) && p == Rung(codec, n, h, rungs[k]))
    {
      if h <= 540 && rungs[i] != rungs[|rungs| - 1] { continue; }
      InsertSorts(all, Rung(codec, n, h, rungs[i]));
      all := Insert(all, Rung(codec, n, h, rungs[i]));
    }
  }

  /** Drop consecutive repeats. */
  method Dedup(s: seq<Point>) returns (out: seq<Point>)
    requires Sorted(s)
    ensures Sorted(out)
    ensures forall p :: p in out <==> p in s
    ensures forall i :: 0 <= i < |out| - 1 ==> out[i] != out[i + 1]
  {
    out := [];
    for i := 0 to |s|
      invariant Sorted(out)
      invariant forall p :: p in out <==> p in s[..i]
      invariant forall k :: 0 <= k < |out| - 1 ==> out[k] != out[k + 1]
      invariant i > 0 ==> out != [] && out[|out| - 1] == s[i - 1]
    {
      assert s[..i + 1] == s[..i] + [s[i]];
      if out == [] || out[|out| - 1] != s[i] {
        forall k | 0 <= k < |out| ensures Before(out[k], s[i]) {
          assert out[k] in s[..i];
        }
        out := out + [s[i]];
      }
    }
    assert s[..|s|] == s;
  }

  // ---- pick ----

  predicate Fits(p: Point, budget: nat, margin: real) { p.minKbps as real <= budget as real * margin }

  function FirstFit(s: seq<Point>, budget: nat, margin: real, i: nat): (r: nat)
    requires i <= |s|
    ensures i <= r <= |s|
    decreases |s| - i
  {
    if i == |s| || Fits(s[i], budget, margin) then i else FirstFit(s, budget, margin, i + 1)
  }

  function Pick(s: seq<Point>, budget: nat, margin: real): (r: nat)
    requires s != []
    ensures r < |s|
  {
    var i := FirstFit(s, budget, margin, 0);
    if i < |s| then i else |s| - 1
  }

  lemma {:induction false} FirstFitIsFirst(s: seq<Point>, budget: nat, margin: real, i: nat)
    requires i <= |s|
    ensures var r := FirstFit(s, budget, margin, i);
      i <= r <= |s| && (r < |s| ==> Fits(s[r], budget, margin)) && forall k :: i <= k < r ==> !Fits(s[k], budget, margin)
    decreases |s| - i
  {
    if i < |s| && !Fits(s[i], budget, margin) { FirstFitIsFirst(s, budget, margin, i + 1); }
  }

  /** On a ladder, pick finds the best rung the budget buys: it fits, and every rung above needs
      more; when nothing fits it is the lowest rung. */
  lemma PickIsBestFit(s: seq<Point>, budget: nat, margin: real)
    requires LadderOk(s)
    ensures var i := Pick(s, budget, margin);
      && i < |s|
      && (forall k :: 0 <= k < i ==> !Fits(s[k], budget, margin))
      && (Fits(s[i], budget, margin) || (i == |s| - 1 && forall k :: 0 <= k < |s| ==> !Fits(s[k], budget, margin)))
      && (Fits(s[i], budget, margin) ==> forall k :: i <= k < |s| ==> Fits(s[k], budget, margin))
  {
    FirstFitIsFirst(s, budget, margin, 0);
  }

  lemma ProductSign(d: real, m: real)
    requires d >= 0.0 && m >= 0.0
    ensures d * m >= 0.0
  { }

  lemma ProductGrows(a: real, b: real, m: real)
    requires a <= b && m >= 0.0
    ensures a * m <= b * m
  {
    var d := b - a;
    ProductSign(d, m);
    assert b * m == a * m + d * m;
  }

  lemma FitsMore(p: Point, budget: nat, more: nat, margin: real)
    requires Fits(p, budget, margin) && budget <= more && margin >= 0.0
    ensures Fits(p, more, margin)
  {
    ProductGrows(budget as real, more as real, margin);
  }

  /** A larger budget never picks a lower rung. */
  lemma PickMonotone(s: seq<Point>, budget: nat, more: nat, margin: real)
    requires LadderOk(s) && budget <= more && margin >= 0.0
    ensures Pick(s, more, margin) <= Pick(s, budget, margin)
  {
    PickIsBestFit(s, budget, margin);
    PickIsBestFit(s, more, margin);
    var i := Pick(s, budget, margin);
    if Fits(s[i], budget, margin) {
      FitsMore(s[i], budget, more, margin);
    }
  }
}
