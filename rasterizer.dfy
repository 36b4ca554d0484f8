/**
 * Scanline triangle fill, the per-mesh driver and the Bresenham line walker
 * (rasterizer.py).
 */
module Rasterizer {
  import opened Wrappers
  import opened Numeric
  import opened Projection

  /** Edges whose rise is below this are treated as horizontal and skipped. */
  const FlatEdge: real := 0.000000001

  /** A triangle as three 0-based vertex indices. */
  type Triangle = (int, int, int)

  type Edge = (Point2, Point2)

  // ---------------------------------------------------------------------------
  // The intercept of an edge with a row

  /** The x where the line through (x0, y0) and (x1, y1) meets row `y`. */
  function EdgeIntersectionX(y: int, x0: real, y0: real, x1: real, y1: real): (x: real)
    requires y1 != y0
    ensures (x - x0) * (y1 - y0) == (y as real - y0) * (x1 - x0)
  {
    var t := (y as real - y0) / (y1 - y0);
    InterceptOnLine(y as real - y0, y1 - y0, x1 - x0);
    x0 + t * (x1 - x0)
  }

  lemma InterceptOnLine(a: real, b: real, w: real)
    requires b != 0.0
    ensures ((a / b) * w) * b == a * w
  {
    calc {
      ((a / b) * w) * b;
      ((a / b) * b) * w;
      a * w;
    }
  }

  lemma FractionInUnit(a: real, b: real)
    requires (0.0 <= a <= b && b > 0.0) || (b <= a <= 0.0 && b < 0.0)
    ensures 0.0 <= a / b <= 1.0
  {
    var t := a / b;
    assert t * b == a;
    if b < 0.0 {
      assert t * (-b) == -a;
    }
  }

  /** The point `t` of the way from x0 to x1. */
  function Toward(x0: real, x1: real, t: real): real {
    x0 + t * (x1 - x0)
  }

  /** A point `t` of the way from x0 to x1, with `t` in [0, 1], lies between them. */
  lemma ConvexBetween(x0: real, x1: real, t: real)
    requires 0.0 <= t <= 1.0
    ensures Min(x0, x1) <= Toward(x0, x1, t) <= Max(x0, x1)
  {
    if x0 <= x1 {
      StepUp(x0, x1, t);
    } else {
      StepDown(x0, x1, t);
    }
  }

  lemma StepUp(x0: real, x1: real, t: real)
    requires 0.0 <= t <= 1.0 && x0 <= x1
    ensures x0 <= Toward(x0, x1, t) <= x1
  {
    var w := x1 - x0;
    assert 0.0 <= t * w;
    assert w - t * w == (1.0 - t) * w;
    assert (1.0 - t) * w >= 0.0;
  }

  lemma StepDown(x0: real, x1: real, t: real)
    requires 0.0 <= t <= 1.0 && x1 < x0
    ensures x1 <= Toward(x0, x1, t) <= x0
  {
    var w := x0 - x1;
    assert 0.0 <= t * w;
    assert w - t * w == (1.0 - t) * w;
    assert (1.0 - t) * w >= 0.0;
    assert t * (x1 - x0) == -(t * w);
  }

  /** For a row between the edge's end rows, the intercept lies between the
      edge's end columns. */
  lemma {:induction false} InterceptBetween(y: int, x0: real, y0: real, x1: real, y1: real)
    requires y1 != y0
    requires Min(y0, y1) <= y as real <= Max(y0, y1)
    ensures Min(x0, x1) <= EdgeIntersectionX(y, x0, y0, x1, y1) <= Max(x0, x1)
  {
    var t := (y as real - y0) / (y1 - y0);
    FractionInUnit(y as real - y0, y1 - y0);
    ConvexBetween(x0, x1, t);
    assert EdgeIntersectionX(y, x0, y0, x1, y1) == Toward(x0, x1, t);
  }

  /** The intercept an edge contributes to row `y`, if any: none for an
      almost horizontal edge or a row outside the edge's span. */
  function EdgeHit(e: Edge, y: int): (r: Option<real>)
    ensures r.Some? ==> Min(e.0.x, e.1.x) <= r.value <= Max(e.0.x, e.1.x)
    ensures r.Some? <==> Abs(e.1.y - e.0.y) >= FlatEdge && Min(e.0.y, e.1.y) <= y as real <= Max(e.0.y, e.1.y)
  {
    var (a, b) := e;
    if Abs(b.y - a.y) < FlatEdge then None
    else
      var ymin, ymax := Min(a.y, b.y), Max(a.y, b.y);
      if y >= Ceil(ymin) && y <= Floor(ymax) then
        InterceptBetween(y, a.x, a.y, b.x, b.y);
        Some(EdgeIntersectionX(y, a.x, a.y, b.x, b.y))
      else None
  }

  /** The intercepts of row `y` with the edges, in edge order. */
  function Intercepts(edges: seq<Edge>, y: int): (r: seq<real>)
    ensures |r| <= |edges|
    ensures forall k :: 0 <= k < |r| ==> exists e :: e in edges && EdgeHit(e, y) == Some(r[k])
    decreases |edges|
  {
    if edges == [] then []
    else
      var front := Intercepts(edges[..|edges| - 1], y);
      match EdgeHit(edges[|edges| - 1], y)
      case None => front
      case Some(x) => front + [x]
  }

  /** Each edge's hit on row `y`, in edge order. */
  function HitsOf(edges: seq<Edge>, y: int): (r: seq<Option<real>>)
    ensures |r| == |edges| && forall i :: 0 <= i < |edges| ==> r[i] == EdgeHit(edges[i], y)
  {
    seq(|edges|, i requires 0 <= i < |edges| => EdgeHit(edges[i], y))
  }

  /** The values present in `hs`, in order. */
  function Present(hs: seq<Option<real>>): seq<real>
    decreases |hs|
  {
    if hs == [] then []
    else
      var front := Present(hs[..|hs| - 1]);
      match hs[|hs| - 1]
      case None => front
      case Some(x) => front + [x]
  }

  /** The positions in `hs` that hold a value. */
  function PresentAt(hs: seq<Option<real>>): set<int> {
    set i | 0 <= i < |hs| && hs[i].Some?
  }

  /** The intercepts are the hits that are present. */
  lemma {:induction false} InterceptsArePresent(edges: seq<Edge>, y: int)
    ensures Intercepts(edges, y) == Present(HitsOf(edges, y))
    decreases |edges|
  {
    if edges != [] {
      var front := edges[..|edges| - 1];
      InterceptsArePresent(front, y);
      assert HitsOf(edges, y)[..|edges| - 1] == HitsOf(front, y);
    }
  }

  /** Every present value is kept. */
  lemma {:induction false} PresentKeeps(hs: seq<Option<real>>)
    ensures forall i :: 0 <= i < |hs| && hs[i].Some? ==> hs[i].value in Present(hs)
    decreases |hs|
  {
    if hs != [] {
      var front := hs[..|hs| - 1];
      PresentKeeps(front);
      assert forall i :: 0 <= i < |front| ==> front[i] == hs[i];
      assert forall x :: x in Present(front) ==> x in Present(hs);
    }
  }

  /** There is one value per position holding a value. */
  lemma {:induction false} PresentCount(hs: seq<Option<real>>)
    ensures |Present(hs)| == |PresentAt(hs)|
    decreases |hs|
  {
    if hs == [] {
      assert PresentAt(hs) == {};
    } else {
      var n := |hs|;
      var front := hs[..n - 1];
      PresentCount(front);
      var last := if hs[n - 1].Some? then {n - 1} else {};
      assert PresentAt(hs) == PresentAt(front) + last;
      assert n - 1 !in PresentAt(front);
    }
  }

  /** The positions in `hs` that hold the value `x`. */
  function PresentAtValue(hs: seq<Option<real>>, x: real): set<int> {
    set i | 0 <= i < |hs| && hs[i] == Some(x)
  }

  /** The positions holding `x`, one position at a time from the back. */
  lemma PresentAtValueSnoc(hs: seq<Option<real>>, x: real)
    requires hs != []
    ensures var n := |hs|;
      PresentAtValue(hs, x) == PresentAtValue(hs[..n - 1], x) + (if hs[n - 1] == Some(x) then {n - 1} else {})
    ensures |hs| - 1 !in PresentAtValue(hs[..|hs| - 1], x)
  {
  }

  /** How often `x` occurs after one more position of `hs`. */
  lemma PresentSnocCount(hs: seq<Option<real>>, x: real)
    requires hs != []
    ensures multiset(Present(hs))[x] ==
      multiset(Present(hs[..|hs| - 1]))[x] + (if hs[|hs| - 1] == Some(x) then 1 else 0)
  {
    var p := Present(hs[..|hs| - 1]);
    match hs[|hs| - 1]
    case None =>
    case Some(v) =>
      assert multiset(p + [v]) == multiset(p) + multiset{v};
  }

  /** Each value is present as often as there are positions holding it. */
  lemma {:induction false} PresentMultiplicity(hs: seq<Option<real>>, x: real)
    ensures multiset(Present(hs))[x] == |PresentAtValue(hs, x)|
    decreases |hs|
  {
    if hs == [] {
      assert PresentAtValue(hs, x) == {};
    } else {
      PresentMultiplicity(hs[..|hs| - 1], x);
      PresentSnocCount(hs, x);
      PresentAtValueSnoc(hs, x);
    }
  }

  /** The positions of the edges that cross row `y`. */
  function HitIndices(edges: seq<Edge>, y: int): set<int> {
    set i | 0 <= i < |edges| && EdgeHit(edges[i], y).Some?
  }

  /** The positions of the edges that cross row `y` at `x`. */
  function HitsAt(edges: seq<Edge>, y: int, x: real): set<int> {
    set i | 0 <= i < |edges| && EdgeHit(edges[i], y) == Some(x)
  }

  /** Every edge that crosses row `y` contributes its intercept, there are
      exactly as many intercepts as crossing edges, and each value occurs as
      often as there are edges crossing the row there (two edges meeting at a
      vertex on the row give its x twice). */
  lemma InterceptsExact(edges: seq<Edge>, y: int)
    ensures forall i :: 0 <= i < |edges| && EdgeHit(edges[i], y).Some? ==> EdgeHit(edges[i], y).value in Intercepts(edges, y)
    ensures |Intercepts(edges, y)| == |HitIndices(edges, y)|
    ensures forall x :: multiset(Intercepts(edges, y))[x] == |HitsAt(edges, y, x)|
  {
    var hs := HitsOf(edges, y);
    InterceptsArePresent(edges, y);
    PresentKeeps(hs);
    PresentCount(hs);
    assert HitIndices(edges, y) == PresentAt(hs);
    forall x
      ensures multiset(Intercepts(edges, y))[x] == |HitsAt(edges, y, x)|
    {
      PresentMultiplicity(hs, x);
      assert HitsAt(edges, y, x) == PresentAtValue(hs, x);
    }
  }

  function Edges(p0: Point2, p1: Point2, p2: Point2): seq<Edge> {
    [(p0, p1), (p1, p2), (p2, p0)]
  }

  // ---------------------------------------------------------------------------
  // Sorting and pairing of the intercepts

  predicate Sorted(s: seq<real>) {
    forall i, j :: 0 <= i < j < |s| ==> s[i] <= s[j]
  }

  function Insert(x: real, s: seq<real>): (r: seq<real>)
    requires Sorted(s)
    ensures Sorted(r) && multiset(r) == multiset(s) + multiset{x}
    decreases |s|
  {
    if s == [] || x <= s[0] then
      SortedCons(x, s);
      [x] + s
    else
      assert s == [s[0]] + s[1..];
      var rest := Insert(x, s[1..]);
      LowerBound(s[0], rest, s[1..], x);
      SortedCons(s[0], rest);
      [s[0]] + rest
  }

  /** A sorted list stays sorted when an element no larger than its first
      one is put in front. */
  lemma SortedCons(h: real, t: seq<real>)
    requires Sorted(t) && (t == [] || h <= t[0])
    ensures Sorted([h] + t)
  {
  }

  /** A bound on every element of `s` and on `x` bounds their permutation `r`. */
  lemma LowerBound(lo: real, r: seq<real>, s: seq<real>, x: real)
    requires multiset(r) == multiset(s) + multiset{x}
    requires lo <= x && forall i :: 0 <= i < |s| ==> lo <= s[i]
    ensures forall i :: 0 <= i < |r| ==> lo <= r[i]
  {
    forall i | 0 <= i < |r|
      ensures lo <= r[i]
    {
      assert r[i] in multiset(r);
      assert r[i] in multiset(s) || r[i] == x;
    }
  }

  /** `list.sort()` on the intercepts: a sorted permutation. */
  function SortReals(s: seq<real>): (r: seq<real>)
    ensures Sorted(r) && multiset(r) == multiset(s)
    decreases |s|
  {
    if s == [] then []
    else
      assert s == [s[0]] + s[1..];
      Insert(s[0], SortReals(s[1..]))
  }

  /** An odd intercept list loses its last element. */
  function Paired(xs: seq<real>): (r: seq<real>)
    ensures |r| % 2 == 0 && r <= xs && |xs| - |r| <= 1
  {
    if |xs| % 2 != 0 then xs[..|xs| - 1] else xs
  }

  // ---------------------------------------------------------------------------
  // The pixels of a row and of a triangle

  /** The columns between a pair of intercepts, clipped to the image. */
  function SpanPixels(xLeft: real, xRight: real, y: int, width: int): set<Pixel> {
    var xStart, xEnd := Ceil(Min(xLeft, xRight)), Floor(Max(xLeft, xRight));
    if xEnd < 0 || xStart > width - 1 then {}
    else Columns(IntMax(xStart, 0), IntMin(xEnd, width - 1), y)
  }

  /** The pixels (lo, y) .. (hi, y) of one row. */
  function Columns(lo: int, hi: int, y: int): set<Pixel>
    decreases hi - lo
  {
    if hi < lo then {} else Columns(lo, hi - 1, y) + {(hi, y)}
  }

  lemma {:induction false} ColumnsMembership(lo: int, hi: int, y: int, q: Pixel)
    ensures q in Columns(lo, hi, y) <==> lo <= q.0 <= hi && q.1 == y
    decreases hi - lo
  {
    if hi >= lo {
      ColumnsMembership(lo, hi - 1, y, q);
    }
  }

  /** The spans between consecutive pairs `xs[0], xs[1]`, `xs[2], xs[3]`, ... */
  function PairsPixels(xs: seq<real>, y: int, width: int): set<Pixel>
    requires |xs| % 2 == 0
    decreases |xs|
  {
    if xs == [] then {}
    else PairsPixels(xs[..|xs| - 2], y, width) + SpanPixels(xs[|xs| - 2], xs[|xs| - 1], y, width)
  }

  function RowSpans(p0: Point2, p1: Point2, p2: Point2, y: int): (xs: seq<real>)
    ensures |xs| % 2 == 0
  {
    Paired(SortReals(Intercepts(Edges(p0, p1, p2), y)))
  }

  function RowPixels(p0: Point2, p1: Point2, p2: Point2, y: int, width: int): set<Pixel> {
    PairsPixels(RowSpans(p0, p1, p2, y), y, width)
  }

  function Min3(a: real, b: real, c: real): real {
    Min(Min(a, b), c)
  }

  function Max3(a: real, b: real, c: real): real {
    Max(Max(a, b), c)
  }

  /** First row scanned: the top vertex row, not above row 0. */
  function FirstRow(p0: Point2, p1: Point2, p2: Point2): int {
    Ceil(Max(Min3(p0.y, p1.y, p2.y), 0.0))
  }

  /** Last row scanned: the bottom vertex row, not below row height - 1. */
  function LastRow(p0: Point2, p1: Point2, p2: Point2, height: int): int {
    Floor(Min(Max3(p0.y, p1.y, p2.y), (height - 1) as real))
  }

  /** The fill of each row, as a function of the row. */
  function RowFill(p0: Point2, p1: Point2, p2: Point2, width: int): int -> set<Pixel> {
    y => RowPixels(p0, p1, p2, y, width)
  }

  /** The union of `rows(lo) .. rows(y - 1)`. */
  function RowsUnion(rows: int -> set<Pixel>, lo: int, y: int): set<Pixel>
    decreases y - lo
  {
    if y <= lo then {} else RowsUnion(rows, lo, y - 1) + rows(y - 1)
  }

  /** What `rasterize_triangle_pixels` returns: the fills of the rows from
      `FirstRow` to `LastRow`. */
  function TrianglePixels(p0: Point2, p1: Point2, p2: Point2, width: int, height: int): set<Pixel> {
    RowsUnion(RowFill(p0, p1, p2, width), FirstRow(p0, p1, p2), LastRow(p0, p1, p2, height) + 1)
  }

  // ---------------------------------------------------------------------------
  // The scanline fill

  /** The loop over the three edges: the intercepts of row `y`. */
  method CollectIntercepts(edges: seq<Edge>, y: int) returns (interXs: seq<real>)
    ensures interXs == Intercepts(edges, y)
  {
    interXs := [];
    var k := 0;
    while k < |edges|
      invariant 0 <= k <= |edges|
      invariant interXs == Intercepts(edges[..k], y)
    {
      assert edges[..k + 1][..k] == edges[..k];
      var (a, b) := edges[k];
      if Abs(b.y - a.y) < FlatEdge {
        k := k + 1;
        continue;
      }
      var ymin := Min(a.y, b.y);
      var ymax := Max(a.y, b.y);
      if y >= Ceil(ymin) && y <= Floor(ymax) {
        var xInt := EdgeIntersectionX(y, a.x, a.y, b.x, b.y);
        interXs := interXs + [xInt];
      }
      k := k + 1;
    }
    assert edges[..k] == edges;
  }

  /** The loop over one span: adds the clipped columns between a pair of intercepts. */
  method FillSpan(pixels: set<Pixel>, xLeft: real, xRight: real, y: int, width: int)
    returns (filled: set<Pixel>)
    ensures filled == pixels + SpanPixels(xLeft, xRight, y, width)
  {
    filled := pixels;
    var xStart := Ceil(Min(xLeft, xRight));
    var xEnd := Floor(Max(xLeft, xRight));
    if xEnd < 0 || xStart > width - 1 {
      return;
    }
    xStart := IntMax(xStart, 0);
    xEnd := IntMin(xEnd, width - 1);
    var x := xStart;
    while x <= xEnd
      invariant xStart <= x && (x <= xEnd + 1 || x == xStart)
      invariant filled == pixels + Columns(xStart, x - 1, y)
    {
      filled := filled + {(x, y)};
      x := x + 1;
    }
    if xEnd < xStart {
      assert Columns(xStart, xEnd, y) == {} == Columns(xStart, x - 1, y);
    }
  }

  /** The loop over the pairs of a row's sorted, even-length intercept list. */
  method FillPairs(pixels: set<Pixel>, interXs: seq<real>, y: int, width: int)
    returns (filled: set<Pixel>)
    requires |interXs| % 2 == 0
    ensures filled == pixels + PairsPixels(interXs, y, width)
  {
    filled := pixels;
    var i := 0;
    while i < |interXs|
      invariant 0 <= i <= |interXs| && i % 2 == 0
      invariant filled == pixels + PairsPixels(interXs[..i], y, width)
    {
      var xLeft := interXs[i];
      var xRight := interXs[i + 1];
      assert interXs[..i + 2][..i] == interXs[..i];
      filled := FillSpan(filled, xLeft, xRight, y, width);
      i := i + 2;
    }
    assert interXs[..i] == interXs;
  }

  /** The body of the row loop: collect, sort and pair the intercepts of row
      `y`, then fill between the pairs. */
  method FillRow(pixels: set<Pixel>, p0: Point2, p1: Point2, p2: Point2, y: int, width: int)
    returns (filled: set<Pixel>)
    ensures filled == pixels + RowPixels(p0, p1, p2, y, width)
  {
    filled := pixels;
    var interXs := CollectIntercepts(Edges(p0, p1, p2), y);
    if interXs == [] {
      assert RowSpans(p0, p1, p2, y) == [];
      return;
    }
    interXs := SortReals(interXs);
    if |interXs| % 2 != 0 {
      interXs := interXs[..|interXs| - 1];
      if interXs == [] {
        assert RowSpans(p0, p1, p2, y) == [];
        return;
      }
    }
    assert interXs == RowSpans(p0, p1, p2, y);
    filled := FillPairs(filled, interXs, y, width);
  }

  /** The row loop: fills rows `lo .. hi` one after the other. */
  method FillRows(p0: Point2, p1: Point2, p2: Point2, width: int, lo: int, hi: int)
    returns (pixels: set<Pixel>)
    ensures pixels == RowsUnion(RowFill(p0, p1, p2, width), lo, hi + 1)
  {
    pixels := {};
    if hi < lo {
      return;
    }
    var y := lo;
    while y != hi + 1
      invariant lo <= y <= hi + 1
      invariant pixels == RowsUnion(RowFill(p0, p1, p2, width), lo, y)
    {
      pixels := FillRow(pixels, p0, p1, p2, y, width);
      y := y + 1;
    }
  }

  /** `rasterize_triangle_pixels`: scan the rows the triangle covers inside
      the image, pairing up the sorted edge intercepts of each row. */
  method RasterizeTrianglePixels(p0: Point2, p1: Point2, p2: Point2, width: int, height: int)
    returns (pixels: set<Pixel>)
    ensures pixels == TrianglePixels(p0, p1, p2, width, height)
  {
    var minY := FirstRow(p0, p1, p2);
    var maxY := LastRow(p0, p1, p2, height);
    pixels := FillRows(p0, p1, p2, width, minY, maxY);
  }

  // ---------------------------------------------------------------------------
  // Where the filled pixels lie

  /** Every intercept of a row lies between the leftmost and the rightmost vertex. */
  lemma InterceptsWithin(p0: Point2, p1: Point2, p2: Point2, y: int)
    ensures forall k :: 0 <= k < |Intercepts(Edges(p0, p1, p2), y)| ==>
      Min3(p0.x, p1.x, p2.x) <= Intercepts(Edges(p0, p1, p2), y)[k] <= Max3(p0.x, p1.x, p2.x)
  {
    var edges := Edges(p0, p1, p2);
    var xs := Intercepts(edges, y);
    forall k | 0 <= k < |xs|
      ensures Min3(p0.x, p1.x, p2.x) <= xs[k] <= Max3(p0.x, p1.x, p2.x)
    {
      var e :| e in edges && EdgeHit(e, y) == Some(xs[k]);
      assert e == edges[0] || e == edges[1] || e == edges[2];
    }
  }

  /** The same holds after sorting and dropping an odd last intercept. */
  lemma RowSpansWithin(p0: Point2, p1: Point2, p2: Point2, y: int)
    ensures forall k :: 0 <= k < |RowSpans(p0, p1, p2, y)| ==>
      Min3(p0.x, p1.x, p2.x) <= RowSpans(p0, p1, p2, y)[k] <= Max3(p0.x, p1.x, p2.x)
  {
    var xs := Intercepts(Edges(p0, p1, p2), y);
    var sorted := SortReals(xs);
    var spans := RowSpans(p0, p1, p2, y);
    InterceptsWithin(p0, p1, p2, y);
    forall k | 0 <= k < |spans|
      ensures Min3(p0.x, p1.x, p2.x) <= spans[k] <= Max3(p0.x, p1.x, p2.x)
    {
      assert spans[k] == sorted[k];
      assert sorted[k] in multiset(xs);
      var j :| 0 <= j < |xs| && xs[j] == sorted[k];
    }
  }

  /** A span's pixels lie on its row, inside the image and between its two intercepts. */
  lemma SpanPixelsWithin(xLeft: real, xRight: real, y: int, width: int, q: Pixel)
    requires q in SpanPixels(xLeft, xRight, y, width)
    ensures q.1 == y && 0 <= q.0 <= width - 1
    ensures Min(xLeft, xRight) <= q.0 as real <= Max(xLeft, xRight)
  {
    var xStart, xEnd := Ceil(Min(xLeft, xRight)), Floor(Max(xLeft, xRight));
    ColumnsMembership(IntMax(xStart, 0), IntMin(xEnd, width - 1), y, q);
  }

  /** The pairs' pixels lie on the row, inside the image and between the
      bounds of the intercepts. */
  lemma {:induction false} PairsPixelsWithin(xs: seq<real>, y: int, width: int, lo: real, hi: real, q: Pixel)
    requires |xs| % 2 == 0
    requires forall k :: 0 <= k < |xs| ==> lo <= xs[k] <= hi
    requires q in PairsPixels(xs, y, width)
    ensures q.1 == y && 0 <= q.0 <= width - 1 && lo <= q.0 as real <= hi
    decreases |xs|
  {
    var front := xs[..|xs| - 2];
    if q in PairsPixels(front, y, width) {
      PairsPixelsWithin(front, y, width, lo, hi, q);
    } else {
      SpanPixelsWithin(xs[|xs| - 2], xs[|xs| - 1], y, width, q);
    }
  }

  /** A row's pixels lie on that row, inside the image's columns and between
      the leftmost and the rightmost vertex. */
  lemma RowPixelsWithin(p0: Point2, p1: Point2, p2: Point2, y: int, width: int, q: Pixel)
    requires q in RowPixels(p0, p1, p2, y, width)
    ensures q.1 == y && 0 <= q.0 <= width - 1
    ensures Min3(p0.x, p1.x, p2.x) <= q.0 as real <= Max3(p0.x, p1.x, p2.x)
  {
    RowSpansWithin(p0, p1, p2, y);
    PairsPixelsWithin(RowSpans(p0, p1, p2, y), y, width, Min3(p0.x, p1.x, p2.x), Max3(p0.x, p1.x, p2.x), q);
  }

  /** When each row's set only holds pixels of that row, the union of rows
      `lo .. y - 1` holds exactly the pixels of those rows' sets. */
  lemma {:induction false} RowsUnionMembership(rows: int -> set<Pixel>, lo: int, y: int, q: Pixel)
    requires forall r :: q in rows(r) ==> r == q.1
    ensures q in RowsUnion(rows, lo, y) <==> lo <= q.1 < y && q in rows(q.1)
    decreases y - lo
  {
    if y > lo {
      RowsUnionMembership(rows, lo, y - 1, q);
    }
  }

  /** A pixel is filled exactly when its row is among the scanned rows and the
      row's fill covers it. */
  lemma TrianglePixelsMembership(p0: Point2, p1: Point2, p2: Point2, width: int, height: int, q: Pixel)
    ensures q in TrianglePixels(p0, p1, p2, width, height) <==>
      FirstRow(p0, p1, p2) <= q.1 <= LastRow(p0, p1, p2, height) && q in RowPixels(p0, p1, p2, q.1, width)
  {
    var rows := RowFill(p0, p1, p2, width);
    forall r | q in rows(r)
      ensures r == q.1
    {
      RowPixelsWithin(p0, p1, p2, r, width, q);
    }
    RowsUnionMembership(rows, FirstRow(p0, p1, p2), LastRow(p0, p1, p2, height) + 1, q);
  }

  /** Every filled pixel is inside the image, on a row between the top and the
      bottom vertex, and on a column between the leftmost and the rightmost vertex. */
  lemma TrianglePixelsBounds(p0: Point2, p1: Point2, p2: Point2, width: int, height: int, q: Pixel)
    requires q in TrianglePixels(p0, p1, p2, width, height)
    ensures 0 <= q.0 <= width - 1 && 0 <= q.1 <= height - 1
    ensures Ceil(Min3(p0.y, p1.y, p2.y)) <= q.1 <= Floor(Max3(p0.y, p1.y, p2.y))
    ensures Min3(p0.x, p1.x, p2.x) <= q.0 as real <= Max3(p0.x, p1.x, p2.x)
  {
    TrianglePixelsMembership(p0, p1, p2, width, height, q);
    RowPixelsWithin(p0, p1, p2, q.1, width, q);
    var ymin := Min3(p0.y, p1.y, p2.y);
    var ymax := Max3(p0.y, p1.y, p2.y);
    assert ymin <= q.1 as real <= ymax;
  }

  // ---------------------------------------------------------------------------
  // The per-mesh driver

  /** A pixel as a point with real coordinates. */
  function PixelPoint(p: Pixel): Point2 {
    Point2(p.0 as real, p.1 as real)
  }

  /** Whether the driver fills triangle `t`: all three indices are in range,
      and all three vertices have a pixel and are visible. */
  predicate Drawable(t: Triangle, results: seq<ProjectionResult>) {
    var (a, b, c) := t;
    0 <= a < |results| && 0 <= b < |results| && 0 <= c < |results| &&
    results[a].pixel.Some? && results[b].pixel.Some? && results[c].pixel.Some? &&
    results[a].visible && results[b].visible && results[c].visible
  }

  /** The set the driver records for triangle `t`. */
  function MeshTriangle(t: Triangle, results: seq<ProjectionResult>, width: int, height: int): set<Pixel> {
    if Drawable(t, results) then
      TrianglePixels(PixelPoint(results[t.0].pixel.value), PixelPoint(results[t.1].pixel.value),
        PixelPoint(results[t.2].pixel.value), width, height)
    else {}
  }

  /** `rasterize_mesh`: one entry per triangle index, empty for a triangle with
      a negative or too large index, a vertex without pixel or an invisible vertex. */
  method RasterizeMesh(triangles: seq<Triangle>, results: seq<ProjectionResult>, width: int, height: int)
    returns (triPixels: map<int, set<Pixel>>)
    ensures forall ti :: ti in triPixels <==> 0 <= ti < |triangles|
    ensures forall ti :: 0 <= ti < |triangles| ==> triPixels[ti] == MeshTriangle(triangles[ti], results, width, height)
  {
    triPixels := map[];
    for ti := 0 to |triangles|
      invariant forall k :: k in triPixels <==> 0 <= k < ti
      invariant forall k :: 0 <= k < ti ==> triPixels[k] == MeshTriangle(triangles[k], results, width, height)
    {
      var (a, b, c) := triangles[ti];
      if a < 0 || b < 0 || c < 0 {
        triPixels := triPixels[ti := {}];
        continue;
      }
      if a >= |results| || b >= |results| || c >= |results| {
        triPixels := triPixels[ti := {}];
        continue;
      }
      var ra, rb, rc := results[a], results[b], results[c];
      if ra.pixel.None? || rb.pixel.None? || rc.pixel.None? || !(ra.visible && rb.visible && rc.visible) {
        triPixels := triPixels[ti := {}];
        continue;
      }
      var pixels := RasterizeTrianglePixels(PixelPoint(ra.pixel.value), PixelPoint(rb.pixel.value),
        PixelPoint(rc.pixel.value), width, height);
      triPixels := triPixels[ti := pixels];
    }
  }

  /** A triangle only receives pixels when it is drawable, and those pixels are
      inside the image. */
  lemma MeshTriangleWithin(t: Triangle, results: seq<ProjectionResult>, width: int, height: int, q: Pixel)
    requires q in MeshTriangle(t, results, width, height)
    ensures Drawable(t, results)
    ensures 0 <= q.0 < width && 0 <= q.1 < height
  {
    var (a, b, c) := t;
    TrianglePixelsBounds(PixelPoint(results[a].pixel.value), PixelPoint(results[b].pixel.value),
      PixelPoint(results[c].pixel.value), width, height, q);
  }

  // ---------------------------------------------------------------------------
  // Bresenham's line walk

  /** The fixed quantities of a walk toward (x1, y1): the spans `dx >= 0` and
      `dy <= 0` and the step directions `sx`, `sy`. */
  datatype LinePlan = LinePlan(x1: int, y1: int, dx: int, dy: int, sx: int, sy: int)

  /** The walk's loop variables: the current pixel and the error term. */
  datatype Pen = Pen(x: int, y: int, err: int)

  function PlanLine(x0: int, y0: int, x1: int, y1: int): LinePlan {
    LinePlan(x1, y1, IntAbs(x1 - x0), -IntAbs(y1 - y0), if x0 < x1 then 1 else -1, if y0 < y1 then 1 else -1)
  }

  /** How far `to` lies from `from` in direction `s` (1 or -1). */
  function Ahead(s: int, from: int, to: int): int {
    if s == 1 then to - from else from - to
  }

  function RemainingX(l: LinePlan, p: Pen): int {
    Ahead(l.sx, p.x, l.x1)
  }

  function RemainingY(l: LinePlan, p: Pen): int {
    Ahead(l.sy, p.y, l.y1)
  }

  /** `a * n`, as repeated addition. */
  function Times(a: int, n: nat): int {
    if n == 0 then 0 else Times(a, n - 1) + a
  }

  lemma {:induction false} TimesIsProduct(a: int, n: nat)
    ensures Times(a, n) == a * n
  {
    if n > 0 {
      TimesIsProduct(a, n - 1);
    }
  }

  /** At least one copy of a non-negative `a` is at least `a`; of a
      non-positive `a` at most `a`. */
  lemma {:induction false} TimesAtLeastOnce(a: int, n: nat)
    requires n >= 1
    ensures a >= 0 ==> Times(a, n) >= a
    ensures a <= 0 ==> Times(a, n) <= a
  {
    if n > 1 {
      TimesAtLeastOnce(a, n - 1);
    }
  }

  /** The error term when `rx` columns and `ry` rows remain to be walked:
      `dx * (1 - ry) - dy * (rx - 1)`. */
  function ErrorTerm(l: LinePlan, rx: nat, ry: nat): int {
    l.dx - Times(l.dx, ry) - Times(l.dy, rx) + l.dy
  }

  /** The walk's invariant: the end point lies ahead in both step directions,
      no farther than the full spans, and `err` is the error term of the
      distances still to walk. */
  predicate WalkInv(l: LinePlan, p: Pen) {
    (l.sx == 1 || l.sx == -1) && (l.sy == 1 || l.sy == -1) &&
    0 <= RemainingX(l, p) <= l.dx && 0 <= RemainingY(l, p) <= -l.dy &&
    p.err == ErrorTerm(l, RemainingX(l, p), RemainingY(l, p))
  }

  /** With no column left but some row, the walk does not step along x;
      with no row left but some column, it does not step along y. */
  lemma ErrorTermAtEdge(l: LinePlan, rx: nat, ry: nat)
    requires l.dx >= 0 && l.dy <= 0 && rx <= l.dx && ry <= -l.dy
    ensures rx == 0 && ry > 0 ==> 2 * ErrorTerm(l, rx, ry) < l.dy
    ensures ry == 0 && rx > 0 ==> 2 * ErrorTerm(l, rx, ry) > l.dx
  {
    if ry > 0 {
      TimesAtLeastOnce(l.dx, ry);
    }
    if rx > 0 {
      TimesAtLeastOnce(l.dy, rx);
    }
  }

  /** One turn of the loop: a step along x when `2 * err >= dy`, a step along y
      when `2 * err <= dx`. */
  function Advance(l: LinePlan, p: Pen): Pen {
    var stepX, stepY := 2 * p.err >= l.dy, 2 * p.err <= l.dx;
    Pen(if stepX then p.x + l.sx else p.x,
        if stepY then p.y + l.sy else p.y,
        p.err + (if stepX then l.dy else 0) + (if stepY then l.dx else 0))
  }

  function At(p: Pen): Pixel {
    (p.x, p.y)
  }

  predicate Adjacent(p: Pixel, q: Pixel) {
    p != q && -1 <= q.0 - p.0 <= 1 && -1 <= q.1 - p.1 <= 1
  }

  /** Away from the end point, a turn moves to a neighbouring pixel, one
      column or one row or both closer to the end point, and keeps the invariant. */
  lemma AdvanceKeeps(l: LinePlan, p: Pen)
    requires WalkInv(l, p) && At(p) != (l.x1, l.y1)
    ensures WalkInv(l, Advance(l, p))
    ensures Adjacent(At(p), At(Advance(l, p)))
    ensures RemainingX(l, Advance(l, p)) <= RemainingX(l, p) && RemainingY(l, Advance(l, p)) <= RemainingY(l, p)
    ensures RemainingX(l, Advance(l, p)) + RemainingY(l, Advance(l, p)) < RemainingX(l, p) + RemainingY(l, p)
  {
    var rx, ry := RemainingX(l, p), RemainingY(l, p);
    var stepX, stepY := 2 * p.err >= l.dy, 2 * p.err <= l.dx;
    ErrorTermAtEdge(l, rx, ry);
    assert stepX ==> rx > 0;
    assert stepY ==> ry > 0;
    assert stepX || stepY;
    var q := Advance(l, p);
    assert RemainingX(l, q) == if stepX then rx - 1 else rx;
    assert RemainingY(l, q) == if stepY then ry - 1 else ry;
  }

  /** The pixels visited from `p` up to and including the end point. */
  function Walk(l: LinePlan, p: Pen): (ps: seq<Pixel>)
    requires WalkInv(l, p)
    ensures |ps| >= 1 && ps[0] == At(p) && ps[|ps| - 1] == (l.x1, l.y1)
    decreases RemainingX(l, p) + RemainingY(l, p)
  {
    if At(p) == (l.x1, l.y1) then [At(p)]
    else
      AdvanceKeeps(l, p);
      [At(p)] + Walk(l, Advance(l, p))
  }

  /** Appending the current pixel and walking on from the next pen position
      covers the same pixels as walking from the current one. */
  lemma WalkOn(l: LinePlan, p: Pen, before: seq<Pixel>)
    requires WalkInv(l, p) && At(p) != (l.x1, l.y1)
    ensures WalkInv(l, Advance(l, p))
    ensures (before + [At(p)]) + Walk(l, Advance(l, p)) == before + Walk(l, p)
  {
    AdvanceKeeps(l, p);
    assert Walk(l, p) == [At(p)] + Walk(l, Advance(l, p));
  }

  /** The walk starts at (x0, y0) with the error term `dx + dy`. */
  function StartPen(x0: int, y0: int, x1: int, y1: int): Pen {
    Pen(x0, y0, IntAbs(x1 - x0) - IntAbs(y1 - y0))
  }

  lemma PlanKeeps(x0: int, y0: int, x1: int, y1: int)
    ensures WalkInv(PlanLine(x0, y0, x1, y1), StartPen(x0, y0, x1, y1))
  {
    var rx, ry := IntAbs(x1 - x0), IntAbs(y1 - y0);
    TimesIsProduct(rx, ry);
    TimesIsProduct(-ry, rx);
  }

  /** The pixels of the line from (x0, y0) to (x1, y1). */
  function LinePixels(x0: int, y0: int, x1: int, y1: int): seq<Pixel> {
    PlanKeeps(x0, y0, x1, y1);
    Walk(PlanLine(x0, y0, x1, y1), StartPen(x0, y0, x1, y1))
  }

  /** Consecutive pixels of a walk are distinct neighbours. */
  lemma {:induction false} WalkAdjacent(l: LinePlan, p: Pen)
    requires WalkInv(l, p)
    ensures forall i :: 0 <= i < |Walk(l, p)| - 1 ==> Adjacent(Walk(l, p)[i], Walk(l, p)[i + 1])
    decreases RemainingX(l, p) + RemainingY(l, p)
  {
    if At(p) != (l.x1, l.y1) {
      AdvanceKeeps(l, p);
      var rest := Walk(l, Advance(l, p));
      WalkAdjacent(l, Advance(l, p));
      var ps := Walk(l, p);
      assert ps == [At(p)] + rest;
      forall i | 0 <= i < |ps| - 1
        ensures Adjacent(ps[i], ps[i + 1])
      {
        if i > 0 {
          assert ps[i] == rest[i - 1] && ps[i + 1] == rest[i];
        }
      }
    }
  }

  /** A walk never passes the end point and never moves back: every pixel
      lies between the current pen position and the end point. */
  lemma {:induction false} WalkWithin(l: LinePlan, p: Pen, q: Pixel)
    requires WalkInv(l, p) && q in Walk(l, p)
    ensures 0 <= Ahead(l.sx, q.0, l.x1) <= RemainingX(l, p)
    ensures 0 <= Ahead(l.sy, q.1, l.y1) <= RemainingY(l, p)
    decreases RemainingX(l, p) + RemainingY(l, p)
  {
    if q != At(p) {
      AdvanceKeeps(l, p);
      WalkWithin(l, Advance(l, p), q);
    }
  }

  /** The line starts at its first end point, ends at its second, and moves
      between distinct neighbouring pixels. */
  lemma LineSteps(x0: int, y0: int, x1: int, y1: int)
    ensures var ps := LinePixels(x0, y0, x1, y1);
      |ps| >= 1 && ps[0] == (x0, y0) && ps[|ps| - 1] == (x1, y1) &&
      forall i :: 0 <= i < |ps| - 1 ==> Adjacent(ps[i], ps[i + 1])
  {
    PlanKeeps(x0, y0, x1, y1);
    WalkAdjacent(PlanLine(x0, y0, x1, y1), StartPen(x0, y0, x1, y1));
  }

  /** Every pixel of the line lies in the box spanned by its end points. */
  lemma LineWithin(x0: int, y0: int, x1: int, y1: int, q: Pixel)
    requires q in LinePixels(x0, y0, x1, y1)
    ensures IntMin(x0, x1) <= q.0 <= IntMax(x0, x1) && IntMin(y0, y1) <= q.1 <= IntMax(y0, y1)
  {
    PlanKeeps(x0, y0, x1, y1);
    WalkWithin(PlanLine(x0, y0, x1, y1), StartPen(x0, y0, x1, y1), q);
  }

  /** On a diagonal toward the lower right, the error term stays 0 and every
      turn steps along both axes. */
  lemma DiagonalPen(x0: int, y0: int, n: nat, k: nat)
    requires k <= n
    ensures WalkInv(PlanLine(x0, y0, x0 + n, y0 + n), Pen(x0 + k, y0 + k, 0))
    ensures k < n ==> Advance(PlanLine(x0, y0, x0 + n, y0 + n), Pen(x0 + k, y0 + k, 0)) == Pen(x0 + k + 1, y0 + k + 1, 0)
  {
    TimesIsProduct(n, n - k);
    TimesIsProduct(-(n as int), n - k);
  }

  lemma {:induction false} DiagonalWalk(x0: int, y0: int, n: nat, k: nat)
    requires k <= n
    ensures WalkInv(PlanLine(x0, y0, x0 + n, y0 + n), Pen(x0 + k, y0 + k, 0))
    ensures Walk(PlanLine(x0, y0, x0 + n, y0 + n), Pen(x0 + k, y0 + k, 0)) == seq(n - k + 1, i => (x0 + k + i, y0 + k + i))
    decreases n - k
  {
    DiagonalPen(x0, y0, n, k);
    var l := PlanLine(x0, y0, x0 + n, y0 + n);
    if k < n {
      DiagonalWalk(x0, y0, n, k + 1);
      DiagonalPen(x0, y0, n, k + 1);
      assert Walk(l, Pen(x0 + k, y0 + k, 0)) == [(x0 + k, y0 + k)] + Walk(l, Pen(x0 + k + 1, y0 + k + 1, 0));
    }
  }

  /** A diagonal line, such as the one from (0, 0) to (3, 3), is walked one
      diagonal step at a time: (0, 0), (1, 1), (2, 2), (3, 3). */
  lemma DiagonalLine(x0: int, y0: int, n: nat)
    ensures LinePixels(x0, y0, x0 + n, y0 + n) == seq(n + 1, i => (x0 + i, y0 + i))
  {
    DiagonalWalk(x0, y0, n, 0);
  }

  /** `bresenham_line_pixels`: round the end points, set up the spans, the
      step directions and the error term, then walk from the first point to
      the second. */
  method BresenhamLinePixels(fx0: real, fy0: real, fx1: real, fy1: real) returns (pixels: seq<Pixel>)
    ensures pixels == LinePixels(RoundHalfEven(fx0), RoundHalfEven(fy0), RoundHalfEven(fx1), RoundHalfEven(fy1))
  {
    var x0, y0 := RoundHalfEven(fx0), RoundHalfEven(fy0);
    var x1, y1 := RoundHalfEven(fx1), RoundHalfEven(fy1);
    var dx := IntAbs(x1 - x0);
    var dy := -IntAbs(y1 - y0);
    var sx := if x0 < x1 then 1 else -1;
    var sy := if y0 < y1 then 1 else -1;
    var err := dx + dy;
    PlanKeeps(x0, y0, x1, y1);
    pixels := WalkToEnd(x0, y0, err, x1, y1, dx, dy, sx, sy);
  }

  /** The `while True` loop of `bresenham_line_pixels`: record the pixel,
      stop at the end point, otherwise step along x, y or both. */
  method WalkToEnd(x: int, y: int, err: int, x1: int, y1: int, dx: int, dy: int, sx: int, sy: int)
    returns (pixels: seq<Pixel>)
    requires WalkInv(LinePlan(x1, y1, dx, dy, sx, sy), Pen(x, y, err))
    ensures pixels == Walk(LinePlan(x1, y1, dx, dy, sx, sy), Pen(x, y, err))
  {
    ghost var l := LinePlan(x1, y1, dx, dy, sx, sy);
    ghost var whole := Walk(l, Pen(x, y, err));
    var x, y, err := x, y, err;
    pixels := [];
    while true
      invariant WalkInv(l, Pen(x, y, err))
      invariant pixels + Walk(l, Pen(x, y, err)) == whole
      decreases RemainingX(l, Pen(x, y, err)) + RemainingY(l, Pen(x, y, err))
    {
      ghost var p := Pen(x, y, err);
      pixels := pixels + [(x, y)];
      if x == x1 && y == y1 {
        break;
      }
      var e2 := 2 * err;
      if e2 >= dy {
        err := err + dy;
        x := x + sx;
      }
      if e2 <= dx {
        err := err + dx;
        y := y + sy;
      }
      assert Pen(x, y, err) == Advance(l, p);
      WalkOn(l, p, pixels[..|pixels| - 1]);
      assert pixels[..|pixels| - 1] + [At(p)] == pixels;
    }
  }
}
