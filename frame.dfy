/**
 * Frame assembly (main.py): the union of the per-triangle fills that
 * `build_frame` hands to the display, and the wireframe overlay of
 * `make_outline_and_vertices`: three Bresenham edges per triangle and a 3x3
 * marker around each vertex pixel.
 */
module Frame {
  import opened Wrappers
  import opened Numeric
  import opened Transform
  import opened Projection
  import opened Rasterizer

  // ---------------------------------------------------------------------------
  // build_frame

  /** What `build_frame` returns: all filled pixels, the per-vertex records and
      the per-triangle pixel sets. */
  datatype FrameData = FrameData(allPixels: set<Pixel>, projResults: seq<ProjectionResult>, triPixels: map<int, set<Pixel>>)

  /** The loop over `tri_pixels_map.values()`: the union of all entries. The
      map comes from `rasterize_mesh`, so its keys are the triangle indices
      0 .. count - 1 in insertion order. */
  method UnionPixels(triPixels: map<int, set<Pixel>>, count: nat) returns (all: set<Pixel>)
    requires forall ti :: ti in triPixels <==> 0 <= ti < count
    ensures forall q :: q in all <==> exists ti :: ti in triPixels && q in triPixels[ti]
  {
    all := {};
    for ti := 0 to count
      invariant forall q :: q in all <==> exists k :: 0 <= k < ti && q in triPixels[k]
    {
      all := all + triPixels[ti];
    }
  }

  /** `build_frame` with the camera basis given: view coordinates, projection,
      the per-mesh fill and the union of the fills. Every filled pixel lies
      inside the image. */
  method BuildFrame(verts: seq<Vec3>, tris: seq<Triangle>, basis: Basis, d: real, hx: real, hy: real,
                    width: int, height: int)
    returns (r: Result<FrameData, ProjectionFault>)
    ensures var proj := ProjectAll(WorldToViewVertices(verts, basis), d, hx, hy, width, height);
      && (r.Failure? <==> proj.Failure?)
      && (r.Success? ==> r.value.projResults == proj.value)
    ensures r.Success? ==>
      && (forall ti :: ti in r.value.triPixels <==> 0 <= ti < |tris|)
      && (forall ti :: 0 <= ti < |tris| ==>
            r.value.triPixels[ti] == MeshTriangle(tris[ti], r.value.projResults, width, height))
      && (forall q :: q in r.value.allPixels <==> exists ti :: ti in r.value.triPixels && q in r.value.triPixels[ti])
      && (forall q :: q in r.value.allPixels ==> 0 <= q.0 < width && 0 <= q.1 < height)
  {
    var viewCoords := WorldToViewVertices(verts, basis);
    var proj := WorldViewToScreenList(viewCoords, d, hx, hy, width, height);
    if proj.Failure? {
      return Failure(proj.error);
    }
    var projResults := proj.value;
    var triPixels := RasterizeMesh(tris, projResults, width, height);
    var all := UnionPixels(triPixels, |tris|);
    forall q | q in all
      ensures 0 <= q.0 < width && 0 <= q.1 < height
    {
      var ti :| ti in triPixels && q in triPixels[ti];
      MeshTriangleWithin(tris[ti], projResults, width, height, q);
    }
    r := Success(FrameData(all, projResults, triPixels));
  }

  // ---------------------------------------------------------------------------
  // The vertex marker

  /** The pixels (x, y) of the image with x0 <= x < x1 and y0 <= y < y1. */
  function Block(x0: int, x1: int, y0: int, y1: int, width: int, height: int): set<Pixel> {
    set x: int, y: int | x0 <= x < x1 && y0 <= y < y1 && 0 <= x < width && 0 <= y < height :: (x, y)
  }

  /** The 3x3 block around `v`, clipped to the image. */
  function Marker(v: Pixel, width: int, height: int): set<Pixel> {
    Block(v.0 - 1, v.0 + 2, v.1 - 1, v.1 + 2, width, height)
  }

  /** The loops over `dx` and `dy` in (-1, 0, 1) for one vertex. */
  method StampMarker(pixels: set<Pixel>, v: Pixel, width: int, height: int) returns (marked: set<Pixel>)
    ensures marked == pixels + Marker(v, width, height)
  {
    marked := pixels;
    for dx := -1 to 2
      invariant marked == pixels + Block(v.0 - 1, v.0 + dx, v.1 - 1, v.1 + 2, width, height)
    {
      for dy := -1 to 2
        invariant marked == pixels + Block(v.0 - 1, v.0 + dx, v.1 - 1, v.1 + 2, width, height)
                                   + Block(v.0 + dx, v.0 + dx + 1, v.1 - 1, v.1 + dy, width, height)
      {
        var x, y := v.0 + dx, v.1 + dy;
        if 0 <= x < width && 0 <= y < height {
          marked := marked + {(x, y)};
        }
      }
    }
  }

  // ---------------------------------------------------------------------------
  // make_outline_and_vertices

  /** Python raises `IndexError` for a list index below `-len`. */
  datatype OverlayFault = IndexError

  /** The two pixel sets of the overlay. */
  datatype Overlay = Overlay(outline: set<Pixel>, vertices: set<Pixel>)

  const NoOverlay := Overlay({}, {})

  /** `xs[i]` in Python: a negative index counts from the back. */
  function PyIndex<T>(xs: seq<T>, i: int): T
    requires -|xs| <= i < |xs|
  {
    if i >= 0 then xs[i] else xs[|xs| + i]
  }

  function Elements(ps: seq<Pixel>): set<Pixel> {
    set q | q in ps
  }

  /** The three edges a -> b, b -> c, c -> a. */
  function Outline(pa: Pixel, pb: Pixel, pc: Pixel): set<Pixel> {
    Elements(LinePixels(pa.0, pa.1, pb.0, pb.1)) + Elements(LinePixels(pb.0, pb.1, pc.0, pc.1))
      + Elements(LinePixels(pc.0, pc.1, pa.0, pa.1))
  }

  /** What one triangle adds to the overlay: nothing when an index is at
      least the number of records or a vertex has no pixel; an `IndexError`
      for an index below `-len`. Negative indices are not rejected and
      visibility is not checked. */
  function TriangleOverlay(t: Triangle, results: seq<ProjectionResult>, width: int, height: int)
    : Result<Overlay, OverlayFault>
  {
    var (a, b, c) := t;
    var n := |results|;
    if a >= n || b >= n || c >= n then Success(NoOverlay)
    else if a < -n || b < -n || c < -n then Failure(IndexError)
    else
      var pa, pb, pc := PyIndex(results, a).pixel, PyIndex(results, b).pixel, PyIndex(results, c).pixel;
      if pa.None? || pb.None? || pc.None? then Success(NoOverlay)
      else Success(Overlay(Outline(pa.value, pb.value, pc.value),
        Marker(pa.value, width, height) + Marker(pb.value, width, height) + Marker(pc.value, width, height)))
  }

  /** The overlay so far extended by one triangle's contribution. */
  function Extend(acc: Overlay, step: Result<Overlay, OverlayFault>): (r: Result<Overlay, OverlayFault>)
    ensures r.Failure? <==> step.Failure?
    ensures r.Success? ==> r.value == Overlay(acc.outline + step.value.outline, acc.vertices + step.value.vertices)
  {
    match step
    case Failure(e) => Failure(e)
    case Success(o) => Success(Overlay(acc.outline + o.outline, acc.vertices + o.vertices))
  }

  /** The contribution of each triangle, as a function value. */
  function Contribution(results: seq<ProjectionResult>, width: int, height: int): Triangle -> Result<Overlay, OverlayFault> {
    t => TriangleOverlay(t, results, width, height)
  }

  /** The contributions of `tris` in order, failing at the first failure. */
  function Accumulate(contrib: Triangle -> Result<Overlay, OverlayFault>, tris: seq<Triangle>): Result<Overlay, OverlayFault>
    decreases |tris|
  {
    if tris == [] then Success(NoOverlay)
    else
      match Accumulate(contrib, tris[..|tris| - 1])
      case Failure(e) => Failure(e)
      case Success(front) => Extend(front, contrib(tris[|tris| - 1]))
  }

  /** The overlay of all triangles, failing at the first `IndexError`. */
  function Overlays(tris: seq<Triangle>, results: seq<ProjectionResult>, width: int, height: int)
    : Result<Overlay, OverlayFault>
  {
    Accumulate(Contribution(results, width, height), tris)
  }

  /** Once a prefix of the triangles fails, the whole overlay fails. */
  lemma {:induction false} AccumulateFailureSticks(contrib: Triangle -> Result<Overlay, OverlayFault>, tris: seq<Triangle>, k: nat)
    requires k <= |tris|
    requires Accumulate(contrib, tris[..k]).Failure?
    ensures Accumulate(contrib, tris) == Failure(IndexError)
    decreases |tris| - k
  {
    if k < |tris| {
      assert tris[..k + 1][..k] == tris[..k];
      AccumulateFailureSticks(contrib, tris, k + 1);
    } else {
      assert tris[..k] == tris;
      match Accumulate(contrib, tris).error
      case IndexError =>
    }
  }

  /** The accumulation succeeds exactly when every contribution does. */
  lemma {:induction false} AccumulateSucceeds(contrib: Triangle -> Result<Overlay, OverlayFault>, tris: seq<Triangle>)
    ensures Accumulate(contrib, tris).Success? <==> forall k :: 0 <= k < |tris| ==> contrib(tris[k]).Success?
    decreases |tris|
  {
    if tris != [] {
      var front := tris[..|tris| - 1];
      AccumulateSucceeds(contrib, front);
      assert forall k :: 0 <= k < |front| ==> front[k] == tris[k];
    }
  }

  /** A successful accumulation is the union of the contributions. */
  lemma {:induction false} AccumulateMembership(contrib: Triangle -> Result<Overlay, OverlayFault>, tris: seq<Triangle>, q: Pixel)
    requires forall k :: 0 <= k < |tris| ==> contrib(tris[k]).Success?
    ensures Accumulate(contrib, tris).Success?
    ensures q in Accumulate(contrib, tris).value.outline <==>
      exists k :: 0 <= k < |tris| && q in contrib(tris[k]).value.outline
    ensures q in Accumulate(contrib, tris).value.vertices <==>
      exists k :: 0 <= k < |tris| && q in contrib(tris[k]).value.vertices
    decreases |tris|
  {
    AccumulateSucceeds(contrib, tris);
    if tris != [] {
      var front := tris[..|tris| - 1];
      assert forall k :: 0 <= k < |front| ==> front[k] == tris[k];
      AccumulateMembership(contrib, front, q);
    }
  }

  /** The pixels of a line, added one by one. */
  method AddLine(pixels: set<Pixel>, line: seq<Pixel>) returns (added: set<Pixel>)
    ensures added == pixels + Elements(line)
  {
    added := pixels;
    for i := 0 to |line|
      invariant added == pixels + Elements(line[..i])
    {
      assert line[..i + 1] == line[..i] + [line[i]];
      added := added + {line[i]};
    }
    assert line[..|line|] == line;
  }

  /** The body of the loop of `make_outline_and_vertices` for one triangle:
      skip it when an index is at least the number of records or a vertex
      has no pixel; otherwise add its three Bresenham edges to the outline
      and the clipped 3x3 marker of each vertex to the vertex set. */
  method AddTriangle(outlinePixels: set<Pixel>, vertexPixels: set<Pixel>, t: Triangle,
                     results: seq<ProjectionResult>, width: int, height: int)
    returns (r: Result<Overlay, OverlayFault>)
    ensures r == Extend(Overlay(outlinePixels, vertexPixels), TriangleOverlay(t, results, width, height))
  {
    var n := |results|;
    var (a, b, c) := t;
    if a >= n || b >= n || c >= n {
      assert outlinePixels + {} == outlinePixels && vertexPixels + {} == vertexPixels;
      return Success(Overlay(outlinePixels, vertexPixels));
    }
    if a < -n || b < -n || c < -n {
      return Failure(IndexError);
    }
    var pa, pb, pc := PyIndex(results, a).pixel, PyIndex(results, b).pixel, PyIndex(results, c).pixel;
    if pa.None? || pb.None? || pc.None? {
      assert outlinePixels + {} == outlinePixels && vertexPixels + {} == vertexPixels;
      return Success(Overlay(outlinePixels, vertexPixels));
    }
    var va, vb, vc := pa.value, pb.value, pc.value;
    RoundOfInteger(va.0);
    RoundOfInteger(va.1);
    RoundOfInteger(vb.0);
    RoundOfInteger(vb.1);
    RoundOfInteger(vc.0);
    RoundOfInteger(vc.1);
    var outline := outlinePixels;
    var line := BresenhamLinePixels(va.0 as real, va.1 as real, vb.0 as real, vb.1 as real);
    outline := AddLine(outline, line);
    line := BresenhamLinePixels(vb.0 as real, vb.1 as real, vc.0 as real, vc.1 as real);
    outline := AddLine(outline, line);
    line := BresenhamLinePixels(vc.0 as real, vc.1 as real, va.0 as real, va.1 as real);
    outline := AddLine(outline, line);
    var vertices := StampMarker(vertexPixels, va, width, height);
    vertices := StampMarker(vertices, vb, width, height);
    vertices := StampMarker(vertices, vc, width, height);
    assert outline == outlinePixels + Outline(va, vb, vc);
    assert vertices == vertexPixels + (Marker(va, width, height) + Marker(vb, width, height) + Marker(vc, width, height));
    r := Success(Overlay(outline, vertices));
  }

  /** `make_outline_and_vertices`: the overlay of every triangle in order,
      stopping at the first `IndexError`. */
  method MakeOutlineAndVertices(tris: seq<Triangle>, results: seq<ProjectionResult>, width: int, height: int)
    returns (r: Result<Overlay, OverlayFault>)
    ensures r == Overlays(tris, results, width, height)
  {
    var acc := NoOverlay;
    for k := 0 to |tris|
      invariant Accumulate(Contribution(results, width, height), tris[..k]) == Success(acc)
    {
      assert tris[..k + 1][..k] == tris[..k];
      var step := AddTriangle(acc.outline, acc.vertices, tris[k], results, width, height);
      if step.Failure? {
        AccumulateFailureSticks(Contribution(results, width, height), tris, k + 1);
        return Failure(IndexError);
      }
      acc := step.value;
    }
    assert tris[..|tris|] == tris;
    r := Success(acc);
  }

  // ---------------------------------------------------------------------------
  // Properties of the overlay

  /** Whether `make_outline_and_vertices` draws triangle `t`: every index is
      in [-len, len) and every vertex it names has a pixel. */
  predicate Outlined(t: Triangle, results: seq<ProjectionResult>) {
    var n := |results|;
    -n <= t.0 < n && -n <= t.1 < n && -n <= t.2 < n &&
    PyIndex(results, t.0).pixel.Some? && PyIndex(results, t.1).pixel.Some? && PyIndex(results, t.2).pixel.Some?
  }

  /** The three edges pass through the three vertices and stay inside their
      bounding box. */
  lemma OutlineSpan(pa: Pixel, pb: Pixel, pc: Pixel, q: Pixel)
    ensures pa in Outline(pa, pb, pc) && pb in Outline(pa, pb, pc) && pc in Outline(pa, pb, pc)
    ensures q in Outline(pa, pb, pc) ==>
      IntMin(pa.0, IntMin(pb.0, pc.0)) <= q.0 <= IntMax(pa.0, IntMax(pb.0, pc.0)) &&
      IntMin(pa.1, IntMin(pb.1, pc.1)) <= q.1 <= IntMax(pa.1, IntMax(pb.1, pc.1))
  {
    LineSteps(pa.0, pa.1, pb.0, pb.1);
    LineSteps(pb.0, pb.1, pc.0, pc.1);
    LineSteps(pc.0, pc.1, pa.0, pa.1);
    if q in LinePixels(pa.0, pa.1, pb.0, pb.1) {
      LineWithin(pa.0, pa.1, pb.0, pb.1, q);
    } else if q in LinePixels(pb.0, pb.1, pc.0, pc.1) {
      LineWithin(pb.0, pb.1, pc.0, pc.1, q);
    } else if q in LinePixels(pc.0, pc.1, pa.0, pa.1) {
      LineWithin(pc.0, pc.1, pa.0, pa.1, q);
    }
  }

  /** A triangle contributes to the overlay exactly when it is outlined; then
      its outline runs through its vertex pixels, its marker set holds every
      vertex pixel inside the image (the dx = dy = 0 cell) and nothing
      outside the image or farther than one step from a vertex. */
  lemma TriangleOverlayContents(t: Triangle, results: seq<ProjectionResult>, width: int, height: int, q: Pixel)
    requires Outlined(t, results)
    ensures TriangleOverlay(t, results, width, height).Success?
    ensures var o := TriangleOverlay(t, results, width, height).value;
      var pa, pb, pc := PyIndex(results, t.0).pixel.value, PyIndex(results, t.1).pixel.value,
                        PyIndex(results, t.2).pixel.value;
      && pa in o.outline && pb in o.outline && pc in o.outline
      && (0 <= pa.0 < width && 0 <= pa.1 < height ==> pa in o.vertices)
      && (0 <= pb.0 < width && 0 <= pb.1 < height ==> pb in o.vertices)
      && (0 <= pc.0 < width && 0 <= pc.1 < height ==> pc in o.vertices)
      && (q in o.vertices ==>
            && 0 <= q.0 < width && 0 <= q.1 < height
            && exists v :: v in {pa, pb, pc} && v.0 - 1 <= q.0 <= v.0 + 1 && v.1 - 1 <= q.1 <= v.1 + 1)
  {
    var pa, pb, pc := PyIndex(results, t.0).pixel.value, PyIndex(results, t.1).pixel.value,
                      PyIndex(results, t.2).pixel.value;
    OutlineSpan(pa, pb, pc, q);
    var o := TriangleOverlay(t, results, width, height).value;
    if q in o.vertices {
      if q in Marker(pa, width, height) {
        assert pa in {pa, pb, pc};
      } else if q in Marker(pb, width, height) {
        assert pb in {pa, pb, pc};
      } else {
        assert pc in {pa, pb, pc};
      }
    }
  }

  /** A triangle that is not outlined contributes nothing, or fails with an
      `IndexError` when an index is below `-len` and none is at least `len`. */
  lemma TriangleOverlaySkipped(t: Triangle, results: seq<ProjectionResult>, width: int, height: int)
    requires !Outlined(t, results)
    ensures var n := |results|;
      TriangleOverlay(t, results, width, height) ==
        if (t.0 >= n || t.1 >= n || t.2 >= n) || (-n <= t.0 && -n <= t.1 && -n <= t.2)
        then Success(NoOverlay) else Failure(IndexError)
  {
  }

  /** The two drivers agree on a triangle with an index at least the number
      of records: neither draws anything for it. */
  lemma BothSkipOutOfRange(t: Triangle, results: seq<ProjectionResult>, width: int, height: int)
    requires t.0 >= |results| || t.1 >= |results| || t.2 >= |results|
    ensures TriangleOverlay(t, results, width, height) == Success(NoOverlay)
    ensures MeshTriangle(t, results, width, height) == {}
  {
  }

  /** Where the two drivers differ: a triangle with a vertex behind the image
      edge (not visible) or with a negative index in [-len, 0) gets no fill
      from `rasterize_mesh`, yet its outline and markers are drawn. */
  lemma OverlayDrawsWhatFillSkips(t: Triangle, results: seq<ProjectionResult>, width: int, height: int)
    requires Outlined(t, results)
    requires t.0 < 0 || t.1 < 0 || t.2 < 0 ||
             !PyIndex(results, t.0).visible || !PyIndex(results, t.1).visible || !PyIndex(results, t.2).visible
    ensures MeshTriangle(t, results, width, height) == {}
    ensures TriangleOverlay(t, results, width, height).Success?
    ensures PyIndex(results, t.0).pixel.value in TriangleOverlay(t, results, width, height).value.outline
  {
    var pa, pb, pc := PyIndex(results, t.0).pixel.value, PyIndex(results, t.1).pixel.value,
                      PyIndex(results, t.2).pixel.value;
    OutlineSpan(pa, pb, pc, pa);
  }

  /** The overlay of a list of triangles succeeds exactly when every triangle
      does, and is then the union of their contributions. */
  lemma OverlaysMembership(tris: seq<Triangle>, results: seq<ProjectionResult>, width: int, height: int, q: Pixel)
    ensures Overlays(tris, results, width, height).Success? <==>
      forall k :: 0 <= k < |tris| ==> TriangleOverlay(tris[k], results, width, height).Success?
    ensures Overlays(tris, results, width, height).Success? ==>
      && (q in Overlays(tris, results, width, height).value.outline <==>
            exists k :: 0 <= k < |tris| && TriangleOverlay(tris[k], results, width, height).Success? &&
              q in TriangleOverlay(tris[k], results, width, height).value.outline)
      && (q in Overlays(tris, results, width, height).value.vertices <==>
            exists k :: 0 <= k < |tris| && TriangleOverlay(tris[k], results, width, height).Success? &&
              q in TriangleOverlay(tris[k], results, width, height).value.vertices)
  {
    var contrib := Contribution(results, width, height);
    AccumulateSucceeds(contrib, tris);
    if Overlays(tris, results, width, height).Success? {
      AccumulateMembership(contrib, tris, q);
    }
  }

  /** Every marker pixel of a successful overlay lies inside the image. */
  lemma OverlayVerticesWithin(tris: seq<Triangle>, results: seq<ProjectionResult>, width: int, height: int, q: Pixel)
    requires Overlays(tris, results, width, height).Success?
    requires q in Overlays(tris, results, width, height).value.vertices
    ensures 0 <= q.0 < width && 0 <= q.1 < height
  {
    OverlaysMembership(tris, results, width, height, q);
    var k :| 0 <= k < |tris| && TriangleOverlay(tris[k], results, width, height).Success? &&
      q in TriangleOverlay(tris[k], results, width, height).value.vertices;
    if Outlined(tris[k], results) {
      TriangleOverlayContents(tris[k], results, width, height, q);
    }
  }
}
