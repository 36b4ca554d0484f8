/**
 * From view coordinates to screen pixels (projection.py): perspective divide
 * onto the plane at distance d, normalisation by the half-extents hx, hy,
 * a visibility test on the unclamped normalised values, then clamping to
 * [-1, 1], a flip of the y axis and rounding to whole pixels.
 */
module Projection {
  import opened Wrappers
  import opened Numeric
  import opened Transform

  datatype Point2 = Point2(x: real, y: real)

  /** A pixel (column i, row j); row 0 is the top of the image. */
  type Pixel = (int, int)

  /** `to_ndc` raises when a half-extent is zero. */
  datatype ProjectionFault = ZeroHalfExtent

  /** The per-vertex record: the view point, the point on the projection plane,
      its normalised coordinates, its pixel and whether it lies in the view. */
  datatype ProjectionResult = ProjectionResult(
    view: Vec3,
    plane: Option<Point2>,
    ndc: Option<Point2>,
    pixel: Option<Pixel>,
    visible: bool)

  /** Perspective divide; points on or behind the camera plane have no image. */
  function ProjectPerspective(p: Vec3, d: real): (r: Option<Point2>)
    ensures r.None? <==> p.z <= 0.0
    ensures r.Some? ==> r.value.x * p.z == d * p.x && r.value.y * p.z == d * p.y
  {
    if p.z <= 0.0 then None
    else
      var xs, ys := d * (p.x / p.z), d * (p.y / p.z);
      DivideBack(d, p.x, p.z);
      DivideBack(d, p.y, p.z);
      Some(Point2(xs, ys))
  }

  lemma DivideBack(d: real, a: real, z: real)
    requires z != 0.0
    ensures (d * (a / z)) * z == d * a
  {
    calc {
      (d * (a / z)) * z;
      d * ((a / z) * z);
      d * a;
    }
  }

  /** Division by the half-extents. A missing point passes through before
      the extents are looked at; a zero extent is a fault. */
  function ToNdc(s: Option<Point2>, hx: real, hy: real): (r: Result<Option<Point2>, ProjectionFault>)
    ensures s.None? ==> r == Success(None)
    ensures s.Some? ==> (r.Failure? <==> hx == 0.0 || hy == 0.0)
    ensures s.Some? && r.Success? ==>
      r.value.Some? && r.value.value.x * hx == s.value.x && r.value.value.y * hy == s.value.y
  {
    if s.None? then Success(None)
    else if hx == 0.0 || hy == 0.0 then Failure(ZeroHalfExtent)
    else Success(Some(Point2(s.value.x / hx, s.value.y / hy)))
  }

  function Clamp(v: real): (c: real)
    ensures -1.0 <= c <= 1.0
    ensures -1.0 <= v <= 1.0 ==> c == v
  {
    if v < -1.0 then -1.0 else if v > 1.0 then 1.0 else v
  }

  lemma ScaleWithin(t: real, n: int)
    requires 0.0 <= t <= 1.0 && n >= 0
    ensures 0.0 <= t * n as real <= n as real
  {
    assert t * n as real <= 1.0 * n as real;
  }

  /** Column of a clamped x: -1 is column 0 and 1 is column `width`. */
  function ColumnOf(cx: real, width: int): (i: int)
    requires -1.0 <= cx <= 1.0
    ensures width >= 0 ==> 0 <= i <= width
  {
    var t := (cx + 1.0) / 2.0;
    if width >= 0 then
      ScaleWithin(t, width);
      RoundWithin(t * width as real, 0, width);
      RoundHalfEven(t * width as real)
    else
      RoundHalfEven(t * width as real)
  }

  /** Row of a clamped y: 1 is row 0 (the top) and -1 is row `height`. */
  function RowOf(cy: real, height: int): (j: int)
    requires -1.0 <= cy <= 1.0
    ensures height >= 0 ==> 0 <= j <= height
  {
    var t := (1.0 - cy) / 2.0;
    if height >= 0 then
      ScaleWithin(t, height);
      RoundWithin(t * height as real, 0, height);
      RoundHalfEven(t * height as real)
    else
      RoundHalfEven(t * height as real)
  }

  /** Clamp to [-1, 1], map x from [-1, 1] to [0, width] and y from [1, -1]
      to [0, height] (the y axis is flipped), then round. */
  function NdcToScreen(ndc: Option<Point2>, width: int, height: int): (r: Option<Pixel>)
    ensures r.None? <==> ndc.None?
    ensures r.Some? && width >= 0 && height >= 0 ==>
      0 <= r.value.0 <= width && 0 <= r.value.1 <= height
  {
    if ndc.None? then None
    else Some((ColumnOf(Clamp(ndc.value.x), width), RowOf(Clamp(ndc.value.y), height)))
  }

  predicate InUnitSquare(p: Point2) {
    -1.0 <= p.x <= 1.0 && -1.0 <= p.y <= 1.0
  }

  /** The record `world_view_to_screen_list` builds for one view point. */
  function ProjectVertex(p: Vec3, d: real, hx: real, hy: real, width: int, height: int)
    : (r: Result<ProjectionResult, ProjectionFault>)
    ensures p.z <= 0.0 ==> r == Success(ProjectionResult(p, None, None, None, false))
    ensures p.z > 0.0 ==> (r.Failure? <==> hx == 0.0 || hy == 0.0)
    ensures r.Success? ==> r.value.view == p
    ensures r.Success? && p.z > 0.0 ==>
      && r.value.plane == ProjectPerspective(p, d)
      && r.value.ndc.Some? && r.value.pixel.Some?
      && r.value.ndc.value.x * hx == r.value.plane.value.x
      && r.value.ndc.value.y * hy == r.value.plane.value.y
      && (r.value.visible <==> InUnitSquare(r.value.ndc.value))
    ensures r.Success? && r.value.pixel.Some? && width >= 0 && height >= 0 ==>
      0 <= r.value.pixel.value.0 <= width && 0 <= r.value.pixel.value.1 <= height
  {
    var item := ProjectionResult(p, None, None, None, false);
    if p.z <= 0.0 then Success(item)
    else
      var plane := ProjectPerspective(p, d);
      match ToNdc(plane, hx, hy)
      case Failure(e) => Failure(e)
      case Success(ndc) =>
        var visible := ndc.Some? && InUnitSquare(ndc.value);
        Success(item.(plane := plane, ndc := ndc, visible := visible, pixel := NdcToScreen(ndc, width, height)))
  }

  /** Every vertex through `ProjectVertex`, failing as soon as one fails. */
  function ProjectAll(views: seq<Vec3>, d: real, hx: real, hy: real, width: int, height: int)
    : (r: Result<seq<ProjectionResult>, ProjectionFault>)
    ensures r.Success? ==> |r.value| == |views|
    ensures r.Success? ==> forall k :: 0 <= k < |views| ==>
      Success(r.value[k]) == ProjectVertex(views[k], d, hx, hy, width, height)
    ensures r.Failure? <==> (hx == 0.0 || hy == 0.0) && exists k :: 0 <= k < |views| && views[k].z > 0.0
    decreases |views|
  {
    if views == [] then Success([])
    else
      var last := views[|views| - 1];
      match ProjectAll(views[..|views| - 1], d, hx, hy, width, height)
      case Failure(e) => Failure(e)
      case Success(front) =>
        match ProjectVertex(last, d, hx, hy, width, height)
        case Failure(e) => Failure(e)
        case Success(item) => Success(front + [item])
  }

  /** `world_view_to_screen_list`: the loop that builds one record per vertex,
      field by field. */
  method WorldViewToScreenList(views: seq<Vec3>, d: real, hx: real, hy: real, width: int, height: int)
    returns (r: Result<seq<ProjectionResult>, ProjectionFault>)
    ensures r == ProjectAll(views, d, hx, hy, width, height)
  {
    var results: seq<ProjectionResult> := [];
    var k := 0;
    while k < |views|
      invariant 0 <= k <= |views|
      invariant ProjectAll(views[..k], d, hx, hy, width, height) == Success(results)
    {
      var p := views[k];
      var item := ProjectionResult(p, None, None, None, false);
      assert views[..k + 1][..k] == views[..k];
      if p.z <= 0.0 {
        results := results + [item];
        k := k + 1;
        continue;
      }
      var plane := ProjectPerspective(p, d);
      item := item.(plane := plane);
      var ndcOrFault := ToNdc(plane, hx, hy);
      if ndcOrFault.Failure? {
        assert ProjectAll(views[..k + 1], d, hx, hy, width, height).Failure?;
        ProjectAllFailureSticks(views, k + 1, d, hx, hy, width, height);
        assert views[..|views|] == views;
        return Failure(ZeroHalfExtent);
      }
      var ndc := ndcOrFault.value;
      item := item.(ndc := ndc);
      var visible := ndc.Some? && InUnitSquare(ndc.value);
      item := item.(visible := visible);
      var px := NdcToScreen(ndc, width, height);
      item := item.(pixel := px);
      results := results + [item];
      k := k + 1;
    }
    assert views[..k] == views;
    r := Success(results);
  }

  /** Once a prefix fails, every longer prefix fails. */
  lemma {:induction false} ProjectAllFailureSticks(views: seq<Vec3>, k: nat, d: real, hx: real, hy: real, width: int, height: int)
    requires k <= |views|
    requires ProjectAll(views[..k], d, hx, hy, width, height).Failure?
    ensures ProjectAll(views, d, hx, hy, width, height) == Failure(ZeroHalfExtent)
  {
    var j :| 0 <= j < k && views[..k][j].z > 0.0;
    assert views[j].z > 0.0;
    match ProjectAll(views, d, hx, hy, width, height).error
    case ZeroHalfExtent =>
  }

  // ---------------------------------------------------------------------------
  // Properties of the screen mapping

  /** The y axis is flipped: y = 1 is the top row and y = -1 the bottom row;
      x = -1 is column 0 and x = 1 is column `width`, one past the last. */
  lemma ScreenCorners(width: int, height: int)
    ensures NdcToScreen(Some(Point2(-1.0, 1.0)), width, height) == Some((0, 0))
    ensures NdcToScreen(Some(Point2(1.0, -1.0)), width, height) == Some((width, height))
  {
    RoundOfInteger(width);
    RoundOfInteger(height);
  }

  /** Clamping: every value beyond the edge lands on the edge pixel. */
  lemma {:induction false} ClampedToEdge(p: Point2, width: int, height: int)
    requires p.x >= 1.0 && p.y <= -1.0
    ensures NdcToScreen(Some(p), width, height) == Some((width, height))
  {
    assert Clamp(p.x) == 1.0 && Clamp(p.y) == -1.0;
    ScreenCorners(width, height);
  }

  /** With unit d, hx and hy, a point on the optical axis maps to the centre. */
  lemma {:induction false} AxisPointMapsToCentre(z: real, width: int, height: int)
    requires z > 0.0
    ensures ProjectVertex(Vec3(0.0, 0.0, z), 1.0, 1.0, 1.0, width, height)
         == Success(ProjectionResult(Vec3(0.0, 0.0, z), Some(Point2(0.0, 0.0)), Some(Point2(0.0, 0.0)),
                                     Some((RoundHalfEven(width as real / 2.0), RoundHalfEven(height as real / 2.0))),
                                     true))
  {
    assert ProjectPerspective(Vec3(0.0, 0.0, z), 1.0) == Some(Point2(0.0, 0.0));
    assert (0.0 + 1.0) / 2.0 * width as real == width as real / 2.0;
    assert (1.0 - 0.0) / 2.0 * height as real == height as real / 2.0;
    assert ColumnOf(0.0, width) == RoundHalfEven(width as real / 2.0);
    assert RowOf(0.0, height) == RoundHalfEven(height as real / 2.0);
  }

  /** A point outside the view still gets a (clamped) pixel; only `visible` tells. */
  lemma {:induction false} InvisibleStillHasPixel(width: int, height: int)
    requires width >= 0 && height >= 0
    ensures var r := ProjectVertex(Vec3(4.0, 0.0, 1.0), 1.0, 1.0, 1.0, width, height);
      r.Success? && !r.value.visible && r.value.pixel == Some((width, RoundHalfEven(height as real / 2.0)))
  {
    assert ProjectPerspective(Vec3(4.0, 0.0, 1.0), 1.0) == Some(Point2(4.0, 0.0));
    assert Clamp(4.0) == 1.0;
    RoundOfInteger(width);
    assert (1.0 - 0.0) / 2.0 * height as real == height as real / 2.0;
  }
}
