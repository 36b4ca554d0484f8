# A verified model of a small software renderer

The renderer reads a triangle mesh from a BYU file and camera parameters from
a text file. It moves the mesh vertices into the camera's view coordinates,
projects them onto the screen and fills every triangle with a scanline
algorithm. Optionally it draws a wireframe overlay: Bresenham edges, plus a
3x3 marker on each vertex.

This project models that pipeline in Dafny, from parsed text to sets of
integer pixels, and proves properties of each stage. Coordinates are exact
`real`s.

| file | models | form |
|---|---|---|
| `wrappers.dfy` | `Option` and `Result`, for values that may be missing and for raised exceptions | datatypes |
| `numeric.dfy` | `math.floor`, `math.ceil`, `abs`, `min`, `max`, and Python's `round` (ties go to the even integer) | functions |
| `transform.dfy` | `dot`, `add`, `sub`, `scale`, `cross`, `world_to_view_point`, `world_to_view_vertices` | functions and lemmas |
| `projection.dfy` | `project_perspective`, `to_ndc`, `ndc_to_screen` | functions |
| | `world_view_to_screen_list` | a method, proved against a function |
| `rasterizer.dfy` | `rasterize_triangle_pixels` and `rasterize_mesh` | methods with loops, proved against set-valued functions |
| | `bresenham_line_pixels` | a method with a loop, proved against a recursive walk |
| `frame.dfy` | the union loop of `build_frame` and `make_outline_and_vertices` | methods over sets |
| `text.dfy` | the string built-ins the two parsers use: `strip`, `split`, `split("=", 1)`, `lower` | functions |
| `byu_loader.dfy` | the token stage of `load_byu`: token collection, then the header, vertex and triangle reads with a cursor | methods proved against functions |
| `camera.dfy` | the line loop of `load_camera`: `KEY = values` dispatch, the positional 12-number form, the zero-vector fix-up | methods proved against functions |

Three kinds of external input are parameters of the model:

- `int(token)` and `float(token)` are functions `string -> Option<...>`. `None` stands where Python raises `ValueError`.
- A file is given as its sequence of lines.
- The camera basis is given as a `Basis` value.

Exceptions the source raises become `Failure` values:

- `ByuFault` for the mesh loader;
- `CameraFault` for the camera loader;
- `ProjectionFault` for a zero half-extent in `to_ndc`;
- `OverlayFault` for the `IndexError` that Python raises on a list index below `-len`.

The wireframe overlay does not reject negative vertex indices. They index
from the end of the list, as Python lists do, and `Frame.PyIndex` models that.
So a BYU face index of 0 becomes -1 and draws an edge to the last vertex,
while `rasterize_mesh` skips the same triangle. Visibility is also not checked
by the overlay. `Frame.OverlayDrawsWhatFillSkips` pins both differences down.

## Model

| member | source | states |
|---|---|---|
| Numeric.Floor | rasterizer.py:21 | `math.floor`: the greatest integer not above `r` |
| Numeric.Ceil | rasterizer.py:20 | `math.ceil`: the least integer not below `r` |
| Numeric.Abs | rasterizer.py:29 | `abs` on reals: non-negative, and `r` or `-r` |
| Numeric.IntAbs | byu_loader.py:70 | `abs` on integers: non-negative, and `i` or `-i` |
| Numeric.Min | rasterizer.py:31 | `min`: a lower bound that is one of the two arguments |
| Numeric.Max | rasterizer.py:32 | `max`: an upper bound that is one of the two arguments |
| Numeric.RoundHalfEven | projection.py:52 | `round`: an integer within 1/2 of `r`; at a tie it is the even one |
| Numeric.RoundOfInteger | rasterizer.py:79-80 | rounding an integer gives it back, so `int(round(x))` of a pixel coordinate is that coordinate |
| Numeric.RoundWithin | projection.py:49-52 | a real between two integers rounds to an integer between them |
| Numeric.RoundTies | projection.py:52 | 0.5 and 2.5 round to 0 and 2, 1.5 rounds to 2, -0.5 to 0 and -1.5 to -2 |
| Transform.Dot | transform.py:10-11 | the sum of the coordinate products, with no contract of its own; DotLinear, DotCommutes and LagrangeIdentity state its algebra |
| Transform.Cross | transform.py:31-34 | the coordinate formula of a x b, with no contract of its own; CrossIsOrthogonal, CrossSelfIsZero and CrossAntiCommutes state what it means |
| Transform.WorldToViewPoint | transform.py:102-117 | P - C projected on u, v and n by dot products, with no contract of its own; WorldToViewOfOrigin, WorldToViewIsAffine and ViewRoundTrip (its inverse for an orthonormal basis) state what it means |
| Transform.WorldToViewVertices | transform.py:119-120 | the result has the input's length, and element i is the view point of vertex i |
| Transform.AddSubCancel | transform.py:22-29 | `add(sub(a, b), b) == a`; `sub(a, b)` is zero exactly when `a == b`; `scale(a, 1) == a` |
| Transform.CrossIsOrthogonal | transform.py:31-34 | `cross(a, b)` is orthogonal to `a` and to `b` |
| Transform.CrossSelfIsZero | transform.py:31-34 | `cross(a, a)` is the zero vector |
| Transform.CrossAntiCommutes | transform.py:31-34 | `cross(a, b) == scale(cross(b, a), -1)` |
| Transform.DotLinear | transform.py:10-11 | `dot` is linear in its first argument over `add`, `sub` and `scale` |
| Transform.OrthogonalizeStep | transform.py:68-69 | for a unit `n`, `V - (V·n) n` is orthogonal to `n` |
| Transform.LagrangeIdentity | transform.py:31-34 | the squared length of `cross(a, b)` is `|a|²|b|² - (a·b)²` |
| Transform.LagrangeUnit | transform.py:97-98 | the cross product of two orthogonal unit vectors is a unit vector |
| Transform.WorldToViewOfOrigin | transform.py:102-117 | the camera origin C maps to (0, 0, 0) |
| Transform.WorldToViewIsAffine | transform.py:102-117 | the view map takes the point `t` of the way from P to Q to the point `t` of the way between their images |
| Transform.ViewRoundTrip | transform.py:102-117 | for an orthonormal basis, C + x·u + y·v + z·n rebuilds P from its view coordinates (x, y, z) |
| Projection.ProjectPerspective | projection.py:8-20 | no image exactly when Zv <= 0; otherwise (x_s, y_s) with x_s·Zv = d·Xv and y_s·Zv = d·Yv |
| Projection.ToNdc | projection.py:22-33 | a missing point passes through before the extents are checked; a present point raises exactly when hx or hy is 0; otherwise x_ndc·hx = x_s and y_ndc·hy = y_s |
| Projection.Clamp | projection.py:44-47 | the result is in [-1, 1], and a value already in [-1, 1] is unchanged |
| Projection.ColumnOf | projection.py:49-52 | for a clamped x, the column is between 0 and width inclusive |
| Projection.RowOf | projection.py:50-52 | for a clamped y, the row is between 0 and height inclusive |
| Projection.NdcToScreen | projection.py:35-52 | no pixel exactly when there is no point; otherwise 0 <= i <= width and 0 <= j <= height (i = width is reachable) |
| Projection.ProjectVertex | projection.py:66-87 | Zv <= 0 gives the record with every field empty and `visible` false; otherwise it raises exactly on a zero half-extent, and the record holds the perspective point, its normalised point, a pixel within bounds, and `visible` exactly when both unclamped normalised values are in [-1, 1] |
| Projection.ProjectAll | projection.py:65-88 | one record per input point, record k for view point k; it raises exactly when a half-extent is 0 and some point has Zv > 0 |
| Projection.WorldViewToScreenList | projection.py:54-88 | the loop builds exactly `ProjectAll` of its input, raising at the first point that raises |
| Projection.ProjectAllFailureSticks | projection.py:65-88 | once a prefix of the points raises, the whole list raises |
| Projection.ScreenCorners | projection.py:49-50 | the normalised corner (-1, 1) is pixel (0, 0) and (1, -1) is (width, height): the y axis is flipped |
| Projection.ClampedToEdge | projection.py:43-52 | a point beyond the right and bottom edges is clamped to pixel (width, height) |
| Projection.AxisPointMapsToCentre | projection.py:18-19 | with d = hx = hy = 1, the view point (0, 0, z), z > 0, is visible, its normalised point is (0, 0), and its pixel is (round(width/2), round(height/2)) |
| Projection.InvisibleStillHasPixel | projection.py:82-86 | a point outside the view is not visible but still gets a clamped pixel |
| Rasterizer.EdgeIntersectionX | rasterizer.py:8-10 | `_edge_intersection_x` is only called with y1 != y0, and its result lies on the line through (x0, y0) and (x1, y1) at row y |
| Rasterizer.InterceptBetween | rasterizer.py:8-10 | for y between y0 and y1, the intercept lies between x0 and x1 |
| Rasterizer.EdgeHit | rasterizer.py:28-36 | an edge yields an intercept for row y exactly when its rise is at least 1e-9 and y is within its y-range, and the intercept lies between the edge's x values; a flat edge is skipped before any division |
| Rasterizer.Intercepts | rasterizer.py:27-36 | no more intercepts than edges, each the intercept of one of the edges |
| Rasterizer.InterceptsExact | rasterizer.py:27-36 | every edge that crosses the row contributes its intercept; there are exactly as many intercepts as crossing edges; and each x occurs as many times as there are edges crossing the row at x, so the two edges meeting at a vertex on the row both give its x (the closed range of line 34) |
| Rasterizer.Insert | rasterizer.py:39 | inserting into a sorted list keeps it sorted and adds exactly that element |
| Rasterizer.SortReals | rasterizer.py:39 | `sort` gives a sorted permutation of the intercepts |
| Rasterizer.Paired | rasterizer.py:40-43 | after dropping the last of an odd count, the list has even length, is a prefix of the sorted list, and lost at most one element, so `inter_xs[i+1]` is in range |
| Rasterizer.RowSpans | rasterizer.py:27-43 | the list used for pairing always has even length |
| Rasterizer.ColumnsMembership | rasterizer.py:53-54 | the pixels added for one span are exactly (x, y) for x from `x_start` to `x_end` |
| Rasterizer.CollectIntercepts | rasterizer.py:27-36 | the loop over the three edges yields exactly the intercepts of the row |
| Rasterizer.FillSpan | rasterizer.py:45-54 | one pair adds exactly the span between its ceiling and floor, clipped to [0, width - 1], or nothing if the span misses the image |
| Rasterizer.FillPairs | rasterizer.py:44-54 | the loop over consecutive pairs adds exactly the spans of all the pairs |
| Rasterizer.FillRow | rasterizer.py:27-54 | one row adds exactly the spans of its sorted, paired intercepts |
| Rasterizer.FillRows | rasterizer.py:26-54 | the loop over rows adds exactly the union of the row fills |
| Rasterizer.TrianglePixels | rasterizer.py:12-55 | the union over rows ceil(max(min y, 0)) .. floor(min(max y, height - 1)) of each row's span fill, with no contract of its own; TrianglePixelsMembership and TrianglePixelsBounds characterise it |
| Rasterizer.RasterizeTrianglePixels | rasterizer.py:12-55 | the method computes exactly `TrianglePixels`, the fill of the rows from the top vertex row to the bottom one, clipped to the image |
| Rasterizer.InterceptsWithin | rasterizer.py:34-36 | every intercept lies within the x-range of the triangle |
| Rasterizer.RowSpansWithin | rasterizer.py:39-43 | after sorting and pairing, the intercepts still lie within the triangle's x-range |
| Rasterizer.SpanPixelsWithin | rasterizer.py:47-54 | a span pixel lies on its row, has 0 <= x <= width - 1, and lies between the pair |
| Rasterizer.PairsPixelsWithin | rasterizer.py:44-54 | the pixels of all pairs lie on the row, inside the image and within the bounds of the intercepts |
| Rasterizer.RowPixelsWithin | rasterizer.py:27-54 | a row's pixels lie on the row, inside the image columns and within the triangle's x-range |
| Rasterizer.RowsUnionMembership | rasterizer.py:26 | a pixel belongs to the union over `range(min_y, max_y + 1)` exactly when its row is in the range and the row's fill contains it |
| Rasterizer.TrianglePixelsMembership | rasterizer.py:20-26 | a pixel is filled exactly when its row lies between the first and last scanned rows and that row's spans contain it |
| Rasterizer.TrianglePixelsBounds | rasterizer.py:20-53 | every filled pixel has 0 <= x <= width - 1 and 0 <= y <= height - 1; its y lies in [ceil(min ys), floor(max ys)] and its x within [min xs, max xs] of the triangle |
| Rasterizer.MeshTriangle | rasterizer.py:62-74 | the fill of a drawable triangle's three vertex pixels, otherwise the empty set, with no contract of its own; MeshTriangleWithin bounds it |
| Rasterizer.RasterizeMesh | rasterizer.py:57-75 | exactly one entry per triangle index 0 .. len - 1. An entry is empty when an index is negative or too large, a pixel is missing, or a vertex is invisible; otherwise it is the triangle fill of the three pixels |
| Rasterizer.MeshTriangleWithin | rasterizer.py:62-74 | a non-empty entry belongs to a drawable triangle, and its pixels lie inside the image |
| Rasterizer.ErrorTermAtEdge | rasterizer.py:91-97 | at the last column the walker does not step in x; at the last row it does not step in y |
| Rasterizer.AdvanceKeeps | rasterizer.py:88-97 | away from the end point, one turn moves to a neighbouring pixel, never away from the end, strictly closer overall, and keeps the error-term invariant |
| Rasterizer.Walk | rasterizer.py:87-98 | the walk from a pen position starts at that position and ends at the end point |
| Rasterizer.WalkOn | rasterizer.py:87-98 | appending the current pixel and continuing from the next pen position gives the walk from the current one |
| Rasterizer.PlanKeeps | rasterizer.py:82-86 | the initial dx, dy, sx, sy and err establish the invariant |
| Rasterizer.WalkAdjacent | rasterizer.py:87-98 | consecutive pixels of a walk are distinct neighbours |
| Rasterizer.WalkWithin | rasterizer.py:87-98 | every pixel of a walk lies between the current position and the end point |
| Rasterizer.LineSteps | rasterizer.py:78-98 | the line terminates; it starts at the start point and ends at the end point; consecutive pixels differ by at most 1 in each coordinate |
| Rasterizer.LineWithin | rasterizer.py:78-98 | every pixel of the line lies in the bounding box of its end points |
| Rasterizer.DiagonalWalk | rasterizer.py:87-98 | on a 45° line the walk steps diagonally one pixel at a time |
| Rasterizer.DiagonalLine | rasterizer.py:78-98 | from (x0, y0) to (x0 + n, y0 + n) the line is (x0 + i, y0 + i) for i = 0 .. n, so (0,0)→(3,3) gives (0,0), (1,1), (2,2), (3,3) |
| Rasterizer.LinePixels | rasterizer.py:78-98 | the walk of the Bresenham plan from (x0, y0), with no contract of its own; LineSteps, LineWithin and DiagonalLine state its shape |
| Rasterizer.BresenhamLinePixels | rasterizer.py:78-98 | the method returns exactly the line between the rounded end points |
| Rasterizer.WalkToEnd | rasterizer.py:87-98 | the `while` loop appends exactly the walk from its current position |
| Frame.UnionPixels | main.py:51-53 | `all_pixels` holds exactly the pixels of some triangle's set |
| Frame.BuildFrame | main.py:46-64 | it raises exactly when projection raises. On success it returns the projection records of the view points, one fill entry per triangle equal to `MeshTriangle`, and `all_pixels` as the union of the entries, all inside the image |
| Frame.StampMarker | main.py:78-83 | the loops over dx, dy in (-1, 0, 1) add exactly the 3x3 block around the vertex, clipped to the image |
| Frame.AddLine | main.py:75-77 | `update` with a line adds exactly its pixels |
| Frame.AddTriangle | main.py:69-83 | one loop iteration adds exactly the triangle's contribution, or raises where Python raises |
| Frame.TriangleOverlay | main.py:69-83 | one triangle's outline and vertex markers, with no contract of its own. It is nothing for an index >= len or a missing pixel, and an IndexError for an index below -len. TriangleOverlayContents and TriangleOverlaySkipped state its cases |
| Frame.Overlays | main.py:66-84 | the triangles' overlays accumulated in order, failing at the first IndexError, with no contract of its own; OverlaysMembership characterises it |
| Frame.MakeOutlineAndVertices | main.py:66-84 | the loop computes exactly `Overlays`, the triangles' contributions in order, failing at the first `IndexError` |
| Frame.OutlineSpan | main.py:75-77 | the outline passes through the three vertex pixels and stays inside their bounding box |
| Frame.TriangleOverlayContents | main.py:72-83 | a triangle whose indices are valid Python indices and whose pixels exist adds its three vertex pixels to the outline. Each in-image vertex pixel is added to the vertex set. Every vertex-set pixel is inside the image and within 1 of a vertex |
| Frame.TriangleOverlaySkipped | main.py:70-74 | a triangle with an index >= len or a missing pixel adds nothing; otherwise an index below -len raises `IndexError` |
| Frame.BothSkipOutOfRange | main.py:70-71 | a triangle with an index >= len contributes nothing to the outline, the markers or the fill |
| Frame.OverlayDrawsWhatFillSkips | main.py:70-74 | a triangle with a negative index or an invisible vertex gets no fill, but the overlay still draws it |
| Frame.OverlaysMembership | main.py:66-84 | the overlay succeeds exactly when every triangle's contribution does. An outline or vertex pixel is then exactly one some triangle contributes |
| Frame.OverlayVerticesWithin | main.py:82-83 | every vertex-marker pixel satisfies 0 <= x < width and 0 <= y < height |
| Text.Strip | byu_loader.py:31 | `strip` is no longer than its input, and has no whitespace at either end |
| Text.StripIsSlice | byu_loader.py:31 | `strip` is a slice of its input with only whitespace cut off at both ends |
| Text.StripEmpty | byu_loader.py:31-33 | a stripped line is empty exactly when the line is all whitespace |
| Text.StripKeepsText | byu_loader.py:31 | stripping keeps every non-whitespace character |
| Text.StripFirst | camera.py:43-47 | the stripped line is empty exactly when the line has no non-whitespace character, and otherwise starts with the first one, which is what the blank and '#' tests look at |
| Text.StripKeepsChar | camera.py:43-48 | stripping keeps every non-whitespace character, so '=' is in the stripped line exactly when it is in the raw line |
| Text.Split | byu_loader.py:36 | every part of `split()` is non-empty and has no whitespace; SplitAtSpace, SplitOfWord and SplitOfSpaces fix where it breaks |
| Text.SplitKeepsText | byu_loader.py:36 | the parts of `split()` put together are the non-whitespace characters of the line, in order |
| Text.SplitOfWord | byu_loader.py:36 | a word without whitespace splits into itself |
| Text.SplitOfSpaces | byu_loader.py:36 | a whitespace-only string splits into nothing |
| Text.SplitAtSpace | byu_loader.py:36 | `split()` breaks at every whitespace character: the words of `a + c + b` for a whitespace `c` are the words of `a` followed by the words of `b`; with SplitOfWord and SplitOfSpaces this fixes the result on every string |
| Text.SplitJoin | byu_loader.py:36 | words without whitespace, joined by a whitespace character, split back into the same words, so a line `1 2 3` gives the three tokens `1`, `2`, `3` |
| Text.IndexOf | camera.py:50 | the first position of the separator |
| Text.SplitOnce | camera.py:50 | `split("=", 1)`: key + "=" + rest is the line, and the key holds no "=" |
| Text.LowerChar | camera.py:51 | A-Z map to a-z; every other character is unchanged |
| Text.Lower | camera.py:51 | `lower` maps each character, keeping the length |
| ByuLoader.LineTokens | byu_loader.py:30-37 | every token of a line is a non-empty word without whitespace |
| ByuLoader.CollectTokens | byu_loader.py:29-37 | the reading loop collects exactly the tokens of the lines, in order |
| ByuLoader.TokensOfAppend | byu_loader.py:29-37 | the tokens of two runs of lines are the two token lists joined |
| ByuLoader.TokensAreWords | byu_loader.py:36-37 | every token is non-empty and holds no whitespace |
| ByuLoader.LineTokensKeepText | byu_loader.py:30-37 | a blank line gives no tokens, nor does a comment (first non-whitespace character '#'); any other line gives tokens that together are its non-whitespace characters |
| ByuLoader.ZeroBased | byu_loader.py:70-72 | `abs(i) - 1` is >= -1; a positive index i becomes i - 1, a negative one -i - 1, and 0 becomes -1 |
| ByuLoader.Count | byu_loader.py:57 | `range(n)` runs max(n, 0) times |
| ByuLoader.ConvertVertex | byu_loader.py:60 | three `float` conversions, failing at the first that raises |
| ByuLoader.ConvertTriangle | byu_loader.py:68-72 | three `int` conversions, failing at the first that raises, then `abs` and the 0-based shift |
| ByuLoader.ReadVertexLoop | byu_loader.py:55-62 | the vertex loop with its cursor computes exactly `ReadVertices` |
| ByuLoader.ReadTriangleLoop | byu_loader.py:64-73 | the triangle loop computes exactly `ReadTriangles`, continuing from the cursor after the vertices |
| ByuLoader.ParseByu | byu_loader.py:39-75 | the header check, then the vertices and the triangles read from the cursor, with no contract of its own; ParseByuSpec characterises it |
| ByuLoader.LoadByu | byu_loader.py:24-75 | `ParseByu` of the tokens of all lines, with no contract of its own; TokensOfAppend, TokensAreWords and ParseByuSpec state what it means |
| ByuLoader.ReadMesh | byu_loader.py:39-75 | the reading after the token loop computes exactly `ParseByu` |
| ByuLoader.LoadByuLines | byu_loader.py:24-75 | `load_byu` on the lines of an existing file computes exactly `LoadByu` |
| ByuLoader.ReadVerticesSticks | byu_loader.py:57-62 | once reading a vertex raises, reading more vertices raises the same error |
| ByuLoader.ReadTrianglesSticks | byu_loader.py:65-73 | once reading a triangle raises, reading more triangles raises the same error |
| ByuLoader.ReadVerticesSpec | byu_loader.py:55-62 | reading `count` vertices succeeds exactly when every triple at 2 + 3k converts. Vertex k then comes from tokens 2 + 3k .. 2 + 3k + 2 |
| ByuLoader.ReadTrianglesSpec | byu_loader.py:64-73 | reading triangles succeeds exactly when every triple right after the vertices converts. Triangle j then comes from tokens 2 + 3nv + 3j .. + 2 |
| ByuLoader.ReadVerticesFailure | byu_loader.py:57-60 | reading stops at the first vertex that cannot be read, every earlier vertex having converted: "incomplete vertex k" exactly when fewer than 3 tokens remain at its cursor, otherwise the first token of that vertex that `float` rejects |
| ByuLoader.ReadTrianglesFailure | byu_loader.py:65-68 | reading stops at the first triangle that cannot be read, every earlier triangle having converted: "incomplete triangle k" exactly when fewer than 3 tokens remain at its cursor, otherwise the first token of that triangle that `int` rejects |
| ByuLoader.LastVertexFault | byu_loader.py:58-60 | when every earlier vertex was read, the failing vertex gives "incomplete" exactly when fewer than 3 tokens remain, otherwise the first of its tokens `float` rejects |
| ByuLoader.LastTriangleFault | byu_loader.py:66-68 | when every earlier triangle was read, the failing triangle gives "incomplete" exactly when fewer than 3 tokens remain, otherwise the first of its tokens `int` rejects |
| ByuLoader.ParseByuSpec | byu_loader.py:39-73 | it raises "too few tokens" exactly with fewer than 2 tokens, and "bad header" exactly when a header token is not an integer. It succeeds exactly when the header converts and all triples exist and convert. Then len(vertices) = max(n, 0) and len(triangles) = max(m, 0), and each element comes from its triple. Every index is >= -1 |
| ByuLoader.ExtraTokensIgnored | byu_loader.py:49-53 | tokens beyond those read do not change a successful result |
| Camera.ConvertAll | camera.py:19-21 | `[float(p) for p in parts]` succeeds exactly when every part converts, and then gives the values in order |
| Camera.ApplyKeyValue | camera.py:53-73 | a field takes the leading values exactly when the key names it and there are enough values (3 for C, N, V; 1 for d, hx, hy); all other fields, and every field for an unknown key, are unchanged |
| Camera.Classify | camera.py:43-58 | a line is skipped exactly when it has no non-whitespace character or its first one is '#'; any other line holding '=' is a key line, whose key is the text before the first '=' of the stripped line, stripped and lower-cased (so `n`, `N` and ` N ` all name the normal), and whose values are the floats of the text after it; a plain line's tokens together are its non-whitespace characters |
| Camera.Positional | camera.py:80-94 | with at least 12 numbers that all convert, the fields take them in the order N, V, d, hx, hy, C; otherwise the camera is unchanged |
| Camera.FixZero | camera.py:98-104 | afterwards N and V are not zero. A zero N or V becomes the default, and every other field is unchanged |
| Camera.Step | camera.py:43-78 | one iteration of the line loop on a classified line, with no contract of its own; StepEffect states its effect |
| Camera.StepEffect | camera.py:43-78 | one line raises only for a key line with a value `float` rejects; a key line sets the flag, only a key line changes the camera, and only a plain line adds its tokens after those collected so far |
| Camera.ScanLines | camera.py:41-78 | `Step` over the classified lines in order from the defaults, stopping at the first failure, with no contract of its own; ScanFailure, ScanCollects and LastAssignmentWins characterise it |
| Camera.LoadCamera | camera.py:23-111 | a loaded camera never has a zero N or V; LoadCameraSpec and LoadCameraField state the rest |
| Camera.ReadLine | camera.py:43-78 | one iteration of the line loop computes exactly the `Step` for the classified line |
| Camera.Dispatch | camera.py:53-73 | the `if`/`elif` chain on the key computes exactly `ApplyKeyValue` |
| Camera.Extend | camera.py:76-78 | appending the parts one by one gives the tokens followed by the parts |
| Camera.Finish | camera.py:80-104 | the code after the loop computes the positional form when no key line was seen, then the zero-vector fix-up |
| Camera.LoadCameraLines | camera.py:31-111 | `load_camera` on the lines of an existing file computes exactly `LoadCamera` |
| Camera.ScanFailureSticks | camera.py:41-52 | once the loop has raised on a prefix of the lines, it raises |
| Camera.KeyCaseInsensitive | camera.py:50-51 | a key selects a field exactly when each of its characters is that field's key letter in lower or upper case |
| Camera.StepField | camera.py:53-73 | one line changes a field only when it assigns it, and then to its leading values |
| Camera.LastAssignmentWins | camera.py:41-73 | the last line that assigns a field decides that field's value |
| Camera.UnassignedKeepsDefault | camera.py:31-73 | a field no line assigns keeps its default |
| Camera.ScanFailure | camera.py:48-52 | loading raises exactly when some `KEY = values` line has a value `float` rejects, whatever its key |
| Camera.ScanCollects | camera.py:41-78 | the key-value flag is set exactly when some line is a `KEY = values` line; the tokens are those of the plain lines, in order |
| Camera.LoadCameraSpec | camera.py:80-104 | it raises exactly on a bad value. Without key lines, the result is the positional form over the defaults. With key lines, it is the scanned camera. In both cases N and V are fixed up and never zero |
| Camera.LoadCameraField | camera.py:41-104 | the last assignment of a field is its final value, except that a zero N or V becomes the default |
| Camera.FixZeroField | camera.py:98-104 | the fix-up seen through one field: only a zero N or V changes, to the default |

## Left out

- File access is not modelled: opening, the existence checks and the `_from_file` flag. `load_byu` and `load_camera` take the lines of an existing file. A missing camera file, which yields the defaults, is not modelled.
- `int(token)` and `float(token)` are parameters. Conversions of `nan` and `inf` have no counterpart in exact reals.
- All floating-point rounding is out: the model uses exact reals. The `1e-9` thresholds are kept as exact constants.
- `normalize`, `length`, `is_zero_vec` and `compute_camera_basis` in transform.py are not modelled: they need `sqrt` and floating-point tolerances. `Frame.BuildFrame` takes the basis as a parameter.
- Transform.ViewRoundTrip: assumes an orthonormal basis, which `compute_camera_basis` produces only approximately in floating point.
- A `None` Zv cannot occur: view points are always three numbers. The `None` checks in `project_perspective` and `world_view_to_screen_list` therefore have no counterpart. The `None` pass-through of `to_ndc` is modelled with `Option`.
- `world_view_to_screen_list` reads d, hx and hy from the camera dict with defaults. The model takes them as parameters.
- The projection records always carry `pixel` and `visible`, so the `.get` defaults in `rasterize_mesh` are not needed.
- Frame.UnionPixels: visits the keys 0 .. count - 1 instead of the dict's values. It requires those to be exactly the keys, which holds for the map `rasterize_mesh` builds.
- Messages of raised errors are not modelled. The fault values name the cause, and for the mesh loader also the 1-based vertex or triangle number.
- The `expected_tokens` check in `load_byu` does nothing and is not modelled.
- The `float(...)` re-conversions of d, hx and hy at the end of `load_camera` do nothing on reals and are not modelled.
- Text.Lower: maps only A-Z. No other character lower-cases to a letter of the camera keys, so which keys match is unchanged.
- Debug printing in `build_frame` is not modelled.
- display.py, the event loop, the keyboard and mouse handling, screenshots, file selection and the `quick_test*`/`pretty_print_camera` helpers are not part of this model. They are I/O and UI.
