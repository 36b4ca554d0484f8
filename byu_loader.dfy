/**
 * The token stage of the BYU mesh loader (byu_loader.py): the lines of the
 * file become a token list (blank and `#` lines skipped), then a header
 * `n m`, `n` vertex triples and `m` triangle triples are read from it with a
 * cursor. Triangle indices are made positive with `abs` and turned 0-based.
 *
 * The conversions `int(token)` and `float(token)` are parameters: each maps a
 * token to `Some(value)`, or to `None` where Python raises `ValueError`.
 */
module ByuLoader {
  import opened Wrappers
  import opened Numeric
  import opened Text
  import opened Transform

  /** What the loader raises. The vertex and triangle numbers are 1-based, as
      in the messages. */
  datatype ByuFault =
    | TooFewTokens               // fewer than two tokens in the file
    | BadHeader                  // a header token is not an integer
    | IncompleteVertex(k: int)   // fewer than three tokens left for vertex k
    | IncompleteTriangle(k: int) // fewer than three tokens left for triangle k
    | BadNumber(position: int)   // the token at this position does not convert

  datatype Mesh = Mesh(vertices: seq<Vec3>, triangles: seq<(int, int, int)>)

  // ---------------------------------------------------------------------------
  // Tokens

  /** The tokens of one line: none for a blank line or a comment, otherwise
      the whitespace-separated parts of the stripped line. */
  function LineTokens(raw: string): (r: seq<string>)
    ensures forall t :: t in r ==> t != [] && NoSpace(t)
  {
    var line := Strip(raw);
    if line == [] || line[0] == '#' then [] else Split(line)
  }

  /** `f` applied to each line, the results concatenated in order. */
  function ConcatMap(f: string -> seq<string>, lines: seq<string>): seq<string>
    decreases |lines|
  {
    if lines == [] then [] else ConcatMap(f, lines[..|lines| - 1]) + f(lines[|lines| - 1])
  }

  /** The tokens of all lines, in order. */
  function TokensOf(lines: seq<string>): seq<string> {
    ConcatMap(LineTokens, lines)
  }

  /** The reading loop of `load_byu`. */
  method CollectTokens(lines: seq<string>) returns (tokens: seq<string>)
    ensures tokens == TokensOf(lines)
  {
    tokens := [];
    for i := 0 to |lines|
      invariant tokens == TokensOf(lines[..i])
    {
      assert lines[..i + 1][..i] == lines[..i];
      var line := Strip(lines[i]);
      if line == [] {
        continue;
      }
      if line[0] == '#' {
        continue;
      }
      var parts := Split(line);
      tokens := tokens + parts;
    }
    assert lines[..|lines|] == lines;
  }

  /** Consecutive blocks of lines give consecutive runs of tokens. */
  lemma {:induction false} ConcatMapAppend(f: string -> seq<string>, a: seq<string>, b: seq<string>)
    ensures ConcatMap(f, a + b) == ConcatMap(f, a) + ConcatMap(f, b)
    decreases |b|
  {
    if b == [] {
      assert a + b == a;
    } else {
      var b' := b[..|b| - 1];
      var last := b[|b| - 1];
      DropLast(a, b);
      ConcatMapAppend(f, a, b');
      assert ConcatMap(f, a + b) == ConcatMap(f, a + b') + f(last);
      assert ConcatMap(f, b) == ConcatMap(f, b') + f(last);
    }
  }

  /** The last element of `a + b` is the last of `b`, and what comes before
      it is `a` followed by the front of `b`. */
  lemma DropLast(a: seq<string>, b: seq<string>)
    requires b != []
    ensures (a + b)[..|a + b| - 1] == a + b[..|b| - 1]
    ensures (a + b)[|a + b| - 1] == b[|b| - 1]
  {
  }

  /** Every result of `ConcatMap` comes from one line. */
  lemma {:induction false} ConcatMapMembership(f: string -> seq<string>, lines: seq<string>, t: string)
    requires t in ConcatMap(f, lines)
    ensures exists i :: 0 <= i < |lines| && t in f(lines[i])
    decreases |lines|
  {
    var front := lines[..|lines| - 1];
    if t in ConcatMap(f, front) {
      ConcatMapMembership(f, front, t);
      var i :| 0 <= i < |front| && t in f(front[i]);
      assert front[i] == lines[i];
    } else {
      assert t in f(lines[|lines| - 1]);
    }
  }

  /** The tokens of consecutive blocks of lines follow each other. */
  lemma TokensOfAppend(a: seq<string>, b: seq<string>)
    ensures TokensOf(a + b) == TokensOf(a) + TokensOf(b)
  {
    ConcatMapAppend(LineTokens, a, b);
  }

  /** Every token is a non-empty word without whitespace. */
  lemma TokensAreWords(lines: seq<string>, t: string)
    requires t in TokensOf(lines)
    ensures t != [] && NoSpace(t)
  {
    ConcatMapMembership(LineTokens, lines, t);
  }

  /** A blank or all-whitespace line gives no tokens, and so does a comment,
      a line whose first non-whitespace character is '#'; any other line
      gives exactly its non-whitespace characters. */
  lemma LineTokensKeepText(raw: string)
    ensures AllSpace(raw) ==> LineTokens(raw) == []
    ensures NonSpace(raw) != [] && NonSpace(raw)[0] == '#' ==> LineTokens(raw) == []
    ensures !AllSpace(raw) && Strip(raw)[0] != '#' ==> Concat(LineTokens(raw)) == NonSpace(raw)
  {
    StripFirst(raw);
    StripEmpty(raw);
    StripKeepsText(raw);
    SplitKeepsText(Strip(raw));
  }

  // ---------------------------------------------------------------------------
  // Reading vertices and triangles

  /** The three floats at `idx`, `idx + 1`, `idx + 2`, converted in order. */
  function ReadVertex(tokens: seq<string>, idx: int, parseFloat: string -> Option<real>): Result<Vec3, ByuFault>
    requires 0 <= idx && idx + 2 < |tokens|
  {
    match (parseFloat(tokens[idx]), parseFloat(tokens[idx + 1]), parseFloat(tokens[idx + 2]))
    case (None, _, _) => Failure(BadNumber(idx))
    case (Some(_), None, _) => Failure(BadNumber(idx + 1))
    case (Some(_), Some(_), None) => Failure(BadNumber(idx + 2))
    case (Some(x), Some(y), Some(z)) => Success(Vec3(x, y, z))
  }

  /** The first `count` vertices, read from position 2 on. */
  function ReadVertices(tokens: seq<string>, count: nat, parseFloat: string -> Option<real>)
    : Result<seq<Vec3>, ByuFault>
    decreases count
  {
    if count == 0 then Success([])
    else
      match ReadVertices(tokens, count - 1, parseFloat)
      case Failure(e) => Failure(e)
      case Success(vs) =>
        var idx := 2 + 3 * (count - 1);
        if idx + 2 >= |tokens| then Failure(IncompleteVertex(count))
        else
          match ReadVertex(tokens, idx, parseFloat)
          case Failure(e) => Failure(e)
          case Success(v) => Success(vs + [v])
  }

  /** A file index made 0-based: its sign dropped, then 1 subtracted. */
  function ZeroBased(i: int): (r: int)
    ensures r >= -1 && (i >= 1 ==> r == i - 1) && (i <= -1 ==> r == -i - 1) && (i == 0 ==> r == -1)
  {
    IntAbs(i) - 1
  }

  /** The three indices at `idx`, `idx + 1`, `idx + 2`, converted in order. */
  function ReadTriangle(tokens: seq<string>, idx: int, parseInt: string -> Option<int>): Result<(int, int, int), ByuFault>
    requires 0 <= idx && idx + 2 < |tokens|
  {
    match (parseInt(tokens[idx]), parseInt(tokens[idx + 1]), parseInt(tokens[idx + 2]))
    case (None, _, _) => Failure(BadNumber(idx))
    case (Some(_), None, _) => Failure(BadNumber(idx + 1))
    case (Some(_), Some(_), None) => Failure(BadNumber(idx + 2))
    case (Some(a), Some(b), Some(c)) => Success((ZeroBased(a), ZeroBased(b), ZeroBased(c)))
  }

  /** The first `count` triangles, read right after `nv` vertices. */
  function ReadTriangles(tokens: seq<string>, nv: nat, count: nat, parseInt: string -> Option<int>)
    : Result<seq<(int, int, int)>, ByuFault>
    decreases count
  {
    if count == 0 then Success([])
    else
      match ReadTriangles(tokens, nv, count - 1, parseInt)
      case Failure(e) => Failure(e)
      case Success(ts) =>
        var idx := 2 + 3 * nv + 3 * (count - 1);
        if idx + 2 >= |tokens| then Failure(IncompleteTriangle(count))
        else
          match ReadTriangle(tokens, idx, parseInt)
          case Failure(e) => Failure(e)
          case Success(t) => Success(ts + [t])
  }

  /** Python's `range(n)` runs `max(n, 0)` times. */
  function Count(n: int): (c: nat)
    ensures c == IntMax(n, 0)
  {
    if n < 0 then 0 else n
  }

  /** The whole token stage: header, vertices, then triangles right after the
      vertices. Tokens past the last triangle are not looked at. */
  function ParseByu(tokens: seq<string>, parseInt: string -> Option<int>, parseFloat: string -> Option<real>)
    : Result<Mesh, ByuFault>
  {
    if |tokens| < 2 then Failure(TooFewTokens)
    else if parseInt(tokens[0]).None? || parseInt(tokens[1]).None? then Failure(BadHeader)
    else
      var nv := Count(parseInt(tokens[0]).value);
      var nt := Count(parseInt(tokens[1]).value);
      match ReadVertices(tokens, nv, parseFloat)
      case Failure(e) => Failure(e)
      case Success(vs) =>
        match ReadTriangles(tokens, nv, nt, parseInt)
        case Failure(e) => Failure(e)
        case Success(ts) => Success(Mesh(vs, ts))
  }

  /** `load_byu` after the file is read. */
  function LoadByu(lines: seq<string>, parseInt: string -> Option<int>, parseFloat: string -> Option<real>)
    : Result<Mesh, ByuFault>
  {
    ParseByu(TokensOf(lines), parseInt, parseFloat)
  }

  // ---------------------------------------------------------------------------
  // The reading loops

  /** Once reading the first `k` vertices fails, reading more fails the same way. */
  lemma {:induction false} ReadVerticesSticks(tokens: seq<string>, k: nat, n: nat, parseFloat: string -> Option<real>)
    requires k <= n && ReadVertices(tokens, k, parseFloat).Failure?
    ensures ReadVertices(tokens, n, parseFloat) == ReadVertices(tokens, k, parseFloat)
    decreases n
  {
    if k < n {
      ReadVerticesSticks(tokens, k, n - 1, parseFloat);
    }
  }

  lemma {:induction false} ReadTrianglesSticks(tokens: seq<string>, nv: nat, k: nat, n: nat, parseInt: string -> Option<int>)
    requires k <= n && ReadTriangles(tokens, nv, k, parseInt).Failure?
    ensures ReadTriangles(tokens, nv, n, parseInt) == ReadTriangles(tokens, nv, k, parseInt)
    decreases n
  {
    if k < n {
      ReadTrianglesSticks(tokens, nv, k, n - 1, parseInt);
    }
  }

  /** `x = float(tokens[idx]); y = ...; z = ...` */
  method ConvertVertex(tokens: seq<string>, idx: int, parseFloat: string -> Option<real>) returns (r: Result<Vec3, ByuFault>)
    requires 0 <= idx && idx + 2 < |tokens|
    ensures r == ReadVertex(tokens, idx, parseFloat)
  {
    var x := parseFloat(tokens[idx]);
    if x.None? {
      return Failure(BadNumber(idx));
    }
    var y := parseFloat(tokens[idx + 1]);
    if y.None? {
      return Failure(BadNumber(idx + 1));
    }
    var z := parseFloat(tokens[idx + 2]);
    if z.None? {
      return Failure(BadNumber(idx + 2));
    }
    r := Success(Vec3(x.value, y.value, z.value));
  }

  /** `i1 = int(tokens[idx]); ...`, then `abs` and 0-based. */
  method ConvertTriangle(tokens: seq<string>, idx: int, parseInt: string -> Option<int>) returns (r: Result<(int, int, int), ByuFault>)
    requires 0 <= idx && idx + 2 < |tokens|
    ensures r == ReadTriangle(tokens, idx, parseInt)
  {
    var a := parseInt(tokens[idx]);
    if a.None? {
      return Failure(BadNumber(idx));
    }
    var b := parseInt(tokens[idx + 1]);
    if b.None? {
      return Failure(BadNumber(idx + 1));
    }
    var c := parseInt(tokens[idx + 2]);
    if c.None? {
      return Failure(BadNumber(idx + 2));
    }
    r := Success((ZeroBased(a.value), ZeroBased(b.value), ZeroBased(c.value)));
  }

  /** The vertex loop of `load_byu`: `n` triples of floats from position 2. */
  method ReadVertexLoop(tokens: seq<string>, n: int, parseFloat: string -> Option<real>)
    returns (r: Result<seq<Vec3>, ByuFault>)
    ensures r == ReadVertices(tokens, Count(n), parseFloat)
  {
    var vertices: seq<Vec3> := [];
    var idx := 2;
    var i := 0;
    while i < n
      invariant 0 <= i <= Count(n)
      invariant idx == 2 + 3 * i
      invariant ReadVertices(tokens, i, parseFloat) == Success(vertices)
    {
      if idx + 2 >= |tokens| {
        ReadVerticesSticks(tokens, i + 1, Count(n), parseFloat);
        return Failure(IncompleteVertex(i + 1));
      }
      var v := ConvertVertex(tokens, idx, parseFloat);
      if v.Failure? {
        ReadVerticesSticks(tokens, i + 1, Count(n), parseFloat);
        return Failure(v.error);
      }
      assert ReadVertices(tokens, i + 1, parseFloat) == Success(vertices + [v.value]);
      vertices := vertices + [v.value];
      idx := idx + 3;
      i := i + 1;
    }
    r := Success(vertices);
  }

  /** The triangle loop of `load_byu`: `n` triples of indices right after
      `nv` vertices, each made 0-based. */
  method ReadTriangleLoop(tokens: seq<string>, nv: nat, n: int, parseInt: string -> Option<int>)
    returns (r: Result<seq<(int, int, int)>, ByuFault>)
    ensures r == ReadTriangles(tokens, nv, Count(n), parseInt)
  {
    var triangles: seq<(int, int, int)> := [];
    var idx := 2 + 3 * nv;
    var j := 0;
    while j < n
      invariant 0 <= j <= Count(n)
      invariant idx == 2 + 3 * nv + 3 * j
      invariant ReadTriangles(tokens, nv, j, parseInt) == Success(triangles)
    {
      if idx + 2 >= |tokens| {
        ReadTrianglesSticks(tokens, nv, j + 1, Count(n), parseInt);
        return Failure(IncompleteTriangle(j + 1));
      }
      var t := ConvertTriangle(tokens, idx, parseInt);
      if t.Failure? {
        ReadTrianglesSticks(tokens, nv, j + 1, Count(n), parseInt);
        return Failure(t.error);
      }
      assert ReadTriangles(tokens, nv, j + 1, parseInt) == Success(triangles + [t.value]);
      triangles := triangles + [t.value];
      idx := idx + 3;
      j := j + 1;
    }
    r := Success(triangles);
  }

  /** The token-list part of `load_byu`: header, vertices, triangles. */
  method ReadMesh(tokens: seq<string>, parseInt: string -> Option<int>, parseFloat: string -> Option<real>)
    returns (r: Result<Mesh, ByuFault>)
    ensures r == ParseByu(tokens, parseInt, parseFloat)
  {
    if |tokens| < 2 {
      return Failure(TooFewTokens);
    }
    var header0, header1 := parseInt(tokens[0]), parseInt(tokens[1]);
    if header0.None? || header1.None? {
      return Failure(BadHeader);
    }
    var nVertices, nTriangles := header0.value, header1.value;
    var vertices := ReadVertexLoop(tokens, nVertices, parseFloat);
    if vertices.Failure? {
      return Failure(vertices.error);
    }
    var triangles := ReadTriangleLoop(tokens, Count(nVertices), nTriangles, parseInt);
    if triangles.Failure? {
      return Failure(triangles.error);
    }
    r := Success(Mesh(vertices.value, triangles.value));
  }

  /** `load_byu` after the file is read: the tokens, then the mesh. */
  method LoadByuLines(lines: seq<string>, parseInt: string -> Option<int>, parseFloat: string -> Option<real>)
    returns (r: Result<Mesh, ByuFault>)
    ensures r == LoadByu(lines, parseInt, parseFloat)
  {
    var tokens := CollectTokens(lines);
    r := ReadMesh(tokens, parseInt, parseFloat);
  }

  // ---------------------------------------------------------------------------
  // What the token stage accepts and what it builds

  /** The three tokens at `idx` exist and convert. */
  predicate Converts<T>(conv: string -> Option<T>, tokens: seq<string>, idx: int) {
    0 <= idx && idx + 2 < |tokens| &&
    conv(tokens[idx]).Some? && conv(tokens[idx + 1]).Some? && conv(tokens[idx + 2]).Some?
  }

  /** Vertex `k` (0-based) sits at tokens 2 + 3k .. 2 + 3k + 2. */
  predicate VertexConverts(tokens: seq<string>, k: int, parseFloat: string -> Option<real>) {
    Converts(parseFloat, tokens, 2 + 3 * k)
  }

  function VertexAt(tokens: seq<string>, k: int, parseFloat: string -> Option<real>): Vec3
    requires VertexConverts(tokens, k, parseFloat)
  {
    var idx := 2 + 3 * k;
    Vec3(parseFloat(tokens[idx]).value, parseFloat(tokens[idx + 1]).value, parseFloat(tokens[idx + 2]).value)
  }

  /** Triangle `j` (0-based) sits right after the `nv` vertices, at tokens
      2 + 3nv + 3j .. 2 + 3nv + 3j + 2. */
  predicate TriangleConverts(tokens: seq<string>, nv: int, j: int, parseInt: string -> Option<int>) {
    Converts(parseInt, tokens, 2 + 3 * nv + 3 * j)
  }

  function TriangleAt(tokens: seq<string>, nv: int, j: int, parseInt: string -> Option<int>): (int, int, int)
    requires TriangleConverts(tokens, nv, j, parseInt)
  {
    var idx := 2 + 3 * nv + 3 * j;
    (ZeroBased(parseInt(tokens[idx]).value), ZeroBased(parseInt(tokens[idx + 1]).value),
     ZeroBased(parseInt(tokens[idx + 2]).value))
  }

  /** Reading `count` vertices succeeds exactly when each of their triples
      exists and converts, and then gives vertex k from tokens 2 + 3k on. */
  lemma {:induction false} ReadVerticesSpec(tokens: seq<string>, count: nat, parseFloat: string -> Option<real>)
    ensures ReadVertices(tokens, count, parseFloat).Success? <==>
      forall k :: 0 <= k < count ==> VertexConverts(tokens, k, parseFloat)
    ensures ReadVertices(tokens, count, parseFloat).Success? ==>
      var vs := ReadVertices(tokens, count, parseFloat).value;
      |vs| == count && forall k :: 0 <= k < count ==> vs[k] == VertexAt(tokens, k, parseFloat)
    decreases count
  {
    if count > 0 {
      ReadVerticesSpec(tokens, count - 1, parseFloat);
      if ReadVertices(tokens, count, parseFloat).Success? {
        var vs := ReadVertices(tokens, count - 1, parseFloat).value;
        assert forall k :: 0 <= k < count - 1 ==> (vs + [VertexAt(tokens, count - 1, parseFloat)])[k] == vs[k];
      } else if ReadVertices(tokens, count - 1, parseFloat).Success? {
        assert !VertexConverts(tokens, count - 1, parseFloat);
      }
    }
  }

  lemma {:induction false} ReadTrianglesSpec(tokens: seq<string>, nv: nat, count: nat, parseInt: string -> Option<int>)
    ensures ReadTriangles(tokens, nv, count, parseInt).Success? <==>
      forall j :: 0 <= j < count ==> TriangleConverts(tokens, nv, j, parseInt)
    ensures ReadTriangles(tokens, nv, count, parseInt).Success? ==>
      var ts := ReadTriangles(tokens, nv, count, parseInt).value;
      |ts| == count && forall j :: 0 <= j < count ==> ts[j] == TriangleAt(tokens, nv, j, parseInt)
    decreases count
  {
    if count > 0 {
      ReadTrianglesSpec(tokens, nv, count - 1, parseInt);
      if ReadTriangles(tokens, nv, count, parseInt).Success? {
        var ts := ReadTriangles(tokens, nv, count - 1, parseInt).value;
        assert forall j :: 0 <= j < count - 1 ==> (ts + [TriangleAt(tokens, nv, count - 1, parseInt)])[j] == ts[j];
      } else if ReadTriangles(tokens, nv, count - 1, parseInt).Success? {
        assert !TriangleConverts(tokens, nv, count - 1, parseInt);
      }
    }
  }

  /** What a vertex fault among the first `count` vertices means: the first
      vertex that cannot be read either has fewer than three tokens left at
      its cursor ("incomplete"), or has a whole triple whose first rejected
      token is named. Every vertex before it converts. */
  predicate VertexFault(tokens: seq<string>, count: int, parseFloat: string -> Option<real>, e: ByuFault) {
    match e
    case IncompleteVertex(k) =>
      && 1 <= k <= count && 2 + 3 * (k - 1) <= |tokens| < 2 + 3 * k
      && forall j :: 0 <= j < k - 1 ==> VertexConverts(tokens, j, parseFloat)
    case BadNumber(p) =>
      var k := (p - 2) / 3;
      && 2 <= p < |tokens| && 0 <= k < count && 2 + 3 * k + 2 < |tokens|
      && parseFloat(tokens[p]).None?
      && (forall q :: 2 + 3 * k <= q < p ==> parseFloat(tokens[q]).Some?)
      && forall j :: 0 <= j < k ==> VertexConverts(tokens, j, parseFloat)
    case _ => false
  }

  /** The same for triangles, whose cursor starts right after the `nv`
      vertices. */
  predicate TriangleFault(tokens: seq<string>, nv: nat, count: int, parseInt: string -> Option<int>, e: ByuFault) {
    match e
    case IncompleteTriangle(k) =>
      && 1 <= k <= count && 2 + 3 * nv + 3 * (k - 1) <= |tokens| < 2 + 3 * nv + 3 * k
      && forall j :: 0 <= j < k - 1 ==> TriangleConverts(tokens, nv, j, parseInt)
    case BadNumber(p) =>
      var k := (p - 2 - 3 * nv) / 3;
      && 2 + 3 * nv <= p < |tokens| && 0 <= k < count && 2 + 3 * nv + 3 * k + 2 < |tokens|
      && parseInt(tokens[p]).None?
      && (forall q :: 2 + 3 * nv + 3 * k <= q < p ==> parseInt(tokens[q]).Some?)
      && forall j :: 0 <= j < k ==> TriangleConverts(tokens, nv, j, parseInt)
    case _ => false
  }

  /** Reading vertices fails at the first vertex that cannot be read, with
      the fault `VertexFault` describes. */
  lemma {:induction false} ReadVerticesFailure(tokens: seq<string>, count: nat, parseFloat: string -> Option<real>)
    requires |tokens| >= 2
    requires ReadVertices(tokens, count, parseFloat).Failure?
    ensures VertexFault(tokens, count, parseFloat, ReadVertices(tokens, count, parseFloat).error)
    decreases count
  {
    if ReadVertices(tokens, count - 1, parseFloat).Failure? {
      ReadVerticesFailure(tokens, count - 1, parseFloat);
      assert ReadVertices(tokens, count, parseFloat).error == ReadVertices(tokens, count - 1, parseFloat).error;
    } else {
      LastVertexFault(tokens, count, parseFloat);
    }
  }

  /** The failing step of the vertex loop, all earlier vertices read. */
  lemma LastVertexFault(tokens: seq<string>, count: nat, parseFloat: string -> Option<real>)
    requires |tokens| >= 2 && count >= 1
    requires ReadVertices(tokens, count - 1, parseFloat).Success?
    requires ReadVertices(tokens, count, parseFloat).Failure?
    ensures VertexFault(tokens, count, parseFloat, ReadVertices(tokens, count, parseFloat).error)
  {
    ReadVerticesSpec(tokens, count - 1, parseFloat);
    var idx := 2 + 3 * (count - 1);
    if idx + 2 < |tokens| {
      FirstOfTriple(idx - 2, count - 1);
      assert ReadVertices(tokens, count, parseFloat).error == ReadVertex(tokens, idx, parseFloat).error;
    }
  }

  lemma {:induction false} ReadTrianglesFailure(tokens: seq<string>, nv: nat, count: nat, parseInt: string -> Option<int>)
    requires 2 + 3 * nv <= |tokens|
    requires ReadTriangles(tokens, nv, count, parseInt).Failure?
    ensures TriangleFault(tokens, nv, count, parseInt, ReadTriangles(tokens, nv, count, parseInt).error)
    decreases count
  {
    if ReadTriangles(tokens, nv, count - 1, parseInt).Failure? {
      ReadTrianglesFailure(tokens, nv, count - 1, parseInt);
      assert ReadTriangles(tokens, nv, count, parseInt).error == ReadTriangles(tokens, nv, count - 1, parseInt).error;
    } else {
      LastTriangleFault(tokens, nv, count, parseInt);
    }
  }

  /** The failing step of the triangle loop, all earlier triangles read. */
  lemma LastTriangleFault(tokens: seq<string>, nv: nat, count: nat, parseInt: string -> Option<int>)
    requires 2 + 3 * nv <= |tokens| && count >= 1
    requires ReadTriangles(tokens, nv, count - 1, parseInt).Success?
    requires ReadTriangles(tokens, nv, count, parseInt).Failure?
    ensures TriangleFault(tokens, nv, count, parseInt, ReadTriangles(tokens, nv, count, parseInt).error)
  {
    ReadTrianglesSpec(tokens, nv, count - 1, parseInt);
    var idx := 2 + 3 * nv + 3 * (count - 1);
    if idx + 2 < |tokens| {
      TriangleOfPosition(nv, count - 1);
      assert ReadTriangles(tokens, nv, count, parseInt).error == ReadTriangle(tokens, idx, parseInt).error;
    }
  }

  /** The three positions of triangle `k` all map back to `k`. */
  lemma TriangleOfPosition(nv: int, k: int)
    ensures var idx := 2 + 3 * nv + 3 * k;
      (idx - 2 - 3 * nv) / 3 == k && (idx + 1 - 2 - 3 * nv) / 3 == k && (idx + 2 - 2 - 3 * nv) / 3 == k
  {
    FirstOfTriple(3 * k, k);
  }

  /** A position inside the triple that starts at `3k` belongs to triple `k`. */
  lemma FirstOfTriple(start: int, k: int)
    requires start == 3 * k
    ensures start / 3 == k && (start + 1) / 3 == k && (start + 2) / 3 == k
  {
  }

  /** The header: two integer tokens. */
  predicate HeaderOk(tokens: seq<string>, parseInt: string -> Option<int>) {
    |tokens| >= 2 && parseInt(tokens[0]).Some? && parseInt(tokens[1]).Some?
  }

  /** The mesh the tokens describe is complete: every vertex and triangle
      triple named by the header exists and converts. */
  predicate Complete(tokens: seq<string>, parseInt: string -> Option<int>, parseFloat: string -> Option<real>)
    requires HeaderOk(tokens, parseInt)
  {
    var nv, nt := Count(parseInt(tokens[0]).value), Count(parseInt(tokens[1]).value);
    (forall k :: 0 <= k < nv ==> VertexConverts(tokens, k, parseFloat)) &&
    (forall j :: 0 <= j < nt ==> TriangleConverts(tokens, nv, j, parseInt))
  }

  /** The token stage succeeds exactly for a complete mesh; the result then
      has max(n, 0) vertices and max(m, 0) triangles read in file order,
      the triangles right after the vertices, every index at least -1. */
  lemma ParseByuSpec(tokens: seq<string>, parseInt: string -> Option<int>, parseFloat: string -> Option<real>)
    ensures ParseByu(tokens, parseInt, parseFloat) == Failure(TooFewTokens) <==> |tokens| < 2
    ensures ParseByu(tokens, parseInt, parseFloat) == Failure(BadHeader) <==> |tokens| >= 2 && !HeaderOk(tokens, parseInt)
    ensures ParseByu(tokens, parseInt, parseFloat).Success? <==>
      HeaderOk(tokens, parseInt) && Complete(tokens, parseInt, parseFloat)
    ensures ParseByu(tokens, parseInt, parseFloat).Success? ==>
      var m := ParseByu(tokens, parseInt, parseFloat).value;
      var nv, nt := Count(parseInt(tokens[0]).value), Count(parseInt(tokens[1]).value);
      && |m.vertices| == nv && |m.triangles| == nt
      && (forall k :: 0 <= k < nv ==> m.vertices[k] == VertexAt(tokens, k, parseFloat))
      && (forall j :: 0 <= j < nt ==> m.triangles[j] == TriangleAt(tokens, nv, j, parseInt))
      && (forall j :: 0 <= j < nt ==> m.triangles[j].0 >= -1 && m.triangles[j].1 >= -1 && m.triangles[j].2 >= -1)
  {
    if HeaderOk(tokens, parseInt) {
      var nv, nt := Count(parseInt(tokens[0]).value), Count(parseInt(tokens[1]).value);
      ReadVerticesSpec(tokens, nv, parseFloat);
      ReadTrianglesSpec(tokens, nv, nt, parseInt);
      if ReadVertices(tokens, nv, parseFloat).Failure? {
        ReadVerticesFailure(tokens, nv, parseFloat);
      } else if ReadTriangles(tokens, nv, nt, parseInt).Failure? {
        assert nv > 0 ==> VertexConverts(tokens, nv - 1, parseFloat);
        ReadTrianglesFailure(tokens, nv, nt, parseInt);
      }
    }
  }

  /** Tokens after the last triangle are ignored: appending more changes
      nothing about a successful load. */
  lemma ExtraTokensIgnored(tokens: seq<string>, extra: seq<string>,
                           parseInt: string -> Option<int>, parseFloat: string -> Option<real>)
    requires ParseByu(tokens, parseInt, parseFloat).Success?
    ensures ParseByu(tokens + extra, parseInt, parseFloat) == ParseByu(tokens, parseInt, parseFloat)
  {
    var longer := tokens + extra;
    ParseByuSpec(tokens, parseInt, parseFloat);
    ParseByuSpec(longer, parseInt, parseFloat);
    assert longer[0] == tokens[0] && longer[1] == tokens[1];
    var nv, nt := Count(parseInt(tokens[0]).value), Count(parseInt(tokens[1]).value);
    forall k | 0 <= k < nv
      ensures VertexConverts(longer, k, parseFloat) && VertexAt(longer, k, parseFloat) == VertexAt(tokens, k, parseFloat)
    {
      assert VertexConverts(tokens, k, parseFloat);
      var idx := 2 + 3 * k;
      assert longer[idx] == tokens[idx] && longer[idx + 1] == tokens[idx + 1] && longer[idx + 2] == tokens[idx + 2];
    }
    forall j | 0 <= j < nt
      ensures TriangleConverts(longer, nv, j, parseInt) &&
              TriangleAt(longer, nv, j, parseInt) == TriangleAt(tokens, nv, j, parseInt)
    {
      assert TriangleConverts(tokens, nv, j, parseInt);
      var idx := 2 + 3 * nv + 3 * j;
      assert longer[idx] == tokens[idx] && longer[idx + 1] == tokens[idx + 1] && longer[idx + 2] == tokens[idx + 2];
    }
    var m, m' := ParseByu(tokens, parseInt, parseFloat).value, ParseByu(longer, parseInt, parseFloat).value;
    assert m'.vertices == m.vertices;
    assert m'.triangles == m.triangles;
  }
}
