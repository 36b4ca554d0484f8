/**
 * The line logic of `load_camera` (camera.py): `KEY = values` lines update a
 * copy of the default camera, other lines collect tokens for the positional
 * 12-number form, which is used only when no line holds `=`. Afterwards a
 * viewing direction or up vector whose components are all below 1e-9 in
 * absolute value is replaced by the default.
 *
 * `float(token)` is a parameter: it maps a token to `Some(value)`, or to
 * `None` where Python raises `ValueError`.
 */
module Camera {
  import opened Wrappers
  import opened Numeric
  import opened Text
  import opened Transform

  datatype Camera = Camera(c: Vec3, n: Vec3, v: Vec3, d: real, hx: real, hy: real)

  /** `DEFAULT_CAMERA`. */
  const DefaultCamera := Camera(Vec3(0.0, 0.0, 5.0), Vec3(0.0, 0.0, -1.0), Vec3(0.0, 1.0, 0.0), 1.0, 1.0, 1.0)

  /** A value on the right of `=` that `float` rejects: the `ValueError` is
      not caught. */
  datatype CameraFault = BadValue

  // ---------------------------------------------------------------------------
  // Numbers

  /** Every part converted, in order, or `None` at the first part that does
      not convert. */
  function ConvertAll(parts: seq<string>, parseFloat: string -> Option<real>): (r: Option<seq<real>>)
    ensures r.Some? <==> forall i :: 0 <= i < |parts| ==> parseFloat(parts[i]).Some?
    ensures r.Some? ==> |r.value| == |parts| && forall i :: 0 <= i < |parts| ==> r.value[i] == parseFloat(parts[i]).value
    decreases |parts|
  {
    if parts == [] then Some([])
    else
      match ConvertAll(parts[..|parts| - 1], parseFloat)
      case None => None
      case Some(front) =>
        match parseFloat(parts[|parts| - 1])
        case None => None
        case Some(x) => Some(front + [x])
  }

  /** `parse_floats_from_str`. */
  function ParseFloats(s: string, parseFloat: string -> Option<real>): Option<seq<real>> {
    ConvertAll(Split(Strip(s)), parseFloat)
  }

  // ---------------------------------------------------------------------------
  // Fields and keys

  /** The six camera parameters, the key that names each and the number of
      values it takes. */
  datatype Field = C | N | V | D | Hx | Hy

  function KeyOf(f: Field): string {
    match f
    case C => "c"
    case N => "n"
    case V => "v"
    case D => "d"
    case Hx => "hx"
    case Hy => "hy"
  }

  function Arity(f: Field): nat {
    if f.C? || f.N? || f.V? then 3 else 1
  }

  /** The value of a field, as a list of numbers. */
  function Get(cam: Camera, f: Field): (r: seq<real>)
    ensures |r| == Arity(f)
  {
    match f
    case C => [cam.c.x, cam.c.y, cam.c.z]
    case N => [cam.n.x, cam.n.y, cam.n.z]
    case V => [cam.v.x, cam.v.y, cam.v.z]
    case D => [cam.d]
    case Hx => [cam.hx]
    case Hy => [cam.hy]
  }

  /** The key dispatch of one `KEY = values` line (the key already stripped
      and lower-cased): the named field takes the leading values when there
      are enough of them; anything else leaves the camera as it is. */
  function ApplyKeyValue(cam: Camera, key: string, vals: seq<real>): (r: Camera)
    ensures forall f :: Get(r, f) == if key == KeyOf(f) && |vals| >= Arity(f) then vals[..Arity(f)] else Get(cam, f)
  {
    if key == "c" then (if |vals| >= 3 then cam.(c := Vec3(vals[0], vals[1], vals[2])) else cam)
    else if key == "n" then (if |vals| >= 3 then cam.(n := Vec3(vals[0], vals[1], vals[2])) else cam)
    else if key == "v" then (if |vals| >= 3 then cam.(v := Vec3(vals[0], vals[1], vals[2])) else cam)
    else if key == "d" then (if |vals| >= 1 then cam.(d := vals[0]) else cam)
    else if key == "hx" then (if |vals| >= 1 then cam.(hx := vals[0]) else cam)
    else if key == "hy" then (if |vals| >= 1 then cam.(hy := vals[0]) else cam)
    else cam
  }

  // ---------------------------------------------------------------------------
  // Lines

  /** A line once stripped: blank or a comment, a `KEY = values` line (its key
      stripped and lower-cased, its values if `float` accepts them all), or
      plain tokens for the positional form. */
  datatype Line = Skip | KeyValue(key: string, vals: Option<seq<real>>) | Plain(tokens: seq<string>)

  /** What the reading loop makes of one raw line. A line is skipped exactly
      when it has no non-whitespace character or its first one is '#'; any
      other line holding '=' is a key line, whose key is the text before the
      first '=' of the stripped line, stripped and lower-cased, and whose
      values are the numbers after it. Plain tokens lose only whitespace. */
  function Classify(raw: string, parseFloat: string -> Option<real>): (r: Line)
    ensures r.Skip? <==> NonSpace(raw) == [] || NonSpace(raw)[0] == '#'
    ensures r.KeyValue? <==> !r.Skip? && '=' in raw
    ensures r.KeyValue? ==>
      var line := Strip(raw);
      exists i :: 0 <= i < |line| && line[i] == '=' && '=' !in line[..i] &&
        r.key == Lower(Strip(line[..i])) && r.vals == ParseFloats(line[i + 1..], parseFloat)
    ensures r.Plain? ==> Concat(r.tokens) == NonSpace(raw) && raw != [] && '=' !in raw
  {
    var line := Strip(raw);
    StripFirst(raw);
    StripKeepsChar(raw, '=');
    if line == [] || line[0] == '#' then Skip
    else if '=' in line then
      var sides := SplitOnce(line, '=');
      var i := IndexOf(line, '=');
      assert sides == (line[..i], line[i + 1..]);
      KeyValue(Lower(Strip(sides.0)), ParseFloats(sides.1, parseFloat))
    else
      StripKeepsText(raw);
      SplitKeepsText(line);
      Plain(Split(line))
  }

  /** Every line classified. */
  function ClassifyAll(lines: seq<string>, parseFloat: string -> Option<real>): (r: seq<Line>)
    ensures |r| == |lines| && forall i :: 0 <= i < |lines| ==> r[i] == Classify(lines[i], parseFloat)
  {
    seq(|lines|, i requires 0 <= i < |lines| => Classify(lines[i], parseFloat))
  }

  /** The state the reading loop carries: the camera so far, whether a
      `KEY = values` line has been seen, and the positional tokens. */
  datatype ScanState = ScanState(cam: Camera, hasKeyValue: bool, tokens: seq<string>)

  const Initial := ScanState(DefaultCamera, false, [])

  /** One iteration of the reading loop. */
  function Step(st: ScanState, line: Line): Result<ScanState, CameraFault> {
    match line
    case Skip => Success(st)
    case KeyValue(key, vals) =>
      if vals.None? then Failure(BadValue) else Success(ScanState(ApplyKeyValue(st.cam, key, vals.value), true, st.tokens))
    case Plain(ts) => Success(st.(tokens := st.tokens + ts))
  }

  /** One line raises only for a key line with a value `float` rejects; a
      key line sets the flag and only a key line changes the camera; only a
      plain line adds tokens, after the ones collected so far. */
  lemma StepEffect(st: ScanState, line: Line)
    ensures Step(st, line).Failure? <==> line.KeyValue? && line.vals.None?
    ensures Step(st, line).Success? ==>
      var next := Step(st, line).value;
      && next.hasKeyValue == (st.hasKeyValue || line.KeyValue?)
      && (!line.KeyValue? ==> next.cam == st.cam)
      && (!line.Plain? ==> next.tokens == st.tokens)
      && (line.Plain? ==> next.tokens == st.tokens + line.tokens)
  {
  }

  /** The reading loop over classified lines. */
  function ScanLines(ls: seq<Line>): Result<ScanState, CameraFault>
    decreases |ls|
  {
    if ls == [] then Success(Initial)
    else
      match ScanLines(ls[..|ls| - 1])
      case Failure(e) => Failure(e)
      case Success(st) => Step(st, ls[|ls| - 1])
  }

  function Scan(lines: seq<string>, parseFloat: string -> Option<real>): Result<ScanState, CameraFault> {
    ScanLines(ClassifyAll(lines, parseFloat))
  }

  // ---------------------------------------------------------------------------
  // After the lines

  /** The positional form: twelve numbers in the order N, V, d, hx, hy, C.
      If a token does not convert or there are fewer than twelve, the camera
      is kept. */
  function Positional(cam: Camera, tokens: seq<string>, parseFloat: string -> Option<real>): (r: Camera)
    ensures var nums := ConvertAll(tokens, parseFloat);
      if nums.Some? && |nums.value| >= 12 then
        && Get(r, N) == nums.value[0..3] && Get(r, V) == nums.value[3..6]
        && Get(r, D) == [nums.value[6]] && Get(r, Hx) == [nums.value[7]] && Get(r, Hy) == [nums.value[8]]
        && Get(r, C) == nums.value[9..12]
      else r == cam
  {
    match ConvertAll(tokens, parseFloat)
    case None => cam
    case Some(nums) =>
      if |nums| >= 12 then
        Camera(Vec3(nums[9], nums[10], nums[11]), Vec3(nums[0], nums[1], nums[2]), Vec3(nums[3], nums[4], nums[5]),
          nums[6], nums[7], nums[8])
      else cam
  }

  const Epsilon: real := 0.000000001

  /** `is_zero_vec`. */
  predicate IsZeroVec(w: Vec3) {
    Abs(w.x) < Epsilon && Abs(w.y) < Epsilon && Abs(w.z) < Epsilon
  }

  /** The fix-up: a zero viewing direction or up vector becomes the default. */
  function FixZero(cam: Camera): (r: Camera)
    ensures !IsZeroVec(r.n) && !IsZeroVec(r.v)
    ensures r.n == (if IsZeroVec(cam.n) then DefaultCamera.n else cam.n)
    ensures r.v == (if IsZeroVec(cam.v) then DefaultCamera.v else cam.v)
    ensures r.c == cam.c && r.d == cam.d && r.hx == cam.hx && r.hy == cam.hy
  {
    cam.(n := if IsZeroVec(cam.n) then DefaultCamera.n else cam.n,
         v := if IsZeroVec(cam.v) then DefaultCamera.v else cam.v)
  }

  /** `load_camera` on the lines of an existing file. */
  function LoadCamera(lines: seq<string>, parseFloat: string -> Option<real>): (r: Result<Camera, CameraFault>)
    ensures r.Success? ==> !IsZeroVec(r.value.n) && !IsZeroVec(r.value.v)
  {
    match Scan(lines, parseFloat)
    case Failure(e) => Failure(e)
    case Success(st) =>
      var cam := if st.hasKeyValue then st.cam else Positional(st.cam, st.tokens, parseFloat);
      Success(FixZero(cam))
  }

  // ---------------------------------------------------------------------------
  // The loop of load_camera

  /** Once the loop has raised on a prefix of the lines, it raises. */
  lemma {:induction false} ScanFailureSticks(ls: seq<Line>, k: nat)
    requires k <= |ls| && ScanLines(ls[..k]).Failure?
    ensures ScanLines(ls) == Failure(BadValue)
    decreases |ls| - k
  {
    if k < |ls| {
      assert ls[..k + 1][..k] == ls[..k];
      ScanFailureSticks(ls, k + 1);
    } else {
      assert ls[..k] == ls;
      match ScanLines(ls).error
      case BadValue =>
    }
  }

  /** The body of the reading loop for one line. */
  method ReadLine(cam: Camera, hasKeyValue: bool, tokens: seq<string>, raw: string, parseFloat: string -> Option<real>)
    returns (r: Result<ScanState, CameraFault>)
    ensures r == Step(ScanState(cam, hasKeyValue, tokens), Classify(raw, parseFloat))
  {
    var line := Strip(raw);
    if line == [] {
      return Success(ScanState(cam, hasKeyValue, tokens));
    }
    if line[0] == '#' {
      return Success(ScanState(cam, hasKeyValue, tokens));
    }
    if '=' in line {
      var sides := SplitOnce(line, '=');
      var key := Lower(Strip(sides.0));
      var vals := ParseFloats(sides.1, parseFloat);
      if vals.None? {
        return Failure(BadValue);
      }
      var updated := Dispatch(cam, key, vals.value);
      return Success(ScanState(updated, true, tokens));
    }
    var collected := Extend(tokens, Split(line));
    r := Success(ScanState(cam, hasKeyValue, collected));
  }

  /** The `if`/`elif` chain on the key of a `KEY = values` line. */
  method Dispatch(cam: Camera, key: string, xs: seq<real>) returns (updated: Camera)
    ensures updated == ApplyKeyValue(cam, key, xs)
  {
    updated := cam;
    if key == "c" {
      if |xs| >= 3 {
        updated := updated.(c := Vec3(xs[0], xs[1], xs[2]));
      }
    } else if key == "n" {
      if |xs| >= 3 {
        updated := updated.(n := Vec3(xs[0], xs[1], xs[2]));
      }
    } else if key == "v" {
      if |xs| >= 3 {
        updated := updated.(v := Vec3(xs[0], xs[1], xs[2]));
      }
    } else if key == "d" {
      if |xs| >= 1 {
        updated := updated.(d := xs[0]);
      }
    } else if key == "hx" {
      if |xs| >= 1 {
        updated := updated.(hx := xs[0]);
      }
    } else if key == "hy" {
      if |xs| >= 1 {
        updated := updated.(hy := xs[0]);
      }
    }
  }

  /** `tokens.extend(parts)`, one part at a time. */
  method Extend(tokens: seq<string>, parts: seq<string>) returns (collected: seq<string>)
    ensures collected == tokens + parts
  {
    collected := tokens;
    for k := 0 to |parts|
      invariant collected == tokens + parts[..k]
    {
      collected := collected + [parts[k]];
    }
    assert parts[..|parts|] == parts;
  }

  /** `load_camera` on the lines of an existing file. */
  method LoadCameraLines(lines: seq<string>, parseFloat: string -> Option<real>) returns (r: Result<Camera, CameraFault>)
    ensures r == LoadCamera(lines, parseFloat)
  {
    ghost var ls := ClassifyAll(lines, parseFloat);
    var cam := DefaultCamera;
    var tokens: seq<string> := [];
    var hasKeyValue := false;
    for i := 0 to |lines|
      invariant ScanLines(ls[..i]) == Success(ScanState(cam, hasKeyValue, tokens))
    {
      assert ls[..i + 1][..i] == ls[..i];
      var next := ReadLine(cam, hasKeyValue, tokens, lines[i], parseFloat);
      if next.Failure? {
        ScanFailureSticks(ls, i + 1);
        return Failure(BadValue);
      }
      cam, hasKeyValue, tokens := next.value.cam, next.value.hasKeyValue, next.value.tokens;
    }
    assert ls[..|lines|] == ls;
    cam := Finish(cam, hasKeyValue, tokens, parseFloat);
    r := Success(cam);
  }

  /** What follows the loop: the positional form when no `KEY = values` line
      was seen, then the fix-up of zero vectors. */
  method Finish(cam: Camera, hasKeyValue: bool, tokens: seq<string>, parseFloat: string -> Option<real>)
    returns (r: Camera)
    ensures r == FixZero(if hasKeyValue then cam else Positional(cam, tokens, parseFloat))
  {
    r := cam;
    if !hasKeyValue {
      var nums := ConvertAll(tokens, parseFloat);
      if nums.Some? && |nums.value| >= 12 {
        var xs := nums.value;
        r := Camera(Vec3(xs[9], xs[10], xs[11]), Vec3(xs[0], xs[1], xs[2]), Vec3(xs[3], xs[4], xs[5]),
          xs[6], xs[7], xs[8]);
      }
    }
    if IsZeroVec(r.n) {
      r := r.(n := DefaultCamera.n);
    }
    if IsZeroVec(r.v) {
      r := r.(v := DefaultCamera.v);
    }
  }

  // ---------------------------------------------------------------------------
  // What the lines decide

  /** A `KEY = values` line that sets field `f`: its key names `f` and it has
      enough values. */
  predicate Assigns(line: Line, f: Field) {
    line.KeyValue? && line.key == KeyOf(f) && line.vals.Some? && |line.vals.value| >= Arity(f)
  }

  /** A `KEY = values` line on which `float` raises. */
  predicate BadLine(line: Line) {
    line.KeyValue? && line.vals.None?
  }

  /** The tokens of the plain lines, in order. */
  function PlainTokens(ls: seq<Line>): seq<string>
    decreases |ls|
  {
    if ls == [] then []
    else PlainTokens(ls[..|ls| - 1]) + (if ls[|ls| - 1].Plain? then ls[|ls| - 1].tokens else [])
  }

  /** Keys are case-insensitive: a key selects field `f` exactly when each of
      its characters is the key's letter or that letter's capital. */
  lemma KeyCaseInsensitive(key: string, f: Field)
    ensures Lower(key) == KeyOf(f) <==>
      && |key| == |KeyOf(f)|
      && forall i :: 0 <= i < |key| ==> key[i] == KeyOf(f)[i] || key[i] as int == KeyOf(f)[i] as int - 32
  {
    var name := KeyOf(f);
    assert forall i :: 0 <= i < |name| ==> 'a' <= name[i] <= 'z';
    if |key| == |name| && forall i :: 0 <= i < |key| ==> key[i] == name[i] || key[i] as int == name[i] as int - 32 {
      assert forall i :: 0 <= i < |key| ==> Lower(key)[i] == name[i];
    }
  }

  /** One line changes field `f` only when it assigns it, and then to its
      leading values. */
  lemma StepField(st: ScanState, line: Line, f: Field)
    requires Step(st, line).Success?
    ensures Get(Step(st, line).value.cam, f) == if Assigns(line, f) then line.vals.value[..Arity(f)] else Get(st.cam, f)
  {
  }

  /** The last line that assigns a field decides its value. */
  lemma {:induction false} LastAssignmentWins(ls: seq<Line>, f: Field, k: int)
    requires ScanLines(ls).Success?
    requires 0 <= k < |ls| && Assigns(ls[k], f)
    requires forall j :: k < j < |ls| ==> !Assigns(ls[j], f)
    ensures Get(ScanLines(ls).value.cam, f) == ls[k].vals.value[..Arity(f)]
    decreases |ls|
  {
    var front := ls[..|ls| - 1];
    StepField(ScanLines(front).value, ls[|ls| - 1], f);
    if k < |ls| - 1 {
      assert front[k] == ls[k];
      LastAssignmentWins(front, f, k);
    }
  }

  /** A field no line assigns keeps its default. */
  lemma {:induction false} UnassignedKeepsDefault(ls: seq<Line>, f: Field)
    requires ScanLines(ls).Success?
    requires forall j :: 0 <= j < |ls| ==> !Assigns(ls[j], f)
    ensures Get(ScanLines(ls).value.cam, f) == Get(DefaultCamera, f)
    decreases |ls|
  {
    if ls != [] {
      var front := ls[..|ls| - 1];
      StepField(ScanLines(front).value, ls[|ls| - 1], f);
      assert forall j :: 0 <= j < |front| ==> front[j] == ls[j];
      UnassignedKeepsDefault(front, f);
    }
  }

  /** The loop raises exactly when some `KEY = values` line has a value
      `float` rejects. */
  lemma {:induction false} ScanFailure(ls: seq<Line>)
    ensures ScanLines(ls).Failure? <==> exists k :: 0 <= k < |ls| && BadLine(ls[k])
    decreases |ls|
  {
    if ls != [] {
      var front := ls[..|ls| - 1];
      ScanFailure(front);
      assert forall j :: 0 <= j < |front| ==> front[j] == ls[j];
      if ScanLines(front).Failure? {
        var k :| 0 <= k < |front| && BadLine(front[k]);
        assert BadLine(ls[k]);
      } else if ScanLines(ls).Failure? {
        assert BadLine(ls[|ls| - 1]);
      } else {
        assert !BadLine(ls[|ls| - 1]);
      }
    }
  }

  /** What the loop collects when it does not raise: whether a `KEY = values`
      line was seen, and the tokens of the plain lines in order. */
  lemma {:induction false} ScanCollects(ls: seq<Line>)
    requires ScanLines(ls).Success?
    ensures ScanLines(ls).value.hasKeyValue <==> exists k :: 0 <= k < |ls| && ls[k].KeyValue?
    ensures ScanLines(ls).value.tokens == PlainTokens(ls)
    decreases |ls|
  {
    if ls != [] {
      var front := ls[..|ls| - 1];
      ScanCollects(front);
      assert forall j :: 0 <= j < |front| ==> front[j] == ls[j];
      if ScanLines(front).value.hasKeyValue {
        var k :| 0 <= k < |front| && front[k].KeyValue?;
        assert ls[k].KeyValue?;
      }
    }
  }

  /** `load_camera` as a whole: it raises exactly on a bad value; the
      positional form is read only from a file with no `KEY = values` line;
      the viewing direction and up vector it returns are never zero. */
  lemma LoadCameraSpec(lines: seq<string>, parseFloat: string -> Option<real>)
    ensures var ls := ClassifyAll(lines, parseFloat);
      && (LoadCamera(lines, parseFloat).Failure? <==> exists k :: 0 <= k < |ls| && BadLine(ls[k]))
      && (LoadCamera(lines, parseFloat).Success? ==>
            !IsZeroVec(LoadCamera(lines, parseFloat).value.n) && !IsZeroVec(LoadCamera(lines, parseFloat).value.v))
      && (LoadCamera(lines, parseFloat).Success? && (forall k :: 0 <= k < |ls| ==> !ls[k].KeyValue?) ==>
            LoadCamera(lines, parseFloat).value == FixZero(Positional(DefaultCamera, PlainTokens(ls), parseFloat)))
      && (LoadCamera(lines, parseFloat).Success? && (exists k :: 0 <= k < |ls| && ls[k].KeyValue?) ==>
            LoadCamera(lines, parseFloat).value == FixZero(ScanLines(ls).value.cam))
  {
    var ls := ClassifyAll(lines, parseFloat);
    ScanFailure(ls);
    if ScanLines(ls).Success? {
      ScanCollects(ls);
      if !ScanLines(ls).value.hasKeyValue {
        UnassignedKeepsDefault(ls, C);
        UnassignedKeepsDefault(ls, N);
        UnassignedKeepsDefault(ls, V);
        UnassignedKeepsDefault(ls, D);
        UnassignedKeepsDefault(ls, Hx);
        UnassignedKeepsDefault(ls, Hy);
      }
    }
  }

  /** In a file with `KEY = values` lines, the last line that assigns a field
      decides the camera's value of it; only a zero viewing direction or up
      vector is put back to the default. */
  lemma LoadCameraField(lines: seq<string>, parseFloat: string -> Option<real>, f: Field, k: int)
    requires LoadCamera(lines, parseFloat).Success?
    requires 0 <= k < |lines| && Assigns(ClassifyAll(lines, parseFloat)[k], f)
    requires forall j :: k < j < |lines| ==> !Assigns(ClassifyAll(lines, parseFloat)[j], f)
    ensures var vals := ClassifyAll(lines, parseFloat)[k].vals.value;
      var zero := (f == N || f == V) && IsZeroVec(Vec3(vals[0], vals[1], vals[2]));
      Get(LoadCamera(lines, parseFloat).value, f) == if zero then Get(DefaultCamera, f) else vals[..Arity(f)]
  {
    var ls := ClassifyAll(lines, parseFloat);
    LastAssignmentWins(ls, f, k);
    ScanCollects(ls);
    var st := ScanLines(ls).value;
    assert LoadCamera(lines, parseFloat).value == FixZero(st.cam);
    FixZeroField(st.cam, f, ls[k].vals.value);
  }

  /** The fix-up seen through one field holding `vals`. */
  lemma FixZeroField(cam: Camera, f: Field, vals: seq<real>)
    requires |vals| >= Arity(f) && Get(cam, f) == vals[..Arity(f)]
    ensures var zero := (f == N || f == V) && IsZeroVec(Vec3(vals[0], vals[1], vals[2]));
      Get(FixZero(cam), f) == if zero then Get(DefaultCamera, f) else vals[..Arity(f)]
  {
    if f == N || f == V {
      assert Get(cam, f)[0] == vals[0] && Get(cam, f)[1] == vals[1] && Get(cam, f)[2] == vals[2];
    }
  }
}
