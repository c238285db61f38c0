/// sim/signal/object.py: the Wavefront-OBJ reader and the `Object` holding a
/// component's geometry and placement.
///
/// `read` strips each line of spaces and newlines, splits it on single spaces
/// and acts on two kinds of line only: `v x y z …` adds a vertex, `f i j k …`
/// adds the triangles i-j-k, j-k-l, … (1-based indices made 0-based). The file
/// comes in as its lines; `int` and `float` of a token are parameters, None
/// standing for the ValueError they raise.
module ObjFile {
  import opened Wrappers
  import opened Seqs

  // ---------------------------------------------------------------------------
  // str.strip(" \n") and str.split(sep)

  predicate Blank(c: char) {
    c == ' ' || c == '\n'
  }

  function StripFront(s: string): string {
    if s != [] && Blank(s[0]) then StripFront(s[1..]) else s
  }

  function StripBack(s: string): string {
    if s != [] && Blank(s[|s| - 1]) then StripBack(s[..|s| - 1]) else s
  }

  /// `s.strip(" \n")`
  function Strip(s: string): string {
    StripBack(StripFront(s))
  }

  lemma {:induction false} StripFrontShape(s: string) returns (pre: string)
    ensures s == pre + StripFront(s)
    ensures forall k :: 0 <= k < |pre| ==> Blank(pre[k])
    ensures StripFront(s) == [] || !Blank(StripFront(s)[0])
  {
    if s != [] && Blank(s[0]) {
      var p := StripFrontShape(s[1..]);
      pre := [s[0]] + p;
      assert s == [s[0]] + s[1..];
      Assoc([s[0]], p, StripFront(s[1..]));
    } else {
      pre := [];
    }
  }

  lemma {:induction false} StripBackShape(s: string) returns (post: string)
    ensures s == StripBack(s) + post
    ensures forall k :: 0 <= k < |post| ==> Blank(post[k])
    ensures StripBack(s) == [] || !Blank(StripBack(s)[|StripBack(s)| - 1])
  {
    if s != [] && Blank(s[|s| - 1]) {
      var p := StripBackShape(s[..|s| - 1]);
      post := p + [s[|s| - 1]];
      assert s == s[..|s| - 1] + [s[|s| - 1]];
      Assoc(StripBack(s[..|s| - 1]), p, [s[|s| - 1]]);
    } else {
      post := [];
    }
  }

  /// Stripping removes a run of blanks at each end and nothing else: the
  /// line is the stripped text with blanks around it, and the stripped text
  /// neither starts nor ends with a blank.
  lemma StripShape(s: string) returns (pre: string, post: string)
    ensures s == pre + Strip(s) + post
    ensures forall k :: 0 <= k < |pre| ==> Blank(pre[k])
    ensures forall k :: 0 <= k < |post| ==> Blank(post[k])
    ensures Strip(s) == [] || (!Blank(Strip(s)[0]) && !Blank(Strip(s)[|Strip(s)| - 1]))
  {
    pre := StripFrontShape(s);
    var mid := StripFront(s);
    post := StripBackShape(mid);
    var r := StripBack(mid);
    if r != [] {
      assert mid == r + post;
      assert r[0] == mid[0];
    }
  }

  /// `s.split(sep)` with an explicit separator: every occurrence of sep cuts,
  /// so empty pieces are kept and the empty string gives one empty piece.
  function Split(s: string, sep: char): (r: seq<string>)
    ensures |r| >= 1
  {
    if s == [] then [""]
    else
      var rest := Split(s[1..], sep);
      if s[0] == sep then [""] + rest else [[s[0]] + rest[0]] + rest[1..]
  }

  /// `sep.join(ps)`
  function Join(ps: seq<string>, sep: char): string
    requires |ps| >= 1
  {
    if |ps| == 1 then ps[0] else ps[0] + [sep] + Join(ps[1..], sep)
  }

  predicate Free(p: string, sep: char) {
    forall k :: 0 <= k < |p| ==> p[k] != sep
  }

  /// Splitting loses nothing: joining the pieces gives the string back, and
  /// no piece holds the separator.
  lemma {:induction false} SplitJoin(s: string, sep: char)
    ensures Join(Split(s, sep), sep) == s
    ensures forall k :: 0 <= k < |Split(s, sep)| ==> Free(Split(s, sep)[k], sep)
  {
    if s != [] {
      var rest := Split(s[1..], sep);
      SplitJoin(s[1..], sep);
      assert s == [s[0]] + s[1..];
      if s[0] != sep {
        var ps := [[s[0]] + rest[0]] + rest[1..];
        if |rest| == 1 {
          assert ps == [[s[0]] + rest[0]];
        } else {
          assert ps[1..] == rest[1..];
          assert Join(rest, sep) == rest[0] + [sep] + Join(rest[1..], sep);
        }
        forall k | 0 <= k < |ps| ensures Free(ps[k], sep) {
          if k > 0 {
            assert ps[k] == rest[k];
          } else {
            assert Free(rest[0], sep);
          }
        }
      } else {
        var ps := [""] + rest;
        assert ps[1..] == rest;
        forall k | 0 <= k < |ps| ensures Free(ps[k], sep) {
          if k > 0 {
            assert ps[k] == rest[k - 1];
          }
        }
      }
    }
  }

  /// The other way round: pieces free of the separator come back from
  /// splitting their join, so a split is determined by the string alone.
  lemma {:induction false} JoinSplit(ps: seq<string>, sep: char)
    requires |ps| >= 1 && forall k :: 0 <= k < |ps| ==> Free(ps[k], sep)
    ensures Split(Join(ps, sep), sep) == ps
  {
    if |ps| == 1 {
      FreeSplit(ps[0], sep);
    } else {
      JoinSplit(ps[1..], sep);
      SplitPrefix(ps[0], Join(ps[1..], sep), sep);
      assert [ps[0]] + ps[1..] == ps;
    }
  }

  lemma {:induction false} FreeSplit(p: string, sep: char)
    requires Free(p, sep)
    ensures Split(p, sep) == [p]
  {
    if p != [] {
      FreeSplit(p[1..], sep);
      assert [p[0]] + p[1..] == p;
    }
  }

  /// A free piece, the separator, then t: the piece is the first field.
  lemma {:induction false} SplitPrefix(p: string, t: string, sep: char)
    requires Free(p, sep)
    ensures Split(p + [sep] + t, sep) == [p] + Split(t, sep)
  {
    var s := p + [sep] + t;
    if p == [] {
      assert s == [sep] + t;
      assert s[1..] == t;
    } else {
      SplitPrefix(p[1..], t, sep);
      assert s[1..] == p[1..] + [sep] + t;
      assert [p[0]] + p[1..] == p;
    }
  }

  // ---------------------------------------------------------------------------
  // One line

  /// `int(token)` and `float(token)`, None where they raise ValueError.
  datatype Parsers = Parsers(parseInt: string -> Option<int>, parseFloat: string -> Option<real>)

  /// `[int(c.split("/")[0]) - 1 for c in tokens]`: the first failing token
  /// makes the comprehension raise.
  function FaceIndices(tokens: seq<string>, num: Parsers): (r: Result<seq<int>>)
    ensures r.Ok? ==> |r.value| == |tokens|
    ensures r.Ok? <==> forall k :: 0 <= k < |tokens| ==> num.parseInt(Split(tokens[k], '/')[0]).Some?
    ensures r.Ok? ==> forall k :: 0 <= k < |tokens| ==> r.value[k] == num.parseInt(Split(tokens[k], '/')[0]).value - 1
  {
    if tokens == [] then Ok([])
    else
      match FaceIndices(tokens[..|tokens| - 1], num)
      case Err(e) => Err(e)
      case Ok(ix) =>
        match num.parseInt(Split(tokens[|tokens| - 1], '/')[0])
        case None => Err(ValueError)
        case Some(i) => Ok(ix + [i - 1])
  }

  /// `[float(c) for c in tokens]`
  function Coordinates(tokens: seq<string>, num: Parsers): (r: Result<seq<real>>)
    ensures r.Ok? ==> |r.value| == |tokens|
    ensures r.Ok? <==> forall k :: 0 <= k < |tokens| ==> num.parseFloat(tokens[k]).Some?
    ensures r.Ok? ==> forall k :: 0 <= k < |tokens| ==> r.value[k] == num.parseFloat(tokens[k]).value
  {
    if tokens == [] then Ok([])
    else
      match Coordinates(tokens[..|tokens| - 1], num)
      case Err(e) => Err(e)
      case Ok(xs) =>
        match num.parseFloat(tokens[|tokens| - 1])
        case None => Err(ValueError)
        case Some(x) => Ok(xs + [x])
  }

  /// What a line contributes: a vertex, the index list of a face, or nothing.
  datatype Entry = Vertex(coords: seq<real>) | Face(indices: seq<int>) | Ignored

  /// The parse of one line by `read`; only a first field of exactly "f" or
  /// "v" is acted on.
  function ParseLine(line: string, num: Parsers): Result<Entry> {
    var components := Split(Strip(line), ' ');
    if components[0] == "f" then
      match FaceIndices(components[1..], num)
      case Err(e) => Err(e)
      case Ok(ix) => Ok(Face(ix))
    else if components[0] == "v" then
      match Coordinates(components[1..], num)
      case Err(e) => Err(e)
      case Ok(xs) => Ok(Vertex(xs))
    else Ok(Ignored)
  }

  /// `indices[i: i + 3]` for i in `range(len(indices) - 2)`: a strip of
  /// consecutive triples, none when there are fewer than three indices.
  function Triangulate(ix: seq<int>): (tris: seq<seq<int>>)
    ensures |tris| == if |ix| < 2 then 0 else |ix| - 2
  {
    seq(if |ix| < 2 then 0 else |ix| - 2, i requires 0 <= i < |ix| - 2 => ix[i..i + 3])
  }

  /// Each triangle is three consecutive indices and the next triangle shares
  /// its last two: the face is cut into a strip, not a fan around the first
  /// index. With three or more indices every index is used.
  lemma StripTriangles(ix: seq<int>)
    ensures forall i :: 0 <= i < |Triangulate(ix)| ==> |Triangulate(ix)[i]| == 3 && Triangulate(ix)[i][0] == ix[i]
    ensures forall i :: 0 <= i < |Triangulate(ix)| - 1 ==> Triangulate(ix)[i][1..] == Triangulate(ix)[i + 1][..2]
    ensures |ix| >= 3 ==> forall k :: 0 <= k < |ix| ==> ix[k] in Triangulate(ix)[if k < |ix| - 2 then k else |ix| - 3]
  {
    var tris := Triangulate(ix);
    forall i | 0 <= i < |tris| ensures |tris[i]| == 3 && tris[i][0] == ix[i] {
      assert tris[i] == ix[i..i + 3];
    }
    forall i | 0 <= i < |tris| - 1 ensures tris[i][1..] == tris[i + 1][..2] {
      assert tris[i] == ix[i..i + 3] && tris[i + 1] == ix[i + 1..i + 4];
      assert tris[i][1..] == ix[i + 1..i + 3] == tris[i + 1][..2];
    }
    if |ix| >= 3 {
      forall k | 0 <= k < |ix| ensures ix[k] in tris[if k < |ix| - 2 then k else |ix| - 3] {
        var i := if k < |ix| - 2 then k else |ix| - 3;
        assert tris[i] == ix[i..i + 3];
        assert ix[k] == tris[i][k - i];
      }
    }
  }

  // ---------------------------------------------------------------------------
  // The whole file

  datatype Geometry = Geometry(vertices: seq<seq<real>>, triangles: seq<seq<int>>)

  /// What one line does to the lists read so far.
  function Apply(g: Geometry, e: Entry): Geometry {
    match e
    case Vertex(xs) => g.(vertices := g.vertices + [xs])
    case Face(ix) => g.(triangles := g.triangles + Triangulate(ix))
    case Ignored => g
  }

  /// `read(filename)` on a file of the given lines: the vertices and
  /// triangles in file order, or the ValueError of the first bad token.
  function ReadOf(lines: seq<string>, num: Parsers): Result<Geometry> {
    if lines == [] then Ok(Geometry([], []))
    else
      match ReadOf(lines[..|lines| - 1], num)
      case Err(e) => Err(e)
      case Ok(g) =>
        match ParseLine(lines[|lines| - 1], num)
        case Err(e) => Err(e)
        case Ok(entry) => Ok(Apply(g, entry))
  }

  /// Every row has the same length: what `np.array` needs to build a
  /// two-dimensional array.
  predicate Rectangular<T>(rows: seq<seq<T>>) {
    forall i, j :: 0 <= i < |rows| && 0 <= j < |rows| ==> |rows[i]| == |rows[j]|
  }

  /// `np.array(vertices), np.array(triangles)` at the end of `read`: numpy
  /// (1.24 and later) raises ValueError on rows of different lengths.
  function ToArray(g: Geometry): (r: Result<Geometry>)
    ensures r.Ok? <==> Rectangular(g.vertices) && Rectangular(g.triangles)
    ensures r.Ok? ==> r.value == g
    ensures r.Err? ==> r.error == ValueError
  {
    if Rectangular(g.vertices) && Rectangular(g.triangles) then Ok(g) else Err(ValueError)
  }

  /// Every triangle `read` collects has three indices, so the triangle
  /// array is always rectangular; only the vertices can be ragged.
  lemma {:induction false} ReadTriangles(lines: seq<string>, num: Parsers)
    ensures ReadOf(lines, num).Ok? ==>
      (forall t :: 0 <= t < |ReadOf(lines, num).value.triangles| ==> |ReadOf(lines, num).value.triangles[t]| == 3)
      && Rectangular(ReadOf(lines, num).value.triangles)
  {
    if lines != [] {
      var init := lines[..|lines| - 1];
      ReadTriangles(init, num);
      if ReadOf(init, num).Ok? {
        match ParseLine(lines[|lines| - 1], num)
        case Err(_) =>
        case Ok(Vertex(_)) =>
        case Ok(Ignored) =>
        case Ok(Face(ix)) =>
          StripTriangles(ix);
          var before := ReadOf(init, num).value.triangles;
          var all := before + Triangulate(ix);
          assert ReadOf(lines, num).value.triangles == all;
          forall t | 0 <= t < |all| ensures |all[t]| == 3 {
            if t >= |before| {
              assert all[t] == Triangulate(ix)[t - |before|];
            }
          }
      }
    }
  }

  /// `read`: the loop over the lines, appending each vertex and the
  /// triangles of each face.
  method Read(lines: seq<string>, num: Parsers) returns (r: Result<Geometry>)
    ensures r == ReadOf(lines, num)
  {
    var vertices: seq<seq<real>> := [];
    var triangles: seq<seq<int>> := [];
    for n := 0 to |lines|
      invariant ReadOf(lines[..n], num) == Ok(Geometry(vertices, triangles))
    {
      ReadStep(lines, n, num);
      var entry := ParseLine(lines[n], num);
      if entry.Err? {
        ReadErrAppend(lines[..n + 1], lines[n + 1..], num);
        assert lines[..n + 1] + lines[n + 1..] == lines;
        return Err(entry.error);
      }
      match entry.value {
        case Vertex(xs) =>
          vertices := vertices + [xs];
        case Face(ix) =>
          triangles := AppendTriangles(triangles, ix);
        case Ignored =>
      }
    }
    assert lines[..|lines|] == lines;
    r := Ok(Geometry(vertices, triangles));
  }

  /// `for i in range(len(indices) - 2): triangles.append(indices[i: i + 3])`
  method AppendTriangles(triangles: seq<seq<int>>, ix: seq<int>) returns (triangles': seq<seq<int>>)
    ensures triangles' == triangles + Triangulate(ix)
  {
    triangles' := triangles;
    var i := 0;
    while i < |ix| - 2
      invariant 0 <= i <= |Triangulate(ix)|
      invariant triangles' == triangles + Triangulate(ix)[..i]
    {
      triangles' := triangles' + [ix[i..i + 3]];
      i := i + 1;
    }
    assert Triangulate(ix)[..i] == Triangulate(ix);
  }

  lemma ReadStep(lines: seq<string>, n: nat, num: Parsers)
    requires n < |lines|
    ensures ReadOf(lines[..n + 1], num) ==
      match ReadOf(lines[..n], num)
      case Err(e) => Err(e)
      case Ok(g) =>
        match ParseLine(lines[n], num)
        case Err(e) => Err(e)
        case Ok(entry) => Ok(Apply(g, entry))
  {
    assert lines[..n + 1][..n] == lines[..n];
  }

  /// Once a line raises, the rest of the file is never looked at.
  lemma {:induction false} ReadErrAppend(a: seq<string>, b: seq<string>, num: Parsers)
    requires ReadOf(a, num).Err?
    ensures ReadOf(a + b, num) == ReadOf(a, num)
  {
    if b != [] {
      var init := b[..|b| - 1];
      assert (a + b)[..|a + b| - 1] == a + init;
      ReadErrAppend(a, init, num);
    } else {
      assert a + b == a;
    }
  }

  /// Reading two runs of lines one after the other gives the first run's
  /// vertices and triangles followed by the second's.
  lemma {:induction false} ReadAppend(a: seq<string>, b: seq<string>, num: Parsers)
    requires ReadOf(a, num).Ok? && ReadOf(b, num).Ok?
    ensures ReadOf(a + b, num).Ok?
    ensures ReadOf(a + b, num).value.vertices == ReadOf(a, num).value.vertices + ReadOf(b, num).value.vertices
    ensures ReadOf(a + b, num).value.triangles == ReadOf(a, num).value.triangles + ReadOf(b, num).value.triangles
  {
    if b == [] {
      assert a + b == a;
    } else {
      var init := b[..|b| - 1];
      assert (a + b)[..|a + b| - 1] == a + init;
      assert (a + b)[|a + b| - 1] == b[|b| - 1];
      ReadAppend(a, init, num);
      var ga := ReadOf(a, num).value;
      var gi := ReadOf(init, num).value;
      match ParseLine(b[|b| - 1], num) {
        case Ok(Vertex(xs)) =>
          Assoc(ga.vertices, gi.vertices, [xs]);
        case Ok(Face(ix)) =>
          Assoc(ga.triangles, gi.triangles, Triangulate(ix));
        case Ok(Ignored) =>
      }
    }
  }

  /// A line whose first field is neither "v" nor "f" (a normal, a texture
  /// coordinate, a comment, a blank line) changes nothing.
  lemma IgnoredLine(lines: seq<string>, line: string, num: Parsers)
    requires Split(Strip(line), ' ')[0] != "v" && Split(Strip(line), ' ')[0] != "f"
    ensures ReadOf(lines + [line], num) == ReadOf(lines, num)
  {
    assert (lines + [line])[..|lines|] == lines;
  }

  // ---------------------------------------------------------------------------
  // Object

  /// `os.path.join(a, b)` (POSIX): an absolute b replaces a; otherwise one
  /// '/' is put between them unless a is empty or already ends in one.
  function PathJoin(a: string, b: string): (r: string)
    ensures b != [] && b[0] == '/' ==> r == b
    ensures (b == [] || b[0] != '/') && a != [] && a[|a| - 1] != '/' ==> r == a + "/" + b
  {
    if b != [] && b[0] == '/' then b
    else if a == [] || a[|a| - 1] == '/' then a + b
    else a + "/" + b
  }

  /// The process environment `Object` depends on: `sys.prefix`, and the
  /// lines of each file that can be opened.
  datatype Env = Env(prefix: string, files: string -> Option<seq<string>>)

  /// `os.path.join(d, f"{object_name}.obj")`, where d is `directory_path`, or
  /// COMPONENT_PATH when that is None.
  function ObjPath(objectName: string, directoryPath: Option<string>, env: Env): string {
    var dir := match directoryPath
      case Some(d) => d
      case None => PathJoin(env.prefix, "murt-assets");
    PathJoin(dir, objectName + ".obj")
  }

  /// What `__init__` loads: None when the file cannot be opened or `read`
  /// raises, in its line loop or in `np.array` on vertices of different
  /// lengths (the bare `except` swallows all of these and the attributes
  /// stay unset).
  function Loaded(objectName: string, directoryPath: Option<string>, env: Env, num: Parsers): (r: Option<Geometry>)
    ensures var file := env.files(ObjPath(objectName, directoryPath, env));
      r.Some? <==> file.Some? && ReadOf(file.value, num).Ok? && Rectangular(ReadOf(file.value, num).value.vertices)
    ensures r.Some? ==> r.value == ReadOf(env.files(ObjPath(objectName, directoryPath, env)).value, num).value
  {
    match env.files(ObjPath(objectName, directoryPath, env))
    case None => None
    case Some(lines) =>
      match ReadOf(lines, num)
      case Err(_) => None
      case Ok(g) =>
        ReadTriangles(lines, num);
        match ToArray(g)
        case Err(_) => None
        case Ok(a) => Some(a)
  }

  class Object {
    var objectName: string
    var scale: seq<real>
    var translate: seq<real>
    var rotate: seq<real>
    /// `self.vertices, self.triangles`, None while they are unset.
    var geometry: Option<Geometry>

    /// `Object(object_name, file_path, directory_path)`. Geometry is read
    /// from the component library only when no file path is given; a given
    /// file path loads nothing.
    constructor(objectName: string, filePath: Option<string>, directoryPath: Option<string>, env: Env, num: Parsers)
      ensures this.objectName == objectName
      ensures scale == [1.0, 1.0, 1.0] && translate == [0.0, 0.0, 0.0] && rotate == [0.0, 0.0, 0.0]
      ensures filePath.Some? ==> geometry.None?
      ensures filePath.None? ==> geometry == Loaded(objectName, directoryPath, env, num)
    {
      this.objectName := objectName;
      scale, translate, rotate := [1.0, 1.0, 1.0], [0.0, 0.0, 0.0], [0.0, 0.0, 0.0];
      geometry := None;
      if filePath.None? {
        var path := ObjPath(objectName, directoryPath, env);
        var contents := env.files(path);
        if contents.Some? {
          var r := Read(contents.value, num);
          if r.Ok? {
            var a := ToArray(r.value);
            if a.Ok? {
              geometry := Some(a.value);
            }
          }
        }
      }
    }

    /// `get_triangles()`: reading the unset attributes raises AttributeError.
    function Triangles(): (r: Result<Geometry>)
      reads this
      ensures r.Ok? <==> geometry.Some?
      ensures r.Ok? ==> r.value == geometry.value
      ensures r.Err? ==> r.error == AttributeError
    {
      if geometry.Some? then Ok(geometry.value) else Err(AttributeError)
    }

    /// `resize(x, y, z)`
    method Resize(x: real, y: real, z: real)
      modifies this
      ensures scale == [x, y, z]
      ensures objectName == old(objectName) && translate == old(translate) && rotate == old(rotate) && geometry == old(geometry)
    {
      scale := [x, y, z];
    }

    /// `reposition(x, y, z)`
    method Reposition(x: real, y: real, z: real)
      modifies this
      ensures translate == [x, y, z]
      ensures objectName == old(objectName) && scale == old(scale) && rotate == old(rotate) && geometry == old(geometry)
    {
      translate := [x, y, z];
    }

    /// `rotate_obj(x, y, z)`
    method RotateObj(x: real, y: real, z: real)
      modifies this
      ensures rotate == [x, y, z]
      ensures objectName == old(objectName) && scale == old(scale) && translate == old(translate) && geometry == old(geometry)
    {
      rotate := [x, y, z];
    }
  }
}
