/// gen/build.py: the voxel-face mesher. `march` visits every cell of the grid
/// in numpy order and, for each solid cell, emits a two-triangle quad for every
/// face that is not shared with another solid cell, appending to the
/// module-level `vertices`, `faces`, `normals` and `colors` lists;
/// `boundingBox` lists the corners and sides of the grid's box.
module Mesher {
  import opened Wrappers
  import opened Cloud

  /// An integer triple: a vertex, a normal, a corner offset or a cell index.
  datatype Vec = Vec(x: int, y: int, z: int)

  function Add(p: Vec, d: Vec): Vec {
    Vec(p.x + d.x, p.y + d.y, p.z + d.z)
  }

  /// One entry of `faceMap`: the four corner offsets of a cube face, in
  /// winding order, and the outward normal.
  datatype Face = Face(corners: seq<Vec>, normal: Vec)

  /// A triangle of `faces`: three indices into `vertices`.
  datatype Tri = Tri(a: nat, b: nat, c: nat)

  datatype Color = Color(r: real, g: real, b: real)

  /// `faceMap`: left, right, bottom, top, back, front.
  const FaceMap: seq<Face> := [
    Face([Vec(0, 0, 0), Vec(0, 0, 1), Vec(0, 1, 1), Vec(0, 1, 0)], Vec(-1, 0, 0)),
    Face([Vec(1, 0, 0), Vec(1, 1, 0), Vec(1, 1, 1), Vec(1, 0, 1)], Vec(1, 0, 0)),
    Face([Vec(0, 0, 0), Vec(1, 0, 0), Vec(1, 0, 1), Vec(0, 0, 1)], Vec(0, -1, 0)),
    Face([Vec(0, 1, 0), Vec(0, 1, 1), Vec(1, 1, 1), Vec(1, 1, 0)], Vec(0, 1, 0)),
    Face([Vec(0, 0, 0), Vec(0, 1, 0), Vec(1, 1, 0), Vec(1, 0, 0)], Vec(0, 0, -1)),
    Face([Vec(0, 0, 1), Vec(1, 0, 1), Vec(1, 1, 1), Vec(0, 1, 1)], Vec(0, 0, 1))
  ]

  /// An offset in {0, 1}³: a corner of the unit cube.
  predicate Unit(d: Vec) {
    0 <= d.x <= 1 && 0 <= d.y <= 1 && 0 <= d.z <= 1
  }

  /// Every face of `faceMap` has four unit-cube corners, all on the side of
  /// the cube its normal points to, and a normal along exactly one axis.
  lemma FaceMapShape()
    ensures |FaceMap| == 6
    ensures forall f :: 0 <= f < 6 ==> |FaceMap[f].corners| == 4
    ensures forall f, k :: 0 <= f < 6 && 0 <= k < 4 ==> Unit(FaceMap[f].corners[k])
    ensures forall f, k :: 0 <= f < 6 && 0 <= k < 4 ==> OnSide(FaceMap[f].corners[k], FaceMap[f].normal)
  {
  }

  /// The corner d lies on the cube side facing n.
  predicate OnSide(d: Vec, n: Vec) {
    && (n.x != 0 ==> n.y == 0 && n.z == 0 && d.x == (if n.x > 0 then 1 else 0))
    && (n.y != 0 ==> n.x == 0 && n.z == 0 && d.y == (if n.y > 0 then 1 else 0))
    && (n.z != 0 ==> n.x == 0 && n.y == 0 && d.z == (if n.z > 0 then 1 else 0))
    && (n.x != 0 || n.y != 0 || n.z != 0)
  }

  /// `COL.get(name, (0, 0, 0))`
  function Col(name: string): Color {
    if name == "shelf" then Color(0.8039, 0.5216, 0.24706)
    else if name == "pile" then Color(0.62745, 0.32157, 0.17647)
    else if name == "wall" then Color(0.6, 0.6, 0.6)
    else Color(0.0, 0.0, 0.0)
  }

  /// `COL.get(KINDS[pos], (0, 0, 0))`, or None where KINDS raises KeyError.
  function ColorOf(code: int): (r: Option<Color>)
    ensures r.Some? <==> 0 <= code <= 3
    ensures code == 0 ==> r == Some(Color(0.0, 0.0, 0.0))
  {
    match KindName(code)
    case None => None
    case Some(name) => Some(Col(name))
  }

  /// The four output lists.
  datatype Out = Out(vertices: seq<Vec>, faces: seq<Tri>, normals: seq<Vec>, colors: seq<Color>)

  /// The face of cell c with outward normal n is emitted unless the neighbour
  /// across it is inside the grid and solid.
  predicate Exposed(g: Voxels, c: Vec, n: Vec) {
    var m := Add(c, n);
    !(InBounds(g, m.x, m.y, m.z) && At(g, m.x, m.y, m.z) != 0)
  }

  /// One emitted face: four vertices at the cell's corners, the two triangles
  /// over them, four copies of the normal, then four copies of the colour, whose
  /// lookup raises KeyError after the first three lists have grown.
  function EmitFace(o: Out, c: Vec, f: Face, code: int): (Out, Option<PyError>)
    requires |f.corners| == 4
  {
    var v := |o.vertices|;
    var o' := Out(o.vertices + [Add(c, f.corners[0]), Add(c, f.corners[1]), Add(c, f.corners[2]), Add(c, f.corners[3])],
                  o.faces + [Tri(v, v + 1, v + 2), Tri(v, v + 2, v + 3)],
                  o.normals + [f.normal, f.normal, f.normal, f.normal],
                  o.colors);
    match ColorOf(code)
    case None => (o', Some(KeyError))
    case Some(col) => (o'.(colors := o.colors + [col, col, col, col]), None)
  }

  /// The `for face in faceMap` loop over the first k faces of a solid cell.
  function CellFaces(o: Out, g: Voxels, c: Vec, k: nat): (Out, Option<PyError>)
    requires k <= 6 && InBounds(g, c.x, c.y, c.z)
  {
    if k == 0 then (o, None)
    else
      var prev := CellFaces(o, g, c, k - 1);
      if prev.1.Some? || !Exposed(g, c, FaceMap[k - 1].normal) then prev
      else EmitFace(prev.0, c, FaceMap[k - 1], At(g, c.x, c.y, c.z))
  }

  /// The state of `march` between cells: the output lists, `count`, the
  /// progress values passed to the callback so far, and the exception that
  /// ended the march, if any.
  datatype State = State(out: Out, count: nat, reports: seq<real>, err: Option<PyError>)

  /// One iteration of the `ndenumerate` loop; once an exception has been
  /// raised nothing more happens.
  function Visit(st: State, g: Voxels, c: Vec): State
    requires InBounds(g, c.x, c.y, c.z)
  {
    if st.err.Some? then st
    else
      var cell := if At(g, c.x, c.y, c.z) != 0 then CellFaces(st.out, g, c, 6) else (st.out, None);
      if cell.1.Some? then State(cell.0, st.count, st.reports, cell.1)
      else
        var count := st.count + 1;
        var total := g.X * g.Y * g.Z;
        State(cell.0, count, if count % 100 == 0 then st.reports + [count as real / total as real] else st.reports, None)
  }

  predicate AllIn(g: Voxels, cells: seq<Vec>) {
    forall k :: 0 <= k < |cells| ==> InBounds(g, cells[k].x, cells[k].y, cells[k].z)
  }

  /// The march over the given cells, in order.
  function Run(st: State, g: Voxels, cells: seq<Vec>): State
    requires AllIn(g, cells)
  {
    if cells == [] then st
    else Visit(Run(st, g, cells[..|cells| - 1]), g, cells[|cells| - 1])
  }

  lemma {:induction false} RunAppend(st: State, g: Voxels, a: seq<Vec>, b: seq<Vec>)
    requires AllIn(g, a) && AllIn(g, b)
    ensures AllIn(g, a + b)
    ensures Run(st, g, a + b) == Run(Run(st, g, a), g, b)
  {
    if b != [] {
      var b' := b[..|b| - 1];
      assert (a + b)[..|a + b| - 1] == a + b';
      assert (a + b)[|a + b| - 1] == b[|b| - 1];
      RunAppend(st, g, a, b');
    } else {
      assert a + b == a;
    }
  }

  // ---------------------------------------------------------------------------
  // The order of numpy.ndenumerate: x outermost, z innermost

  /// The cells (x, y, 0) … (x, y, n - 1).
  function Line(x: int, y: int, n: nat): (r: seq<Vec>)
    ensures |r| == n
    ensures forall k :: 0 <= k < n ==> r[k] == Vec(x, y, k)
  {
    seq(n, k requires 0 <= k < n => Vec(x, y, k))
  }

  /// The rows y < m of the plane x.
  function Plane(x: int, m: nat, Z: nat): (r: seq<Vec>)
    ensures |r| == m * Z
    ensures forall k :: 0 <= k < |r| ==> r[k].x == x && 0 <= r[k].y < m && 0 <= r[k].z < Z
  {
    if m == 0 then [] else Plane(x, m - 1, Z) + Line(x, m - 1, Z)
  }

  /// The planes x < n of a grid with Y rows of Z cells.
  function Block(n: nat, Y: nat, Z: nat): (r: seq<Vec>)
    ensures |r| == n * (Y * Z)
    ensures forall k :: 0 <= k < |r| ==> 0 <= r[k].x < n && 0 <= r[k].y < Y && 0 <= r[k].z < Z
  {
    if n == 0 then [] else Block(n - 1, Y, Z) + Plane(n - 1, Y, Z)
  }

  /// Every cell of the grid, in the order `ndenumerate` visits them.
  function Order(g: Voxels): (r: seq<Vec>)
    ensures AllIn(g, r) && |r| == g.X * g.Y * g.Z
  {
    Block(g.X, g.Y, g.Z)
  }

  lemma LineGrows(x: int, y: int, n: nat)
    ensures Line(x, y, n + 1) == Line(x, y, n) + [Vec(x, y, n)]
  {
  }

  // ---------------------------------------------------------------------------
  // What the march keeps and emits

  /// The lists index each other: one normal per vertex, two triangles per
  /// four vertices, and every triangle index names a vertex.
  predicate Indexed(o: Out) {
    && |o.normals| == |o.vertices|
    && |o.vertices| == 2 * |o.faces|
    && forall t :: 0 <= t < |o.faces| ==> o.faces[t].a < |o.vertices| && o.faces[t].b < |o.vertices| && o.faces[t].c < |o.vertices|
  }

  /// What the lists look like between cells: one colour per vertex, except
  /// after the KeyError of a colour lookup, which leaves the colours of the
  /// face being emitted missing.
  predicate Shaped(st: State) {
    && Indexed(st.out)
    && (st.err.None? ==> |st.out.colors| == |st.out.vertices|)
    && (st.err.Some? ==> st.err == Some(KeyError) && |st.out.colors| + 4 == |st.out.vertices|)
  }

  lemma EmitFaceShaped(o: Out, c: Vec, f: Face, code: int)
    requires |f.corners| == 4 && Indexed(o) && |o.colors| == |o.vertices|
    ensures Shaped(State(EmitFace(o, c, f, code).0, 0, [], EmitFace(o, c, f, code).1))
  {
    var r := EmitFace(o, c, f, code).0;
    assert forall t :: 0 <= t < |o.faces| ==> r.faces[t] == o.faces[t];
  }

  lemma {:induction false} CellFacesShaped(o: Out, g: Voxels, c: Vec, k: nat)
    requires k <= 6 && InBounds(g, c.x, c.y, c.z)
    requires Indexed(o) && |o.colors| == |o.vertices|
    ensures Shaped(State(CellFaces(o, g, c, k).0, 0, [], CellFaces(o, g, c, k).1))
  {
    if k > 0 {
      CellFacesShaped(o, g, c, k - 1);
      var prev := CellFaces(o, g, c, k - 1);
      if prev.1.None? && Exposed(g, c, FaceMap[k - 1].normal) {
        EmitFaceShaped(prev.0, c, FaceMap[k - 1], At(g, c.x, c.y, c.z));
      }
    }
  }

  /// The march keeps the lists indexing each other, and one colour per vertex
  /// unless a KeyError ended it.
  lemma {:induction false} RunShaped(st: State, g: Voxels, cells: seq<Vec>)
    requires AllIn(g, cells) && Shaped(st)
    ensures Shaped(Run(st, g, cells))
  {
    if cells != [] {
      var prev := Run(st, g, cells[..|cells| - 1]);
      RunShaped(st, g, cells[..|cells| - 1]);
      var c := cells[|cells| - 1];
      if prev.err.None? && At(g, c.x, c.y, c.z) != 0 {
        CellFacesShaped(prev.out, g, c, 6);
      }
    }
  }

  /// Each list of o is a prefix of the same list of o'.
  predicate Extends(o: Out, o': Out) {
    o.vertices <= o'.vertices && o.faces <= o'.faces && o.normals <= o'.normals && o.colors <= o'.colors
  }

  lemma {:induction false} CellFacesExtends(o: Out, g: Voxels, c: Vec, k: nat)
    requires k <= 6 && InBounds(g, c.x, c.y, c.z)
    ensures Extends(o, CellFaces(o, g, c, k).0)
  {
    if k > 0 {
      CellFacesExtends(o, g, c, k - 1);
    }
  }

  /// The march only appends: what the lists held before is kept as a prefix.
  lemma {:induction false} RunExtends(st: State, g: Voxels, cells: seq<Vec>)
    requires AllIn(g, cells)
    ensures Extends(st.out, Run(st, g, cells).out)
  {
    if cells != [] {
      var prev := Run(st, g, cells[..|cells| - 1]);
      RunExtends(st, g, cells[..|cells| - 1]);
      var c := cells[|cells| - 1];
      if prev.err.None? && At(g, c.x, c.y, c.z) != 0 {
        CellFacesExtends(prev.out, g, c, 6);
      }
    }
  }

  /// v is a corner of the unit cube of cell c.
  predicate CornerOf(v: Vec, c: Vec) {
    c.x <= v.x <= c.x + 1 && c.y <= v.y <= c.y + 1 && c.z <= v.z <= c.z + 1
  }

  /// The vertices emitted for a cell are corners of that cell.
  lemma {:induction false} CellFacesCorners(o: Out, g: Voxels, c: Vec, k: nat)
    requires k <= 6 && InBounds(g, c.x, c.y, c.z)
    ensures var r := CellFaces(o, g, c, k).0;
      |o.vertices| <= |r.vertices| && forall i :: |o.vertices| <= i < |r.vertices| ==> CornerOf(r.vertices[i], c)
  {
    if k > 0 {
      CellFacesCorners(o, g, c, k - 1);
      var prev := CellFaces(o, g, c, k - 1);
      if prev.1.None? && Exposed(g, c, FaceMap[k - 1].normal) {
        FaceMapShape();
        EmitFaceCorners(prev.0, c, FaceMap[k - 1], At(g, c.x, c.y, c.z));
      }
    }
  }

  /// An emitted face adds four corners of cell c to the vertices.
  lemma EmitFaceCorners(o: Out, c: Vec, f: Face, code: int)
    requires |f.corners| == 4 && forall k :: 0 <= k < 4 ==> Unit(f.corners[k])
    ensures var r := EmitFace(o, c, f, code).0;
      |r.vertices| == |o.vertices| + 4 && r.vertices[..|o.vertices|] == o.vertices
      && forall i :: |o.vertices| <= i < |r.vertices| ==> CornerOf(r.vertices[i], c)
  {
  }

  /// Every vertex lies in the box [0, X] × [0, Y] × [0, Z].
  predicate InBox(g: Voxels, vs: seq<Vec>) {
    forall i :: 0 <= i < |vs| ==> 0 <= vs[i].x <= g.X && 0 <= vs[i].y <= g.Y && 0 <= vs[i].z <= g.Z
  }

  lemma {:induction false} RunInBox(st: State, g: Voxels, cells: seq<Vec>)
    requires AllIn(g, cells) && InBox(g, st.out.vertices)
    ensures InBox(g, Run(st, g, cells).out.vertices)
  {
    if cells != [] {
      var prev := Run(st, g, cells[..|cells| - 1]);
      RunInBox(st, g, cells[..|cells| - 1]);
      var c := cells[|cells| - 1];
      if prev.err.None? && At(g, c.x, c.y, c.z) != 0 {
        CellFacesCorners(prev.out, g, c, 6);
        CellFacesExtends(prev.out, g, c, 6);
      }
    }
  }

  /// How many of the first k faces of cell c are exposed.
  function NumExposed(g: Voxels, c: Vec, k: nat): nat
    requires k <= 6
  {
    if k == 0 then 0 else NumExposed(g, c, k - 1) + if Exposed(g, c, FaceMap[k - 1].normal) then 1 else 0
  }

  /// A solid cell emits four vertices for each exposed face and none for the
  /// others, and the normals it emits are those of its exposed faces.
  lemma {:induction false} CellFacesCount(o: Out, g: Voxels, c: Vec, k: nat)
    requires k <= 6 && InBounds(g, c.x, c.y, c.z)
    requires CellFaces(o, g, c, k).1.None?
    ensures var r := CellFaces(o, g, c, k).0;
      && |r.vertices| == |o.vertices| + 4 * NumExposed(g, c, k)
      && |r.normals| == |o.normals| + 4 * NumExposed(g, c, k)
      && forall i :: |o.normals| <= i < |r.normals| ==>
           exists f :: 0 <= f < k && Exposed(g, c, FaceMap[f].normal) && r.normals[i] == FaceMap[f].normal
  {
    if k > 0 {
      var prev := CellFaces(o, g, c, k - 1);
      CellFacesCount(o, g, c, k - 1);
      var r := CellFaces(o, g, c, k).0;
      forall i | |o.normals| <= i < |r.normals|
        ensures exists f :: 0 <= f < k && Exposed(g, c, FaceMap[f].normal) && r.normals[i] == FaceMap[f].normal
      {
        if i < |prev.0.normals| {
          var f :| 0 <= f < k - 1 && Exposed(g, c, FaceMap[f].normal) && prev.0.normals[i] == FaceMap[f].normal;
          assert r.normals[i] == prev.0.normals[i];
        } else {
          assert r.normals[i] == FaceMap[k - 1].normal;
        }
      }
    }
  }

  /// A face on the boundary of the grid is always exposed.
  lemma BoundaryExposed(g: Voxels, c: Vec, f: nat)
    requires f < 6
    requires var m := Add(c, FaceMap[f].normal); !InBounds(g, m.x, m.y, m.z)
    ensures Exposed(g, c, FaceMap[f].normal)
  {
  }

  /// A cell whose six neighbours are all inside the grid and solid emits
  /// nothing.
  lemma {:induction false} EnclosedCell(o: Out, g: Voxels, c: Vec, k: nat)
    requires k <= 6 && InBounds(g, c.x, c.y, c.z)
    requires forall f :: 0 <= f < 6 ==> !Exposed(g, c, FaceMap[f].normal)
    ensures CellFaces(o, g, c, k) == (o, None)
  {
    if k > 0 {
      EnclosedCell(o, g, c, k - 1);
    }
  }

  /// Only solid cells emit geometry: marching cells that are all empty leaves
  /// the lists as they were.
  lemma {:induction false} RunEmpty(st: State, g: Voxels, cells: seq<Vec>)
    requires AllIn(g, cells)
    requires forall k :: 0 <= k < |cells| ==> At(g, cells[k].x, cells[k].y, cells[k].z) == 0
    ensures Run(st, g, cells).out == st.out
    ensures st.err.None? ==> Run(st, g, cells).err.None? && Run(st, g, cells).count == st.count + |cells|
  {
    if cells != [] {
      RunEmpty(st, g, cells[..|cells| - 1]);
    }
  }

  lemma {:induction false} CellFacesNoError(o: Out, g: Voxels, c: Vec, k: nat)
    requires k <= 6 && InBounds(g, c.x, c.y, c.z) && 0 <= At(g, c.x, c.y, c.z) <= 3
    ensures CellFaces(o, g, c, k).1.None?
  {
    if k > 0 {
      CellFacesNoError(o, g, c, k - 1);
    }
  }

  /// In a grid of known materials the march never raises, and it counts
  /// every cell.
  lemma {:induction false} RunNoError(st: State, g: Voxels, cells: seq<Vec>)
    requires AllIn(g, cells) && ValidKinds(g) && st.err.None?
    ensures Run(st, g, cells).err.None?
    ensures Run(st, g, cells).count == st.count + |cells|
  {
    if cells != [] {
      RunNoError(st, g, cells[..|cells| - 1]);
      var c := cells[|cells| - 1];
      CellFacesNoError(Run(st, g, cells[..|cells| - 1]).out, g, c, 6);
    }
  }

  /// A solid cell whose value is not a key of KINDS raises KeyError at its
  /// first exposed face, and a cell without exposed faces emits nothing.
  lemma {:induction false} UnknownKindRaises(o: Out, g: Voxels, c: Vec, k: nat)
    requires k <= 6 && InBounds(g, c.x, c.y, c.z) && !(0 <= At(g, c.x, c.y, c.z) <= 3)
    ensures NumExposed(g, c, k) > 0 ==> CellFaces(o, g, c, k).1 == Some(KeyError)
    ensures NumExposed(g, c, k) == 0 ==> CellFaces(o, g, c, k) == (o, None)
  {
    if k > 0 {
      UnknownKindRaises(o, g, c, k - 1);
    }
  }

  // ---------------------------------------------------------------------------
  // Progress

  lemma DivLess(a: real, b: real, t: real)
    requires t > 0.0 && a < b
    ensures a / t < b / t
  {
    assert b / t - a / t == (b - a) / t;
  }

  /// The progress values so far: positive, increasing, and none beyond
  /// count / total.
  ghost predicate Progress(reports: seq<real>, count: nat, total: nat) {
    && (forall k :: 0 <= k < |reports| ==> 0.0 < reports[k] && (total > 0 && reports[k] <= count as real / total as real))
    && (forall j, k :: 0 <= j && k == j + 1 && k < |reports| ==> reports[j] < reports[k])
  }

  lemma VisitProgress(st: State, g: Voxels, c: Vec)
    requires InBounds(g, c.x, c.y, c.z) && Progress(st.reports, st.count, g.X * g.Y * g.Z)
    ensures Progress(Visit(st, g, c).reports, Visit(st, g, c).count, g.X * g.Y * g.Z)
    ensures Visit(st, g, c).count <= st.count + 1
  {
    var r := Visit(st, g, c);
    var total := g.X * g.Y * g.Z;
    if st.err.None? && r.err.None? {
      assert total >= 1 by {
        assert g.X >= 1 && g.Y >= 1 && g.Z >= 1;
        assert g.X * g.Y >= 1;
      }
      var before, after := st.count as real / total as real, r.count as real / total as real;
      DivLess(st.count as real, r.count as real, total as real);
      assert before < after;
      assert forall k :: 0 <= k < |st.reports| ==> st.reports[k] <= before;
      if r.count % 100 == 0 {
        assert r.reports == st.reports + [after];
        assert after > 0.0 by {
          DivLess(0.0, r.count as real, total as real);
        }
      } else {
        assert r.reports == st.reports;
      }
    }
  }

  lemma {:induction false} RunProgress(st: State, g: Voxels, cells: seq<Vec>)
    requires AllIn(g, cells) && Progress(st.reports, st.count, g.X * g.Y * g.Z)
    ensures Progress(Run(st, g, cells).reports, Run(st, g, cells).count, g.X * g.Y * g.Z)
    ensures Run(st, g, cells).count <= st.count + |cells|
  {
    if cells != [] {
      RunProgress(st, g, cells[..|cells| - 1]);
      VisitProgress(Run(st, g, cells[..|cells| - 1]), g, cells[|cells| - 1]);
    }
  }

  /// Every value `march` passes to the callback lies in (0, 1], and each is
  /// larger than the one before.
  lemma MarchProgress(o: Out, g: Voxels)
    ensures var reports := Run(State(o, 0, [], None), g, Order(g)).reports;
      && (forall k :: 0 <= k < |reports| ==> 0.0 < reports[k] <= 1.0)
      && (forall j, k :: 0 <= j && k == j + 1 && k < |reports| ==> reports[j] < reports[k])
  {
    var cells := Order(g);
    var st := Run(State(o, 0, [], None), g, cells);
    var total := g.X * g.Y * g.Z;
    RunProgress(State(o, 0, [], None), g, cells);
    assert st.count <= total;
    if |st.reports| > 0 {
      assert total > 0;
      AtMostOne(st.count as real, total as real);
    }
  }

  lemma AtMostOne(a: real, t: real)
    requires t > 0.0 && a <= t
    ensures a / t <= 1.0
  {
    assert a / t * t == a;
  }

  // ---------------------------------------------------------------------------
  // The bounding box

  /// `boundingBox(dim)`: the eight corners of [0, X] × [0, Y] × [0, Z] and
  /// the six quads over them, as vertex and face lists.
  function BoundingBox(X: int, Y: int, Z: int): (r: (seq<Vec>, seq<seq<nat>>))
    ensures |r.0| == 8 && |r.1| == 6
    ensures forall hx: bool, hy: bool, hz: bool :: BoxCorner(X, Y, Z, hx, hy, hz) in r.0
    ensures forall i :: 0 <= i < 8 ==> (r.0[i].x == 0 || r.0[i].x == X) && (r.0[i].y == 0 || r.0[i].y == Y) && (r.0[i].z == 0 || r.0[i].z == Z)
    ensures forall q :: 0 <= q < 6 ==> |r.1[q]| == 4 && forall k :: 0 <= k < 4 ==> r.1[q][k] < 8
    ensures forall q :: 0 <= q < 6 ==> OnBoxSide(r.0, r.1[q], X, Y, Z)
  {
    var vertices := [
      Vec(0, 0, 0), Vec(X, 0, 0), Vec(X, Y, 0), Vec(0, Y, 0),
      Vec(0, 0, Z), Vec(X, 0, Z), Vec(X, Y, Z), Vec(0, Y, Z)
    ];
    var faces := [
      [0, 1, 2, 3], [4, 5, 6, 7], [0, 4, 7, 3],
      [1, 5, 6, 2], [0, 1, 5, 4], [3, 2, 6, 7]
    ];
    assert forall k :: 0 <= k < 4 ==> vertices[faces[0][k]].z == 0;
    assert forall k :: 0 <= k < 4 ==> vertices[faces[1][k]].z == Z;
    assert forall k :: 0 <= k < 4 ==> vertices[faces[2][k]].x == 0;
    assert forall k :: 0 <= k < 4 ==> vertices[faces[3][k]].x == X;
    assert forall k :: 0 <= k < 4 ==> vertices[faces[4][k]].y == 0;
    assert forall k :: 0 <= k < 4 ==> vertices[faces[5][k]].y == Y;
    (vertices, faces)
  }

  /// The corner of the box at the high end of the axes whose flag is set.
  function BoxCorner(X: int, Y: int, Z: int, hx: bool, hy: bool, hz: bool): Vec {
    Vec(if hx then X else 0, if hy then Y else 0, if hz then Z else 0)
  }

  /// The quad q (indices into vs) lies in one of the six planes bounding the box.
  predicate OnBoxSide(vs: seq<Vec>, q: seq<nat>, X: int, Y: int, Z: int)
    requires forall k :: 0 <= k < |q| ==> q[k] < |vs|
  {
    || (forall k :: 0 <= k < |q| ==> vs[q[k]].x == 0)
    || (forall k :: 0 <= k < |q| ==> vs[q[k]].x == X)
    || (forall k :: 0 <= k < |q| ==> vs[q[k]].y == 0)
    || (forall k :: 0 <= k < |q| ==> vs[q[k]].y == Y)
    || (forall k :: 0 <= k < |q| ==> vs[q[k]].z == 0)
    || (forall k :: 0 <= k < |q| ==> vs[q[k]].z == Z)
  }

  // ---------------------------------------------------------------------------
  // The buffers and the loop

  /// The module-level output lists. They are never cleared, so each call of
  /// `march` appends to what earlier calls left.
  class Scene {
    var vertices: seq<Vec>
    var faces: seq<Tri>
    var normals: seq<Vec>
    var colors: seq<Color>

    constructor ()
      ensures vertices == [] && faces == [] && normals == [] && colors == []
    {
      vertices, faces, normals, colors := [], [], [], [];
    }

    function Snapshot(): Out
      reads this
    {
      Out(vertices, faces, normals, colors)
    }

    /// `march(cloud, callback)`: the lists end as the fold of Visit over the
    /// grid in numpy order; `reports` holds the progress values passed to the
    /// callback and `err` the exception that ended the march.
    method March(g: Voxels) returns (err: Option<PyError>, reports: seq<real>)
      modifies this
      ensures var st := Run(State(old(Snapshot()), 0, [], None), g, Order(g));
        Snapshot() == st.out && reports == st.reports && err == st.err
    {
      ghost var st0 := State(Snapshot(), 0, [], None);
      var count: nat := 0;
      reports, err := [], None;
      for x := 0 to g.X
        invariant State(Snapshot(), count, reports, err) == Run(st0, g, Block(x, g.Y, g.Z))
      {
        count, reports, err := MarchPlane(g, x, count, reports, err);
        RunAppend(st0, g, Block(x, g.Y, g.Z), Plane(x, g.Y, g.Z));
      }
    }

    /// The cells of the plane x, row by row.
    method MarchPlane(g: Voxels, x: nat, count: nat, reports: seq<real>, err: Option<PyError>)
      returns (count': nat, reports': seq<real>, err': Option<PyError>)
      requires x < g.X
      modifies this
      ensures AllIn(g, Plane(x, g.Y, g.Z))
      ensures State(Snapshot(), count', reports', err') == Run(State(old(Snapshot()), count, reports, err), g, Plane(x, g.Y, g.Z))
    {
      ghost var sx := State(Snapshot(), count, reports, err);
      count', reports', err' := count, reports, err;
      for y := 0 to g.Y
        invariant State(Snapshot(), count', reports', err') == Run(sx, g, Plane(x, y, g.Z))
      {
        count', reports', err' := MarchLine(g, x, y, count', reports', err');
        RunAppend(sx, g, Plane(x, y, g.Z), Line(x, y, g.Z));
      }
    }

    /// The cells of the row (x, y).
    method MarchLine(g: Voxels, x: nat, y: nat, count: nat, reports: seq<real>, err: Option<PyError>)
      returns (count': nat, reports': seq<real>, err': Option<PyError>)
      requires x < g.X && y < g.Y
      modifies this
      ensures AllIn(g, Line(x, y, g.Z))
      ensures State(Snapshot(), count', reports', err') == Run(State(old(Snapshot()), count, reports, err), g, Line(x, y, g.Z))
    {
      ghost var sy := State(Snapshot(), count, reports, err);
      count', reports', err' := count, reports, err;
      for z := 0 to g.Z
        invariant State(Snapshot(), count', reports', err') == Run(sy, g, Line(x, y, z))
      {
        count', reports', err' := Step(g, x, y, z, count', reports', err');
        LineGrows(x, y, z);
        RunAppend(sy, g, Line(x, y, z), [Vec(x, y, z)]);
      }
    }

    /// One iteration of the `ndenumerate` loop, skipped once an exception
    /// has ended the march.
    method Step(g: Voxels, x: nat, y: nat, z: nat, count: nat, reports: seq<real>, err: Option<PyError>)
      returns (count': nat, reports': seq<real>, err': Option<PyError>)
      requires InBounds(g, x, y, z)
      modifies this
      ensures State(Snapshot(), count', reports', err') == Visit(State(old(Snapshot()), count, reports, err), g, Vec(x, y, z))
    {
      count', reports', err' := count, reports, err;
      if err.None? {
        var pos := g.cells[x][y][z];
        if pos != 0 {
          err' := EmitCell(g, x, y, z, pos);
        }
        if err'.None? {
          count' := count + 1;
          if count' % 100 == 0 {
            var total := g.X * g.Y * g.Z;
            reports' := reports + [count' as real / total as real];
          }
        }
      }
    }

    /// `for face in faceMap: …` for the solid cell (x, y, z) holding pos.
    method EmitCell(g: Voxels, x: nat, y: nat, z: nat, pos: int) returns (e: Option<PyError>)
      requires InBounds(g, x, y, z) && pos == At(g, x, y, z)
      modifies this
      ensures (Snapshot(), e) == CellFaces(old(Snapshot()), g, Vec(x, y, z), 6)
    {
      e := None;
      for f := 0 to 6
        invariant (Snapshot(), e) == CellFaces(old(Snapshot()), g, Vec(x, y, z), f)
      {
        var face := FaceMap[f];
        var n := Add(Vec(x, y, z), face.normal);
        if e.None? && !(0 <= n.x < g.X && 0 <= n.y < g.Y && 0 <= n.z < g.Z && g.cells[n.x][n.y][n.z] != 0) {
          e := Emit(Vec(x, y, z), face, pos);
        }
      }
    }

    /// The four `extend` calls for one exposed face.
    method Emit(c: Vec, face: Face, pos: int) returns (e: Option<PyError>)
      requires |face.corners| == 4
      modifies this
      ensures (Snapshot(), e) == EmitFace(old(Snapshot()), c, face, pos)
    {
      var v := |vertices|;
      vertices := vertices + [Add(c, face.corners[0]), Add(c, face.corners[1]), Add(c, face.corners[2]), Add(c, face.corners[3])];
      faces := faces + [Tri(v, v + 1, v + 2), Tri(v, v + 2, v + 3)];
      normals := normals + [face.normal, face.normal, face.normal, face.normal];
      var col := ColorOf(pos);
      if col.None? {
        e := Some(KeyError);
      } else {
        colors := colors + [col.value, col.value, col.value, col.value];
        e := None;
      }
    }
  }
}
