/// The voxel occupancy grid ("cloud"): a dense X×Y×Z numpy array of material
/// codes, read by the occlusion march and by the mesher.
module Cloud {
  import opened Wrappers

  datatype Grid = Grid(X: nat, Y: nat, Z: nat, cells: seq<seq<seq<int>>>)

  /// The nested sequences really form an X×Y×Z block, as a numpy array does.
  predicate Rect(g: Grid) {
    && |g.cells| == g.X
    && (forall x :: 0 <= x < g.X ==> |g.cells[x]| == g.Y)
    && (forall x, y :: 0 <= x < g.X && 0 <= y < g.Y ==> |g.cells[x][y]| == g.Z)
  }

  type Voxels = g: Grid | Rect(g) witness Grid(0, 0, 0, [])

  predicate InBounds(g: Voxels, x: int, y: int, z: int) {
    0 <= x < g.X && 0 <= y < g.Y && 0 <= z < g.Z
  }

  function At(g: Voxels, x: int, y: int, z: int): int
    requires InBounds(g, x, y, z)
  {
    g.cells[x][y][z]
  }

  /// numpy's rule for one integer index into an axis of length dim: indices in
  /// [-dim, dim) are accepted and negative ones count from the end; anything
  /// else raises IndexError (None here).
  function NpIndex(i: int, dim: nat): (r: Option<nat>)
    ensures r.Some? <==> 0 <= i + dim && i < dim
    ensures r.Some? ==> r.value < dim && (r.value == i || r.value == i + dim)
    ensures 0 <= i < dim ==> r == Some(i)
  {
    if 0 <= i < dim then Some(i)
    else if 0 <= i + dim && i < 0 then Some(i + dim)
    else None
  }

  /// `cloud[tuple(pos)]`: the cell at an integer voxel position, or None where
  /// numpy raises IndexError on any of the three axes.
  function Lookup(g: Voxels, pos: seq<int>): (r: Option<int>)
    requires |pos| == 3
    ensures r.Some? <==> (0 <= pos[0] + g.X && pos[0] < g.X && 0 <= pos[1] + g.Y && pos[1] < g.Y && 0 <= pos[2] + g.Z && pos[2] < g.Z)
    ensures InBounds(g, pos[0], pos[1], pos[2]) ==> r == Some(At(g, pos[0], pos[1], pos[2]))
    ensures r.Some? ==> exists x, y, z :: InBounds(g, x, y, z) && r.value == At(g, x, y, z)
  {
    match (NpIndex(pos[0], g.X), NpIndex(pos[1], g.Y), NpIndex(pos[2], g.Z))
    case (Some(x), Some(y), Some(z)) =>
      assert InBounds(g, x, y, z) && g.cells[x][y][z] == At(g, x, y, z);
      Some(g.cells[x][y][z])
    case _ => None
  }

  /// Every cell of the grid holds a key of KINDS.
  ghost predicate ValidKinds(g: Voxels) {
    forall x, y, z :: InBounds(g, x, y, z) ==> 0 <= At(g, x, y, z) <= 3
  }

  /// KINDS: material code to material name (gen/build.py:4-9).
  function KindName(code: int): (r: Option<string>)
    ensures r.Some? <==> 0 <= code <= 3
  {
    if code == 0 then Some("empty")
    else if code == 1 then Some("shelf")
    else if code == 2 then Some("pile")
    else if code == 3 then Some("wall")
    else None
  }
}
