/**
 * Block edits of src/world/world.c: removeCubeAtWorldPosition and addCubeAtGlobalPos
 * refuse positions at the world's edge, otherwise change one cube's material and call
 * remeshChunkGeometryAtGlobalPos, which rebuilds the edited cube's render split and, when
 * the cube lies on a split boundary, the split across that boundary (at most one per axis).
 *
 * The rebuilt meshes are stated against a snapshot of the cube arrays taken after the
 * write (Meshing.RegeneratedSplit).
 */
module Edits {
  import opened Coords
  import opened WorldTypes
  import opened Util
  import opened Meshing

  /** A block position in world space. */
  datatype WorldPos = WorldPos(x: int, y: int, z: int)

  /** The position lies in a loaded chunk column and inside the chunk's height. */
  predicate Loaded(worldSize: int, p: WorldPos) {
    InLoadedRegion(worldSize, ChunkCoordOf(p.x), ChunkCoordOf(p.z)) && 0 <= p.y < 256
  }

  /**
   * The edge test shared by removeCubeAtWorldPosition and addCubeAtGlobalPos: an edit for
   * which it holds is refused and changes nothing.
   */
  predicate AtWorldEdge(worldSize: int, x: int, y: int, z: int) {
    x <= -worldSize * 16 || x >= worldSize * 16 || z <= -worldSize * 16 || z >= worldSize * 16 || y <= 0 || y >= 256
  }

  /** A position the edge test lets through lies in the loaded world, above its floor. */
  lemma AcceptedEditIsLoaded(worldSize: int, x: int, y: int, z: int)
    requires !AtWorldEdge(worldSize, x, y, z)
    ensures Loaded(worldSize, WorldPos(x, y, z)) && y > 0
  {
    ChunkCoordIsFloor(x);
    ChunkCoordIsFloor(z);
  }

  // ---------------------------------------------------------------------------
  // The splits remeshChunkGeometryAtGlobalPos rebuilds
  // ---------------------------------------------------------------------------

  /** The X step: one chunk west when localX is 0, one chunk east when localX is at least 15. */
  function XTarget(x: int, y: int, z: int): (ps: seq<WorldPos>)
    requires y >= 0
    ensures |ps| <= 1
  {
    var p := WorldPosToLocalPos(x, y, z);
    if p.localX == 0 then [WorldPos(x - 16, y, z)]
    else if p.localX >= 15 then [WorldPos(x + 16, y, z)]
    else []
  }

  /** The Y step: one split down when localY is 0, one split up when localY is at least 15. */
  function YTarget(x: int, y: int, z: int): (ps: seq<WorldPos>)
    requires y >= 0
    ensures |ps| <= 1
  {
    var p := WorldPosToLocalPos(x, y, z);
    if p.localY == 0 then [WorldPos(x, y - 16, z)]
    else if p.localY >= 15 then [WorldPos(x, y + 16, z)]
    else []
  }

  /** The Z step: one chunk south when localZ is 0, one chunk north when localZ is at least 15. */
  function ZTarget(x: int, y: int, z: int): (ps: seq<WorldPos>)
    requires y >= 0
    ensures |ps| <= 1
  {
    var p := WorldPosToLocalPos(x, y, z);
    if p.localZ == 0 then [WorldPos(x, y, z - 16)]
    else if p.localZ >= 15 then [WorldPos(x, y, z + 16)]
    else []
  }

  /** The positions whose splits remeshChunkGeometryAtGlobalPos rebuilds, in its order. */
  function RemeshPositions(x: int, y: int, z: int): (ps: seq<WorldPos>)
    requires y >= 0
    ensures 1 <= |ps| <= 4 && ps[0] == WorldPos(x, y, z)
  {
    [WorldPos(x, y, z)] + XTarget(x, y, z) + YTarget(x, y, z) + ZTarget(x, y, z)
  }

  /** Every lookup remeshChunkGeometryAtGlobalPos makes finds a chunk and passes the height assert. */
  predicate RemeshInRange(worldSize: int, x: int, y: int, z: int)
    requires y >= 0
  {
    forall q :: q in RemeshPositions(x, y, z) ==> Loaded(worldSize, q)
  }

  /** The render split holding a loaded position: getRenderChunkAtWorldSpacePosition. */
  function SplitAt(w: World, p: WorldPos): (r: SplitRef)
    requires w.Valid() && Loaded(w.worldSize, p)
    ensures r.chunk in w.chunks && 0 <= r.index < CHUNK_SPLITS
    ensures r == SplitRef(ChunkAt(w, ChunkCoordOf(p.x), ChunkCoordOf(p.z)), SplitIndexOf(p.y))
  {
    RenderChunkAtWorldSpacePosition(w, p.x, p.y, p.z).value
  }

  /** The splits holding a list of loaded positions, in order. */
  function SplitsOf(w: World, ps: seq<WorldPos>): (rs: seq<SplitRef>)
    requires w.Valid() && forall q :: q in ps ==> Loaded(w.worldSize, q)
    ensures |rs| == |ps|
    ensures forall k :: 0 <= k < |rs| ==> rs[k] == SplitAt(w, ps[k])
  {
    seq(|ps|, k requires 0 <= k < |ps| => SplitAt(w, ps[k]))
  }

  /** The splits remeshChunkGeometryAtGlobalPos rebuilds, in its order. */
  function RemeshSplits(w: World, x: int, y: int, z: int): (rs: seq<SplitRef>)
    requires w.Valid() && y >= 0 && RemeshInRange(w.worldSize, x, y, z)
    ensures |rs| == |RemeshPositions(x, y, z)|
    ensures forall k :: 0 <= k < |rs| ==> rs[k].chunk in w.chunks && 0 <= rs[k].index < CHUNK_SPLITS
  {
    SplitsOf(w, RemeshPositions(x, y, z))
  }

  /** The rebuilt splits, axis by axis: the edited cube's own split first. */
  lemma RemeshSplitsParts(w: World, x: int, y: int, z: int)
    requires w.Valid() && y >= 0 && RemeshInRange(w.worldSize, x, y, z)
    ensures RemeshSplits(w, x, y, z)
         == [SplitAt(w, WorldPos(x, y, z))] + SplitsOf(w, XTarget(x, y, z)) + SplitsOf(w, YTarget(x, y, z)) + SplitsOf(w, ZTarget(x, y, z))
  {
  }

  /** Step a world coordinate by one chunk width: its chunk coordinate steps by one. */
  lemma ChunkCoordSteps(x: int)
    ensures ChunkCoordOf(x - 16) == ChunkCoordOf(x) - 1
    ensures ChunkCoordOf(x + 16) == ChunkCoordOf(x) + 1
  {
    var c := ChunkCoordOf(x);
    ChunkCoordIsFloor(x);
    var l := x - c * 16;
    ChunkCoordOfOrigin(c - 1, l);
    ChunkCoordOfOrigin(c + 1, l);
    assert (c - 1) * 16 + l == x - 16;
    assert (c + 1) * 16 + l == x + 16;
  }

  /** A position of the rebuilt list that holds the given split. */
  lemma InRemeshSplits(w: World, x: int, y: int, z: int, q: WorldPos)
    requires w.Valid() && y >= 0 && RemeshInRange(w.worldSize, x, y, z) && q in RemeshPositions(x, y, z)
    ensures Loaded(w.worldSize, q) && SplitAt(w, q) in RemeshSplits(w, x, y, z)
  {
    var ps := RemeshPositions(x, y, z);
    var k :| 0 <= k < |ps| && ps[k] == q;
    assert RemeshSplits(w, x, y, z)[k] == SplitAt(w, q);
  }

  /**
   * The positions rebuilt: the edited one, and at most one step of a chunk width or a
   * split height along each axis.
   */
  lemma RemeshPositionsShape(x: int, y: int, z: int, k: int)
    requires y >= 0 && 0 < k < |RemeshPositions(x, y, z)|
    ensures var q := RemeshPositions(x, y, z)[k];
      || (q.y == y && q.z == z && (q.x == x - 16 || q.x == x + 16) && k == 1)
      || (q.x == x && q.z == z && (q.y == y - 16 || q.y == y + 16) && k == 1 + |XTarget(x, y, z)|)
      || (q.x == x && q.y == y && (q.z == z - 16 || q.z == z + 16) && k == 1 + |XTarget(x, y, z)| + |YTarget(x, y, z)|)
  {
  }

  /** No split is rebuilt twice: the rebuilt splits are pairwise distinct. */
  lemma RemeshSplitsDistinct(w: World, x: int, y: int, z: int)
    requires w.Valid() && y >= 0 && RemeshInRange(w.worldSize, x, y, z)
    ensures var rs := RemeshSplits(w, x, y, z);
      forall i, j :: 0 <= i < j < |rs| ==> rs[i] != rs[j]
  {
    var ps, rs := RemeshPositions(x, y, z), RemeshSplits(w, x, y, z);
    ChunkCoordSteps(x);
    ChunkCoordSteps(z);
    forall i, j | 0 <= i < j < |rs|
      ensures rs[i] != rs[j]
    {
      RemeshPositionsShape(x, y, z, j);
      if i > 0 {
        RemeshPositionsShape(x, y, z, i);
      }
      assert rs[i] == SplitAt(w, ps[i]) && rs[j] == SplitAt(w, ps[j]);
    }
  }

  /**
   * For a position of the loaded world, every lookup of the rebuild stays in the world
   * exactly when the position is not on the world's outermost column, row or layer on
   * any side, nor on its bottom layer.
   */
  predicate AtWorldEdgeIntended(worldSize: int, x: int, y: int, z: int) {
    x <= -worldSize * 16 || x >= worldSize * 16 - 1 || z <= -worldSize * 16 || z >= worldSize * 16 - 1 || y <= 0 || y >= 255
  }

  /** The X lookup of the rebuild stays in the world exactly off the outermost columns. */
  lemma XTargetInRange(worldSize: int, x: int, y: int, z: int)
    requires Loaded(worldSize, WorldPos(x, y, z))
    ensures (forall q :: q in XTarget(x, y, z) ==> Loaded(worldSize, q))
        <==> -worldSize * 16 < x < worldSize * 16 - 1
  {
    ChunkCoordSteps(x);
    ChunkCoordIsFloor(x);
    LocalPosIsRemainder(x, y, z);
    assert x == (x / 16) * 16 + x % 16;
    if x % 16 == 0 {
      assert XTarget(x, y, z) == [WorldPos(x - 16, y, z)];
      assert Loaded(worldSize, WorldPos(x - 16, y, z)) <==> x > -worldSize * 16;
    } else if x % 16 >= 15 {
      assert XTarget(x, y, z) == [WorldPos(x + 16, y, z)];
      assert Loaded(worldSize, WorldPos(x + 16, y, z)) <==> x < worldSize * 16 - 1;
    } else {
      assert XTarget(x, y, z) == [];
    }
  }

  /** The Z lookup of the rebuild stays in the world exactly off the outermost rows. */
  lemma ZTargetInRange(worldSize: int, x: int, y: int, z: int)
    requires Loaded(worldSize, WorldPos(x, y, z))
    ensures (forall q :: q in ZTarget(x, y, z) ==> Loaded(worldSize, q))
        <==> -worldSize * 16 < z < worldSize * 16 - 1
  {
    ChunkCoordSteps(z);
    ChunkCoordIsFloor(z);
    LocalPosIsRemainder(x, y, z);
    assert z == (z / 16) * 16 + z % 16;
    if z % 16 == 0 {
      assert ZTarget(x, y, z) == [WorldPos(x, y, z - 16)];
      assert Loaded(worldSize, WorldPos(x, y, z - 16)) <==> z > -worldSize * 16;
    } else if z % 16 >= 15 {
      assert ZTarget(x, y, z) == [WorldPos(x, y, z + 16)];
      assert Loaded(worldSize, WorldPos(x, y, z + 16)) <==> z < worldSize * 16 - 1;
    } else {
      assert ZTarget(x, y, z) == [];
    }
  }

  /** The Y lookup of the rebuild stays inside the chunk's height exactly off the bottom and top layers. */
  lemma YTargetInRange(worldSize: int, x: int, y: int, z: int)
    requires Loaded(worldSize, WorldPos(x, y, z))
    ensures (forall q :: q in YTarget(x, y, z) ==> Loaded(worldSize, q)) <==> 0 < y < 255
  {
    LocalPosIsRemainder(x, y, z);
    var ly := y % 16;
    assert y == (y / 16) * 16 + ly;
    if ly == 0 {
      assert YTarget(x, y, z) == [WorldPos(x, y - 16, z)];
      assert Loaded(worldSize, WorldPos(x, y - 16, z)) <==> y > 0;
    } else if ly >= 15 {
      assert YTarget(x, y, z) == [WorldPos(x, y + 16, z)];
      assert Loaded(worldSize, WorldPos(x, y + 16, z)) <==> y < 255;
    } else {
      assert YTarget(x, y, z) == [];
    }
  }

  /**
   * The edge test, corrected to refuse the outermost layer on every side, lets through
   * exactly the positions of the loaded world whose rebuild stays in range.
   */
  lemma IntendedEdgeCheckIsRemeshInRange(worldSize: int, x: int, y: int, z: int)
    requires Loaded(worldSize, WorldPos(x, y, z))
    ensures RemeshInRange(worldSize, x, y, z) <==> !AtWorldEdgeIntended(worldSize, x, y, z)
  {
    XTargetInRange(worldSize, x, y, z);
    YTargetInRange(worldSize, x, y, z);
    ZTargetInRange(worldSize, x, y, z);
    ChunkCoordIsFloor(x);
    ChunkCoordIsFloor(z);
    var ps := RemeshPositions(x, y, z);
    assert ps == [WorldPos(x, y, z)] + XTarget(x, y, z) + YTarget(x, y, z) + ZTarget(x, y, z);
  }

  /**
   * The edge test as written refuses the west, south and bottom layers but lets the east
   * and north layers and the top layer through, and from there the rebuild looks beyond
   * the world: getChunkAtWorldSpacePosition gives NULL to freeGenerateUpdate's assert, or
   * getRenderChunkAtWorldSpacePosition's height assert fails.
   */
  lemma EdgeCheckAdmitsEscapingRemesh(worldSize: int, x: int, y: int, z: int)
    requires !AtWorldEdge(worldSize, x, y, z)
    ensures RemeshInRange(worldSize, x, y, z) <==> x != worldSize * 16 - 1 && z != worldSize * 16 - 1 && y != 255
  {
    AcceptedEditIsLoaded(worldSize, x, y, z);
    IntendedEdgeCheckIsRemeshInRange(worldSize, x, y, z);
  }

  /** The east edge column at height 1 passes the edge test, and its rebuild leaves the world. */
  lemma EastEdgeEditEscapes(worldSize: int)
    requires worldSize > 0
    ensures !AtWorldEdge(worldSize, worldSize * 16 - 1, 1, 0)
    ensures !RemeshInRange(worldSize, worldSize * 16 - 1, 1, 0)
  {
    EdgeCheckAdmitsEscapingRemesh(worldSize, worldSize * 16 - 1, 1, 0);
  }

  /** The top layer at the origin column passes the edge test, and its rebuild leaves the world. */
  lemma TopEdgeEditEscapes(worldSize: int)
    requires worldSize > 0
    ensures !AtWorldEdge(worldSize, 0, 255, 0)
    ensures !RemeshInRange(worldSize, 0, 255, 0)
  {
    EdgeCheckAdmitsEscapingRemesh(worldSize, 0, 255, 0);
  }

  /** n shares a face with p. */
  predicate FaceNeighbour(p: WorldPos, n: WorldPos) {
    || (n.y == p.y && n.z == p.z && (n.x == p.x - 1 || n.x == p.x + 1))
    || (n.x == p.x && n.z == p.z && (n.y == p.y - 1 || n.y == p.y + 1))
    || (n.x == p.x && n.y == p.y && (n.z == p.z - 1 || n.z == p.z + 1))
  }

  /** A step of one block changes the chunk coordinate only when it crosses a chunk border. */
  lemma ChunkCoordOfNeighbour(x: int, n: int)
    requires n == x - 1 || n == x + 1
    ensures ChunkCoordOf(n) == ChunkCoordOf(x) + (if n < x && x % 16 == 0 then -1 else if n > x && x % 16 == 15 then 1 else 0)
  {
    ChunkCoordIsFloor(x);
    ChunkCoordIsFloor(n);
  }

  /** A step of one block changes the split index only when it crosses a split border. */
  lemma SplitIndexOfNeighbour(y: int, n: int)
    requires 0 <= y < 256 && 0 <= n < 256 && (n == y - 1 || n == y + 1)
    ensures SplitIndexOf(n) == SplitIndexOf(y) + (if n < y && y % 16 == 0 then -1 else if n > y && y % 16 == 15 then 1 else 0)
  {
  }

  /** A step of one block along X stays in the chunk column, or crosses to the one the rebuild visits. */
  lemma XNeighbourCovered(w: World, x: int, y: int, z: int, n: WorldPos)
    requires w.Valid() && y >= 0 && RemeshInRange(w.worldSize, x, y, z)
    requires n.y == y && n.z == z && (n.x == x - 1 || n.x == x + 1) && Loaded(w.worldSize, n)
    ensures SplitAt(w, n) in RemeshSplits(w, x, y, z)
  {
    ChunkCoordOfNeighbour(x, n.x);
    ChunkCoordSteps(x);
    LocalPosIsRemainder(x, y, z);
    var q := WorldPos(x, y, z);
    if n.x == x - 1 && x % 16 == 0 {
      q := WorldPos(x - 16, y, z);
    } else if n.x == x + 1 && x % 16 == 15 {
      q := WorldPos(x + 16, y, z);
    }
    assert ChunkCoordOf(n.x) == ChunkCoordOf(q.x);
    InRemeshSplits(w, x, y, z, q);
  }

  /** A step of one block along Z stays in the chunk row, or crosses to the one the rebuild visits. */
  lemma ZNeighbourCovered(w: World, x: int, y: int, z: int, n: WorldPos)
    requires w.Valid() && y >= 0 && RemeshInRange(w.worldSize, x, y, z)
    requires n.x == x && n.y == y && (n.z == z - 1 || n.z == z + 1) && Loaded(w.worldSize, n)
    ensures SplitAt(w, n) in RemeshSplits(w, x, y, z)
  {
    ChunkCoordOfNeighbour(z, n.z);
    ChunkCoordSteps(z);
    LocalPosIsRemainder(x, y, z);
    var q := WorldPos(x, y, z);
    if n.z == z - 1 && z % 16 == 0 {
      q := WorldPos(x, y, z - 16);
    } else if n.z == z + 1 && z % 16 == 15 {
      q := WorldPos(x, y, z + 16);
    }
    assert ChunkCoordOf(n.z) == ChunkCoordOf(q.z);
    InRemeshSplits(w, x, y, z, q);
  }

  /** A step of one block along Y stays in the split, or crosses to the split the rebuild visits. */
  lemma YNeighbourCovered(w: World, x: int, y: int, z: int, n: WorldPos)
    requires w.Valid() && y >= 0 && RemeshInRange(w.worldSize, x, y, z)
    requires n.x == x && n.z == z && (n.y == y - 1 || n.y == y + 1) && Loaded(w.worldSize, n)
    ensures SplitAt(w, n) in RemeshSplits(w, x, y, z)
  {
    assert Loaded(w.worldSize, WorldPos(x, y, z));
    SplitIndexOfNeighbour(y, n.y);
    LocalPosIsRemainder(x, y, z);
    var q := WorldPos(x, y, z);
    if n.y == y - 1 && y % 16 == 0 {
      q := WorldPos(x, y - 16, z);
    } else if n.y == y + 1 && y % 16 == 15 {
      q := WorldPos(x, y + 16, z);
    }
    InRemeshSplits(w, x, y, z, q);
    assert SplitIndexOf(n.y) == SplitIndexOf(q.y);
  }

  /**
   * Every split holding a face neighbour of the edited cube is rebuilt. An edit changes
   * only the faces of the cube itself and of its six neighbours, so these are all the
   * splits whose meshes it can change.
   */
  lemma RemeshCoversNeighbours(w: World, x: int, y: int, z: int, n: WorldPos)
    requires w.Valid() && y >= 0 && RemeshInRange(w.worldSize, x, y, z)
    requires FaceNeighbour(WorldPos(x, y, z), n) && Loaded(w.worldSize, n)
    ensures SplitAt(w, n) in RemeshSplits(w, x, y, z)
  {
    if n.x != x {
      XNeighbourCovered(w, x, y, z, n);
    } else if n.y != y {
      YNeighbourCovered(w, x, y, z, n);
    } else {
      ZNeighbourCovered(w, x, y, z, n);
    }
  }

  // ---------------------------------------------------------------------------
  // The rebuild and the edits
  // ---------------------------------------------------------------------------

  /**
   * One rebuild of remeshChunkGeometryAtGlobalPos: look up the chunk and the render split
   * of a position and hand them to freeGenerateUpdate. The splits in `done`, rebuilt
   * before, keep their meshes.
   */
  method RemeshAt(w: World, x: int, y: int, z: int, ghost cubes: Cubes, ghost done: seq<SplitRef>)
    requires w.Valid() && w.Separate() && CubesMirror(w, cubes) && Loaded(w.worldSize, WorldPos(x, y, z))
    requires forall r :: r in done ==> r.chunk in w.chunks && 0 <= r.index < CHUNK_SPLITS && RegeneratedSplit(w, cubes, r)
    requires SplitAt(w, WorldPos(x, y, z)) !in done
    modifies SplitAt(w, WorldPos(x, y, z)).chunk.renderChunks[SplitAt(w, WorldPos(x, y, z)).index]
    ensures CubesMirror(w, cubes)
    ensures forall r :: r in done + [SplitAt(w, WorldPos(x, y, z))] ==>
      r.chunk in w.chunks && 0 <= r.index < CHUNK_SPLITS && RegeneratedSplit(w, cubes, r)
  {
    var c := ChunkAtWorldSpacePosition(w, x, y, z);
    var r := RenderChunkAtWorldSpacePosition(w, x, y, z);
    Regenerate(w, c, r.value.index, cubes);
    forall s | s in done
      ensures RegeneratedSplit(w, cubes, s)
    {
      SplitRenderChunksDistinct(w, s, r.value);
    }
  }

  /** The split rebuilt across X: a different chunk column in the same row of the edited cube's split m. */
  lemma XPartShape(w: World, x: int, y: int, z: int)
    requires w.Valid() && y >= 0 && RemeshInRange(w.worldSize, x, y, z)
    ensures var m := SplitAt(w, WorldPos(x, y, z));
      forall r :: r in SplitsOf(w, XTarget(x, y, z)) ==> r.chunk.startX != m.chunk.startX && r.chunk.startZ == m.chunk.startZ
  {
    var t := XTarget(x, y, z);
    if |t| == 1 {
      var q := t[0];
      assert q in RemeshPositions(x, y, z);
      assert q.y == y && q.z == z && (q.x == x - 16 || q.x == x + 16);
      ChunkCoordSteps(x);
      ChunkCoordSteps(z);
      assert SplitsOf(w, t) == [SplitAt(w, q)];
    }
  }

  /** The split rebuilt across Y: the same chunk column, another split of the edited cube's split m. */
  lemma YPartShape(w: World, x: int, y: int, z: int)
    requires w.Valid() && y >= 0 && RemeshInRange(w.worldSize, x, y, z)
    ensures var m := SplitAt(w, WorldPos(x, y, z));
      forall r :: r in SplitsOf(w, YTarget(x, y, z)) ==> r.chunk == m.chunk && r.index != m.index
  {
    var t := YTarget(x, y, z);
    if |t| == 1 {
      var q := t[0];
      assert q in RemeshPositions(x, y, z);
      assert q.x == x && q.z == z && (q.y == y - 16 || q.y == y + 16);
      ChunkCoordSteps(x);
      ChunkCoordSteps(z);
      assert SplitsOf(w, t) == [SplitAt(w, q)];
    }
  }

  /** The split rebuilt across Z: a different chunk row in the same column of the edited cube's split m. */
  lemma ZPartShape(w: World, x: int, y: int, z: int)
    requires w.Valid() && y >= 0 && RemeshInRange(w.worldSize, x, y, z)
    ensures var m := SplitAt(w, WorldPos(x, y, z));
      forall r :: r in SplitsOf(w, ZTarget(x, y, z)) ==> r.chunk.startX == m.chunk.startX && r.chunk.startZ != m.chunk.startZ
  {
    var t := ZTarget(x, y, z);
    if |t| == 1 {
      var q := t[0];
      assert q in RemeshPositions(x, y, z);
      assert q.x == x && q.y == y && (q.z == z - 16 || q.z == z + 16);
      ChunkCoordSteps(x);
      ChunkCoordSteps(z);
      assert SplitsOf(w, t) == [SplitAt(w, q)];
    }
  }

  /** The RenderChunks of a list of splits. */
  ghost function RenderChunksOf(rs: seq<SplitRef>): set<RenderChunk>
  {
    set r | r in rs && 0 <= r.index < |r.chunk.renderChunks| :: r.chunk.renderChunks[r.index]
  }

  /** A single rebuilt position: its split, and that split's RenderChunk. */
  lemma SingleTarget(w: World, x: int, y: int, z: int, q: WorldPos)
    requires w.Valid() && y >= 0 && RemeshInRange(w.worldSize, x, y, z) && q in RemeshPositions(x, y, z)
    ensures Loaded(w.worldSize, q) && SplitsOf(w, [q]) == [SplitAt(w, q)]
    ensures RenderChunksOf([SplitAt(w, q)]) == {SplitAt(w, q).chunk.renderChunks[SplitAt(w, q).index]}
  {
  }

  /** Each axis's rebuilt split differs from the splits rebuilt before it. */
  lemma RemeshPartsDisjoint(w: World, x: int, y: int, z: int)
    requires w.Valid() && y >= 0 && RemeshInRange(w.worldSize, x, y, z)
    ensures var m := SplitAt(w, WorldPos(x, y, z));
      var xs, ys, zs := SplitsOf(w, XTarget(x, y, z)), SplitsOf(w, YTarget(x, y, z)), SplitsOf(w, ZTarget(x, y, z));
      && (forall r :: r in xs ==> r !in [m])
      && (forall r :: r in ys ==> r !in [m] + xs)
      && (forall r :: r in zs ==> r !in [m] + xs + ys)
  {
    XPartShape(w, x, y, z);
    YPartShape(w, x, y, z);
    ZPartShape(w, x, y, z);
  }

  /** The RenderChunks of two lists of splits, one after the other. */
  lemma RenderChunksOfConcat(rs: seq<SplitRef>, rs': seq<SplitRef>)
    ensures RenderChunksOf(rs + rs') == RenderChunksOf(rs) + RenderChunksOf(rs')
  {
  }

  /** The RenderChunks of the rebuilt splits, axis by axis. */
  lemma RemeshRenderChunksParts(w: World, x: int, y: int, z: int)
    requires w.Valid() && y >= 0 && RemeshInRange(w.worldSize, x, y, z)
    ensures var m := SplitAt(w, WorldPos(x, y, z));
      RenderChunksOf(RemeshSplits(w, x, y, z))
      == RenderChunksOf([m]) + RenderChunksOf(SplitsOf(w, XTarget(x, y, z)))
       + RenderChunksOf(SplitsOf(w, YTarget(x, y, z))) + RenderChunksOf(SplitsOf(w, ZTarget(x, y, z)))
  {
    RemeshSplitsParts(w, x, y, z);
    var m := SplitAt(w, WorldPos(x, y, z));
    var xs, ys, zs := SplitsOf(w, XTarget(x, y, z)), SplitsOf(w, YTarget(x, y, z)), SplitsOf(w, ZTarget(x, y, z));
    RenderChunksOfConcat([m] + xs + ys, zs);
    RenderChunksOfConcat([m] + xs, ys);
    RenderChunksOfConcat([m], xs);
  }

  /**
   * The X block of remeshChunkGeometryAtGlobalPos: rebuild the split across the lower
   * boundary when localX is 0, else across the upper one when localX is at least 15.
   */
  method RemeshAcrossX(w: World, x: int, y: int, z: int, ghost cubes: Cubes, ghost done: seq<SplitRef>)
    requires w.Valid() && w.Separate() && CubesMirror(w, cubes)
    requires y >= 0 && RemeshInRange(w.worldSize, x, y, z)
    requires forall r :: r in done ==> r.chunk in w.chunks && 0 <= r.index < CHUNK_SPLITS && RegeneratedSplit(w, cubes, r)
    requires forall r :: r in SplitsOf(w, XTarget(x, y, z)) ==> r !in done
    modifies RenderChunksOf(SplitsOf(w, XTarget(x, y, z)))
    ensures CubesMirror(w, cubes)
    ensures forall r :: r in done + SplitsOf(w, XTarget(x, y, z)) ==>
      r.chunk in w.chunks && 0 <= r.index < CHUNK_SPLITS && RegeneratedSplit(w, cubes, r)
  {
    var p := WorldPosToLocalPos(x, y, z);
    if p.localX == 0 {
      assert XTarget(x, y, z) == [WorldPos(x - 16, y, z)];
      SingleTarget(w, x, y, z, WorldPos(x - 16, y, z));
      RemeshAt(w, x - 16, y, z, cubes, done);
    } else if p.localX >= 15 {
      assert XTarget(x, y, z) == [WorldPos(x + 16, y, z)];
      SingleTarget(w, x, y, z, WorldPos(x + 16, y, z));
      RemeshAt(w, x + 16, y, z, cubes, done);
    } else {
      assert done + SplitsOf(w, XTarget(x, y, z)) == done;
    }
  }

  /**
   * The Y block of remeshChunkGeometryAtGlobalPos: rebuild the split across the lower
   * boundary when localY is 0, else across the upper one when localY is at least 15.
   */
  method RemeshAcrossY(w: World, x: int, y: int, z: int, ghost cubes: Cubes, ghost done: seq<SplitRef>)
    requires w.Valid() && w.Separate() && CubesMirror(w, cubes)
    requires y >= 0 && RemeshInRange(w.worldSize, x, y, z)
    requires forall r :: r in done ==> r.chunk in w.chunks && 0 <= r.index < CHUNK_SPLITS && RegeneratedSplit(w, cubes, r)
    requires forall r :: r in SplitsOf(w, YTarget(x, y, z)) ==> r !in done
    modifies RenderChunksOf(SplitsOf(w, YTarget(x, y, z)))
    ensures CubesMirror(w, cubes)
    ensures forall r :: r in done + SplitsOf(w, YTarget(x, y, z)) ==>
      r.chunk in w.chunks && 0 <= r.index < CHUNK_SPLITS && RegeneratedSplit(w, cubes, r)
  {
    var p := WorldPosToLocalPos(x, y, z);
    if p.localY == 0 {
      assert YTarget(x, y, z) == [WorldPos(x, y - 16, z)];
      SingleTarget(w, x, y, z, WorldPos(x, y - 16, z));
      RemeshAt(w, x, y - 16, z, cubes, done);
    } else if p.localY >= 15 {
      assert YTarget(x, y, z) == [WorldPos(x, y + 16, z)];
      SingleTarget(w, x, y, z, WorldPos(x, y + 16, z));
      RemeshAt(w, x, y + 16, z, cubes, done);
    } else {
      assert done + SplitsOf(w, YTarget(x, y, z)) == done;
    }
  }

  /**
   * The Z block of remeshChunkGeometryAtGlobalPos: rebuild the split across the lower
   * boundary when localZ is 0, else across the upper one when localZ is at least 15.
   */
  method RemeshAcrossZ(w: World, x: int, y: int, z: int, ghost cubes: Cubes, ghost done: seq<SplitRef>)
    requires w.Valid() && w.Separate() && CubesMirror(w, cubes)
    requires y >= 0 && RemeshInRange(w.worldSize, x, y, z)
    requires forall r :: r in done ==> r.chunk in w.chunks && 0 <= r.index < CHUNK_SPLITS && RegeneratedSplit(w, cubes, r)
    requires forall r :: r in SplitsOf(w, ZTarget(x, y, z)) ==> r !in done
    modifies RenderChunksOf(SplitsOf(w, ZTarget(x, y, z)))
    ensures CubesMirror(w, cubes)
    ensures forall r :: r in done + SplitsOf(w, ZTarget(x, y, z)) ==>
      r.chunk in w.chunks && 0 <= r.index < CHUNK_SPLITS && RegeneratedSplit(w, cubes, r)
  {
    var p := WorldPosToLocalPos(x, y, z);
    if p.localZ == 0 {
      assert ZTarget(x, y, z) == [WorldPos(x, y, z - 16)];
      SingleTarget(w, x, y, z, WorldPos(x, y, z - 16));
      RemeshAt(w, x, y, z - 16, cubes, done);
    } else if p.localZ >= 15 {
      assert ZTarget(x, y, z) == [WorldPos(x, y, z + 16)];
      SingleTarget(w, x, y, z, WorldPos(x, y, z + 16));
      RemeshAt(w, x, y, z + 16, cubes, done);
    } else {
      assert done + SplitsOf(w, ZTarget(x, y, z)) == done;
    }
  }

  /**
   * remeshChunkGeometryAtGlobalPos: rebuild the split of (x, y, z), then the split across
   * each boundary the position lies on. Every split of RemeshSplits ends up holding the
   * mesh of its faces, and no other RenderChunk is touched.
   */
  method RemeshChunkGeometryAtGlobalPos(w: World, x: int, y: int, z: int, ghost cubes: Cubes)
    requires w.Valid() && w.Separate() && CubesMirror(w, cubes)
    requires y >= 0 && RemeshInRange(w.worldSize, x, y, z)
    modifies RenderChunksOf(RemeshSplits(w, x, y, z))
    ensures CubesMirror(w, cubes)
    ensures forall r :: r in RemeshSplits(w, x, y, z) ==> RegeneratedSplit(w, cubes, r)
  {
    RemeshSplitsParts(w, x, y, z);
    RemeshPartsDisjoint(w, x, y, z);
    RemeshRenderChunksParts(w, x, y, z);
    ghost var m := SplitAt(w, WorldPos(x, y, z));
    ghost var xs, ys, zs := SplitsOf(w, XTarget(x, y, z)), SplitsOf(w, YTarget(x, y, z)), SplitsOf(w, ZTarget(x, y, z));
    RemeshAt(w, x, y, z, cubes, []);
    RemeshAcrossX(w, x, y, z, cubes, [m]);
    RemeshAcrossY(w, x, y, z, cubes, [m] + xs);
    RemeshAcrossZ(w, x, y, z, cubes, [m] + xs + ys);
  }

  /** `cube` with its material replaced. */
  function WithMaterial(cube: Cube, material: Material): (c: Cube)
    ensures c.material == material && c.light == cube.light && c.flag1 == cube.flag1 && c.flag2 == cube.flag2
  {
    cube.(material := material)
  }

  /** The cube arrays of the world after one cube's material is replaced. */
  function SetMaterialIn(cubes: Cubes, cube: CubeRef, material: Material): (r: Cubes)
    requires cube.chunk in cubes && 0 <= cube.offset < |cubes[cube.chunk]|
    ensures r.Keys == cubes.Keys && forall d :: d in r ==> |r[d]| == |cubes[d]|
    ensures r[cube.chunk][cube.offset] == WithMaterial(cubes[cube.chunk][cube.offset], material)
    ensures forall d, k :: d in r && 0 <= k < |r[d]| && (d != cube.chunk || k != cube.offset) ==> r[d][k] == cubes[d][k]
  {
    cubes[cube.chunk := cubes[cube.chunk][cube.offset := WithMaterial(cubes[cube.chunk][cube.offset], material)]]
  }

  /** cube->material = material: one entry of one cube array changes, and only its material. */
  method SetMaterial(w: World, cube: CubeRef, material: Material)
    requires w.Valid() && cube.chunk in w.chunks && 0 <= cube.offset < CHUNK_SIZE
    modifies cube.chunk.cubeData
    ensures CubesOfWorld(w) == SetMaterialIn(old(CubesOfWorld(w)), cube, material)
  {
    cube.chunk.cubeData[cube.offset] := WithMaterial(cube.chunk.cubeData[cube.offset], material);
  }

  /**
   * removeCubeAtWorldPosition: refused at the world's edge; otherwise `cube` becomes air
   * and the splits around (x, y, z) are rebuilt. `cube` is the caller's pointer, meant to
   * be the cube at (x, y, z). The edge test lets the east and north edge columns and the
   * top layer through, where the rebuild would look beyond the world and fail an assert;
   * the precondition excludes those positions.
   */
  method RemoveCubeAtWorldPosition(w: World, cube: CubeRef, x: int, y: int, z: int)
    requires w.Valid() && w.Separate() && cube.chunk in w.chunks && 0 <= cube.offset < CHUNK_SIZE
    requires !AtWorldEdge(w.worldSize, x, y, z) ==> x != w.worldSize * 16 - 1 && z != w.worldSize * 16 - 1 && y != 255
    modifies cube.chunk.cubeData, w.RenderChunkSet()
    ensures AtWorldEdge(w.worldSize, x, y, z) ==> unchanged(cube.chunk.cubeData) && unchanged(w.RenderChunkSet())
    ensures !AtWorldEdge(w.worldSize, x, y, z) ==> y >= 0 && RemeshInRange(w.worldSize, x, y, z)
    ensures !AtWorldEdge(w.worldSize, x, y, z) ==>
      && CubesOfWorld(w) == SetMaterialIn(old(CubesOfWorld(w)), cube, MaterialAir)
      && (forall r :: r in RemeshSplits(w, x, y, z) ==> RegeneratedSplit(w, CubesOfWorld(w), r))
      && (forall rc :: rc in w.RenderChunkSet() && rc !in RenderChunksOf(RemeshSplits(w, x, y, z)) ==> unchanged(rc))
  {
    if AtWorldEdge(w.worldSize, x, y, z) {
      return;
    }
    EdgeCheckAdmitsEscapingRemesh(w.worldSize, x, y, z);
    SetMaterial(w, cube, MaterialAir);
    RemeshChunkGeometryAtGlobalPos(w, x, y, z, CubesOfWorld(w));
  }

  /**
   * addCubeAtGlobalPos, the position already truncated to integers: refused at the
   * world's edge; otherwise the cube at (x, y, z) becomes bedrock and the splits around
   * it are rebuilt. The precondition excludes the edge positions the edge test lets
   * through, as for removeCubeAtWorldPosition.
   */
  method AddCubeAtGlobalPos(w: World, x: int, y: int, z: int)
    requires w.Valid() && w.Separate()
    requires !AtWorldEdge(w.worldSize, x, y, z) ==> x != w.worldSize * 16 - 1 && z != w.worldSize * 16 - 1 && y != 255
    modifies w.CubeArrays(), w.RenderChunkSet()
    ensures AtWorldEdge(w.worldSize, x, y, z) ==> unchanged(w.CubeArrays()) && unchanged(w.RenderChunkSet())
    ensures !AtWorldEdge(w.worldSize, x, y, z) ==> y >= 0 && RemeshInRange(w.worldSize, x, y, z) && Loaded(w.worldSize, WorldPos(x, y, z))
    ensures !AtWorldEdge(w.worldSize, x, y, z) ==>
      && CubesOfWorld(w) == SetMaterialIn(old(CubesOfWorld(w)), CubeAtWorldSpacePosition(w, x, y, z).value, MaterialBedrock)
      && (forall r :: r in RemeshSplits(w, x, y, z) ==> RegeneratedSplit(w, CubesOfWorld(w), r))
      && (forall rc :: rc in w.RenderChunkSet() && rc !in RenderChunksOf(RemeshSplits(w, x, y, z)) ==> unchanged(rc))
  {
    if AtWorldEdge(w.worldSize, x, y, z) {
      return;
    }
    EdgeCheckAdmitsEscapingRemesh(w.worldSize, x, y, z);
    AcceptedEditIsLoaded(w.worldSize, x, y, z);
    var cube := CubeAtWorldSpacePosition(w, x, y, z).value;
    SetMaterial(w, cube, MaterialBedrock);
    RemeshChunkGeometryAtGlobalPos(w, x, y, z, CubesOfWorld(w));
  }
}
