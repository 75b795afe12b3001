/**
 * World lookups of src/world/util.c: from chunk coordinates to the chunk in the flat
 * grid, and from a world-space position to its chunk, render split and cube.
 *
 * C returns pointers; here a chunk is a reference (null where C returns NULL), a render
 * split is a SplitRef (chunk and split index) and a cube is a CubeRef (chunk and offset
 * into its cube array). The asserts of util.c become preconditions.
 */
module Util {
  import opened Coords
  import opened WorldTypes

  /** A render split of a chunk: &chunk->renderChunks[index]. */
  datatype SplitRef = SplitRef(chunk: Chunk, index: int)

  /** A cube of a chunk: &chunk->cubeData[offset]. */
  datatype CubeRef = CubeRef(chunk: Chunk, offset: int)

  /** getChunkAt: the grid slot of chunk coordinates holds the chunk with those coordinates. */
  function ChunkAt(w: World, chunkX: int, chunkZ: int): (c: Chunk)
    requires w.Valid() && InLoadedRegion(w.worldSize, chunkX, chunkZ)
    ensures c in w.chunks && c.Valid()
    ensures c.startX == chunkX && c.startZ == chunkZ
  {
    var i := ChunkSlot(w.worldSize, chunkX, chunkZ);
    var c := w.chunks[i];
    ChunkSlotInjective(w.worldSize, c.startX, c.startZ, chunkX, chunkZ);
    c
  }

  /** Looking a chunk of the world up by its own coordinates finds that chunk. */
  lemma ChunkAtOfMember(w: World, c: Chunk)
    requires w.Valid() && c in w.chunks
    ensures InLoadedRegion(w.worldSize, c.startX, c.startZ)
    ensures ChunkAt(w, c.startX, c.startZ) == c
  {
    var i :| 0 <= i < |w.chunks| && w.chunks[i] == c;
    assert ChunkSlot(w.worldSize, c.startX, c.startZ) == i;
  }

  /** getCubeAtLocalChunkPos: the offset of a local position in a chunk's cube array. */
  function CubeAtLocalChunkPos(x: int, y: int, z: int): (offset: int)
    ensures offset == FlattenWorldArrayIndex(x, y, z)
    ensures InChunk(x, y, z) ==> 0 <= offset < CHUNK_SIZE
  {
    x * 4096 + z * 256 + y
  }

  /**
   * getChunkAtWorldSpacePosition: null exactly when the position's chunk coordinates
   * leave the loaded region; otherwise the chunk whose extent holds (x, z).
   */
  function ChunkAtWorldSpacePosition(w: World, x: int, y: int, z: int): (c: Chunk?)
    requires w.Valid()
    ensures c == null <==> !InLoadedRegion(w.worldSize, ChunkCoordOf(x), ChunkCoordOf(z))
    ensures c != null ==> c in w.chunks && c.Valid()
    ensures c != null ==> c.startX * 16 <= x < c.startX * 16 + 16
    ensures c != null ==> c.startZ * 16 <= z < c.startZ * 16 + 16
  {
    var chunkX := ChunkCoordOf(x);
    var chunkZ := ChunkCoordOf(z);
    ChunkCoordIsFloor(x);
    ChunkCoordIsFloor(z);
    if chunkX < -w.worldSize || chunkX >= w.worldSize || chunkZ < -w.worldSize || chunkZ >= w.worldSize then
      null
    else
      ChunkAt(w, chunkX, chunkZ)
  }

  /**
   * getRenderChunkAtWorldSpacePosition: None outside the loaded region; inside it, the
   * split y / RENDER_CHUNK_HEIGHT of the owning chunk. The function asserts that y lies
   * in [0, MAX_CHUNK_HEIGHT) once the chunk is found.
   */
  function RenderChunkAtWorldSpacePosition(w: World, x: int, y: int, z: int): (r: Option<SplitRef>)
    requires w.Valid()
    requires InLoadedRegion(w.worldSize, ChunkCoordOf(x), ChunkCoordOf(z)) ==> 0 <= y < MAX_CHUNK_HEIGHT
    ensures r.None? <==> !InLoadedRegion(w.worldSize, ChunkCoordOf(x), ChunkCoordOf(z))
    ensures r.Some? ==> r.value.chunk == ChunkAtWorldSpacePosition(w, x, y, z)
    ensures r.Some? ==> 0 <= r.value.index < CHUNK_SPLITS
    ensures r.Some? ==> r.value.index * 16 <= y < r.value.index * 16 + 16
  {
    var chunk := ChunkAtWorldSpacePosition(w, x, y, z);
    if chunk == null then None else Some(SplitRef(chunk, SplitIndexOf(y)))
  }

  /**
   * getCubeAtWorldSpacePosition: None outside the loaded region; inside it, the cube of
   * the owning chunk at the local position. The offset is only meaningful for heights
   * inside the chunk. The live caller, addCubeAtGlobalPos (src/world/world.c:307), passes
   * 1 <= y <= 255 after its edge check; the call at src/render/worldRenderer.c:290 follows
   * the `return;` at line 273 and is never reached.
   */
  function CubeAtWorldSpacePosition(w: World, x: int, y: int, z: int): (r: Option<CubeRef>)
    requires w.Valid()
    requires InLoadedRegion(w.worldSize, ChunkCoordOf(x), ChunkCoordOf(z)) ==> 0 <= y < MAX_CHUNK_HEIGHT
    ensures r.None? <==> !InLoadedRegion(w.worldSize, ChunkCoordOf(x), ChunkCoordOf(z))
    ensures r.Some? ==> r.value.chunk == ChunkAtWorldSpacePosition(w, x, y, z)
    ensures r.Some? ==> 0 <= r.value.offset < CHUNK_SIZE
    ensures r.Some? ==>
              r.value.offset == FlattenWorldArrayIndex(x - r.value.chunk.startX * 16, y, z - r.value.chunk.startZ * 16)
  {
    var chunkX := ChunkCoordOf(x);
    var chunkZ := ChunkCoordOf(z);
    ChunkCoordIsFloor(x);
    ChunkCoordIsFloor(z);
    if chunkX < -w.worldSize || chunkX >= w.worldSize || chunkZ < -w.worldSize || chunkZ >= w.worldSize then
      None
    else
      var chunk := ChunkAt(w, chunkX, chunkZ);
      var localChunkX := x - chunkX * 16;
      var localChunkZ := z - chunkZ * 16;
      Some(CubeRef(chunk, CubeAtLocalChunkPos(localChunkX, y, localChunkZ)))
  }

  /** A chunk's local position, taken to world space and looked up again, is that same cube. */
  lemma CubeAtWorldOfLocal(w: World, c: Chunk, x: int, y: int, z: int)
    requires w.Valid() && c in w.chunks && InChunk(x, y, z)
    ensures CubeAtWorldSpacePosition(w, c.startX * 16 + x, y, c.startZ * 16 + z)
         == Some(CubeRef(c, FlattenWorldArrayIndex(x, y, z)))
  {
    ChunkAtOfMember(w, c);
    ChunkCoordOfOrigin(c.startX, x);
    ChunkCoordOfOrigin(c.startZ, z);
  }

  /** Distinct world positions of the loaded world hold distinct cubes. */
  lemma CubeAtWorldInjective(w: World, x: int, y: int, z: int, x': int, y': int, z': int)
    requires w.Valid()
    requires InLoadedRegion(w.worldSize, ChunkCoordOf(x), ChunkCoordOf(z)) && 0 <= y < MAX_CHUNK_HEIGHT
    requires InLoadedRegion(w.worldSize, ChunkCoordOf(x'), ChunkCoordOf(z')) && 0 <= y' < MAX_CHUNK_HEIGHT
    requires CubeAtWorldSpacePosition(w, x, y, z) == CubeAtWorldSpacePosition(w, x', y', z')
    ensures x == x' && y == y' && z == z'
  {
    var r := CubeAtWorldSpacePosition(w, x, y, z).value;
    var c := r.chunk;
    FlattenWorldInjective(x - c.startX * 16, y, z - c.startZ * 16,
                          x' - c.startX * 16, y', z' - c.startZ * 16);
  }
}
