/**
 * The data of the voxel world (src/world/worldTypes.h, src/render/renderTypes.h and
 * the globals of src/world/world.c).
 *
 * A Cube is a value; a Chunk owns a cube array, one light map per render split and one
 * RenderChunk (the CPU-side mesh buffers) per render split. The live world is the flat
 * (2 worldSize)^2 grid gChunkWorld, modelled as the class World.
 *
 * Constants the modelled headers use but do not define (materials.h, the LightMap type,
 * MIN_LIGHT_LEVEL, MAX_LIGHT_LEVEL and the texture atlas size) are fixed here, with the
 * assumptions stated next to them.
 */
module WorldTypes {
  import opened Coords

  datatype Option<T> = None | Some(value: T)

  // ---------------------------------------------------------------------------
  // Constants
  // ---------------------------------------------------------------------------

  /** The brightest light level; a Cube's 4-bit light field holds 0..15. */
  const MAX_LIGHT_LEVEL: int := 15
  /** Light does not spread from a level at or below MIN_LIGHT_LEVEL; assumed to be 1. */
  const MIN_LIGHT_LEVEL: int := 1
  /** Cells per row and per column of the square texture atlas. */
  const TEXTURE_ATLAS_COUNT_I: int := 16
  /** A Cube's material field is 10 bits wide. */
  const MATERIAL_LIMIT: int := 1024

  type Material = m: int | 0 <= m < MATERIAL_LIMIT
  type LightLevel = l: int | 0 <= l <= MAX_LIGHT_LEVEL

  /** Air is material 0: a zero-filled (calloc'd) chunk is empty. The others are distinct. */
  const MaterialAir: Material := 0
  const MaterialBedrock: Material := 1
  const MaterialDirt: Material := 2
  const MaterialGrass: Material := 3
  const MaterialGrassSide: Material := 4

  // ---------------------------------------------------------------------------
  // Values
  // ---------------------------------------------------------------------------

  /** One voxel: the bit fields of struct Cube as bounded integers. */
  datatype Cube = Cube(material: Material, light: LightLevel, flag1: bool, flag2: bool)

  /** The all-zero Cube, which is air. */
  const ZeroCube: Cube := Cube(MaterialAir, 0, false, false)

  /** One cell of a split's light map: the sun (global) and block channels. */
  datatype LightCell = LightCell(global: LightLevel, block: LightLevel)

  const ZeroLight: LightCell := LightCell(0, 0)

  /** The six faces of a cube, in the order the mesh builder emits them. */
  datatype Side = Up | Down | West | East | South | North

  /**
   * A mesh vertex. The float position is the voxel's position plus a corner offset
   * from the cube tables; here it is the voxel's integer position, the side and the
   * corner number. The UV is kept as the texture-atlas cell it selects.
   */
  datatype Vertex = Vertex(x: int, y: int, z: int, side: Side, corner: int, atlasColumn: int, atlasRow: int)

  /** The contents of a RenderChunk's buffers and counters. */
  datatype Mesh = Mesh(vertexData: seq<Vertex>, indices: seq<int>, currentIndex: int, indiceCount: int, vertexCount: int)

  /** A zeroed RenderChunk: empty buffers and zero counters. */
  const EmptyMesh: Mesh := Mesh([], [], 0, 0, 0)

  // ---------------------------------------------------------------------------
  // Objects
  // ---------------------------------------------------------------------------

  /** The CPU-side geometry of one render split: two stretchy buffers and three counters. */
  class RenderChunk {
    var vertexData: seq<Vertex>
    var indices: seq<int>
    var currentIndex: int
    var indiceCount: int
    var vertexCount: int

    function State(): (m: Mesh)
      reads this
      ensures m.vertexData == vertexData && m.indices == indices
      ensures m.currentIndex == currentIndex && m.indiceCount == indiceCount && m.vertexCount == vertexCount
    {
      Mesh(vertexData, indices, currentIndex, indiceCount, vertexCount)
    }

    /** A zero-filled RenderChunk, as memset leaves it. */
    constructor ()
      ensures State() == EmptyMesh
    {
      vertexData, indices := [], [];
      currentIndex, indiceCount, vertexCount := 0, 0, 0;
    }
  }

  /**
   * A chunk column. startX and startZ are chunk coordinates (the mesh builder compares
   * them with worldSize); lightMap is the per-split light map that the lighting code
   * dereferences.
   */
  class Chunk {
    const startX: int
    const startZ: int
    const cubeData: array<Cube>
    const lightMap: seq<array<LightCell>>
    const renderChunks: seq<RenderChunk>

    /** The shapes of the buffers, and no two splits sharing a light map or a RenderChunk. */
    predicate Valid() {
      && cubeData.Length == CHUNK_SIZE
      && |lightMap| == CHUNK_SPLITS
      && |renderChunks| == CHUNK_SPLITS
      && (forall s :: 0 <= s < |lightMap| ==> lightMap[s].Length == SPLIT_SIZE)
      && (forall s, t :: 0 <= s < t < |lightMap| ==> lightMap[s] != lightMap[t])
      && (forall s, t :: 0 <= s < t < |renderChunks| ==> renderChunks[s] != renderChunks[t])
    }

    /**
     * A zeroed chunk at chunk coordinates (x, z): all cubes air, all light maps dark
     * and every split's mesh empty, as chunktable_insertAt and chunk_initLightmap build it.
     */
    constructor (x: int, z: int)
      ensures startX == x && startZ == z && Valid()
      ensures fresh(cubeData)
      ensures forall s :: 0 <= s < |lightMap| ==> fresh(lightMap[s])
      ensures forall s :: 0 <= s < |renderChunks| ==> fresh(renderChunks[s])
      ensures forall i :: 0 <= i < cubeData.Length ==> cubeData[i] == ZeroCube
      ensures forall s, k :: 0 <= s < |lightMap| && 0 <= k < lightMap[s].Length ==> lightMap[s][k] == ZeroLight
      ensures forall s :: 0 <= s < |renderChunks| ==> renderChunks[s].State() == EmptyMesh
    {
      var cubes := new Cube[CHUNK_SIZE](_ => ZeroCube);
      var maps: seq<array<LightCell>> := [];
      var renders: seq<RenderChunk> := [];
      var i := 0;
      while i < CHUNK_SPLITS
        invariant 0 <= i <= CHUNK_SPLITS && |maps| == i && |renders| == i
        invariant forall k :: 0 <= k < cubes.Length ==> cubes[k] == ZeroCube
        invariant forall s :: 0 <= s < i ==> fresh(maps[s]) && fresh(renders[s])
        invariant forall s :: 0 <= s < i ==> maps[s].Length == SPLIT_SIZE
        invariant forall s, k :: 0 <= s < i && 0 <= k < maps[s].Length ==> maps[s][k] == ZeroLight
        invariant forall s :: 0 <= s < i ==> renders[s].State() == EmptyMesh
        invariant forall s, t :: 0 <= s < t < i ==> maps[s] != maps[t] && renders[s] != renders[t]
      {
        var m := new LightCell[SPLIT_SIZE](_ => ZeroLight);
        var r := new RenderChunk();
        maps, renders := maps + [m], renders + [r];
        i := i + 1;
      }
      startX, startZ, cubeData := x, z, cubes;
      lightMap, renderChunks := maps, renders;
    }
  }

  /**
   * The live world: worldSize and the flat chunk grid gChunkWorld. The chunk at grid
   * slot i has the chunk coordinates that getChunkAt maps to i.
   */
  class World {
    const worldSize: int
    const chunks: seq<Chunk>

    ghost predicate Valid() {
      && worldSize > 0
      && |chunks| == 4 * worldSize * worldSize
      && (forall c :: c in chunks ==> c.Valid() && InLoadedRegion(worldSize, c.startX, c.startZ))
      && (forall i :: 0 <= i < |chunks| ==>
            InLoadedRegion(worldSize, chunks[i].startX, chunks[i].startZ)
            && ChunkSlot(worldSize, chunks[i].startX, chunks[i].startZ) == i)
      && (forall c, d :: c in chunks && d in chunks && c != d ==> c.cubeData != d.cubeData)
    }

    /** No two chunks share a light map or a RenderChunk. */
    ghost predicate Separate() {
      && (forall c, d, s, t :: c in chunks && d in chunks && c != d && 0 <= s < |c.lightMap| && 0 <= t < |d.lightMap|
            ==> c.lightMap[s] != d.lightMap[t])
      && (forall c, d, s, t :: c in chunks && d in chunks && c != d && 0 <= s < |c.renderChunks| && 0 <= t < |d.renderChunks|
            ==> c.renderChunks[s] != d.renderChunks[t])
    }

    /** Every cube array of the world. */
    ghost function CubeArrays(): set<array<Cube>> {
      set c | c in chunks :: c.cubeData
    }

    /** Every light map of the world. */
    ghost function LightArrays(): set<array<LightCell>> {
      set c, s | c in chunks && 0 <= s < |c.lightMap| :: c.lightMap[s]
    }

    /** Every RenderChunk of the world. */
    ghost function RenderChunkSet(): set<RenderChunk> {
      set c, s | c in chunks && 0 <= s < |c.renderChunks| :: c.renderChunks[s]
    }
  }
}
