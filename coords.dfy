/**
 * Coordinate mapping of the voxel world (src/world/world.h, src/world/util.h and
 * the arithmetic half of src/world/util.c).
 *
 * World space is an integer grid. A chunk is a column CHUNK_WIDTH x CHUNK_WIDTH wide
 * and MAX_CHUNK_HEIGHT high; a render split is a RENDER_CHUNK_HEIGHT-high slice of a
 * chunk. Every function here is pure integer arithmetic; the C operators `/` and `%`
 * truncate toward zero and are modelled explicitly by CDiv and CRem.
 *
 * Where a dimension multiplies or divides a variable it is written as its value
 * (16 for CHUNK_WIDTH and RENDER_CHUNK_HEIGHT, 256 for MAX_CHUNK_HEIGHT, 4096 for
 * their product), which keeps the arithmetic linear for the verifier; SizesAgree
 * ties the values to the names.
 */
module Coords {

  const CHUNK_WIDTH: int := 16
  const MAX_CHUNK_HEIGHT: int := 256
  const RENDER_CHUNK_HEIGHT: int := 16
  /** Cubes in a chunk: MAX_CHUNK_HEIGHT * CHUNK_WIDTH * CHUNK_WIDTH (see SizesAgree). */
  const CHUNK_SIZE: int := 65536
  /** Render splits in a chunk: MAX_CHUNK_HEIGHT / RENDER_CHUNK_HEIGHT. */
  const CHUNK_SPLITS: int := 16
  /** Cells of one split: RENDER_CHUNK_HEIGHT * CHUNK_WIDTH * CHUNK_WIDTH, the range of flattenRenderChunkArrayIndex. */
  const SPLIT_SIZE: int := 4096

  /** The derived sizes are the products and quotient of the dimensions they are named after. */
  lemma SizesAgree()
    ensures CHUNK_SIZE == MAX_CHUNK_HEIGHT * CHUNK_WIDTH * CHUNK_WIDTH
    ensures CHUNK_SPLITS == MAX_CHUNK_HEIGHT / RENDER_CHUNK_HEIGHT
    ensures SPLIT_SIZE == RENDER_CHUNK_HEIGHT * CHUNK_WIDTH * CHUNK_WIDTH
    ensures CHUNK_SIZE == CHUNK_SPLITS * SPLIT_SIZE
  {
  }

  // ---------------------------------------------------------------------------
  // C integer division
  // ---------------------------------------------------------------------------

  /** C's `a / b` for a positive divisor: the quotient truncated toward zero. */
  function CDiv(a: int, b: int): (q: int)
    requires b > 0
    ensures a >= 0 ==> q * b <= a < q * b + b
    ensures a < 0 ==> q * b - b < a <= q * b
    ensures (a >= 0) == (q >= 0) || q == 0
  {
    if a >= 0 then a / b else -((-a) / b)
  }

  /** C's `a % b` for a positive divisor: it takes the sign of `a`. */
  function CRem(a: int, b: int): (r: int)
    requires b > 0
    ensures CDiv(a, b) * b + r == a
    ensures a >= 0 ==> 0 <= r < b
    ensures a < 0 ==> -b < r <= 0
  {
    a - CDiv(a, b) * b
  }

  /** For a non-negative dividend C's operators agree with Dafny's (Euclidean) ones. */
  lemma {:induction false} CDivOfNatural(a: int, b: int)
    requires a >= 0 && b > 0
    ensures CDiv(a, b) == a / b && CRem(a, b) == a % b
  {
  }

  // ---------------------------------------------------------------------------
  // Flattening (src/world/util.h)
  // ---------------------------------------------------------------------------

  /** A local position inside one chunk. */
  predicate InChunk(x: int, y: int, z: int) {
    0 <= x < CHUNK_WIDTH && 0 <= z < CHUNK_WIDTH && 0 <= y < MAX_CHUNK_HEIGHT
  }

  /** flattenWorldArrayIndex: the offset of a voxel in a chunk's cube array. */
  function FlattenWorldArrayIndex(x: int, y: int, z: int): (r: int)
    ensures InChunk(x, y, z) ==> 0 <= r < CHUNK_SIZE
  {
    x * 4096 + z * 256 + y
  }

  /** The local position stored at offset `i` of a cube array. */
  function UnflattenWorldArrayIndex(i: int): (p: (int, int, int))
    requires 0 <= i < CHUNK_SIZE
    ensures InChunk(p.0, p.1, p.2)
  {
    (i / 4096, i % 256, (i / 256) % 16)
  }

  /** Unflattening the offset of a local position gives the position back. */
  lemma UnflattenOfFlatten(x: int, y: int, z: int)
    requires InChunk(x, y, z)
    ensures UnflattenWorldArrayIndex(FlattenWorldArrayIndex(x, y, z)) == (x, y, z)
  {
    var i := FlattenWorldArrayIndex(x, y, z);
    assert i == x * 4096 + (z * 256 + y) && 0 <= z * 256 + y < 4096;
    assert i / 4096 == x;
    assert i / 256 == x * 16 + z;
    assert i % 256 == y;
  }

  /** Flattening the unflattened position of an offset gives the offset back. */
  lemma FlattenOfUnflatten(i: int)
    requires 0 <= i < CHUNK_SIZE
    ensures var p := UnflattenWorldArrayIndex(i); FlattenWorldArrayIndex(p.0, p.1, p.2) == i
  {
    var q := i / 256;
    assert i == q * 256 + i % 256;
    assert q == (q / 16) * 16 + q % 16;
    assert i / 4096 == q / 16;
  }

  /** flattenWorldArrayIndex is a bijection from local positions onto [0, CHUNK_SIZE). */
  lemma FlattenWorldRoundTrip(x: int, y: int, z: int, i: int)
    requires InChunk(x, y, z) && 0 <= i < CHUNK_SIZE
    ensures UnflattenWorldArrayIndex(FlattenWorldArrayIndex(x, y, z)) == (x, y, z)
    ensures var p := UnflattenWorldArrayIndex(i); FlattenWorldArrayIndex(p.0, p.1, p.2) == i
  {
    UnflattenOfFlatten(x, y, z);
    FlattenOfUnflatten(i);
  }

  /** Distinct local positions get distinct cube-array offsets. */
  lemma FlattenWorldInjective(x: int, y: int, z: int, x': int, y': int, z': int)
    requires InChunk(x, y, z) && InChunk(x', y', z')
    requires FlattenWorldArrayIndex(x, y, z) == FlattenWorldArrayIndex(x', y', z')
    ensures x == x' && y == y' && z == z'
  {
  }

  /** flattenRenderChunkArrayIndex: the offset of a voxel in its split's light map. */
  function FlattenRenderChunkArrayIndex(x: int, y: int, z: int): (r: int)
    ensures 0 <= x < CHUNK_WIDTH && 0 <= z < CHUNK_WIDTH && y >= 0 ==> 0 <= r < SPLIT_SIZE
  {
    x * 256 + z * 16 + CRem(y, 16)
  }

  /** "works for global or local y": only y modulo the split height matters. */
  lemma RenderIndexIgnoresSplit(x: int, y: int, z: int)
    requires y >= 0
    ensures FlattenRenderChunkArrayIndex(x, y, z) == FlattenRenderChunkArrayIndex(x, y % 16, z)
    ensures FlattenRenderChunkArrayIndex(x, y, z)
         == FlattenRenderChunkArrayIndex(x, y + RENDER_CHUNK_HEIGHT, z)
  {
  }

  /** For a negative y the C remainder is negative, so the "global y" reading breaks down. */
  lemma RenderIndexNegativeY()
    ensures FlattenRenderChunkArrayIndex(0, -1, 0) == -1
  {
  }

  /** Voxels of one split (same y / RENDER_CHUNK_HEIGHT) never share a light-map cell. */
  lemma RenderIndexInjectiveInSplit(x: int, y: int, z: int, x': int, y': int, z': int)
    requires 0 <= x < CHUNK_WIDTH && 0 <= z < CHUNK_WIDTH && y >= 0
    requires 0 <= x' < CHUNK_WIDTH && 0 <= z' < CHUNK_WIDTH && y' >= 0
    requires y / 16 == y' / 16
    requires FlattenRenderChunkArrayIndex(x, y, z) == FlattenRenderChunkArrayIndex(x', y', z')
    ensures x == x' && y == y' && z == z'
  {
  }

  // ---------------------------------------------------------------------------
  // World space to chunk space (src/world/util.c)
  // ---------------------------------------------------------------------------

  /** The chunk coordinate of a world coordinate: `x < 0 ? ((x + 1) / 16) - 1 : x / 16`. */
  function ChunkCoordOf(x: int): int {
    if x < 0 then CDiv(x + 1, CHUNK_WIDTH) - 1 else CDiv(x, CHUNK_WIDTH)
  }

  /** The truncating expression is floor division: the chunk's extent contains x. */
  lemma {:induction false} ChunkCoordIsFloor(x: int)
    ensures ChunkCoordOf(x) == x / 16
    ensures ChunkCoordOf(x) * 16 <= x < ChunkCoordOf(x) * 16 + 16
  {
    if x < 0 {
      var a := -(x + 1);
      var q := a / 16;
      assert a == q * 16 + a % 16;
      assert x == (-q - 1) * 16 + (15 - a % 16);
    }
  }

  /** The worked examples: -1 -> -1, -16 -> -1, -17 -> -2, 15 -> 0, 16 -> 1. */
  lemma ChunkCoordExamples()
    ensures ChunkCoordOf(-1) == -1 && ChunkCoordOf(-16) == -1 && ChunkCoordOf(-17) == -2
    ensures ChunkCoordOf(15) == 0 && ChunkCoordOf(16) == 1 && ChunkCoordOf(0) == 0
  {
  }

  /** The chunk coordinate of a chunk's own origin, shifted by whole chunks. */
  lemma ChunkCoordOfOrigin(cx: int, dx: int)
    requires 0 <= dx < CHUNK_WIDTH
    ensures ChunkCoordOf(cx * 16 + dx) == cx
  {
    ChunkCoordIsFloor(cx * 16 + dx);
  }

  /** The split holding height y: `y / RENDER_CHUNK_HEIGHT`. */
  function SplitIndexOf(y: int): (s: int)
    requires 0 <= y < MAX_CHUNK_HEIGHT
    ensures 0 <= s < CHUNK_SPLITS
    ensures s * 16 <= y < s * 16 + 16
  {
    CDiv(y, 16)
  }

  /** The three outputs of worldPosToLocalPos. */
  datatype LocalPos = LocalPos(localX: int, localY: int, localZ: int)

  /**
   * worldPosToLocalPos. Its assertions demand y >= 0 (for y < 0 the truncating
   * division leaves a negative local y). localY is relative to the render split.
   */
  function WorldPosToLocalPos(x: int, y: int, z: int): (p: LocalPos)
    requires y >= 0
    ensures 0 <= p.localX < CHUNK_WIDTH && 0 <= p.localZ < CHUNK_WIDTH
    ensures 0 <= p.localY < RENDER_CHUNK_HEIGHT
    ensures ChunkCoordOf(x) * 16 + p.localX == x
    ensures ChunkCoordOf(z) * 16 + p.localZ == z
    ensures CDiv(y, 16) * 16 + p.localY == y
  {
    ChunkCoordIsFloor(x);
    ChunkCoordIsFloor(z);
    var chunkX := ChunkCoordOf(x);
    var chunkZ := ChunkCoordOf(z);
    var chunkY := CDiv(y, 16);
    LocalPos(x - chunkX * 16, y - chunkY * 16, z - chunkZ * 16)
  }

  /** The local x/z position is the world position modulo the chunk width. */
  lemma LocalPosIsRemainder(x: int, y: int, z: int)
    requires y >= 0
    ensures WorldPosToLocalPos(x, y, z) == LocalPos(x % 16, y % 16, z % 16)
  {
    ChunkCoordIsFloor(x);
    ChunkCoordIsFloor(z);
  }

  // ---------------------------------------------------------------------------
  // The flat chunk grid (getChunkAt)
  // ---------------------------------------------------------------------------

  /** The loaded region of chunk coordinates: [-worldSize, worldSize) on both axes. */
  predicate InLoadedRegion(worldSize: int, chunkX: int, chunkZ: int) {
    -worldSize <= chunkX < worldSize && -worldSize <= chunkZ < worldSize
  }

  /** The index getChunkAt computes into the (2 worldSize)^2 grid. */
  function ChunkSlot(worldSize: int, chunkX: int, chunkZ: int): (i: int)
    requires worldSize > 0 && InLoadedRegion(worldSize, chunkX, chunkZ)
    ensures 0 <= i < 4 * worldSize * worldSize
  {
    SlotBound(worldSize, chunkX + worldSize, chunkZ + worldSize);
    (chunkZ + worldSize) * (worldSize * 2) + (chunkX + worldSize)
  }

  /** Multiplication by a non-negative factor is monotone. */
  lemma {:induction false} MulMono(a: int, b: int, c: int)
    requires a <= b && c >= 0
    ensures a * c <= b * c
    decreases c
  {
    if c > 0 {
      MulMono(a, b, c - 1);
      assert a * c == a * (c - 1) + a;
      assert b * c == b * (c - 1) + b;
    }
  }

  /** A larger multiple of w is at least w larger. */
  lemma MulStep(b: int, b': int, w: int)
    requires b < b' && w > 0
    ensures b * w + w <= b' * w
  {
    MulMono(b + 1, b', w);
    assert (b + 1) * w == b * w + w;
  }

  lemma SlotBound(ws: int, a: int, b: int)
    requires ws > 0 && 0 <= a < 2 * ws && 0 <= b < 2 * ws
    ensures 0 <= b * (ws * 2) + a < 4 * ws * ws
  {
    MulMono(0, b, ws * 2);
    MulMono(b, 2 * ws - 1, ws * 2);
    assert (2 * ws - 1) * (ws * 2) == 4 * ws * ws - 2 * ws;
  }

  /** Distinct chunk coordinates of the loaded region occupy distinct grid slots. */
  lemma {:induction false} ChunkSlotInjective(ws: int, x: int, z: int, x': int, z': int)
    requires ws > 0 && InLoadedRegion(ws, x, z) && InLoadedRegion(ws, x', z')
    requires ChunkSlot(ws, x, z) == ChunkSlot(ws, x', z')
    ensures x == x' && z == z'
  {
    var w := ws * 2;
    var a, b, a', b' := x + ws, z + ws, x' + ws, z' + ws;
    assert b * w + a == b' * w + a';
    if b < b' {
      MulStep(b, b', w);
      assert false;
    } else if b' < b {
      MulStep(b', b, w);
      assert false;
    }
  }

  /** Euclidean division by a positive divisor. */
  lemma DivMod(i: int, w: int)
    requires w > 0 && i >= 0
    ensures i == (i / w) * w + i % w && 0 <= i % w < w && i / w >= 0
  {
  }

  /** The row of a grid slot lies inside the grid. */
  lemma SlotRow(ws: int, i: int)
    requires ws > 0 && 0 <= i < 4 * ws * ws
    ensures 0 <= i / (ws * 2) < ws * 2
    ensures i == (i / (ws * 2)) * (ws * 2) + i % (ws * 2)
  {
    var w := ws * 2;
    var q := i / w;
    DivMod(i, w);
    assert w * w == 4 * ws * ws;
    if q >= w {
      MulMono(w, q, w);
      assert false;
    }
  }

  /** The chunk coordinates stored at a grid slot: the inverse of ChunkSlot. */
  function SlotCoords(ws: int, i: int): (c: (int, int))
    requires ws > 0 && 0 <= i < 4 * ws * ws
    ensures InLoadedRegion(ws, c.0, c.1) && ChunkSlot(ws, c.0, c.1) == i
  {
    SlotRow(ws, i);
    (i % (ws * 2) - ws, i / (ws * 2) - ws)
  }
}
