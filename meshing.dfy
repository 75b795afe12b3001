/**
 * The face-culling mesh builder of src/world/world.c (isTransparent, isTransparentAtCube,
 * buildFace, generateGeometryForRenderChunk, freeGenerateUpdate).
 *
 * For every non-air voxel of a 16x16x16 render split the builder appends one quad (four
 * vertices, six indices) per side whose neighbouring voxel is air. The reference
 * definition is stated in world space: OpenTowards holds when the world-space neighbour
 * across a side is air or outside the world. The code instead looks into the chunk's
 * own cube array and, across X and Z chunk borders, into the neighbouring chunk's array;
 * that test is Exposed, over a snapshot (Neighbourhood) of the four arrays involved, and
 * ExposedIffOpen proves the two agree.
 */
module Meshing {
  import opened Coords
  import opened WorldTypes
  import opened Util

  // ---------------------------------------------------------------------------
  // Transparency
  // ---------------------------------------------------------------------------

  /** The cube at a local position of a cube array is air. */
  predicate AirIn(cubes: seq<Cube>, x: int, y: int, z: int)
    requires |cubes| == CHUNK_SIZE && InChunk(x, y, z)
  {
    cubes[FlattenWorldArrayIndex(x, y, z)].material == MaterialAir
  }

  /** isTransparent: the cube at a local position of a chunk's cube array is air. */
  predicate IsTransparent(cubeData: array<Cube>, x: int, y: int, z: int)
    requires cubeData.Length == CHUNK_SIZE && InChunk(x, y, z)
    reads cubeData
    ensures IsTransparent(cubeData, x, y, z) == AirIn(cubeData[..], x, y, z)
  {
    cubeData[CubeAtLocalChunkPos(x, y, z)].material == MaterialAir
  }

  /** isTransparentAtCube: a missing cube (NULL) is not transparent; otherwise it is air. */
  predicate IsTransparentAtCube(c: Option<Cube>) {
    c.Some? && c.value.material == MaterialAir
  }

  /** The cube at a world-space position, None outside the loaded world or its height. */
  function WorldCube(w: World, x: int, y: int, z: int): (r: Option<Cube>)
    requires w.Valid()
    reads w.CubeArrays()
    ensures r.Some? <==> InLoadedRegion(w.worldSize, ChunkCoordOf(x), ChunkCoordOf(z)) && 0 <= y < MAX_CHUNK_HEIGHT
  {
    if y < 0 || y >= MAX_CHUNK_HEIGHT then None
    else match CubeAtWorldSpacePosition(w, x, y, z)
      case None => None
      case Some(ref) => Some(ref.chunk.cubeData[..][ref.offset])
  }

  /**
   * The pointer test and the array test agree on every cube of the world, and the
   * pointer test calls a missing cube opaque.
   */
  lemma TransparencyTestsAgree(w: World, c: Chunk, x: int, y: int, z: int)
    requires w.Valid() && c in w.chunks && InChunk(x, y, z)
    ensures IsTransparentAtCube(WorldCube(w, c.startX * 16 + x, y, c.startZ * 16 + z))
        <==> IsTransparent(c.cubeData, x, y, z)
    ensures !IsTransparentAtCube(None)
  {
    CubeAtWorldOfLocal(w, c, x, y, z);
  }

  // ---------------------------------------------------------------------------
  // The reference definition: open towards a side, in world space
  // ---------------------------------------------------------------------------

  /** The world-space position (x, y, z) holds air or lies outside the world. */
  predicate OpenAt(w: World, x: int, y: int, z: int)
    requires w.Valid()
    reads w.CubeArrays()
  {
    var n := WorldCube(w, x, y, z);
    n.None? || n.value.material == MaterialAir
  }

  /**
   * The world-space neighbour of chunk c's local voxel (x, y, z) across `side` is air or
   * outside the world: Up is +y, West -x, South -z.
   */
  predicate OpenTowards(w: World, c: Chunk, x: int, y: int, z: int, side: Side)
    requires w.Valid() && c in w.chunks
    reads w.CubeArrays()
  {
    match side
    case Up => OpenAt(w, c.startX * 16 + x, y + 1, c.startZ * 16 + z)
    case Down => OpenAt(w, c.startX * 16 + x, y - 1, c.startZ * 16 + z)
    case West => OpenAt(w, c.startX * 16 + (x - 1), y, c.startZ * 16 + z)
    case East => OpenAt(w, c.startX * 16 + (x + 1), y, c.startZ * 16 + z)
    case South => OpenAt(w, c.startX * 16 + x, y, c.startZ * 16 + (z - 1))
    case North => OpenAt(w, c.startX * 16 + x, y, c.startZ * 16 + (z + 1))
  }

  /** A position of a loaded chunk, at local (lx, y, lz), is open exactly when its cube is air. */
  lemma OpenInChunk(w: World, d: Chunk, lx: int, y: int, lz: int)
    requires w.Valid() && d in w.chunks && InChunk(lx, y, lz)
    ensures OpenAt(w, d.startX * 16 + lx, y, d.startZ * 16 + lz) <==> AirIn(d.cubeData[..], lx, y, lz)
  {
    CubeAtWorldOfLocal(w, d, lx, y, lz);
  }

  /** A position outside the world's height is open. */
  lemma OpenAboveOrBelow(w: World, wx: int, y: int, wz: int)
    requires w.Valid() && (y < 0 || y >= MAX_CHUNK_HEIGHT)
    ensures OpenAt(w, wx, y, wz)
  {
  }

  /** A position west or east of the loaded region is open. */
  lemma OpenBeyondX(w: World, cx: int, wx: int, y: int, wz: int)
    requires w.Valid() && (cx == -w.worldSize - 1 || cx == w.worldSize)
    requires cx * 16 <= wx < cx * 16 + 16
    ensures OpenAt(w, wx, y, wz)
  {
    ChunkCoordOfOrigin(cx, wx - cx * 16);
  }

  /** A position south or north of the loaded region is open. */
  lemma OpenBeyondZ(w: World, wx: int, y: int, cz: int, wz: int)
    requires w.Valid() && (cz == -w.worldSize - 1 || cz == w.worldSize)
    requires cz * 16 <= wz < cz * 16 + 16
    ensures OpenAt(w, wx, y, wz)
  {
    ChunkCoordOfOrigin(cz, wz - cz * 16);
  }

  // ---------------------------------------------------------------------------
  // The code's test: the chunk's own array and its loaded X/Z neighbours
  // ---------------------------------------------------------------------------

  /**
   * The cube arrays generateGeometryForRenderChunk reads: the chunk's own and, where
   * that chunk is loaded, the one to the west, east, south and north of it.
   */
  datatype Neighbourhood = Neighbourhood(own: seq<Cube>, west: Option<seq<Cube>>, east: Option<seq<Cube>>,
                                         south: Option<seq<Cube>>, north: Option<seq<Cube>>)
  {
    predicate WellShaped() {
      && |own| == CHUNK_SIZE
      && (west.Some? ==> |west.value| == CHUNK_SIZE)
      && (east.Some? ==> |east.value| == CHUNK_SIZE)
      && (south.Some? ==> |south.value| == CHUNK_SIZE)
      && (north.Some? ==> |north.value| == CHUNK_SIZE)
    }
  }

  /** The neighbourhood of a chunk of the world: a neighbour is present when it is loaded. */
  function NeighbourhoodOf(w: World, c: Chunk): (nb: Neighbourhood)
    requires w.Valid() && c in w.chunks
    reads w.CubeArrays()
    ensures nb.WellShaped() && nb.own == c.cubeData[..]
  {
    var ws := w.worldSize;
    Neighbourhood(
      c.cubeData[..],
      if c.startX > -ws then Some(ChunkAt(w, c.startX - 1, c.startZ).cubeData[..]) else None,
      if c.startX + 1 < ws then Some(ChunkAt(w, c.startX + 1, c.startZ).cubeData[..]) else None,
      if c.startZ > -ws then Some(ChunkAt(w, c.startX, c.startZ - 1).cubeData[..]) else None,
      if c.startZ + 1 < ws then Some(ChunkAt(w, c.startX, c.startZ + 1).cubeData[..]) else None)
  }

  /** Up is exposed at the top layer or below air. */
  predicate ExposedUp(nb: Neighbourhood, x: int, y: int, z: int)
    requires nb.WellShaped() && InChunk(x, y, z)
  {
    y >= MAX_CHUNK_HEIGHT - 1 || AirIn(nb.own, x, y + 1, z)
  }

  /** Down is exposed at the bottom layer or above air. */
  predicate ExposedDown(nb: Neighbourhood, x: int, y: int, z: int)
    requires nb.WellShaped() && InChunk(x, y, z)
  {
    y == 0 || AirIn(nb.own, x, y - 1, z)
  }

  /**
   * West is exposed towards air in the own array or, on the chunk's west border,
   * towards air in the west neighbour or a west neighbour that is not loaded.
   */
  predicate ExposedWest(nb: Neighbourhood, x: int, y: int, z: int)
    requires nb.WellShaped() && InChunk(x, y, z)
  {
    if x > 0 then AirIn(nb.own, x - 1, y, z)
    else nb.west.None? || AirIn(nb.west.value, CHUNK_WIDTH - 1, y, z)
  }

  /** East, like West, across the chunk's east border. */
  predicate ExposedEast(nb: Neighbourhood, x: int, y: int, z: int)
    requires nb.WellShaped() && InChunk(x, y, z)
  {
    if x < CHUNK_WIDTH - 1 then AirIn(nb.own, x + 1, y, z)
    else nb.east.None? || AirIn(nb.east.value, 0, y, z)
  }

  /** South, like West, across the chunk's south border. */
  predicate ExposedSouth(nb: Neighbourhood, x: int, y: int, z: int)
    requires nb.WellShaped() && InChunk(x, y, z)
  {
    if z > 0 then AirIn(nb.own, x, y, z - 1)
    else nb.south.None? || AirIn(nb.south.value, x, y, CHUNK_WIDTH - 1)
  }

  /** North, like West, across the chunk's north border. */
  predicate ExposedNorth(nb: Neighbourhood, x: int, y: int, z: int)
    requires nb.WellShaped() && InChunk(x, y, z)
  {
    if z < CHUNK_WIDTH - 1 then AirIn(nb.own, x, y, z + 1)
    else nb.north.None? || AirIn(nb.north.value, x, y, 0)
  }

  /** The exposure test of generateGeometryForRenderChunk, side by side. */
  predicate Exposed(nb: Neighbourhood, x: int, y: int, z: int, side: Side)
    requires nb.WellShaped() && InChunk(x, y, z)
  {
    match side
    case Up => ExposedUp(nb, x, y, z)
    case Down => ExposedDown(nb, x, y, z)
    case West => ExposedWest(nb, x, y, z)
    case East => ExposedEast(nb, x, y, z)
    case South => ExposedSouth(nb, x, y, z)
    case North => ExposedNorth(nb, x, y, z)
  }

  /** What NeighbourhoodOf says about one chunk: the snapshot's own array is the chunk's. */
  predicate OwnIs(w: World, c: Chunk, nb: Neighbourhood)
    requires w.Valid() && c in w.chunks
    reads c.cubeData
  {
    nb.WellShaped() && nb.own == c.cubeData[..]
  }

  /** Up, below the top layer: the cube above, in the own array. */
  lemma UpInside(w: World, c: Chunk, nb: Neighbourhood, x: int, y: int, z: int)
    requires w.Valid() && c in w.chunks && InChunk(x, y, z) && OwnIs(w, c, nb) && y < MAX_CHUNK_HEIGHT - 1
    ensures ExposedUp(nb, x, y, z) <==> OpenAt(w, c.startX * 16 + x, y + 1, c.startZ * 16 + z)
  {
    OpenInChunk(w, c, x, y + 1, z);
  }

  /** Up at the top layer: above the world, always open. */
  lemma UpAtEdge(w: World, c: Chunk, nb: Neighbourhood, x: int, y: int, z: int)
    requires w.Valid() && c in w.chunks && InChunk(x, y, z) && nb.WellShaped() && y == MAX_CHUNK_HEIGHT - 1
    ensures ExposedUp(nb, x, y, z) <==> OpenAt(w, c.startX * 16 + x, y + 1, c.startZ * 16 + z)
  {
    OpenAboveOrBelow(w, c.startX * 16 + x, y + 1, c.startZ * 16 + z);
  }

  lemma UpExposedIffOpen(w: World, c: Chunk, nb: Neighbourhood, x: int, y: int, z: int)
    requires w.Valid() && c in w.chunks && InChunk(x, y, z) && OwnIs(w, c, nb)
    ensures ExposedUp(nb, x, y, z) <==> OpenAt(w, c.startX * 16 + x, y + 1, c.startZ * 16 + z)
  {
    if y < MAX_CHUNK_HEIGHT - 1 {
      UpInside(w, c, nb, x, y, z);
    } else {
      UpAtEdge(w, c, nb, x, y, z);
    }
  }

  /** Down, above the bottom layer: the cube below, in the own array. */
  lemma DownInside(w: World, c: Chunk, nb: Neighbourhood, x: int, y: int, z: int)
    requires w.Valid() && c in w.chunks && InChunk(x, y, z) && OwnIs(w, c, nb) && y > 0
    ensures ExposedDown(nb, x, y, z) <==> OpenAt(w, c.startX * 16 + x, y - 1, c.startZ * 16 + z)
  {
    OpenInChunk(w, c, x, y - 1, z);
  }

  /** Down at the bottom layer: below the world, always open. */
  lemma DownAtEdge(w: World, c: Chunk, nb: Neighbourhood, x: int, y: int, z: int)
    requires w.Valid() && c in w.chunks && InChunk(x, y, z) && nb.WellShaped() && y == 0
    ensures ExposedDown(nb, x, y, z) <==> OpenAt(w, c.startX * 16 + x, y - 1, c.startZ * 16 + z)
  {
    OpenAboveOrBelow(w, c.startX * 16 + x, y - 1, c.startZ * 16 + z);
  }

  lemma DownExposedIffOpen(w: World, c: Chunk, nb: Neighbourhood, x: int, y: int, z: int)
    requires w.Valid() && c in w.chunks && InChunk(x, y, z) && OwnIs(w, c, nb)
    ensures ExposedDown(nb, x, y, z) <==> OpenAt(w, c.startX * 16 + x, y - 1, c.startZ * 16 + z)
  {
    if y > 0 {
      DownInside(w, c, nb, x, y, z);
    } else {
      DownAtEdge(w, c, nb, x, y, z);
    }
  }

  /** West, away from the chunk's west border: the neighbouring cube, in the own array. */
  lemma WestInside(w: World, c: Chunk, nb: Neighbourhood, x: int, y: int, z: int)
    requires w.Valid() && c in w.chunks && InChunk(x, y, z) && OwnIs(w, c, nb) && x > 0
    ensures ExposedWest(nb, x, y, z) <==> OpenAt(w, c.startX * 16 + (x - 1), y, c.startZ * 16 + z)
  {
    OpenInChunk(w, c, x - 1, y, z);
  }

  /** West, on the chunk's west border with no west neighbour loaded: outside the world. */
  lemma WestBeyondWorld(w: World, c: Chunk, nb: Neighbourhood, x: int, y: int, z: int)
    requires w.Valid() && c in w.chunks && InChunk(x, y, z) && nb.WellShaped() && x == 0 && nb.west.None?
    requires nb.west.Some? <==> c.startX > -w.worldSize
    ensures ExposedWest(nb, x, y, z) <==> OpenAt(w, c.startX * 16 + (x - 1), y, c.startZ * 16 + z)
  {
    OpenBeyondX(w, c.startX - 1, c.startX * 16 + (x - 1), y, c.startZ * 16 + z);
  }

  /** West, on the chunk's west border with the west neighbour loaded: its cube on the far side. */
  lemma WestInNeighbour(w: World, c: Chunk, nb: Neighbourhood, x: int, y: int, z: int)
    requires w.Valid() && c in w.chunks && InChunk(x, y, z) && nb.WellShaped() && x == 0 && nb.west.Some?
    requires c.startX > -w.worldSize
    requires nb.west.value == ChunkAt(w, c.startX - 1, c.startZ).cubeData[..]
    ensures ExposedWest(nb, x, y, z) <==> OpenAt(w, c.startX * 16 + (x - 1), y, c.startZ * 16 + z)
  {
    var d := ChunkAt(w, c.startX - 1, c.startZ);
    OpenInChunk(w, d, CHUNK_WIDTH - 1, y, z);
    assert d.startX * 16 + (CHUNK_WIDTH - 1) == c.startX * 16 + (x - 1);
  }

  lemma WestExposedIffOpen(w: World, c: Chunk, nb: Neighbourhood, x: int, y: int, z: int)
    requires w.Valid() && c in w.chunks && InChunk(x, y, z) && OwnIs(w, c, nb)
    requires nb.west.Some? <==> c.startX > -w.worldSize
    requires nb.west.Some? ==> nb.west.value == ChunkAt(w, c.startX - 1, c.startZ).cubeData[..]
    ensures ExposedWest(nb, x, y, z) <==> OpenAt(w, c.startX * 16 + (x - 1), y, c.startZ * 16 + z)
  {
    if x > 0 {
      WestInside(w, c, nb, x, y, z);
    } else if nb.west.None? {
      WestBeyondWorld(w, c, nb, x, y, z);
    } else {
      WestInNeighbour(w, c, nb, x, y, z);
    }
  }

  /** East, away from the chunk's east border: the neighbouring cube, in the own array. */
  lemma EastInside(w: World, c: Chunk, nb: Neighbourhood, x: int, y: int, z: int)
    requires w.Valid() && c in w.chunks && InChunk(x, y, z) && OwnIs(w, c, nb) && x < CHUNK_WIDTH - 1
    ensures ExposedEast(nb, x, y, z) <==> OpenAt(w, c.startX * 16 + (x + 1), y, c.startZ * 16 + z)
  {
    OpenInChunk(w, c, x + 1, y, z);
  }

  /** East, on the chunk's east border with no east neighbour loaded: outside the world. */
  lemma EastBeyondWorld(w: World, c: Chunk, nb: Neighbourhood, x: int, y: int, z: int)
    requires w.Valid() && c in w.chunks && InChunk(x, y, z) && nb.WellShaped() && x == CHUNK_WIDTH - 1 && nb.east.None?
    requires nb.east.Some? <==> c.startX + 1 < w.worldSize
    ensures ExposedEast(nb, x, y, z) <==> OpenAt(w, c.startX * 16 + (x + 1), y, c.startZ * 16 + z)
  {
    OpenBeyondX(w, c.startX + 1, c.startX * 16 + (x + 1), y, c.startZ * 16 + z);
  }

  /** East, on the chunk's east border with the east neighbour loaded: its cube on the far side. */
  lemma EastInNeighbour(w: World, c: Chunk, nb: Neighbourhood, x: int, y: int, z: int)
    requires w.Valid() && c in w.chunks && InChunk(x, y, z) && nb.WellShaped() && x == CHUNK_WIDTH - 1 && nb.east.Some?
    requires c.startX + 1 < w.worldSize
    requires nb.east.value == ChunkAt(w, c.startX + 1, c.startZ).cubeData[..]
    ensures ExposedEast(nb, x, y, z) <==> OpenAt(w, c.startX * 16 + (x + 1), y, c.startZ * 16 + z)
  {
    var d := ChunkAt(w, c.startX + 1, c.startZ);
    OpenInChunk(w, d, 0, y, z);
    assert d.startX * 16 + 0 == c.startX * 16 + (x + 1);
  }

  lemma EastExposedIffOpen(w: World, c: Chunk, nb: Neighbourhood, x: int, y: int, z: int)
    requires w.Valid() && c in w.chunks && InChunk(x, y, z) && OwnIs(w, c, nb)
    requires nb.east.Some? <==> c.startX + 1 < w.worldSize
    requires nb.east.Some? ==> nb.east.value == ChunkAt(w, c.startX + 1, c.startZ).cubeData[..]
    ensures ExposedEast(nb, x, y, z) <==> OpenAt(w, c.startX * 16 + (x + 1), y, c.startZ * 16 + z)
  {
    if x < CHUNK_WIDTH - 1 {
      EastInside(w, c, nb, x, y, z);
    } else if nb.east.None? {
      EastBeyondWorld(w, c, nb, x, y, z);
    } else {
      EastInNeighbour(w, c, nb, x, y, z);
    }
  }

  /** South, away from the chunk's south border: the neighbouring cube, in the own array. */
  lemma SouthInside(w: World, c: Chunk, nb: Neighbourhood, x: int, y: int, z: int)
    requires w.Valid() && c in w.chunks && InChunk(x, y, z) && OwnIs(w, c, nb) && z > 0
    ensures ExposedSouth(nb, x, y, z) <==> OpenAt(w, c.startX * 16 + x, y, c.startZ * 16 + (z - 1))
  {
    OpenInChunk(w, c, x, y, z - 1);
  }

  /** South, on the chunk's south border with no south neighbour loaded: outside the world. */
  lemma SouthBeyondWorld(w: World, c: Chunk, nb: Neighbourhood, x: int, y: int, z: int)
    requires w.Valid() && c in w.chunks && InChunk(x, y, z) && nb.WellShaped() && z == 0 && nb.south.None?
    requires nb.south.Some? <==> c.startZ > -w.worldSize
    ensures ExposedSouth(nb, x, y, z) <==> OpenAt(w, c.startX * 16 + x, y, c.startZ * 16 + (z - 1))
  {
    OpenBeyondZ(w, c.startX * 16 + x, y, c.startZ - 1, c.startZ * 16 + (z - 1));
  }

  /** South, on the chunk's south border with the south neighbour loaded: its cube on the far side. */
  lemma SouthInNeighbour(w: World, c: Chunk, nb: Neighbourhood, x: int, y: int, z: int)
    requires w.Valid() && c in w.chunks && InChunk(x, y, z) && nb.WellShaped() && z == 0 && nb.south.Some?
    requires c.startZ > -w.worldSize
    requires nb.south.value == ChunkAt(w, c.startX, c.startZ - 1).cubeData[..]
    ensures ExposedSouth(nb, x, y, z) <==> OpenAt(w, c.startX * 16 + x, y, c.startZ * 16 + (z - 1))
  {
    var d := ChunkAt(w, c.startX, c.startZ - 1);
    OpenInChunk(w, d, x, y, CHUNK_WIDTH - 1);
    assert d.startZ * 16 + (CHUNK_WIDTH - 1) == c.startZ * 16 + (z - 1);
  }

  lemma SouthExposedIffOpen(w: World, c: Chunk, nb: Neighbourhood, x: int, y: int, z: int)
    requires w.Valid() && c in w.chunks && InChunk(x, y, z) && OwnIs(w, c, nb)
    requires nb.south.Some? <==> c.startZ > -w.worldSize
    requires nb.south.Some? ==> nb.south.value == ChunkAt(w, c.startX, c.startZ - 1).cubeData[..]
    ensures ExposedSouth(nb, x, y, z) <==> OpenAt(w, c.startX * 16 + x, y, c.startZ * 16 + (z - 1))
  {
    if z > 0 {
      SouthInside(w, c, nb, x, y, z);
    } else if nb.south.None? {
      SouthBeyondWorld(w, c, nb, x, y, z);
    } else {
      SouthInNeighbour(w, c, nb, x, y, z);
    }
  }

  /** North, away from the chunk's north border: the neighbouring cube, in the own array. */
  lemma NorthInside(w: World, c: Chunk, nb: Neighbourhood, x: int, y: int, z: int)
    requires w.Valid() && c in w.chunks && InChunk(x, y, z) && OwnIs(w, c, nb) && z < CHUNK_WIDTH - 1
    ensures ExposedNorth(nb, x, y, z) <==> OpenAt(w, c.startX * 16 + x, y, c.startZ * 16 + (z + 1))
  {
    OpenInChunk(w, c, x, y, z + 1);
  }

  /** North, on the chunk's north border with no north neighbour loaded: outside the world. */
  lemma NorthBeyondWorld(w: World, c: Chunk, nb: Neighbourhood, x: int, y: int, z: int)
    requires w.Valid() && c in w.chunks && InChunk(x, y, z) && nb.WellShaped() && z == CHUNK_WIDTH - 1 && nb.north.None?
    requires nb.north.Some? <==> c.startZ + 1 < w.worldSize
    ensures ExposedNorth(nb, x, y, z) <==> OpenAt(w, c.startX * 16 + x, y, c.startZ * 16 + (z + 1))
  {
    OpenBeyondZ(w, c.startX * 16 + x, y, c.startZ + 1, c.startZ * 16 + (z + 1));
  }

  /** North, on the chunk's north border with the north neighbour loaded: its cube on the far side. */
  lemma NorthInNeighbour(w: World, c: Chunk, nb: Neighbourhood, x: int, y: int, z: int)
    requires w.Valid() && c in w.chunks && InChunk(x, y, z) && nb.WellShaped() && z == CHUNK_WIDTH - 1 && nb.north.Some?
    requires c.startZ + 1 < w.worldSize
    requires nb.north.value == ChunkAt(w, c.startX, c.startZ + 1).cubeData[..]
    ensures ExposedNorth(nb, x, y, z) <==> OpenAt(w, c.startX * 16 + x, y, c.startZ * 16 + (z + 1))
  {
    var d := ChunkAt(w, c.startX, c.startZ + 1);
    OpenInChunk(w, d, x, y, 0);
    assert d.startZ * 16 + 0 == c.startZ * 16 + (z + 1);
  }

  lemma NorthExposedIffOpen(w: World, c: Chunk, nb: Neighbourhood, x: int, y: int, z: int)
    requires w.Valid() && c in w.chunks && InChunk(x, y, z) && OwnIs(w, c, nb)
    requires nb.north.Some? <==> c.startZ + 1 < w.worldSize
    requires nb.north.Some? ==> nb.north.value == ChunkAt(w, c.startX, c.startZ + 1).cubeData[..]
    ensures ExposedNorth(nb, x, y, z) <==> OpenAt(w, c.startX * 16 + x, y, c.startZ * 16 + (z + 1))
  {
    if z < CHUNK_WIDTH - 1 {
      NorthInside(w, c, nb, x, y, z);
    } else if nb.north.None? {
      NorthBeyondWorld(w, c, nb, x, y, z);
    } else {
      NorthInNeighbour(w, c, nb, x, y, z);
    }
  }

  /** The exposure test on one side, stated for the NeighbourhoodOf snapshot. */
  lemma UpOpenTowards(w: World, c: Chunk, x: int, y: int, z: int)
    requires w.Valid() && c in w.chunks && InChunk(x, y, z)
    ensures Exposed(NeighbourhoodOf(w, c), x, y, z, Up) <==> OpenTowards(w, c, x, y, z, Up)
  {
    var nb := NeighbourhoodOf(w, c);
    assert OwnIs(w, c, nb);
    UpExposedIffOpen(w, c, nb, x, y, z);
  }

  lemma DownOpenTowards(w: World, c: Chunk, x: int, y: int, z: int)
    requires w.Valid() && c in w.chunks && InChunk(x, y, z)
    ensures Exposed(NeighbourhoodOf(w, c), x, y, z, Down) <==> OpenTowards(w, c, x, y, z, Down)
  {
    var nb := NeighbourhoodOf(w, c);
    assert OwnIs(w, c, nb);
    DownExposedIffOpen(w, c, nb, x, y, z);
  }

  lemma WestOpenTowards(w: World, c: Chunk, x: int, y: int, z: int)
    requires w.Valid() && c in w.chunks && InChunk(x, y, z)
    ensures Exposed(NeighbourhoodOf(w, c), x, y, z, West) <==> OpenTowards(w, c, x, y, z, West)
  {
    var nb := NeighbourhoodOf(w, c);
    assert nb.west.Some? <==> c.startX > -w.worldSize;
    assert nb.west.Some? ==> nb.west.value == ChunkAt(w, c.startX - 1, c.startZ).cubeData[..];
    WestExposedIffOpen(w, c, nb, x, y, z);
  }

  lemma EastOpenTowards(w: World, c: Chunk, x: int, y: int, z: int)
    requires w.Valid() && c in w.chunks && InChunk(x, y, z)
    ensures Exposed(NeighbourhoodOf(w, c), x, y, z, East) <==> OpenTowards(w, c, x, y, z, East)
  {
    var nb := NeighbourhoodOf(w, c);
    assert nb.east.Some? <==> c.startX + 1 < w.worldSize;
    assert nb.east.Some? ==> nb.east.value == ChunkAt(w, c.startX + 1, c.startZ).cubeData[..];
    EastExposedIffOpen(w, c, nb, x, y, z);
  }

  lemma SouthOpenTowards(w: World, c: Chunk, x: int, y: int, z: int)
    requires w.Valid() && c in w.chunks && InChunk(x, y, z)
    ensures Exposed(NeighbourhoodOf(w, c), x, y, z, South) <==> OpenTowards(w, c, x, y, z, South)
  {
    var nb := NeighbourhoodOf(w, c);
    assert nb.south.Some? <==> c.startZ > -w.worldSize;
    assert nb.south.Some? ==> nb.south.value == ChunkAt(w, c.startX, c.startZ - 1).cubeData[..];
    SouthExposedIffOpen(w, c, nb, x, y, z);
  }

  lemma NorthOpenTowards(w: World, c: Chunk, x: int, y: int, z: int)
    requires w.Valid() && c in w.chunks && InChunk(x, y, z)
    ensures Exposed(NeighbourhoodOf(w, c), x, y, z, North) <==> OpenTowards(w, c, x, y, z, North)
  {
    var nb := NeighbourhoodOf(w, c);
    assert nb.north.Some? <==> c.startZ + 1 < w.worldSize;
    assert nb.north.Some? ==> nb.north.value == ChunkAt(w, c.startX, c.startZ + 1).cubeData[..];
    NorthExposedIffOpen(w, c, nb, x, y, z);
  }

  /**
   * The code's exposure test, which looks only at the chunk's own array and its loaded
   * X/Z neighbours, agrees on every side with the world-space definition.
   */
  lemma ExposedIffOpen(w: World, c: Chunk, x: int, y: int, z: int, side: Side)
    requires w.Valid() && c in w.chunks && InChunk(x, y, z)
    ensures Exposed(NeighbourhoodOf(w, c), x, y, z, side) <==> OpenTowards(w, c, x, y, z, side)
  {
    match side
    case Up => UpOpenTowards(w, c, x, y, z);
    case Down => DownOpenTowards(w, c, x, y, z);
    case West => WestOpenTowards(w, c, x, y, z);
    case East => EastOpenTowards(w, c, x, y, z);
    case South => SouthOpenTowards(w, c, x, y, z);
    case North => NorthOpenTowards(w, c, x, y, z);
  }

  // ---------------------------------------------------------------------------
  // Which faces a voxel shows
  // ---------------------------------------------------------------------------

  /** One quad: the voxel's local position (y counted from the chunk's bottom), side and material. */
  datatype Face = Face(x: int, y: int, z: int, side: Side, material: Material)

  /** Grass is drawn as grass on top, dirt below and the grass-side texture around. */
  function FaceMaterial(m: Material, side: Side): Material {
    if m != MaterialGrass then m
    else match side
      case Up => MaterialGrass
      case Down => MaterialDirt
      case _ => MaterialGrassSide
  }

  /** The face of a voxel on one side when that side is exposed, else nothing. */
  function FaceIf(exposed: bool, x: int, y: int, z: int, m: Material, side: Side): (fs: seq<Face>)
    ensures |fs| <= 1
    ensures forall f :: f in fs <==> exposed && f == Face(x, y, z, side, FaceMaterial(m, side))
  {
    if exposed then [Face(x, y, z, side, FaceMaterial(m, side))] else []
  }

  /** The material of a voxel of the neighbourhood's own chunk. */
  function MaterialAt(nb: Neighbourhood, x: int, y: int, z: int): Material
    requires nb.WellShaped() && InChunk(x, y, z)
  {
    nb.own[FlattenWorldArrayIndex(x, y, z)].material
  }

  /** The faces of one voxel, in the order Up, Down, West, East, South, North. */
  function VoxelFaces(nb: Neighbourhood, x: int, y: int, z: int): seq<Face>
    requires nb.WellShaped() && InChunk(x, y, z)
  {
    var m := MaterialAt(nb, x, y, z);
    if m == MaterialAir then []
    else
      FaceIf(ExposedUp(nb, x, y, z), x, y, z, m, Up)
      + FaceIf(ExposedDown(nb, x, y, z), x, y, z, m, Down)
      + FaceIf(ExposedWest(nb, x, y, z), x, y, z, m, West)
      + FaceIf(ExposedEast(nb, x, y, z), x, y, z, m, East)
      + FaceIf(ExposedSouth(nb, x, y, z), x, y, z, m, South)
      + FaceIf(ExposedNorth(nb, x, y, z), x, y, z, m, North)
  }

  /**
   * A voxel shows at most six faces and none when it is air; it shows the face of a
   * side exactly when it is solid and exposed on that side, and every face it shows
   * carries its position and the material drawn on that side.
   */
  lemma VoxelFacesSpec(nb: Neighbourhood, x: int, y: int, z: int)
    requires nb.WellShaped() && InChunk(x, y, z)
    ensures var m := MaterialAt(nb, x, y, z);
            var fs := VoxelFaces(nb, x, y, z);
            && |fs| <= 6
            && (m == MaterialAir ==> fs == [])
            && (forall side :: (Face(x, y, z, side, FaceMaterial(m, side)) in fs
                                <==> m != MaterialAir && Exposed(nb, x, y, z, side)))
            && (forall f :: (f in fs ==>
                               && f == Face(x, y, z, f.side, FaceMaterial(m, f.side))
                               && m != MaterialAir && Exposed(nb, x, y, z, f.side)))
  {
  }

  /** A solid voxel exposed on every side shows all six faces. */
  lemma IsolatedVoxelShowsSixFaces(nb: Neighbourhood, x: int, y: int, z: int)
    requires nb.WellShaped() && InChunk(x, y, z) && MaterialAt(nb, x, y, z) != MaterialAir
    requires forall side :: Exposed(nb, x, y, z, side)
    ensures |VoxelFaces(nb, x, y, z)| == 6
  {
    assert Exposed(nb, x, y, z, Up) && Exposed(nb, x, y, z, Down);
    assert Exposed(nb, x, y, z, West) && Exposed(nb, x, y, z, East);
    assert Exposed(nb, x, y, z, South) && Exposed(nb, x, y, z, North);
  }

  // ---------------------------------------------------------------------------
  // Quads and the mesh buffers (buildFace)
  // ---------------------------------------------------------------------------

  /** The texture-atlas column of a material: material % TEXTURE_ATLAS_COUNT_I. */
  function AtlasColumn(m: Material): int {
    m % TEXTURE_ATLAS_COUNT_I
  }

  /** The texture-atlas row of a material: material / TEXTURE_ATLAS_COUNT_I. */
  function AtlasRow(m: Material): int {
    m / TEXTURE_ATLAS_COUNT_I
  }

  /** Every material has its own atlas cell, read row by row. */
  lemma AtlasCellOfMaterial(m: Material, m': Material)
    ensures 0 <= AtlasColumn(m) < TEXTURE_ATLAS_COUNT_I
    ensures 0 <= AtlasRow(m) < MATERIAL_LIMIT / TEXTURE_ATLAS_COUNT_I
    ensures AtlasRow(m) * TEXTURE_ATLAS_COUNT_I + AtlasColumn(m) == m
    ensures (AtlasColumn(m), AtlasRow(m)) == (AtlasColumn(m'), AtlasRow(m')) ==> m == m'
  {
  }

  /** The vertex of a face's corner. */
  function CornerVertex(f: Face, corner: int): Vertex {
    Vertex(f.x, f.y, f.z, f.side, corner, AtlasColumn(f.material), AtlasRow(f.material))
  }

  /** The four vertices buildFace pushes for a face. */
  function FaceVertices(f: Face): seq<Vertex> {
    [CornerVertex(f, 0), CornerVertex(f, 1), CornerVertex(f, 2), CornerVertex(f, 3)]
  }

  /** The two triangles of a quad whose first vertex is `base`. */
  function FaceIndices(base: int): seq<int> {
    [base, base + 2, base + 1, base, base + 3, base + 2]
  }

  /** The vertex offset within its quad of index number r (0..5) of the quad. */
  function QuadCorner(r: int): int
    requires 0 <= r < 6
  {
    [0, 2, 1, 0, 3, 2][r]
  }

  /** The value index buffer entry i holds in a mesh built quad after quad. */
  function QuadIndex(i: int): int
    requires i >= 0
  {
    4 * (i / 6) + QuadCorner(i % 6)
  }

  /**
   * A RenderChunk's buffers as whole quads: vertexCount == currentIndex == the number
   * of vertices, indiceCount == the number of indices, three indices for every two
   * vertices, and index i pointing into quad i / 6.
   */
  predicate WellFormed(m: Mesh) {
    && m.vertexCount == m.currentIndex == |m.vertexData|
    && m.indiceCount == |m.indices|
    && |m.vertexData| % 4 == 0
    && 2 * |m.indices| == 3 * |m.vertexData|
    && (forall i :: 0 <= i < |m.indices| ==> m.indices[i] == QuadIndex(i))
  }

  /** In a well-formed mesh every index names an existing vertex. */
  lemma WellFormedIndicesInRange(m: Mesh)
    requires WellFormed(m)
    ensures forall i :: 0 <= i < |m.indices| ==> 0 <= m.indices[i] < m.vertexCount
  {
    forall i | 0 <= i < |m.indices|
      ensures 0 <= m.indices[i] < m.vertexCount
    {
      assert i / 6 < |m.vertexData| / 4;
    }
  }

  /** What one buildFace call does to the buffers and counters. */
  function AddFace(m: Mesh, f: Face): Mesh {
    Mesh(m.vertexData + FaceVertices(f), m.indices + FaceIndices(m.currentIndex),
         m.currentIndex + 4, m.indiceCount + 6, m.vertexCount + 4)
  }

  /** buildFace keeps the mesh whole quads. */
  lemma AddFaceWellFormed(m: Mesh, f: Face)
    requires WellFormed(m)
    ensures WellFormed(AddFace(m, f))
  {
    var m' := AddFace(m, f);
    var q := |m.vertexData| / 4;
    assert |m.indices| == 6 * q;
    forall i | 0 <= i < |m'.indices|
      ensures m'.indices[i] == QuadIndex(i)
    {
      if i >= |m.indices| {
        assert i / 6 == q && i % 6 == i - 6 * q;
      }
    }
  }

  /** The buffers after a sequence of buildFace calls. */
  function AddFaces(m: Mesh, fs: seq<Face>): Mesh
    decreases |fs|
  {
    if fs == [] then m else AddFace(AddFaces(m, fs[..|fs| - 1]), fs[|fs| - 1])
  }

  lemma AddFacesSnoc(m: Mesh, fs: seq<Face>, f: Face)
    ensures AddFaces(m, fs + [f]) == AddFace(AddFaces(m, fs), f)
  {
    assert (fs + [f])[..|fs|] == fs;
  }

  /** Emitting a + b is emitting a, then b. */
  lemma {:induction false} AddFacesAppend(m: Mesh, a: seq<Face>, b: seq<Face>)
    ensures AddFaces(m, a + b) == AddFaces(AddFaces(m, a), b)
    decreases |b|
  {
    if b == [] {
      assert a + b == a;
    } else {
      var b' := b[..|b| - 1];
      assert a + b == (a + b') + [b[|b| - 1]];
      AddFacesSnoc(m, a + b', b[|b| - 1]);
      AddFacesAppend(m, a, b');
    }
  }

  /**
   * Emitting faces keeps the mesh whole quads, adds 4 vertices and 6 indices per face,
   * and leaves what was already there in place.
   */
  lemma {:induction false} AddFacesWellFormed(m: Mesh, fs: seq<Face>)
    requires WellFormed(m)
    ensures var m' := AddFaces(m, fs);
            && WellFormed(m')
            && |m'.vertexData| == |m.vertexData| + 4 * |fs|
            && |m'.indices| == |m.indices| + 6 * |fs|
            && m'.vertexData[..|m.vertexData|] == m.vertexData
            && m'.indices[..|m.indices|] == m.indices
    decreases |fs|
  {
    if fs != [] {
      var m0 := AddFaces(m, fs[..|fs| - 1]);
      AddFacesWellFormed(m, fs[..|fs| - 1]);
      AddFaceWellFormed(m0, fs[|fs| - 1]);
      assert m0.vertexData[..|m.vertexData|] == m.vertexData;
    }
  }

  /** The mesh of a freshly zeroed RenderChunk after emitting fs. */
  function MeshOf(fs: seq<Face>): Mesh {
    AddFaces(EmptyMesh, fs)
  }

  /** The rebuilt mesh of a split is whole quads, 4 vertices and 6 indices per face. */
  lemma MeshOfWellFormed(fs: seq<Face>)
    ensures WellFormed(MeshOf(fs))
    ensures MeshOf(fs).vertexCount == 4 * |fs| && MeshOf(fs).indiceCount == 6 * |fs|
  {
    AddFacesWellFormed(EmptyMesh, fs);
  }

  /** buildFace: push the four vertices and the six indices of one quad. */
  method BuildFace(chunk: Chunk, index: int, side: Side, material: Material, x: int, y: int, z: int)
    requires |chunk.renderChunks| == CHUNK_SPLITS && 0 <= index < CHUNK_SPLITS
    modifies chunk.renderChunks[index]
    ensures chunk.renderChunks[index].State()
         == AddFace(old(chunk.renderChunks[index].State()), Face(x, y, z, side, material))
  {
    var renderChunk := chunk.renderChunks[index];
    ghost var f := Face(x, y, z, side, material);
    var i := 0;
    while i < 4
      invariant 0 <= i <= 4
      invariant renderChunk.vertexData == old(renderChunk.vertexData) + FaceVertices(f)[..i]
      invariant renderChunk.indices == old(renderChunk.indices)
      invariant renderChunk.currentIndex == old(renderChunk.currentIndex)
      invariant renderChunk.indiceCount == old(renderChunk.indiceCount)
      invariant renderChunk.vertexCount == old(renderChunk.vertexCount)
    {
      var v := Vertex(x, y, z, side, i, material % TEXTURE_ATLAS_COUNT_I, material / TEXTURE_ATLAS_COUNT_I);
      renderChunk.vertexData := renderChunk.vertexData + [v];
      i := i + 1;
    }
    renderChunk.vertexCount := renderChunk.vertexCount + 4;

    var base := renderChunk.currentIndex;
    renderChunk.indices := renderChunk.indices + [base];
    renderChunk.indices := renderChunk.indices + [base + 2];
    renderChunk.indices := renderChunk.indices + [base + 1];
    renderChunk.indices := renderChunk.indices + [base];
    renderChunk.indices := renderChunk.indices + [base + 3];
    renderChunk.indices := renderChunk.indices + [base + 2];
    renderChunk.currentIndex := renderChunk.currentIndex + 4;
    renderChunk.indiceCount := renderChunk.indiceCount + 6;
  }

  // ---------------------------------------------------------------------------
  // The faces of a split, in the builder's loop order
  // ---------------------------------------------------------------------------

  /** A voxel of split `id`, in chunk-local coordinates. */
  predicate InSplit(id: int, x: int, y: int, z: int) {
    && 0 <= x < CHUNK_WIDTH && 0 <= z < CHUNK_WIDTH
    && 16 * id <= y < 16 * id + 16
  }

  /** Face f is drawn for split id: a solid voxel of the split, with f on an exposed side in that side's material. */
  predicate SplitFace(nb: Neighbourhood, id: int, f: Face)
    requires nb.WellShaped()
  {
    && InSplit(id, f.x, f.y, f.z) && InChunk(f.x, f.y, f.z)
    && MaterialAt(nb, f.x, f.y, f.z) != MaterialAir
    && f.material == FaceMaterial(MaterialAt(nb, f.x, f.y, f.z), f.side)
    && Exposed(nb, f.x, f.y, f.z, f.side)
  }

  /** Layer j of split id is a layer of the chunk. */
  lemma SplitLayerInChunk(id: int, j: int)
    requires 0 <= id < CHUNK_SPLITS && 0 <= j < RENDER_CHUNK_HEIGHT
    ensures 0 <= 16 * id + j < MAX_CHUNK_HEIGHT
  {
  }

  /**
   * The faces generateGeometryForRenderChunk has emitted for split id when its loops
   * reach voxel (x, y, z), given the faces `voxel` emits for each voxel: those of every
   * voxel of the split before it in x, then z, then y order. Column z of row x is
   * complete at y = 16 * id + 16, row x at z = 16 and the split at x = 16.
   */
  function LoopFaces(voxel: (int, int, int) -> seq<Face>, id: int, x: int, z: int, y: int): seq<Face>
    requires Visit(id, x, z, y)
    decreases x, z, y - 16 * id
  {
    if y > 16 * id then
      LoopFaces(voxel, id, x, z, y - 1) + voxel(x, y - 1, z)
    else if z > 0 then
      LoopFaces(voxel, id, x, z - 1, 16 * id + 16)
    else if x > 0 then
      LoopFaces(voxel, id, x - 1, CHUNK_WIDTH, 16 * id)
    else
      []
  }

  /**
   * A point the builder's loops pass through: a voxel of split id, the end of a column
   * (y one past the split), the end of a row (z = 16) or the end of the split (x = 16).
   */
  predicate Visit(id: int, x: int, z: int, y: int) {
    && 0 <= x <= CHUNK_WIDTH && 0 <= z <= CHUNK_WIDTH && 16 * id <= y <= 16 * id + 16
    && (x == CHUNK_WIDTH ==> z == 0 && y == 16 * id)
    && (z == CHUNK_WIDTH ==> y == 16 * id)
  }

  /** Voxel (fx, fy, fz) comes before (x, y, z) in the builder's x, then z, then y order. */
  predicate Earlier(fx: int, fy: int, fz: int, x: int, y: int, z: int) {
    fx < x || (fx == x && (fz < z || (fz == z && fy < y)))
  }

  /** The faces of every voxel of the neighbourhood's own chunk; nothing outside it. */
  function ChunkVoxels(nb: Neighbourhood): (int, int, int) -> seq<Face>
    requires nb.WellShaped()
  {
    (x, y, z) => if InChunk(x, y, z) then VoxelFaces(nb, x, y, z) else []
  }

  /** Every face of a split, in the order generateGeometryForRenderChunk emits them. */
  function SplitFaces(nb: Neighbourhood, id: int): seq<Face>
    requires nb.WellShaped() && 0 <= id < CHUNK_SPLITS
  {
    LoopFaces(ChunkVoxels(nb), id, CHUNK_WIDTH, 0, 16 * id)
  }

  /** The loops emit at most six faces per voxel visited when no voxel emits more. */
  lemma {:induction false} LoopFacesBound(voxel: (int, int, int) -> seq<Face>, id: int, x: int, z: int, y: int)
    requires Visit(id, x, z, y)
    requires forall x', y', z' :: |voxel(x', y', z')| <= 6
    ensures |LoopFaces(voxel, id, x, z, y)| <= 6 * (256 * x + 16 * z + (y - 16 * id))
    decreases x, z, y - 16 * id
  {
    if y > 16 * id {
      LoopFacesBound(voxel, id, x, z, y - 1);
    } else if z > 0 {
      LoopFacesBound(voxel, id, x, z - 1, 16 * id + 16);
    } else if x > 0 {
      LoopFacesBound(voxel, id, x - 1, CHUNK_WIDTH, 16 * id);
    }
  }

  /**
   * When every face a voxel emits names that voxel, the loops have emitted exactly the
   * faces of the split's voxels they have passed.
   */
  lemma {:induction false} LoopFacesMember(voxel: (int, int, int) -> seq<Face>, id: int, x: int, z: int, y: int, f: Face)
    requires Visit(id, x, z, y)
    requires forall x', y', z' :: f in voxel(x', y', z') ==> f.x == x' && f.y == y' && f.z == z'
    ensures f in LoopFaces(voxel, id, x, z, y)
            <==> && f in voxel(f.x, f.y, f.z) && 0 <= f.x < CHUNK_WIDTH && 0 <= f.z < CHUNK_WIDTH
                 && 16 * id <= f.y < 16 * id + 16 && Earlier(f.x, f.y, f.z, x, y, z)
    decreases x, z, y - 16 * id
  {
    if y > 16 * id {
      LoopFacesMember(voxel, id, x, z, y - 1, f);
      LoopFacesMemberUp(voxel, id, x, z, y, f);
    } else if z > 0 {
      LoopFacesMember(voxel, id, x, z - 1, 16 * id + 16, f);
      LoopFacesMemberAcross(voxel, id, x, z, f);
    } else if x > 0 {
      LoopFacesMember(voxel, id, x - 1, CHUNK_WIDTH, 16 * id, f);
      LoopFacesMemberOver(voxel, id, x, f);
    }
  }

  /** LoopFacesMember's step up a column: the voxel just below y joins the faces emitted. */
  lemma LoopFacesMemberUp(voxel: (int, int, int) -> seq<Face>, id: int, x: int, z: int, y: int, f: Face)
    requires Visit(id, x, z, y) && y > 16 * id
    requires forall x', y', z' :: f in voxel(x', y', z') ==> f.x == x' && f.y == y' && f.z == z'
    requires f in LoopFaces(voxel, id, x, z, y - 1)
             <==> && f in voxel(f.x, f.y, f.z) && 0 <= f.x < CHUNK_WIDTH && 0 <= f.z < CHUNK_WIDTH
                  && 16 * id <= f.y < 16 * id + 16 && Earlier(f.x, f.y, f.z, x, y - 1, z)
    ensures f in LoopFaces(voxel, id, x, z, y)
            <==> && f in voxel(f.x, f.y, f.z) && 0 <= f.x < CHUNK_WIDTH && 0 <= f.z < CHUNK_WIDTH
                 && 16 * id <= f.y < 16 * id + 16 && Earlier(f.x, f.y, f.z, x, y, z)
  {
    var v := voxel(x, y - 1, z);
    assert LoopFaces(voxel, id, x, z, y) == LoopFaces(voxel, id, x, z, y - 1) + v;
    assert f in v ==> f.x == x && f.y == y - 1 && f.z == z;
    assert Earlier(f.x, f.y, f.z, x, y, z) <==>
           Earlier(f.x, f.y, f.z, x, y - 1, z) || (f.x == x && f.y == y - 1 && f.z == z);
  }

  /** LoopFacesMember's step to the next column of a row: nothing new is emitted. */
  lemma LoopFacesMemberAcross(voxel: (int, int, int) -> seq<Face>, id: int, x: int, z: int, f: Face)
    requires Visit(id, x, z, 16 * id) && z > 0
    requires f in LoopFaces(voxel, id, x, z - 1, 16 * id + 16)
             <==> && f in voxel(f.x, f.y, f.z) && 0 <= f.x < CHUNK_WIDTH && 0 <= f.z < CHUNK_WIDTH
                  && 16 * id <= f.y < 16 * id + 16 && Earlier(f.x, f.y, f.z, x, 16 * id + 16, z - 1)
    ensures f in LoopFaces(voxel, id, x, z, 16 * id)
            <==> && f in voxel(f.x, f.y, f.z) && 0 <= f.x < CHUNK_WIDTH && 0 <= f.z < CHUNK_WIDTH
                 && 16 * id <= f.y < 16 * id + 16 && Earlier(f.x, f.y, f.z, x, 16 * id, z)
  {
    assert LoopFaces(voxel, id, x, z, 16 * id) == LoopFaces(voxel, id, x, z - 1, 16 * id + 16);
    assert 16 * id <= f.y < 16 * id + 16 ==>
           (Earlier(f.x, f.y, f.z, x, 16 * id, z) <==> Earlier(f.x, f.y, f.z, x, 16 * id + 16, z - 1));
  }

  /** LoopFacesMember's step to the next row: nothing new is emitted. */
  lemma LoopFacesMemberOver(voxel: (int, int, int) -> seq<Face>, id: int, x: int, f: Face)
    requires Visit(id, x, 0, 16 * id) && x > 0
    requires f in LoopFaces(voxel, id, x - 1, CHUNK_WIDTH, 16 * id)
             <==> && f in voxel(f.x, f.y, f.z) && 0 <= f.x < CHUNK_WIDTH && 0 <= f.z < CHUNK_WIDTH
                  && 16 * id <= f.y < 16 * id + 16 && Earlier(f.x, f.y, f.z, x - 1, 16 * id, CHUNK_WIDTH)
    ensures f in LoopFaces(voxel, id, x, 0, 16 * id)
            <==> && f in voxel(f.x, f.y, f.z) && 0 <= f.x < CHUNK_WIDTH && 0 <= f.z < CHUNK_WIDTH
                 && 16 * id <= f.y < 16 * id + 16 && Earlier(f.x, f.y, f.z, x, 16 * id, 0)
  {
    assert LoopFaces(voxel, id, x, 0, 16 * id) == LoopFaces(voxel, id, x - 1, CHUNK_WIDTH, 16 * id);
    assert 0 <= f.z < CHUNK_WIDTH && 16 * id <= f.y ==>
           (Earlier(f.x, f.y, f.z, x, 16 * id, 0) <==> Earlier(f.x, f.y, f.z, x - 1, 16 * id, CHUNK_WIDTH));
  }

  /** The faces of one voxel are those drawn for it. */
  lemma VoxelFacesMember(nb: Neighbourhood, id: int, x: int, y: int, z: int, f: Face)
    requires nb.WellShaped() && InSplit(id, x, y, z) && InChunk(x, y, z)
    ensures |VoxelFaces(nb, x, y, z)| <= 6
    ensures f in VoxelFaces(nb, x, y, z) <==> SplitFace(nb, id, f) && f.x == x && f.y == y && f.z == z
  {
    VoxelFacesSpec(nb, x, y, z);
    var m := MaterialAt(nb, x, y, z);
    if SplitFace(nb, id, f) && f.x == x && f.y == y && f.z == z {
      assert f == Face(x, y, z, f.side, FaceMaterial(m, f.side));
    }
  }

  /** A chunk's voxels emit at most six faces each, every one naming its voxel. */
  lemma ChunkVoxelsSpec(nb: Neighbourhood, f: Face)
    requires nb.WellShaped()
    ensures forall x, y, z :: |ChunkVoxels(nb)(x, y, z)| <= 6
    ensures forall x, y, z :: f in ChunkVoxels(nb)(x, y, z) ==> f.x == x && f.y == y && f.z == z
  {
    forall x, y, z
      ensures |ChunkVoxels(nb)(x, y, z)| <= 6
      ensures f in ChunkVoxels(nb)(x, y, z) ==> f.x == x && f.y == y && f.z == z
    {
      if InChunk(x, y, z) {
        VoxelFacesSpec(nb, x, y, z);
      }
    }
  }

  /**
   * A split's faces are exactly the exposed sides of its solid voxels, each with its
   * side's material, and there are at most 6 * 4096 of them.
   */
  lemma SplitFacesSpec(nb: Neighbourhood, id: int, f: Face)
    requires nb.WellShaped() && 0 <= id < CHUNK_SPLITS
    ensures |SplitFaces(nb, id)| <= 6 * SPLIT_SIZE
    ensures f in SplitFaces(nb, id) <==> SplitFace(nb, id, f)
  {
    ChunkVoxelsSpec(nb, f);
    LoopFacesBound(ChunkVoxels(nb), id, CHUNK_WIDTH, 0, 16 * id);
    LoopFacesMember(ChunkVoxels(nb), id, CHUNK_WIDTH, 0, 16 * id, f);
    if InSplit(id, f.x, f.y, f.z) {
      VoxelFacesMember(nb, id, f.x, f.y, f.z, f);
    }
  }

  /** No face appears twice in fs. */
  predicate DistinctFaces(fs: seq<Face>) {
    forall i, j :: 0 <= i < j < |fs| ==> fs[i] != fs[j]
  }

  /** Two duplicate-free face lists with no face in common concatenate to a duplicate-free one. */
  lemma DistinctFacesAppend(a: seq<Face>, b: seq<Face>)
    requires DistinctFaces(a) && DistinctFaces(b) && forall f :: f in a ==> f !in b
    ensures DistinctFaces(a + b)
  {
    forall i, j | 0 <= i < j < |a + b|
      ensures (a + b)[i] != (a + b)[j]
    {
      if j < |a| {
        assert (a + b)[i] == a[i] && (a + b)[j] == a[j];
      } else if i >= |a| {
        assert (a + b)[i] == b[i - |a|] && (a + b)[j] == b[j - |a|];
      } else {
        assert (a + b)[i] == a[i] && (a + b)[j] == b[j - |a|];
        assert a[i] in a && b[j - |a|] in b;
      }
    }
  }

  /** In a duplicate-free list a face occurs once if it occurs at all. */
  lemma {:induction false} DistinctFacesCount(fs: seq<Face>, f: Face)
    requires DistinctFaces(fs)
    ensures multiset(fs)[f] == if f in fs then 1 else 0
    decreases |fs|
  {
    if fs != [] {
      var rest := fs[1..];
      assert fs == [fs[0]] + rest;
      assert DistinctFaces(rest) by {
        forall i, j | 0 <= i < j < |rest|
          ensures rest[i] != rest[j]
        {
          assert rest[i] == fs[i + 1] && rest[j] == fs[j + 1];
        }
      }
      assert fs[0] !in rest by {
        forall k | 0 <= k < |rest|
          ensures rest[k] != fs[0]
        {
          assert rest[k] == fs[k + 1];
        }
      }
      DistinctFacesCount(rest, f);
      assert multiset(fs) == multiset([fs[0]]) + multiset(rest);
    }
  }

  /** Every face of fs lies on one of the sides in sides. */
  predicate OnSides(fs: seq<Face>, sides: set<Side>) {
    forall f :: f in fs ==> f.side in sides
  }

  /** Appending a duplicate-free list of other sides keeps a list duplicate-free. */
  lemma AppendOtherSides(a: seq<Face>, b: seq<Face>, sides: set<Side>, side: Side)
    requires DistinctFaces(a) && OnSides(a, sides) && side !in sides
    requires |b| <= 1 && OnSides(b, {side})
    ensures DistinctFaces(a + b) && OnSides(a + b, sides + {side})
  {
    DistinctFacesAppend(a, b);
  }

  /** Guarded faces of the six different sides of one voxel are never equal. */
  lemma SixSidesDistinct(up: bool, down: bool, west: bool, east: bool, south: bool, north: bool,
                         x: int, y: int, z: int, m: Material)
    ensures DistinctFaces(FaceIf(up, x, y, z, m, Up) + FaceIf(down, x, y, z, m, Down)
                          + FaceIf(west, x, y, z, m, West) + FaceIf(east, x, y, z, m, East)
                          + FaceIf(south, x, y, z, m, South) + FaceIf(north, x, y, z, m, North))
  {
    var u := FaceIf(up, x, y, z, m, Up);
    var d := FaceIf(down, x, y, z, m, Down);
    var w := FaceIf(west, x, y, z, m, West);
    var e := FaceIf(east, x, y, z, m, East);
    var s := FaceIf(south, x, y, z, m, South);
    var n := FaceIf(north, x, y, z, m, North);
    AppendOtherSides(u, d, {Up}, Down);
    AppendOtherSides(u + d, w, {Up, Down}, West);
    AppendOtherSides(u + d + w, e, {Up, Down, West}, East);
    AppendOtherSides(u + d + w + e, s, {Up, Down, West, East}, South);
    AppendOtherSides(u + d + w + e + s, n, {Up, Down, West, East, South}, North);
  }

  /** A voxel shows no face twice: its faces lie on different sides. */
  lemma VoxelFacesDistinct(nb: Neighbourhood, x: int, y: int, z: int)
    requires nb.WellShaped() && InChunk(x, y, z)
    ensures DistinctFaces(VoxelFaces(nb, x, y, z))
  {
    SixSidesDistinct(ExposedUp(nb, x, y, z), ExposedDown(nb, x, y, z), ExposedWest(nb, x, y, z),
                     ExposedEast(nb, x, y, z), ExposedSouth(nb, x, y, z), ExposedNorth(nb, x, y, z),
                     x, y, z, MaterialAt(nb, x, y, z));
  }

  /**
   * The loops emit no face twice when no voxel does and every face names its voxel:
   * each voxel is visited once.
   */
  lemma {:induction false} LoopFacesDistinct(voxel: (int, int, int) -> seq<Face>, id: int, x: int, z: int, y: int)
    requires Visit(id, x, z, y)
    requires forall x', y', z' :: DistinctFaces(voxel(x', y', z'))
    requires forall f: Face, x', y', z' :: f in voxel(x', y', z') ==> f.x == x' && f.y == y' && f.z == z'
    ensures DistinctFaces(LoopFaces(voxel, id, x, z, y))
    decreases x, z, y - 16 * id
  {
    if y > 16 * id {
      var before := LoopFaces(voxel, id, x, z, y - 1);
      LoopFacesDistinct(voxel, id, x, z, y - 1);
      forall f | f in before
        ensures f !in voxel(x, y - 1, z)
      {
        LoopFacesMember(voxel, id, x, z, y - 1, f);
      }
      DistinctFacesAppend(before, voxel(x, y - 1, z));
    } else if z > 0 {
      LoopFacesDistinct(voxel, id, x, z - 1, 16 * id + 16);
    } else if x > 0 {
      LoopFacesDistinct(voxel, id, x - 1, CHUNK_WIDTH, 16 * id);
    }
  }

  /** A split's face list holds each face of SplitFace exactly once and nothing else. */
  lemma SplitFacesOnce(nb: Neighbourhood, id: int, f: Face)
    requires nb.WellShaped() && 0 <= id < CHUNK_SPLITS
    ensures DistinctFaces(SplitFaces(nb, id))
    ensures multiset(SplitFaces(nb, id))[f] == if SplitFace(nb, id, f) then 1 else 0
  {
    forall x, y, z
      ensures DistinctFaces(ChunkVoxels(nb)(x, y, z))
    {
      if InChunk(x, y, z) {
        VoxelFacesDistinct(nb, x, y, z);
      }
    }
    forall g: Face
      ensures forall x, y, z :: g in ChunkVoxels(nb)(x, y, z) ==> g.x == x && g.y == y && g.z == z
    {
      ChunkVoxelsSpec(nb, g);
    }
    LoopFacesDistinct(ChunkVoxels(nb), id, CHUNK_WIDTH, 0, 16 * id);
    DistinctFacesCount(SplitFaces(nb, id), f);
    SplitFacesSpec(nb, id, f);
  }

  /** A split holding only air yields no faces. */
  lemma AllAirSplitHasNoFaces(nb: Neighbourhood, id: int)
    requires nb.WellShaped() && 0 <= id < CHUNK_SPLITS
    requires forall x, y, z :: InSplit(id, x, y, z) ==> nb.own[FlattenWorldArrayIndex(x, y, z)].material == MaterialAir
    ensures SplitFaces(nb, id) == []
  {
    if SplitFaces(nb, id) != [] {
      var f := SplitFaces(nb, id)[0];
      SplitFacesSpec(nb, id, f);
      assert false;
    }
  }

  /**
   * The faces of a split of the world are exactly the world-space open sides of its
   * solid voxels, each drawn with its side's material.
   */
  lemma SplitFacesMatchWorld(w: World, c: Chunk, id: int, f: Face)
    requires w.Valid() && c in w.chunks && 0 <= id < CHUNK_SPLITS
    ensures f in SplitFaces(NeighbourhoodOf(w, c), id)
            <==> && InSplit(id, f.x, f.y, f.z)
                 && c.cubeData[FlattenWorldArrayIndex(f.x, f.y, f.z)].material != MaterialAir
                 && f.material == FaceMaterial(c.cubeData[FlattenWorldArrayIndex(f.x, f.y, f.z)].material, f.side)
                 && OpenTowards(w, c, f.x, f.y, f.z, f.side)
  {
    var nb := NeighbourhoodOf(w, c);
    SplitFacesSpec(nb, id, f);
    if InSplit(id, f.x, f.y, f.z) {
      ExposedIffOpen(w, c, f.x, f.y, f.z, f.side);
    }
  }

  /** A split of the world holding only air rebuilds to an empty mesh. */
  lemma AllAirSplitMeshIsEmpty(w: World, c: Chunk, id: int)
    requires w.Valid() && c in w.chunks && 0 <= id < CHUNK_SPLITS
    requires forall x, y, z :: InSplit(id, x, y, z) ==> c.cubeData[FlattenWorldArrayIndex(x, y, z)].material == MaterialAir
    ensures MeshOf(SplitFaces(NeighbourhoodOf(w, c), id)) == EmptyMesh
  {
    AllAirSplitHasNoFaces(NeighbourhoodOf(w, c), id);
  }

  /**
   * A rebuilt split never holds more than 6 * 4096 quads, so its index counters, which
   * are 32-bit in the source, cannot wrap around.
   */
  lemma SplitMeshFitsIndexType(nb: Neighbourhood, id: int)
    requires nb.WellShaped() && 0 <= id < CHUNK_SPLITS
    ensures var m := MeshOf(SplitFaces(nb, id));
            && m.vertexCount <= 4 * 6 * SPLIT_SIZE
            && m.indiceCount <= 6 * 6 * SPLIT_SIZE < 0x1_0000_0000
  {
    SplitFacesSpec(nb, id, Face(0, 0, 0, Up, MaterialAir));
    MeshOfWellFormed(SplitFaces(nb, id));
  }

  // ---------------------------------------------------------------------------
  // generateGeometryForRenderChunk and freeGenerateUpdate
  // ---------------------------------------------------------------------------

  /** The buffers after buildFace is called for f when `exposed` holds. */
  function AddFaceWhen(m: Mesh, exposed: bool, f: Face): Mesh {
    if exposed then AddFace(m, f) else m
  }

  /** A face of the voxel is emitted exactly when its side is exposed. */
  lemma AddFaceIf(m: Mesh, exposed: bool, x: int, y: int, z: int, mat: Material, side: Side)
    ensures AddFaces(m, FaceIf(exposed, x, y, z, mat, side))
         == AddFaceWhen(m, exposed, Face(x, y, z, side, FaceMaterial(mat, side)))
  {
    if exposed {
      AddFacesSnoc(m, [], Face(x, y, z, side, FaceMaterial(mat, side)));
      assert [] + [Face(x, y, z, side, FaceMaterial(mat, side))] == FaceIf(exposed, x, y, z, mat, side);
    }
  }

  /** Appending six lists of faces is appending them one after the other. */
  lemma AddFacesSix(m: Mesh, f1: seq<Face>, f2: seq<Face>, f3: seq<Face>, f4: seq<Face>, f5: seq<Face>, f6: seq<Face>)
    ensures AddFaces(m, f1 + f2 + f3 + f4 + f5 + f6)
         == AddFaces(AddFaces(AddFaces(AddFaces(AddFaces(AddFaces(m, f1), f2), f3), f4), f5), f6)
  {
    AddFacesAppend(m, f1 + f2 + f3 + f4 + f5, f6);
    AddFacesAppend(m, f1 + f2 + f3 + f4, f5);
    AddFacesAppend(m, f1 + f2 + f3, f4);
    AddFacesAppend(m, f1 + f2, f3);
    AddFacesAppend(m, f1, f2);
  }

  /** Emitting a voxel's faces is six conditional buildFace calls, one per side in order. */
  lemma AddVoxelFaces(m: Mesh, nb: Neighbourhood, x: int, y: int, z: int)
    requires nb.WellShaped() && InChunk(x, y, z) && MaterialAt(nb, x, y, z) != MaterialAir
    ensures AddFaces(m, VoxelFaces(nb, x, y, z))
         == (var mat := MaterialAt(nb, x, y, z);
             AddFaceWhen(AddFaceWhen(AddFaceWhen(AddFaceWhen(AddFaceWhen(AddFaceWhen(m,
               ExposedUp(nb, x, y, z), Face(x, y, z, Up, FaceMaterial(mat, Up))),
               ExposedDown(nb, x, y, z), Face(x, y, z, Down, FaceMaterial(mat, Down))),
               ExposedWest(nb, x, y, z), Face(x, y, z, West, FaceMaterial(mat, West))),
               ExposedEast(nb, x, y, z), Face(x, y, z, East, FaceMaterial(mat, East))),
               ExposedSouth(nb, x, y, z), Face(x, y, z, South, FaceMaterial(mat, South))),
               ExposedNorth(nb, x, y, z), Face(x, y, z, North, FaceMaterial(mat, North))))
  {
    var mat := MaterialAt(nb, x, y, z);
    var f1 := FaceIf(ExposedUp(nb, x, y, z), x, y, z, mat, Up);
    var f2 := FaceIf(ExposedDown(nb, x, y, z), x, y, z, mat, Down);
    var f3 := FaceIf(ExposedWest(nb, x, y, z), x, y, z, mat, West);
    var f4 := FaceIf(ExposedEast(nb, x, y, z), x, y, z, mat, East);
    var f5 := FaceIf(ExposedSouth(nb, x, y, z), x, y, z, mat, South);
    var f6 := FaceIf(ExposedNorth(nb, x, y, z), x, y, z, mat, North);
    assert VoxelFaces(nb, x, y, z) == f1 + f2 + f3 + f4 + f5 + f6;
    AddFacesSix(m, f1, f2, f3, f4, f5, f6);
    var m1 := AddFaces(m, f1);
    var m2 := AddFaces(m1, f2);
    var m3 := AddFaces(m2, f3);
    var m4 := AddFaces(m3, f4);
    var m5 := AddFaces(m4, f5);
    AddFaceIf(m, ExposedUp(nb, x, y, z), x, y, z, mat, Up);
    AddFaceIf(m1, ExposedDown(nb, x, y, z), x, y, z, mat, Down);
    AddFaceIf(m2, ExposedWest(nb, x, y, z), x, y, z, mat, West);
    AddFaceIf(m3, ExposedEast(nb, x, y, z), x, y, z, mat, East);
    AddFaceIf(m4, ExposedSouth(nb, x, y, z), x, y, z, mat, South);
    AddFaceIf(m5, ExposedNorth(nb, x, y, z), x, y, z, mat, North);
  }

  /**
   * The four neighbour tests of the innermost loop: whether the cube across a chunk
   * border, in a loaded neighbouring chunk, is solid.
   */
  method NeighbourOpacity(w: World, chunk: Chunk, x: int, y: int, z: int, ghost nb: Neighbourhood)
    returns (isOpaqueNegativeX: bool, isOpaquePositiveX: bool, isOpaqueNegativeZ: bool, isOpaquePositiveZ: bool)
    requires w.Valid() && chunk in w.chunks && InChunk(x, y, z)
    requires nb == NeighbourhoodOf(w, chunk)
    ensures isOpaqueNegativeX == (x == 0 && !ExposedWest(nb, x, y, z))
    ensures isOpaquePositiveX == (x == CHUNK_WIDTH - 1 && !ExposedEast(nb, x, y, z))
    ensures isOpaqueNegativeZ == (z == 0 && !ExposedSouth(nb, x, y, z))
    ensures isOpaquePositiveZ == (z == CHUNK_WIDTH - 1 && !ExposedNorth(nb, x, y, z))
  {
    var chunkX := chunk.startX;
    var chunkZ := chunk.startZ;
    isOpaqueNegativeX, isOpaquePositiveX, isOpaqueNegativeZ, isOpaquePositiveZ := false, false, false, false;
    if x == 0 && chunkX > -w.worldSize {
      var behindData := ChunkAt(w, chunkX - 1, chunkZ).cubeData;
      if !IsTransparent(behindData, CHUNK_WIDTH - 1, y, z) {
        isOpaqueNegativeX := true;
      }
    }
    if x == CHUNK_WIDTH - 1 && chunkX + 1 < w.worldSize {
      var behindData := ChunkAt(w, chunkX + 1, chunkZ).cubeData;
      if !IsTransparent(behindData, 0, y, z) {
        isOpaquePositiveX := true;
      }
    }
    if z == 0 && chunkZ > -w.worldSize {
      var behindData := ChunkAt(w, chunkX, chunkZ - 1).cubeData;
      if !IsTransparent(behindData, x, y, CHUNK_WIDTH - 1) {
        isOpaqueNegativeZ := true;
      }
    }
    if z == CHUNK_WIDTH - 1 && chunkZ + 1 < w.worldSize {
      var behindData := ChunkAt(w, chunkX, chunkZ + 1).cubeData;
      if !IsTransparent(behindData, x, y, 0) {
        isOpaquePositiveZ := true;
      }
    }
  }

  /**
   * The six exposure tests of the innermost loop for voxel (x, y, z), given the four
   * neighbour tests. Each agrees with Exposed on the snapshot of the arrays read.
   */
  method ExposureTests(cubeData: array<Cube>, x: int, y: int, z: int,
                       isOpaqueNegativeX: bool, isOpaquePositiveX: bool,
                       isOpaqueNegativeZ: bool, isOpaquePositiveZ: bool, ghost nb: Neighbourhood)
    returns (up: bool, down: bool, west: bool, east: bool, south: bool, north: bool)
    requires cubeData.Length == CHUNK_SIZE && InChunk(x, y, z)
    requires nb.WellShaped() && nb.own == cubeData[..]
    requires isOpaqueNegativeX == (x == 0 && !ExposedWest(nb, x, y, z))
    requires isOpaquePositiveX == (x == CHUNK_WIDTH - 1 && !ExposedEast(nb, x, y, z))
    requires isOpaqueNegativeZ == (z == 0 && !ExposedSouth(nb, x, y, z))
    requires isOpaquePositiveZ == (z == CHUNK_WIDTH - 1 && !ExposedNorth(nb, x, y, z))
    ensures up == ExposedUp(nb, x, y, z) && down == ExposedDown(nb, x, y, z)
    ensures west == ExposedWest(nb, x, y, z) && east == ExposedEast(nb, x, y, z)
    ensures south == ExposedSouth(nb, x, y, z) && north == ExposedNorth(nb, x, y, z)
  {
    up := y >= MAX_CHUNK_HEIGHT - 1 || IsTransparent(cubeData, x, y + 1, z);
    down := y == 0 || IsTransparent(cubeData, x, y - 1, z);
    west := (!isOpaqueNegativeX && x == 0) || (x > 0 && IsTransparent(cubeData, x - 1, y, z));
    east := (!isOpaquePositiveX && x >= CHUNK_WIDTH - 1) || (x < CHUNK_WIDTH - 1 && IsTransparent(cubeData, x + 1, y, z));
    south := (!isOpaqueNegativeZ && z == 0) || (z > 0 && IsTransparent(cubeData, x, y, z - 1));
    north := (!isOpaquePositiveZ && z >= CHUNK_WIDTH - 1) || (z < CHUNK_WIDTH - 1 && IsTransparent(cubeData, x, y, z + 1));
  }

  /** One `if (test) buildFace(...)` statement of the innermost loop. */
  method BuildFaceWhen(chunk: Chunk, index: int, test: bool, side: Side, material: Material, x: int, y: int, z: int)
    requires |chunk.renderChunks| == CHUNK_SPLITS && 0 <= index < CHUNK_SPLITS
    modifies chunk.renderChunks[index]
    ensures chunk.renderChunks[index].State()
         == AddFaceWhen(old(chunk.renderChunks[index].State()), test, Face(x, y, z, side, material))
  {
    if test {
      BuildFace(chunk, index, side, material, x, y, z);
    }
  }

  /**
   * The face emission of the innermost loop for a solid voxel: Up, Down, West, East,
   * South, North, each when its test holds, grass drawn as dirt below and with the
   * grass-side texture around.
   */
  method EmitVoxelFaces(chunk: Chunk, renderChunkId: int, x: int, y: int, z: int, material: Material,
                        up: bool, down: bool, west: bool, east: bool, south: bool, north: bool)
    requires |chunk.renderChunks| == CHUNK_SPLITS && 0 <= renderChunkId < CHUNK_SPLITS
    modifies chunk.renderChunks[renderChunkId]
    ensures chunk.renderChunks[renderChunkId].State()
         == AddFaceWhen(AddFaceWhen(AddFaceWhen(AddFaceWhen(AddFaceWhen(AddFaceWhen(
              old(chunk.renderChunks[renderChunkId].State()),
              up, Face(x, y, z, Up, FaceMaterial(material, Up))),
              down, Face(x, y, z, Down, FaceMaterial(material, Down))),
              west, Face(x, y, z, West, FaceMaterial(material, West))),
              east, Face(x, y, z, East, FaceMaterial(material, East))),
              south, Face(x, y, z, South, FaceMaterial(material, South))),
              north, Face(x, y, z, North, FaceMaterial(material, North)))
  {
    BuildFaceWhen(chunk, renderChunkId, up, Up, material, x, y, z);
    BuildFaceWhen(chunk, renderChunkId, down, Down, if material == MaterialGrass then MaterialDirt else material, x, y, z);
    var sideMaterial := if material == MaterialGrass then MaterialGrassSide else material;
    BuildFaceWhen(chunk, renderChunkId, west, West, sideMaterial, x, y, z);
    BuildFaceWhen(chunk, renderChunkId, east, East, sideMaterial, x, y, z);
    BuildFaceWhen(chunk, renderChunkId, south, South, sideMaterial, x, y, z);
    BuildFaceWhen(chunk, renderChunkId, north, North, sideMaterial, x, y, z);
  }

  /** An air voxel leaves the buffers as they were. */
  lemma AirVoxelAddsNothing(m: Mesh, nb: Neighbourhood, x: int, y: int, z: int)
    requires nb.WellShaped() && InChunk(x, y, z) && AirIn(nb.own, x, y, z)
    ensures AddFaces(m, VoxelFaces(nb, x, y, z)) == m
  {
    assert VoxelFaces(nb, x, y, z) == [];
  }

  /** The body of the builder's innermost loop past its air test: the faces of a solid voxel. */
  method BuildSolidCubeFaces(w: World, chunk: Chunk, renderChunkId: int, x: int, y: int, z: int, ghost nb: Neighbourhood)
    requires w.Valid() && chunk in w.chunks && 0 <= renderChunkId < CHUNK_SPLITS && InChunk(x, y, z)
    requires nb == NeighbourhoodOf(w, chunk) && MaterialAt(nb, x, y, z) != MaterialAir
    modifies chunk.renderChunks[renderChunkId]
    ensures NeighbourhoodOf(w, chunk) == nb
    ensures chunk.renderChunks[renderChunkId].State()
         == AddFaces(old(chunk.renderChunks[renderChunkId].State()), VoxelFaces(nb, x, y, z))
  {
    var isOpaqueNegativeX, isOpaquePositiveX, isOpaqueNegativeZ, isOpaquePositiveZ := NeighbourOpacity(w, chunk, x, y, z, nb);
    var up, down, west, east, south, north := ExposureTests(chunk.cubeData, x, y, z, isOpaqueNegativeX,
                                                            isOpaquePositiveX, isOpaqueNegativeZ, isOpaquePositiveZ, nb);
    var material := chunk.cubeData[CubeAtLocalChunkPos(x, y, z)].material;
    assert material == MaterialAt(nb, x, y, z) by {
      assert chunk.cubeData[..][FlattenWorldArrayIndex(x, y, z)] == chunk.cubeData[CubeAtLocalChunkPos(x, y, z)];
    }
    AddVoxelFaces(chunk.renderChunks[renderChunkId].State(), nb, x, y, z);
    EmitVoxelFaces(chunk, renderChunkId, x, y, z, material, up, down, west, east, south, north);
  }

  /** `voxel` gives the faces of every voxel of the neighbourhood's own chunk. */
  ghost predicate VoxelsOf(voxel: (int, int, int) -> seq<Face>, nb: Neighbourhood)
    requires nb.WellShaped()
  {
    forall x, y, z {:trigger VoxelFaces(nb, x, y, z)} :: InChunk(x, y, z) ==> voxel(x, y, z) == VoxelFaces(nb, x, y, z)
  }

  /** The body of the builder's innermost loop: the faces of voxel (x, 16 * id + j, z). */
  method BuildCubeFaces(w: World, chunk: Chunk, renderChunkId: int, x: int, z: int, j: int,
                        ghost nb: Neighbourhood, ghost voxel: (int, int, int) -> seq<Face>)
    requires w.Valid() && chunk in w.chunks && 0 <= renderChunkId < CHUNK_SPLITS
    requires 0 <= x < CHUNK_WIDTH && 0 <= z < CHUNK_WIDTH && 0 <= j < RENDER_CHUNK_HEIGHT
    requires nb == NeighbourhoodOf(w, chunk) && VoxelsOf(voxel, nb)
    modifies chunk.renderChunks[renderChunkId]
    ensures NeighbourhoodOf(w, chunk) == nb
    ensures chunk.renderChunks[renderChunkId].State()
         == AddFaces(old(chunk.renderChunks[renderChunkId].State()), voxel(x, 16 * renderChunkId + j, z))
  {
    var y := 16 * renderChunkId + j;
    SplitLayerInChunk(renderChunkId, j);
    if IsTransparent(chunk.cubeData, x, y, z) {
      AirVoxelAddsNothing(chunk.renderChunks[renderChunkId].State(), nb, x, y, z);
      return;
    }
    BuildSolidCubeFaces(w, chunk, renderChunkId, x, y, z, nb);
  }

  /** Emitting the faces of voxel (x, y, z) takes the loops to the next voxel of the column. */
  lemma ColumnStep(m: Mesh, voxel: (int, int, int) -> seq<Face>, id: int, x: int, z: int, y: int)
    requires 0 <= x < CHUNK_WIDTH && 0 <= z < CHUNK_WIDTH && 16 * id <= y < 16 * id + 16
    ensures AddFaces(AddFaces(m, LoopFaces(voxel, id, x, z, y)), voxel(x, y, z))
         == AddFaces(m, LoopFaces(voxel, id, x, z, y + 1))
  {
    AddFacesAppend(m, LoopFaces(voxel, id, x, z, y), voxel(x, y, z));
  }

  /** A finished column takes the loops to the foot of the next column of the row. */
  lemma RowStep(voxel: (int, int, int) -> seq<Face>, id: int, x: int, z: int)
    requires 0 <= x < CHUNK_WIDTH && 0 <= z < CHUNK_WIDTH
    ensures LoopFaces(voxel, id, x, z + 1, 16 * id) == LoopFaces(voxel, id, x, z, 16 * id + 16)
  {
  }

  /** A finished row takes the loops to the start of the next row. */
  lemma SplitStep(voxel: (int, int, int) -> seq<Face>, id: int, x: int)
    requires 0 <= x < CHUNK_WIDTH
    ensures LoopFaces(voxel, id, x + 1, 0, 16 * id) == LoopFaces(voxel, id, x, CHUNK_WIDTH, 16 * id)
  {
  }

  /** One pass of the innermost loop: emit voxel (x, y, z), y = 16 * id + j, and move up the column. */
  method BuildNextCube(w: World, chunk: Chunk, renderChunkId: int, x: int, z: int, j: int,
                       ghost y: int, ghost m: Mesh, ghost nb: Neighbourhood, ghost voxel: (int, int, int) -> seq<Face>)
    requires w.Valid() && chunk in w.chunks && 0 <= renderChunkId < CHUNK_SPLITS
    requires 0 <= x < CHUNK_WIDTH && 0 <= z < CHUNK_WIDTH && 0 <= j < RENDER_CHUNK_HEIGHT && y == 16 * renderChunkId + j
    requires nb == NeighbourhoodOf(w, chunk) && VoxelsOf(voxel, nb)
    requires chunk.renderChunks[renderChunkId].State() == AddFaces(m, LoopFaces(voxel, renderChunkId, x, z, y))
    modifies chunk.renderChunks[renderChunkId]
    ensures NeighbourhoodOf(w, chunk) == nb
    ensures chunk.renderChunks[renderChunkId].State() == AddFaces(m, LoopFaces(voxel, renderChunkId, x, z, y + 1))
  {
    BuildCubeFaces(w, chunk, renderChunkId, x, z, j, nb, voxel);
    ColumnStep(m, voxel, renderChunkId, x, z, y);
  }

  /** The innermost loop of generateGeometryForRenderChunk: column (x, z) of the split, bottom to top. */
  method BuildColumn(w: World, chunk: Chunk, renderChunkId: int, x: int, z: int,
                     ghost m: Mesh, ghost nb: Neighbourhood, ghost voxel: (int, int, int) -> seq<Face>)
    requires w.Valid() && chunk in w.chunks && 0 <= renderChunkId < CHUNK_SPLITS
    requires 0 <= x < CHUNK_WIDTH && 0 <= z < CHUNK_WIDTH
    requires nb == NeighbourhoodOf(w, chunk) && VoxelsOf(voxel, nb)
    requires chunk.renderChunks[renderChunkId].State()
          == AddFaces(m, LoopFaces(voxel, renderChunkId, x, z, 16 * renderChunkId))
    modifies chunk.renderChunks[renderChunkId]
    ensures NeighbourhoodOf(w, chunk) == nb
    ensures chunk.renderChunks[renderChunkId].State()
         == AddFaces(m, LoopFaces(voxel, renderChunkId, x, z, 16 * renderChunkId + 16))
  {
    var j := 0;
    ghost var y := 16 * renderChunkId;
    while j < RENDER_CHUNK_HEIGHT
      invariant 0 <= j <= RENDER_CHUNK_HEIGHT && y == 16 * renderChunkId + j
      invariant NeighbourhoodOf(w, chunk) == nb
      invariant chunk.renderChunks[renderChunkId].State() == AddFaces(m, LoopFaces(voxel, renderChunkId, x, z, y))
    {
      BuildNextCube(w, chunk, renderChunkId, x, z, j, y, m, nb, voxel);
      j, y := j + 1, y + 1;
    }
  }

  /** The middle loop of generateGeometryForRenderChunk: the columns of row x, in z order. */
  method BuildRow(w: World, chunk: Chunk, renderChunkId: int, x: int,
                  ghost m: Mesh, ghost nb: Neighbourhood, ghost voxel: (int, int, int) -> seq<Face>)
    requires w.Valid() && chunk in w.chunks && 0 <= renderChunkId < CHUNK_SPLITS && 0 <= x < CHUNK_WIDTH
    requires nb == NeighbourhoodOf(w, chunk) && VoxelsOf(voxel, nb)
    requires chunk.renderChunks[renderChunkId].State()
          == AddFaces(m, LoopFaces(voxel, renderChunkId, x, 0, 16 * renderChunkId))
    modifies chunk.renderChunks[renderChunkId]
    ensures NeighbourhoodOf(w, chunk) == nb
    ensures chunk.renderChunks[renderChunkId].State()
         == AddFaces(m, LoopFaces(voxel, renderChunkId, x, CHUNK_WIDTH, 16 * renderChunkId))
  {
    var z := 0;
    while z < CHUNK_WIDTH
      invariant 0 <= z <= CHUNK_WIDTH
      invariant NeighbourhoodOf(w, chunk) == nb
      invariant chunk.renderChunks[renderChunkId].State()
             == AddFaces(m, LoopFaces(voxel, renderChunkId, x, z, 16 * renderChunkId))
    {
      BuildColumn(w, chunk, renderChunkId, x, z, m, nb, voxel);
      RowStep(voxel, renderChunkId, x, z);
      z := z + 1;
    }
  }

  /**
   * generateGeometryForRenderChunk: append the faces of every voxel of split
   * renderChunkId to its RenderChunk, looping over x, then z, then y.
   */
  method GenerateGeometryForRenderChunk(w: World, chunk: Chunk, renderChunkId: int)
    requires w.Valid() && chunk in w.chunks && 0 <= renderChunkId < CHUNK_SPLITS
    modifies chunk.renderChunks[renderChunkId]
    ensures chunk.renderChunks[renderChunkId].State()
         == AddFaces(old(chunk.renderChunks[renderChunkId].State()), SplitFaces(NeighbourhoodOf(w, chunk), renderChunkId))
  {
    ghost var nb := NeighbourhoodOf(w, chunk);
    ghost var voxel := ChunkVoxels(nb);
    ghost var m := chunk.renderChunks[renderChunkId].State();
    var x := 0;
    while x < CHUNK_WIDTH
      invariant 0 <= x <= CHUNK_WIDTH
      invariant NeighbourhoodOf(w, chunk) == nb
      invariant chunk.renderChunks[renderChunkId].State()
             == AddFaces(m, LoopFaces(voxel, renderChunkId, x, 0, 16 * renderChunkId))
    {
      BuildRow(w, chunk, renderChunkId, x, m, nb, voxel);
      SplitStep(voxel, renderChunkId, x);
      x := x + 1;
    }
  }

  /** The zeroing half of freeRenderChunkGL: memset of the RenderChunk. */
  method ClearRenderChunk(r: RenderChunk)
    modifies r
    ensures r.State() == EmptyMesh
  {
    r.vertexData, r.indices := [], [];
    r.currentIndex, r.indiceCount, r.vertexCount := 0, 0, 0;
  }

  /**
   * freeGenerateUpdate without its GL calls: zero the split's RenderChunk, then rebuild
   * it. Afterwards it holds exactly the split's faces, as whole quads.
   */
  method FreeGenerateUpdate(w: World, c: Chunk, renderChunkId: int)
    requires w.Valid() && c in w.chunks && 0 <= renderChunkId < CHUNK_SPLITS
    modifies c.renderChunks[renderChunkId]
    ensures c.renderChunks[renderChunkId].State() == MeshOf(SplitFaces(NeighbourhoodOf(w, c), renderChunkId))
    ensures WellFormed(c.renderChunks[renderChunkId].State())
  {
    ClearRenderChunk(c.renderChunks[renderChunkId]);
    GenerateGeometryForRenderChunk(w, c, renderChunkId);
    MeshOfWellFormed(SplitFaces(NeighbourhoodOf(w, c), renderChunkId));
  }

  // ---------------------------------------------------------------------------
  // Regeneration against a snapshot of the cube arrays
  // ---------------------------------------------------------------------------

  /** Every chunk's cube array, as values. */
  type Cubes = map<Chunk, seq<Cube>>

  /** cubes holds what the world's cube arrays hold. */
  ghost predicate CubesMirror(w: World, cubes: Cubes)
    requires w.Valid()
    reads w.CubeArrays()
  {
    forall c :: c in w.chunks ==> c in cubes && c.cubeData[..] == cubes[c]
  }

  /** The world's cube arrays as values. */
  ghost function CubesOfWorld(w: World): (cubes: Cubes)
    requires w.Valid()
    reads w.CubeArrays()
    ensures CubesMirror(w, cubes)
  {
    map c | c in w.chunks :: c.cubeData[..]
  }

  /** Chunk d's cubes in the snapshot; all air where the snapshot lacks a full array for d. */
  function CubesIn(cubes: Cubes, d: Chunk): (r: seq<Cube>)
    ensures |r| == CHUNK_SIZE
  {
    if d in cubes && |cubes[d]| == CHUNK_SIZE then cubes[d] else seq(CHUNK_SIZE, _ => ZeroCube)
  }

  /** NeighbourhoodOf, read from the snapshot instead of the cube arrays. */
  function NeighbourhoodIn(w: World, cubes: Cubes, c: Chunk): (nb: Neighbourhood)
    requires w.Valid() && c in w.chunks
    ensures nb.WellShaped()
  {
    var ws := w.worldSize;
    Neighbourhood(
      CubesIn(cubes, c),
      if c.startX > -ws then Some(CubesIn(cubes, ChunkAt(w, c.startX - 1, c.startZ))) else None,
      if c.startX + 1 < ws then Some(CubesIn(cubes, ChunkAt(w, c.startX + 1, c.startZ))) else None,
      if c.startZ > -ws then Some(CubesIn(cubes, ChunkAt(w, c.startX, c.startZ - 1))) else None,
      if c.startZ + 1 < ws then Some(CubesIn(cubes, ChunkAt(w, c.startX, c.startZ + 1))) else None)
  }

  /** A snapshot of the cube arrays gives the neighbourhood the arrays give. */
  lemma NeighbourhoodInMirror(w: World, cubes: Cubes, c: Chunk)
    requires w.Valid() && c in w.chunks && CubesMirror(w, cubes)
    ensures NeighbourhoodIn(w, cubes, c) == NeighbourhoodOf(w, c)
  {
  }

  /** The split's RenderChunk holds exactly the mesh of the split's faces, the cubes being `cubes`. */
  predicate RegeneratedSplit(w: World, cubes: Cubes, r: SplitRef)
    requires w.Valid() && r.chunk in w.chunks && 0 <= r.index < CHUNK_SPLITS
    reads r.chunk.renderChunks[r.index]
  {
    r.chunk.renderChunks[r.index].State() == MeshOf(SplitFaces(NeighbourhoodIn(w, cubes, r.chunk), r.index))
  }

  /** Two different splits of the world have two different RenderChunks. */
  lemma SplitRenderChunksDistinct(w: World, r: SplitRef, r': SplitRef)
    requires w.Valid() && w.Separate() && r.chunk in w.chunks && r'.chunk in w.chunks
    requires 0 <= r.index < CHUNK_SPLITS && 0 <= r'.index < CHUNK_SPLITS && r != r'
    ensures r.chunk.renderChunks[r.index] != r'.chunk.renderChunks[r'.index]
  {
  }

  /**
   * freeGenerateUpdate with its result stated on a snapshot of the cube arrays, which it
   * leaves as they were.
   */
  method Regenerate(w: World, c: Chunk, index: int, ghost cubes: Cubes)
    requires w.Valid() && c in w.chunks && 0 <= index < CHUNK_SPLITS && CubesMirror(w, cubes)
    modifies c.renderChunks[index]
    ensures CubesMirror(w, cubes) && RegeneratedSplit(w, cubes, SplitRef(c, index))
  {
    FreeGenerateUpdate(w, c, index);
    NeighbourhoodInMirror(w, cubes, c);
  }
}
