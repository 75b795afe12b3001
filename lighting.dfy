/**
 * Block light (src/world/lighting.c): the FIFO light queue, the per-split light maps and
 * the flood fill chunk_setBlockLight, which spreads a new light level through the
 * world and then regenerates every split it touched.
 *
 * The queue's linked nodes are the sequence `nodes` of a LightQueue object; a light map
 * is an array of SPLIT_SIZE cells addressed by flattenRenderChunkArrayIndex. Chunks are
 * addressed by chunk coordinates, so where lighting.c adds CHUNK_WIDTH to startX as if it
 * were a world coordinate, the model converts it first (see NeighbourChunk).
 */
module Lighting {
  import opened Coords
  import opened WorldTypes
  import opened Util
  import opened Meshing

  // ---------------------------------------------------------------------------
  // The light queue
  // ---------------------------------------------------------------------------

  /** The length the queue's self-test fills it to. */
  const LIGHTQUEUE_INITIAL_LENGTH: int := 16

  /** A queued voxel: its local x and z, its height y, its chunk and the split holding y. */
  datatype Node = Node(x: int, y: int, z: int, c: Chunk, renderChunkId: int)

  /** The FIFO that drives the flood fill: `nodes` runs from the front to the back. */
  class LightQueue {
    var nodes: seq<Node>
    var count: int

    ghost predicate Valid()
      reads this
    {
      count == |nodes|
    }

    /** lightqueue_init: an empty queue. */
    constructor ()
      ensures Valid() && nodes == []
    {
      nodes := [];
      count := 0;
    }

    /** lightqueue_push: the new node joins the back. */
    method Push(x: int, y: int, z: int, c: Chunk, renderChunkId: int)
      requires Valid()
      modifies this
      ensures Valid() && nodes == old(nodes) + [Node(x, y, z, c, renderChunkId)]
    {
      nodes := nodes + [Node(x, y, z, c, renderChunkId)];
      count := count + 1;
    }

    /** lightqueue_front: the earliest pushed node still queued. */
    method Front() returns (n: Node)
      requires Valid() && count > 0
      ensures n == nodes[0]
    {
      n := nodes[0];
    }

    /** lightqueue_pop: the front node leaves. */
    method Pop()
      requires Valid() && count > 0
      modifies this
      ensures Valid() && nodes == old(nodes[1..])
    {
      nodes := nodes[1..];
      count := count - 1;
    }

    /** lightqueue_cleanup: pop until empty, then zero the queue. */
    method Cleanup()
      requires Valid()
      modifies this
      ensures Valid() && nodes == []
    {
      while count > 0
        invariant Valid()
        decreases count
      {
        Pop();
      }
    }
  }

  /**
   * The queue's self-test (LIGHTQUEUE_TEST_FN): push sixteen nodes, pop one, push one more,
   * pop fifteen. The fronts it checks are the x values 0, 1 and 69. The C test casts
   * integers to chunk pointers; here every node carries the chunk c.
   */
  method LightQueueSelfTest(c: Chunk) returns (first: int, next: int, another: int)
    ensures first == 0 && next == 1 && another == 69
  {
    var q := new LightQueue();
    var i := 0;
    while i < LIGHTQUEUE_INITIAL_LENGTH
      invariant 0 <= i <= LIGHTQUEUE_INITIAL_LENGTH && q.Valid() && |q.nodes| == i
      invariant forall k :: 0 <= k < i ==> q.nodes[k].x == k
    {
      q.Push(i, i, i, c, 9);
      i := i + 1;
    }
    var n := q.Front();
    first := n.x;
    q.Pop();
    q.Push(69, 69, 69, c, 69);
    n := q.Front();
    next := n.x;
    i := 1;
    while i < LIGHTQUEUE_INITIAL_LENGTH
      invariant 1 <= i <= LIGHTQUEUE_INITIAL_LENGTH && q.Valid()
      invariant |q.nodes| == LIGHTQUEUE_INITIAL_LENGTH - i + 1
      invariant forall k :: 0 <= k < LIGHTQUEUE_INITIAL_LENGTH - i ==> q.nodes[k].x == k + i
      invariant q.nodes[LIGHTQUEUE_INITIAL_LENGTH - i].x == 69
    {
      q.Pop();
      i := i + 1;
    }
    n := q.Front();
    another := n.x;
    q.Cleanup();
  }

  // ---------------------------------------------------------------------------
  // Light maps
  // ---------------------------------------------------------------------------

  /** lightmap_getBlockLight: the block channel of the cell that (x, y, z) flattens to. */
  function BlockLight(m: array<LightCell>, x: int, y: int, z: int): LightLevel
    requires m.Length == SPLIT_SIZE && 0 <= x < CHUNK_WIDTH && 0 <= z < CHUNK_WIDTH && y >= 0
    reads m
  {
    m[FlattenRenderChunkArrayIndex(x, y, z)].block
  }

  /** lightmap_getGlobalLight: the global (sun) channel of the cell that (x, y, z) flattens to. */
  function GlobalLight(m: array<LightCell>, x: int, y: int, z: int): LightLevel
    requires m.Length == SPLIT_SIZE && 0 <= x < CHUNK_WIDTH && 0 <= z < CHUNK_WIDTH && y >= 0
    reads m
  {
    m[FlattenRenderChunkArrayIndex(x, y, z)].global
  }

  /**
   * lightmap_setBlockLight: the cell's block channel becomes `value`; its global channel
   * and every other cell keep their contents. Writing the level a cell already has
   * leaves the map as it was.
   */
  method SetBlockLight(m: array<LightCell>, x: int, y: int, z: int, value: int)
    requires m.Length == SPLIT_SIZE && 0 <= x < CHUNK_WIDTH && 0 <= z < CHUNK_WIDTH && y >= 0
    requires 0 <= value <= MAX_LIGHT_LEVEL
    modifies m
    ensures BlockLight(m, x, y, z) == value
    ensures GlobalLight(m, x, y, z) == old(GlobalLight(m, x, y, z))
    ensures forall k :: 0 <= k < SPLIT_SIZE && k != FlattenRenderChunkArrayIndex(x, y, z) ==> m[k] == old(m[k])
    ensures old(BlockLight(m, x, y, z)) == value ==> unchanged(m)
  {
    var index := FlattenRenderChunkArrayIndex(x, y, z);
    m[index] := m[index].(block := value);
  }

  /** lightmap_setGlobalLight: the cell's global channel becomes `value`; nothing else changes. */
  method SetGlobalLight(m: array<LightCell>, x: int, y: int, z: int, value: int)
    requires m.Length == SPLIT_SIZE && 0 <= x < CHUNK_WIDTH && 0 <= z < CHUNK_WIDTH && y >= 0
    requires 0 <= value <= MAX_LIGHT_LEVEL
    modifies m
    ensures GlobalLight(m, x, y, z) == value
    ensures BlockLight(m, x, y, z) == old(BlockLight(m, x, y, z))
    ensures forall k :: 0 <= k < SPLIT_SIZE && k != FlattenRenderChunkArrayIndex(x, y, z) ==> m[k] == old(m[k])
  {
    var index := FlattenRenderChunkArrayIndex(x, y, z);
    m[index] := m[index].(global := value);
  }

  /** The local height y % 16 and the global height y address the same light cell. */
  lemma LocalHeightSameCell(x: int, y: int, z: int)
    requires y >= 0
    ensures FlattenRenderChunkArrayIndex(x, CRem(y, 16), z) == FlattenRenderChunkArrayIndex(x, y, z)
  {
    CDivOfNatural(y, 16);
    RenderIndexIgnoresSplit(x, y, z);
  }

  /**
   * chunk_getBlockLight: the block level of the chunk's local voxel (x, y, z), read from
   * light map y / 16 at local height y % 16.
   */
  function ChunkGetBlockLight(chunk: Chunk, x: int, y: int, z: int): (l: LightLevel)
    requires chunk.Valid() && InChunk(x, y, z)
    reads chunk.lightMap
    ensures l == chunk.lightMap[SplitIndexOf(y)][FlattenRenderChunkArrayIndex(x, y, z)].block
  {
    LocalHeightSameCell(x, y, z);
    BlockLight(chunk.lightMap[CDiv(y, 16)], x, CRem(y, 16), z)
  }

  /**
   * Two voxels of a chunk never share a light cell once the split is chosen by y / 16,
   * although their cell indices alone coincide whenever x, z and y % 16 agree.
   */
  lemma LightCellsDistinct(x: int, y: int, z: int, x': int, y': int, z': int)
    requires InChunk(x, y, z) && InChunk(x', y', z')
    requires SplitIndexOf(y) == SplitIndexOf(y')
    requires FlattenRenderChunkArrayIndex(x, y, z) == FlattenRenderChunkArrayIndex(x', y', z')
    ensures x == x' && y == y' && z == z'
  {
    RenderIndexInjectiveInSplit(x, y, z, x', y', z');
  }

  // ---------------------------------------------------------------------------
  // The dirty list
  // ---------------------------------------------------------------------------

  /** No split occurs twice. */
  predicate NoDuplicates(list: seq<SplitRef>) {
    forall j, k :: 0 <= j < k < |list| ==> list[j] != list[k]
  }

  /**
   * The scan of chunk_setBlockLight's chunkList: append (chunk, split) unless an equal
   * entry is already there. The list stays free of duplicates.
   */
  method InsertUnique(list: seq<SplitRef>, key: SplitRef) returns (list': seq<SplitRef>)
    ensures key in list ==> list' == list
    ensures key !in list ==> list' == list + [key]
    ensures NoDuplicates(list) ==> NoDuplicates(list')
  {
    var found := false;
    var i := 0;
    while i < |list|
      invariant 0 <= i <= |list|
      invariant forall k :: 0 <= k < i ==> list[k] != key
    {
      if list[i].chunk == key.chunk && list[i].index == key.index {
        found := true;
        break;
      }
      i := i + 1;
    }
    if !found {
      list' := list + [key];
    } else {
      list' := list;
    }
  }

  // ---------------------------------------------------------------------------
  // Nodes and light cells of the world
  // ---------------------------------------------------------------------------

  /** A node names a voxel of a chunk of the world, and the split that holds its height. */
  predicate NodeIn(w: World, n: Node)
    requires w.Valid()
  {
    n.c in w.chunks && InChunk(n.x, n.y, n.z) && n.renderChunkId == SplitIndexOf(n.y)
  }

  /** The index of a node's cell in its split's light map. */
  function CellIndex(n: Node): int {
    FlattenRenderChunkArrayIndex(n.x, n.y, n.z)
  }

  /** The node of light cell i of split s of chunk c: the light-map flattening undone. */
  function CellNode(c: Chunk, s: int, i: int): Node {
    Node(i / 256, 16 * s + i % 16, (i / 16) % 16, c, s)
  }

  /** A node's cell leads back to the node. */
  lemma CellNodeOfNode(w: World, n: Node)
    requires w.Valid() && NodeIn(w, n)
    ensures CellNode(n.c, n.renderChunkId, CellIndex(n)) == n
  {
    var s := n.renderChunkId;
    var i := CellIndex(n);
    CDivOfNatural(n.y, 16);
    assert i == n.x * 256 + n.z * 16 + n.y % 16;
    assert i / 256 == n.x;
    assert i / 16 == n.x * 16 + n.z;
    assert i % 16 == n.y % 16;
  }

  /** The offset in the chunk's cube array of the voxel that owns light cell i of split s. */
  function CubeOffsetOfCell(s: int, i: int): (k: int)
    requires 0 <= s < CHUNK_SPLITS && 0 <= i < SPLIT_SIZE
    ensures 0 <= k < CHUNK_SIZE
  {
    FlattenWorldArrayIndex(i / 256, 16 * s + i % 16, (i / 16) % 16)
  }

  // ---------------------------------------------------------------------------
  // The light state as a value
  // ---------------------------------------------------------------------------

  /** Every chunk's light maps, split by split, as values. */
  type Lights = map<Chunk, seq<seq<LightCell>>>

  /** m has a light map of SPLIT_SIZE cells for every split of every chunk of the world. */
  ghost predicate Shaped(w: World, m: Lights) {
    forall c :: c in w.chunks ==>
      c in m && |m[c]| == CHUNK_SPLITS && (forall s :: 0 <= s < CHUNK_SPLITS ==> |m[c][s]| == SPLIT_SIZE)
  }

  /** m holds what the world's light maps hold. */
  ghost predicate Mirrors(w: World, m: Lights)
    requires w.Valid()
    reads w.LightArrays()
  {
    Shaped(w, m) && forall c, s :: c in w.chunks && 0 <= s < CHUNK_SPLITS ==> c.lightMap[s][..] == m[c][s]
  }

  /** Every light map of the world but split s0 of chunk c0 holds what m holds. */
  ghost predicate MirrorsBut(w: World, m: Lights, c0: Chunk, s0: int)
    requires w.Valid() && w.Separate() && c0 in w.chunks && 0 <= s0 < CHUNK_SPLITS
    reads w.LightArrays() - {c0.lightMap[s0]}
  {
    Shaped(w, m) &&
    forall c, s :: c in w.chunks && 0 <= s < CHUNK_SPLITS && !(c == c0 && s == s0) ==> c.lightMap[s][..] == m[c][s]
  }

  /** Mirrors is MirrorsBut for any one split, together with that split itself. */
  lemma MirrorsSplit(w: World, m: Lights, c0: Chunk, s0: int)
    requires w.Valid() && w.Separate() && c0 in w.chunks && 0 <= s0 < CHUNK_SPLITS
    ensures Mirrors(w, m) <==> MirrorsBut(w, m, c0, s0) && c0.lightMap[s0][..] == m[c0][s0]
  {
  }

  /** One chunk's light maps as values. */
  ghost function LightsOf(c: Chunk): (ls: seq<seq<LightCell>>)
    requires c.Valid()
    reads c.lightMap
    ensures |ls| == CHUNK_SPLITS
    ensures forall s :: 0 <= s < CHUNK_SPLITS ==> ls[s] == c.lightMap[s][..]
  {
    seq(CHUNK_SPLITS, s requires 0 <= s < CHUNK_SPLITS reads c.lightMap => c.lightMap[s][..])
  }

  /** The world's light maps as values. */
  ghost function LightsOfWorld(w: World): (m: Lights)
    requires w.Valid()
    reads w.LightArrays()
    ensures Mirrors(w, m)
  {
    map c | c in w.chunks :: LightsOf(c)
  }

  /** (c, s, i) is the cell of node n. */
  predicate IsStart(n: Node, c: Chunk, s: int, i: int) {
    c == n.c && s == n.renderChunkId && i == CellIndex(n)
  }

  /** The block level of a node's cell. */
  function Level(w: World, m: Lights, n: Node): LightLevel
    requires w.Valid() && Shaped(w, m) && NodeIn(w, n)
  {
    m[n.c][n.renderChunkId][CellIndex(n)].block
  }

  /** m with the block level of n's cell set to v; every other cell and channel as before. */
  function SetLevel(w: World, m: Lights, n: Node, v: LightLevel): (m': Lights)
    requires w.Valid() && Shaped(w, m) && NodeIn(w, n)
    ensures Shaped(w, m') && Level(w, m', n) == v
    ensures m'[n.c][n.renderChunkId][CellIndex(n)].global == m[n.c][n.renderChunkId][CellIndex(n)].global
    ensures forall c, s, i ::
              c in w.chunks && 0 <= s < CHUNK_SPLITS && 0 <= i < SPLIT_SIZE && !IsStart(n, c, s, i) ==>
              m'[c][s][i] == m[c][s][i]
  {
    var s, i := n.renderChunkId, CellIndex(n);
    m[n.c := m[n.c][s := m[n.c][s][i := m[n.c][s][i].(block := v)]]]
  }

  /** Setting the level a cell already has changes nothing. */
  lemma SetLevelSame(w: World, m: Lights, n: Node)
    requires w.Valid() && Shaped(w, m) && NodeIn(w, n)
    ensures SetLevel(w, m, n, Level(w, m, n)) == m
  {
    var s, i := n.renderChunkId, CellIndex(n);
    assert m[n.c][s][i].(block := Level(w, m, n)) == m[n.c][s][i];
    assert m[n.c][s][i := m[n.c][s][i]] == m[n.c][s];
    assert m[n.c][s := m[n.c][s]] == m[n.c];
  }

  /** After the one cell of n is written, m with that cell set mirrors the world again. */
  lemma MirrorsAfterSet(w: World, m: Lights, n: Node, v: LightLevel)
    requires w.Valid() && w.Separate() && NodeIn(w, n) && MirrorsBut(w, m, n.c, n.renderChunkId)
    requires var s, i := n.renderChunkId, CellIndex(n);
             n.c.lightMap[s][..] == m[n.c][s][i := m[n.c][s][i].(block := v)]
    ensures Mirrors(w, SetLevel(w, m, n, v))
  {
  }

  /** Every queued node lies in the world. */
  predicate QueueIn(w: World, q: seq<Node>)
    requires w.Valid()
  {
    forall k :: 0 <= k < |q| ==> NodeIn(w, q[k])
  }

  lemma QueueInConcat(w: World, a: seq<Node>, b: seq<Node>)
    requires w.Valid() && QueueIn(w, a) && QueueIn(w, b)
    ensures QueueIn(w, a + b)
  {
    forall k | 0 <= k < |a + b|
      ensures NodeIn(w, (a + b)[k])
    {
      if k >= |a| {
        assert (a + b)[k] == b[k - |a|];
      }
    }
  }

  /** Entry k of chunk c's cube array is air. */
  predicate IsAir(cubes: Cubes, c: Chunk, k: int) {
    c in cubes && 0 <= k < |cubes[c]| && cubes[c][k].material == MaterialAir
  }

  // ---------------------------------------------------------------------------
  // The flood fill on values
  // ---------------------------------------------------------------------------

  /** The light maps and the queue: what the flood fill changes. */
  datatype Fill = Fill(lights: Lights, queue: seq<Node>)

  /**
   * updateSurroundingBlock's test: the incoming level is above MIN_LIGHT_LEVEL, the voxel
   * is not air (the code tests !isTransparent), and the voxel's level plus
   * MIN_LIGHT_LEVEL does not exceed the incoming level.
   */
  predicate Gate(lightLevel: int, transparent: bool, current: int) {
    lightLevel > MIN_LIGHT_LEVEL && !transparent && current + MIN_LIGHT_LEVEL <= lightLevel
  }

  /**
   * One visit of updateSurroundingBlock, on values: when the gate passes, n's cell
   * becomes lightLevel - 1 and n joins the queue; otherwise nothing changes.
   */
  function Update(w: World, cubes: Cubes, f: Fill, n: Node, lightLevel: LightLevel): (r: Fill)
    requires w.Valid() && Shaped(w, f.lights) && NodeIn(w, n)
    ensures Shaped(w, r.lights)
  {
    if Gate(lightLevel, IsAir(cubes, n.c, FlattenWorldArrayIndex(n.x, n.y, n.z)), Level(w, f.lights, n)) then
      Fill(SetLevel(w, f.lights, n, lightLevel - 1), f.queue + [n])
    else
      f
  }

  /** A visit the gate passes lowers n's cell to lightLevel - 1 and queues n. */
  lemma UpdateRaises(w: World, cubes: Cubes, m: Lights, qs: seq<Node>, n: Node, lightLevel: LightLevel)
    requires w.Valid() && Shaped(w, m) && NodeIn(w, n)
    requires Gate(lightLevel, IsAir(cubes, n.c, FlattenWorldArrayIndex(n.x, n.y, n.z)), Level(w, m, n))
    ensures Update(w, cubes, Fill(m, qs), n, lightLevel) == Fill(SetLevel(w, m, n, lightLevel - 1), qs + [n])
  {
  }

  /** A visit the gate stops changes nothing. */
  lemma UpdateKeeps(w: World, cubes: Cubes, m: Lights, qs: seq<Node>, n: Node, lightLevel: LightLevel)
    requires w.Valid() && Shaped(w, m) && NodeIn(w, n)
    requires !Gate(lightLevel, IsAir(cubes, n.c, FlattenWorldArrayIndex(n.x, n.y, n.z)), Level(w, m, n))
    ensures Update(w, cubes, Fill(m, qs), n, lightLevel) == Fill(m, qs)
  {
  }

  /** The visits of every node of ns, in order. */
  function UpdateAll(w: World, cubes: Cubes, f: Fill, ns: seq<Node>, lightLevel: LightLevel): (r: Fill)
    requires w.Valid() && Shaped(w, f.lights) && QueueIn(w, ns)
    ensures Shaped(w, r.lights)
    decreases |ns|
  {
    if ns == [] then f else UpdateAll(w, cubes, Update(w, cubes, f, ns[0], lightLevel), ns[1..], lightLevel)
  }

  lemma {:induction false} UpdateAllConcat(w: World, cubes: Cubes, f: Fill, ns: seq<Node>, ns': seq<Node>, lightLevel: LightLevel)
    requires w.Valid() && Shaped(w, f.lights) && QueueIn(w, ns) && QueueIn(w, ns')
    ensures QueueIn(w, ns + ns')
    ensures UpdateAll(w, cubes, f, ns + ns', lightLevel) == UpdateAll(w, cubes, UpdateAll(w, cubes, f, ns, lightLevel), ns', lightLevel)
    decreases |ns|
  {
    if ns != [] {
      assert (ns + ns')[0] == ns[0];
      assert (ns + ns')[1..] == ns[1..] + ns';
      UpdateAllConcat(w, cubes, Update(w, cubes, f, ns[0], lightLevel), ns[1..], ns', lightLevel);
    } else {
      assert ns + ns' == ns';
    }
  }

  lemma UpdateAllSingle(w: World, cubes: Cubes, f: Fill, n: Node, lightLevel: LightLevel)
    requires w.Valid() && Shaped(w, f.lights) && NodeIn(w, n)
    ensures QueueIn(w, [n]) && UpdateAll(w, cubes, f, [n], lightLevel) == Update(w, cubes, f, n, lightLevel)
  {
    assert [n][1..] == [];
  }

  // ---------------------------------------------------------------------------
  // The neighbours of a node
  // ---------------------------------------------------------------------------

  /**
   * The chunk next to c along X (dx) or Z (dz), found through getChunkAtWorldSpacePosition
   * at its world-space origin; null where that leaves the loaded region.
   */
  function NeighbourChunk(w: World, c: Chunk, y: int, dx: int, dz: int): (d: Chunk?)
    requires w.Valid() && c in w.chunks
    ensures d == null <==> !InLoadedRegion(w.worldSize, c.startX + dx, c.startZ + dz)
    ensures d != null ==> d in w.chunks && d.startX == c.startX + dx && d.startZ == c.startZ + dz
  {
    ChunkCoordOfOrigin(c.startX + dx, 0);
    ChunkCoordOfOrigin(c.startZ + dz, 0);
    ChunkAtWorldSpacePosition(w, c.startX * 16 + dx * 16, y, c.startZ * 16 + dz * 16)
  }

  /**
   * The neighbour lookup as lighting.c writes it: startX and startZ are chunk coordinates,
   * but the code adds CHUNK_WIDTH to them and hands them to getChunkAtWorldSpacePosition
   * as world coordinates.
   */
  function NeighbourChunkAsWritten(w: World, c: Chunk, y: int, dx: int, dz: int): (d: Chunk?)
    requires w.Valid() && c in w.chunks
    ensures d == null <==> !InLoadedRegion(w.worldSize, ChunkCoordOf(c.startX + dx * 16), ChunkCoordOf(c.startZ + dz * 16))
  {
    ChunkAtWorldSpacePosition(w, c.startX + dx * 16, y, c.startZ + dz * 16)
  }

  /**
   * For the chunk at chunk coordinates (1, 0), the lookup as written finds the chunk itself
   * as its eastern neighbour, and chunk (-1, 0) as its western one; NeighbourChunk finds
   * (2, 0) (when loaded) and (0, 0).
   */
  lemma NeighbourChunkAsWrittenMisses(w: World, c: Chunk, y: int)
    requires w.Valid() && c in w.chunks && c.startX == 1 && c.startZ == 0
    ensures NeighbourChunkAsWritten(w, c, y, 1, 0) == c
    ensures NeighbourChunkAsWritten(w, c, y, -1, 0) != null && NeighbourChunkAsWritten(w, c, y, -1, 0).startX == -1
    ensures NeighbourChunk(w, c, y, -1, 0) != null && NeighbourChunk(w, c, y, -1, 0).startX == 0
    ensures NeighbourChunk(w, c, y, 1, 0) != c
  {
    ChunkCoordOfOrigin(1, 1);
    ChunkCoordOfOrigin(-1, 1);
    ChunkCoordOfOrigin(0, 0);
    ChunkAtOfMember(w, c);
    var d := NeighbourChunkAsWritten(w, c, y, 1, 0);
    assert d.startX == 1 && d.startZ == 0;
    ChunkSlotInjective(w.worldSize, d.startX, d.startZ, c.startX, c.startZ);
  }

  /** One of the four horizontal unit steps. */
  predicate HorizontalStep(dx: int, dz: int) {
    (dz == 0 && (dx == -1 || dx == 1)) || (dx == 0 && (dz == -1 || dz == 1))
  }

  /**
   * The voxel one horizontal step from n: in n's chunk while the step stays inside it,
   * otherwise on the facing border of the neighbouring chunk if that is loaded, and none
   * if it is not.
   */
  function Beside(w: World, n: Node, dx: int, dz: int): (ns: seq<Node>)
    requires w.Valid() && NodeIn(w, n) && HorizontalStep(dx, dz)
    ensures |ns| <= 1 && QueueIn(w, ns)
  {
    var x, z := n.x + dx, n.z + dz;
    if 0 <= x < CHUNK_WIDTH && 0 <= z < CHUNK_WIDTH then
      [Node(x, n.y, z, n.c, n.renderChunkId)]
    else
      var d := NeighbourChunk(w, n.c, n.y, dx, dz);
      if d == null then [] else [Node(x - 16 * dx, n.y, z - 16 * dz, d, n.renderChunkId)]
  }

  /** The voxel one step up (dy = 1) or down (dy = -1) from n, none outside the world's height. */
  function Vertical(w: World, n: Node, dy: int): (ns: seq<Node>)
    requires w.Valid() && NodeIn(w, n)
    ensures |ns| <= 1 && QueueIn(w, ns)
  {
    var y := n.y + dy;
    if 0 <= y < MAX_CHUNK_HEIGHT then [Node(n.x, y, n.z, n.c, SplitIndexOf(y))] else []
  }

  /** The voxels chunk_setBlockLight visits around n, in the code's order. */
  function Neighbours(w: World, n: Node): (ns: seq<Node>)
    requires w.Valid() && NodeIn(w, n)
    ensures |ns| <= 6 && QueueIn(w, ns)
  {
    var west, east, south, north := Beside(w, n, -1, 0), Beside(w, n, 1, 0), Beside(w, n, 0, -1), Beside(w, n, 0, 1);
    var below, above := Vertical(w, n, -1), Vertical(w, n, 1);
    QueueInConcat(w, west, east);
    QueueInConcat(w, west + east, south);
    QueueInConcat(w, west + east + south, north);
    QueueInConcat(w, west + east + south + north, below);
    QueueInConcat(w, west + east + south + north + below, above);
    west + east + south + north + below + above
  }

  // ---------------------------------------------------------------------------
  // The flood fill's invariant
  // ---------------------------------------------------------------------------

  /**
   * How a cell other than the start may have changed: its block level never dropped, and
   * if it rose then it stays below the start's level and its voxel is not air.
   */
  predicate Brightened(before: LightCell, after: LightCell, value: int, air: bool) {
    before.block <= after.block && (after.block != before.block ==> after.block < value && !air)
  }

  /** No cell's global (sun) channel differs from init. */
  ghost predicate GlobalKept(w: World, init: Lights, m: Lights)
    requires Shaped(w, init) && Shaped(w, m)
  {
    forall c, s, i :: c in w.chunks && 0 <= s < CHUNK_SPLITS && 0 <= i < SPLIT_SIZE ==>
      m[c][s][i].global == init[c][s][i].global
  }

  /** Every cell but the start is Brightened from init to m. */
  ghost predicate AllBrightened(w: World, cubes: Cubes, init: Lights, m: Lights, start: Node, value: int)
    requires w.Valid() && Shaped(w, init) && Shaped(w, m)
  {
    forall c, s, i :: c in w.chunks && 0 <= s < CHUNK_SPLITS && 0 <= i < SPLIT_SIZE && !IsStart(start, c, s, i) ==>
      Brightened(init[c][s][i], m[c][s][i], value, IsAir(cubes, c, CubeOffsetOfCell(s, i)))
  }

  /**
   * Every cell that changed, and the start cell, is either still queued or has its split
   * in the dirty list.
   */
  ghost predicate Tracked(w: World, init: Lights, m: Lights, start: Node, q: seq<Node>, list: seq<SplitRef>)
    requires Shaped(w, init) && Shaped(w, m)
  {
    forall c, s, i ::
      c in w.chunks && 0 <= s < CHUNK_SPLITS && 0 <= i < SPLIT_SIZE &&
      (m[c][s][i].block != init[c][s][i].block || IsStart(start, c, s, i)) ==>
      SplitRef(c, s) in list || CellNode(c, s, i) in q
  }

  /** No queued node's cell is above value. */
  ghost predicate LevelsAtMost(w: World, m: Lights, q: seq<Node>, value: int)
    requires w.Valid() && Shaped(w, m) && QueueIn(w, q)
  {
    forall k :: 0 <= k < |q| ==> Level(w, m, q[k]) <= value
  }

  /** Every entry of the dirty list names a split of a chunk of the world. */
  predicate ListIn(w: World, list: seq<SplitRef>) {
    forall r :: r in list ==> r.chunk in w.chunks && 0 <= r.index < CHUNK_SPLITS
  }

  /**
   * What holds between the steps of the flood fill from `start` at level `value`, with
   * init the light maps it began from, f the current light maps and queue, and list the
   * dirty list.
   */
  ghost predicate Inv(w: World, cubes: Cubes, init: Lights, f: Fill, start: Node, value: int, list: seq<SplitRef>)
    requires w.Valid()
  {
    && Shaped(w, init) && Shaped(w, f.lights) && NodeIn(w, start) && QueueIn(w, f.queue)
    && Level(w, f.lights, start) == value
    && LevelsAtMost(w, f.lights, f.queue, value)
    && ListIn(w, list) && NoDuplicates(list)
    && GlobalKept(w, init, f.lights)
    && AllBrightened(w, cubes, init, f.lights, start, value)
    && Tracked(w, init, f.lights, start, f.queue, list)
  }

  /** Writing `value` at the start cell and queueing it, and nothing else, sets the invariant up. */
  lemma InitialInv(w: World, cubes: Cubes, init: Lights, start: Node, value: LightLevel)
    requires w.Valid() && Shaped(w, init) && NodeIn(w, start)
    ensures Inv(w, cubes, init, Fill(SetLevel(w, init, start, value), [start]), start, value, [])
  {
    CellNodeOfNode(w, start);
  }

  /** A node's cell belongs to the node's own voxel of the cube array. */
  lemma CubeOffsetOfNode(w: World, n: Node)
    requires w.Valid() && NodeIn(w, n)
    ensures CubeOffsetOfCell(n.renderChunkId, CellIndex(n)) == FlattenWorldArrayIndex(n.x, n.y, n.z)
  {
    CellNodeOfNode(w, n);
  }

  /** A raise of a non-air cell other than the start, below value, keeps AllBrightened. */
  lemma RaiseKeepsBrightened(w: World, cubes: Cubes, init: Lights, m: Lights, start: Node, value: int, n: Node, v: LightLevel)
    requires w.Valid() && Shaped(w, init) && Shaped(w, m) && NodeIn(w, n) && NodeIn(w, start)
    requires AllBrightened(w, cubes, init, m, start, value) && Level(w, m, n) <= v < value
    requires !IsAir(cubes, n.c, FlattenWorldArrayIndex(n.x, n.y, n.z)) && !IsStart(start, n.c, n.renderChunkId, CellIndex(n))
    ensures AllBrightened(w, cubes, init, SetLevel(w, m, n, v), start, value)
  {
    var m': Lights := SetLevel(w, m, n, v);
    CubeOffsetOfNode(w, n);
    forall c: Chunk, s: int, i: int | c in w.chunks && 0 <= s < CHUNK_SPLITS && 0 <= i < SPLIT_SIZE && !IsStart(start, c, s, i)
      ensures Brightened(init[c][s][i], m'[c][s][i], value, IsAir(cubes, c, CubeOffsetOfCell(s, i)))
    {
      if IsStart(n, c, s, i) {
        assert Brightened(init[c][s][i], m[c][s][i], value, IsAir(cubes, c, CubeOffsetOfCell(s, i)));
        assert m'[c][s][i].block == v;
      } else {
        assert m'[c][s][i] == m[c][s][i];
      }
    }
  }

  /** A raised node that joins the queue keeps every changed cell tracked. */
  lemma RaiseKeepsTracked(w: World, init: Lights, m: Lights, start: Node, q: seq<Node>, list: seq<SplitRef>, n: Node, v: LightLevel)
    requires w.Valid() && Shaped(w, init) && Shaped(w, m) && NodeIn(w, n)
    requires Tracked(w, init, m, start, q, list)
    ensures Tracked(w, init, SetLevel(w, m, n, v), start, q + [n], list)
  {
    var m': Lights := SetLevel(w, m, n, v);
    CellNodeOfNode(w, n);
    forall c: Chunk, s: int, i: int | c in w.chunks && 0 <= s < CHUNK_SPLITS && 0 <= i < SPLIT_SIZE &&
        (m'[c][s][i].block != init[c][s][i].block || IsStart(start, c, s, i))
      ensures SplitRef(c, s) in list || CellNode(c, s, i) in q + [n]
    {
      if IsStart(n, c, s, i) {
        assert CellNode(c, s, i) == n;
      }
    }
  }

  /** Setting a block level leaves every global channel as it was. */
  lemma SetLevelKeepsGlobal(w: World, init: Lights, m: Lights, n: Node, v: LightLevel)
    requires w.Valid() && Shaped(w, init) && Shaped(w, m) && NodeIn(w, n) && GlobalKept(w, init, m)
    ensures GlobalKept(w, init, SetLevel(w, m, n, v))
  {
    var m': Lights := SetLevel(w, m, n, v);
    forall c: Chunk, s: int, i: int | c in w.chunks && 0 <= s < CHUNK_SPLITS && 0 <= i < SPLIT_SIZE
      ensures m'[c][s][i].global == init[c][s][i].global
    {
      if IsStart(n, c, s, i) {
        assert m'[c][s][i].global == m[c][s][i].global;
      }
    }
  }

  /** Queued levels stay at most value when a cell is raised to v <= value and queued. */
  lemma RaiseKeepsLevels(w: World, m: Lights, q: seq<Node>, n: Node, v: LightLevel, value: int)
    requires w.Valid() && Shaped(w, m) && QueueIn(w, q) && NodeIn(w, n) && v <= value
    requires LevelsAtMost(w, m, q, value)
    ensures QueueIn(w, q + [n]) && LevelsAtMost(w, SetLevel(w, m, n, v), q + [n], value)
  {
    var m': Lights := SetLevel(w, m, n, v);
    forall k | 0 <= k < |q + [n]|
      ensures Level(w, m', (q + [n])[k]) <= value
    {
      if k < |q| {
        assert (q + [n])[k] == q[k];
        if !IsStart(n, q[k].c, q[k].renderChunkId, CellIndex(q[k])) {
          assert Level(w, m', q[k]) == Level(w, m, q[k]);
        }
      }
    }
  }

  /** Raising a non-air cell below the start's level, and queueing it, keeps the invariant. */
  lemma RaiseKeepsInv(w: World, cubes: Cubes, init: Lights, f: Fill, start: Node, value: int, list: seq<SplitRef>, n: Node, v: LightLevel)
    requires w.Valid() && Inv(w, cubes, init, f, start, value, list) && NodeIn(w, n)
    requires !IsAir(cubes, n.c, FlattenWorldArrayIndex(n.x, n.y, n.z)) && Level(w, f.lights, n) <= v < value
    ensures Inv(w, cubes, init, Fill(SetLevel(w, f.lights, n, v), f.queue + [n]), start, value, list)
  {
    var m := f.lights;
    CellNodeOfNode(w, n);
    assert !IsStart(start, n.c, n.renderChunkId, CellIndex(n));
    RaiseKeepsBrightened(w, cubes, init, m, start, value, n, v);
    RaiseKeepsTracked(w, init, m, start, f.queue, list, n, v);
    RaiseKeepsLevels(w, m, f.queue, n, v, value);
    SetLevelKeepsGlobal(w, init, m, n, v);
    assert !IsStart(n, start.c, start.renderChunkId, CellIndex(start));
  }

  /** A visit at a level no higher than the start's keeps the invariant. */
  lemma UpdateKeepsInv(w: World, cubes: Cubes, init: Lights, f: Fill, start: Node, value: int, list: seq<SplitRef>, n: Node, lightLevel: LightLevel)
    requires w.Valid() && Inv(w, cubes, init, f, start, value, list) && NodeIn(w, n) && lightLevel <= value
    ensures Inv(w, cubes, init, Update(w, cubes, f, n, lightLevel), start, value, list)
  {
    if Gate(lightLevel, IsAir(cubes, n.c, FlattenWorldArrayIndex(n.x, n.y, n.z)), Level(w, f.lights, n)) {
      RaiseKeepsInv(w, cubes, init, f, start, value, list, n, lightLevel - 1);
    }
  }

  lemma {:induction false} UpdateAllKeepsInv(w: World, cubes: Cubes, init: Lights, f: Fill, start: Node, value: int, list: seq<SplitRef>,
                                             ns: seq<Node>, lightLevel: LightLevel)
    requires w.Valid() && Inv(w, cubes, init, f, start, value, list) && QueueIn(w, ns) && lightLevel <= value
    ensures Inv(w, cubes, init, UpdateAll(w, cubes, f, ns, lightLevel), start, value, list)
    decreases |ns|
  {
    if ns != [] {
      UpdateKeepsInv(w, cubes, init, f, start, value, list, ns[0], lightLevel);
      UpdateAllKeepsInv(w, cubes, init, Update(w, cubes, f, ns[0], lightLevel), start, value, list, ns[1..], lightLevel);
    }
  }

  /**
   * Popping the front node and putting its split in the dirty list keeps the invariant:
   * whatever the node tracked, the list now tracks.
   */
  lemma PopKeepsInv(w: World, cubes: Cubes, init: Lights, f: Fill, start: Node, value: int, list: seq<SplitRef>, list': seq<SplitRef>)
    requires w.Valid() && Inv(w, cubes, init, f, start, value, list) && f.queue != []
    requires SplitRef(f.queue[0].c, f.queue[0].renderChunkId) in list'
    requires forall r :: r in list' ==> r in list || r == SplitRef(f.queue[0].c, f.queue[0].renderChunkId)
    requires forall r :: r in list ==> r in list'
    requires NoDuplicates(list')
    ensures Inv(w, cubes, init, Fill(f.lights, f.queue[1..]), start, value, list')
  {
    PopKeepsTracked(w, init, f.lights, start, f.queue, list, list');
    assert LevelsAtMost(w, f.lights, f.queue[1..], value) by {
      forall k | 0 <= k < |f.queue| - 1 ensures Level(w, f.lights, f.queue[1..][k]) <= value {
        assert f.queue[1..][k] == f.queue[k + 1];
      }
    }
  }

  lemma PopKeepsTracked(w: World, init: Lights, m: Lights, start: Node, q: seq<Node>, list: seq<SplitRef>, list': seq<SplitRef>)
    requires w.Valid() && Shaped(w, init) && Shaped(w, m) && Tracked(w, init, m, start, q, list) && q != []
    requires SplitRef(q[0].c, q[0].renderChunkId) in list'
    requires forall r :: r in list ==> r in list'
    ensures Tracked(w, init, m, start, q[1..], list')
  {
    forall c: Chunk, s: int, i: int | c in w.chunks && 0 <= s < CHUNK_SPLITS && 0 <= i < SPLIT_SIZE &&
        (m[c][s][i].block != init[c][s][i].block || IsStart(start, c, s, i))
      ensures SplitRef(c, s) in list' || CellNode(c, s, i) in q[1..]
    {
      if SplitRef(c, s) !in list {
        var k :| 0 <= k < |q| && q[k] == CellNode(c, s, i);
        if k > 0 {
          assert q[1..][k - 1] == q[k];
        }
      }
    }
  }

  // ---------------------------------------------------------------------------
  // Where the flood fill's light ends up
  // ---------------------------------------------------------------------------

  /** The node of local voxel (x, y, z) of chunk c. */
  function NodeAt(c: Chunk, x: int, y: int, z: int): Node
    requires InChunk(x, y, z)
  {
    Node(x, y, z, c, SplitIndexOf(y))
  }

  /** A light level for every world-space position. */
  type LevelField = ((int, int, int)) -> int

  /** A node's world-space position. */
  function Place(n: Node): (int, int, int) {
    (n.c.startX * CHUNK_WIDTH + n.x, n.y, n.c.startZ * CHUNK_WIDTH + n.z)
  }

  /** Setting n's block level leaves every other node's level as it was. */
  lemma SetLevelOther(w: World, m: Lights, n: Node, v: LightLevel, n': Node)
    requires w.Valid() && Shaped(w, m) && NodeIn(w, n) && NodeIn(w, n') && n' != n
    ensures Level(w, SetLevel(w, m, n, v), n') == Level(w, m, n')
  {
    CellNodeOfNode(w, n);
    CellNodeOfNode(w, n');
  }

  /** No voxel's block level is lower in m' than in m. */
  ghost predicate NoneDropped(w: World, m: Lights, m': Lights)
    requires w.Valid() && Shaped(w, m) && Shaped(w, m')
  {
    forall c, x, y, z :: c in w.chunks && InChunk(x, y, z) ==> Level(w, m, NodeAt(c, x, y, z)) <= Level(w, m', NodeAt(c, x, y, z))
  }

  /**
   * From `before` to `after` no block level dropped, every node whose level changed is
   * queued, and every node queued before still is.
   */
  ghost predicate Grew(w: World, before: Fill, after: Fill)
    requires w.Valid() && Shaped(w, before.lights) && Shaped(w, after.lights)
  {
    && NoneDropped(w, before.lights, after.lights)
    && (forall c, x, y, z ::
          (c in w.chunks && InChunk(x, y, z) &&
           Level(w, after.lights, NodeAt(c, x, y, z)) != Level(w, before.lights, NodeAt(c, x, y, z))) ==>
          NodeAt(c, x, y, z) in after.queue)
    && (forall n :: n in before.queue ==> n in after.queue)
  }

  /**
   * One visit only raises, and only the visited node, which it queues; and it leaves a
   * non-air visited node no more than one below an incoming level above MIN_LIGHT_LEVEL.
   */
  lemma UpdateGrows(w: World, cubes: Cubes, f: Fill, nb: Node, lightLevel: LightLevel)
    requires w.Valid() && Shaped(w, f.lights) && NodeIn(w, nb)
    ensures var r := Update(w, cubes, f, nb, lightLevel);
            && Grew(w, f, r)
            && (lightLevel > MIN_LIGHT_LEVEL && !IsAir(cubes, nb.c, FlattenWorldArrayIndex(nb.x, nb.y, nb.z)) ==>
                  Level(w, r.lights, nb) >= lightLevel - 1)
  {
    var r := Update(w, cubes, f, nb, lightLevel);
    if Gate(lightLevel, IsAir(cubes, nb.c, FlattenWorldArrayIndex(nb.x, nb.y, nb.z)), Level(w, f.lights, nb)) {
      forall c, x, y, z | c in w.chunks && InChunk(x, y, z) && NodeAt(c, x, y, z) != nb
        ensures Level(w, r.lights, NodeAt(c, x, y, z)) == Level(w, f.lights, NodeAt(c, x, y, z))
      {
        SetLevelOther(w, f.lights, nb, lightLevel - 1, NodeAt(c, x, y, z));
      }
    }
  }

  /** Grew composes. */
  lemma GrewTrans(w: World, a: Fill, b: Fill, c: Fill)
    requires w.Valid() && Shaped(w, a.lights) && Shaped(w, b.lights) && Shaped(w, c.lights)
    requires Grew(w, a, b) && Grew(w, b, c)
    ensures Grew(w, a, c)
  {
    forall d, x, y, z | d in w.chunks && InChunk(x, y, z) &&
        Level(w, c.lights, NodeAt(d, x, y, z)) != Level(w, a.lights, NodeAt(d, x, y, z))
      ensures NodeAt(d, x, y, z) in c.queue
    {
      if Level(w, b.lights, NodeAt(d, x, y, z)) != Level(w, a.lights, NodeAt(d, x, y, z)) {
        assert NodeAt(d, x, y, z) in b.queue;
      }
    }
  }

  /**
   * Visiting ns at an incoming level above MIN_LIGHT_LEVEL leaves each non-air node of ns
   * no more than one below it; and the visits only raise, queueing what they raise.
   */
  lemma {:induction false} UpdateAllGrows(w: World, cubes: Cubes, f: Fill, ns: seq<Node>, lightLevel: LightLevel)
    requires w.Valid() && Shaped(w, f.lights) && QueueIn(w, ns)
    ensures var r := UpdateAll(w, cubes, f, ns, lightLevel);
            && Grew(w, f, r)
            && (lightLevel > MIN_LIGHT_LEVEL ==>
                  forall k :: 0 <= k < |ns| && !IsAir(cubes, ns[k].c, FlattenWorldArrayIndex(ns[k].x, ns[k].y, ns[k].z)) ==>
                    Level(w, r.lights, ns[k]) >= lightLevel - 1)
    decreases |ns|
  {
    var r := UpdateAll(w, cubes, f, ns, lightLevel);
    if ns != [] {
      var f' := Update(w, cubes, f, ns[0], lightLevel);
      UpdateGrows(w, cubes, f, ns[0], lightLevel);
      UpdateAllGrows(w, cubes, f', ns[1..], lightLevel);
      GrewTrans(w, f, f', r);
      forall k | 0 <= k < |ns| && lightLevel > MIN_LIGHT_LEVEL && !IsAir(cubes, ns[k].c, FlattenWorldArrayIndex(ns[k].x, ns[k].y, ns[k].z))
        ensures Level(w, r.lights, ns[k]) >= lightLevel - 1
      {
        if k > 0 {
          assert ns[1..][k - 1] == ns[k];
        } else {
          assert NodeAt(ns[0].c, ns[0].x, ns[0].y, ns[0].z) == ns[0];
        }
      }
    }
  }

  /** Every non-air voxel beside n sits no more than one level below n. */
  ghost predicate PassedOn(w: World, cubes: Cubes, m: Lights, n: Node)
    requires w.Valid() && Shaped(w, m) && NodeIn(w, n)
  {
    var ns := Neighbours(w, n);
    forall k :: 0 <= k < |ns| && !IsAir(cubes, ns[k].c, FlattenWorldArrayIndex(ns[k].x, ns[k].y, ns[k].z)) ==>
      Level(w, m, ns[k]) >= Level(w, m, n) - 1
  }

  /**
   * Every voxel the fill has set (the start, and every voxel whose block level changed
   * from init) that is no longer queued and is above MIN_LIGHT_LEVEL has passed its light on.
   */
  ghost predicate Spread(w: World, cubes: Cubes, init: Lights, f: Fill, start: Node)
    requires w.Valid() && Shaped(w, init) && Shaped(w, f.lights)
  {
    forall c, x, y, z ::
      (c in w.chunks && InChunk(x, y, z) &&
       (Level(w, f.lights, NodeAt(c, x, y, z)) != Level(w, init, NodeAt(c, x, y, z)) || NodeAt(c, x, y, z) == start) &&
       NodeAt(c, x, y, z) !in f.queue && Level(w, f.lights, NodeAt(c, x, y, z)) > MIN_LIGHT_LEVEL) ==>
      PassedOn(w, cubes, f.lights, NodeAt(c, x, y, z))
  }

  /** bound, over world-space positions, drops by at most one from n to each neighbour of n. */
  ghost predicate DropsByOne(w: World, bound: LevelField, n: Node)
    requires w.Valid() && NodeIn(w, n)
  {
    var ns := Neighbours(w, n);
    forall k :: 0 <= k < |ns| ==> bound(Place(ns[k])) >= bound(Place(n)) - 1
  }

  /**
   * bound is a ceiling for a fill from `start` at `value` over init: at least value at the
   * start, at least init's level at every voxel, and dropping by at most one per step.
   * For instance: the larger of init's level and value minus the steps from the start.
   */
  ghost predicate Ceiling(w: World, init: Lights, start: Node, value: int, bound: LevelField)
    requires w.Valid() && Shaped(w, init)
  {
    bound(Place(start)) >= value &&
    forall c, x, y, z :: c in w.chunks && InChunk(x, y, z) ==>
      Level(w, init, NodeAt(c, x, y, z)) <= bound(Place(NodeAt(c, x, y, z))) && DropsByOne(w, bound, NodeAt(c, x, y, z))
  }

  /** No voxel's block level in m is above bound. */
  ghost predicate Below(w: World, m: Lights, bound: LevelField)
    requires w.Valid() && Shaped(w, m)
  {
    forall c, x, y, z :: c in w.chunks && InChunk(x, y, z) ==> Level(w, m, NodeAt(c, x, y, z)) <= bound(Place(NodeAt(c, x, y, z)))
  }

  /** What the flood fill keeps besides Inv: Spread, and Below every ceiling. */
  ghost predicate Reach(w: World, cubes: Cubes, init: Lights, f: Fill, start: Node, value: int)
    requires w.Valid() && Shaped(w, init) && Shaped(w, f.lights)
  {
    Spread(w, cubes, init, f, start) &&
    forall bound: LevelField :: Ceiling(w, init, start, value, bound) ==> Below(w, f.lights, bound)
  }

  /** Right after the start is written and queued, Reach holds. */
  lemma InitialReach(w: World, cubes: Cubes, init: Lights, start: Node, value: LightLevel)
    requires w.Valid() && Shaped(w, init) && NodeIn(w, start)
    ensures Reach(w, cubes, init, Fill(SetLevel(w, init, start, value), [start]), start, value)
  {
    var m := SetLevel(w, init, start, value);
    forall c, x, y, z | c in w.chunks && InChunk(x, y, z) && NodeAt(c, x, y, z) != start
      ensures Level(w, m, NodeAt(c, x, y, z)) == Level(w, init, NodeAt(c, x, y, z))
    {
      SetLevelOther(w, init, start, value, NodeAt(c, x, y, z));
    }
    assert NodeAt(start.c, start.x, start.y, start.z) == start;
  }

  /** Visits at lightLevel to nodes where bound is at least lightLevel - 1 stay below bound. */
  lemma {:induction false} UpdateAllBelow(w: World, cubes: Cubes, f: Fill, ns: seq<Node>, lightLevel: LightLevel,
                                          bound: LevelField)
    requires w.Valid() && Shaped(w, f.lights) && QueueIn(w, ns) && Below(w, f.lights, bound)
    requires forall k :: 0 <= k < |ns| ==> lightLevel - 1 <= bound(Place(ns[k]))
    ensures Below(w, UpdateAll(w, cubes, f, ns, lightLevel).lights, bound)
    decreases |ns|
  {
    if ns != [] {
      var f' := Update(w, cubes, f, ns[0], lightLevel);
      if Gate(lightLevel, IsAir(cubes, ns[0].c, FlattenWorldArrayIndex(ns[0].x, ns[0].y, ns[0].z)), Level(w, f.lights, ns[0])) {
        forall c, x, y, z | c in w.chunks && InChunk(x, y, z)
          ensures Level(w, f'.lights, NodeAt(c, x, y, z)) <= bound(Place(NodeAt(c, x, y, z)))
        {
          if NodeAt(c, x, y, z) != ns[0] {
            SetLevelOther(w, f.lights, ns[0], lightLevel - 1, NodeAt(c, x, y, z));
          }
        }
      }
      forall k | 0 <= k < |ns| - 1
        ensures lightLevel - 1 <= bound(Place(ns[1..][k]))
      {
        assert ns[1..][k] == ns[k + 1];
      }
      UpdateAllBelow(w, cubes, f', ns[1..], lightLevel, bound);
    }
  }

  /**
   * One round of the loop keeps Spread: the popped node passes its level on to its
   * neighbours, and voxels that had passed their light on still have, since levels only rise.
   */
  lemma StepKeepsSpread(w: World, cubes: Cubes, init: Lights, m: Lights, q: seq<Node>, start: Node)
    requires w.Valid() && Shaped(w, init) && Shaped(w, m) && QueueIn(w, q) && q != []
    requires Spread(w, cubes, init, Fill(m, q), start)
    ensures Spread(w, cubes, init, UpdateAll(w, cubes, Fill(m, q[1..]), Neighbours(w, q[0]), Level(w, m, q[0])), start)
  {
    var p, lightLevel := q[0], Level(w, m, q[0]);
    var ns := Neighbours(w, p);
    var r := UpdateAll(w, cubes, Fill(m, q[1..]), ns, lightLevel);
    UpdateAllGrows(w, cubes, Fill(m, q[1..]), ns, lightLevel);
    forall c, x, y, z | c in w.chunks && InChunk(x, y, z) &&
        (Level(w, r.lights, NodeAt(c, x, y, z)) != Level(w, init, NodeAt(c, x, y, z)) || NodeAt(c, x, y, z) == start) &&
        NodeAt(c, x, y, z) !in r.queue && Level(w, r.lights, NodeAt(c, x, y, z)) > MIN_LIGHT_LEVEL
      ensures PassedOn(w, cubes, r.lights, NodeAt(c, x, y, z))
    {
      PassedOnKept(w, cubes, init, m, q, start, r, NodeAt(c, x, y, z));
    }
  }

  /** The case of StepKeepsSpread for one voxel n. */
  lemma PassedOnKept(w: World, cubes: Cubes, init: Lights, m: Lights, q: seq<Node>, start: Node, r: Fill, n: Node)
    requires w.Valid() && Shaped(w, init) && Shaped(w, m) && QueueIn(w, q) && q != []
    requires Spread(w, cubes, init, Fill(m, q), start)
    requires Shaped(w, r.lights) && Grew(w, Fill(m, q[1..]), r)
    requires var ns := Neighbours(w, q[0]);
             Level(w, m, q[0]) > MIN_LIGHT_LEVEL ==>
               forall k :: 0 <= k < |ns| && !IsAir(cubes, ns[k].c, FlattenWorldArrayIndex(ns[k].x, ns[k].y, ns[k].z)) ==>
                 Level(w, r.lights, ns[k]) >= Level(w, m, q[0]) - 1
    requires NodeIn(w, n) && n == NodeAt(n.c, n.x, n.y, n.z)
    requires Level(w, r.lights, n) != Level(w, init, n) || n == start
    requires n !in r.queue && Level(w, r.lights, n) > MIN_LIGHT_LEVEL
    ensures PassedOn(w, cubes, r.lights, n)
  {
    var p := q[0];
    assert Level(w, r.lights, n) == Level(w, m, n);
    assert n !in q[1..];
    if n != p {
      assert n !in q by {
        assert q == [p] + q[1..];
      }
      assert PassedOn(w, cubes, m, n);
      PassedOnRises(w, cubes, m, r.lights, n);
    }
  }

  /** Where no level dropped, a voxel at the same level still has its light passed on. */
  lemma PassedOnRises(w: World, cubes: Cubes, m: Lights, m': Lights, n: Node)
    requires w.Valid() && Shaped(w, m) && Shaped(w, m') && NodeIn(w, n) && NoneDropped(w, m, m')
    requires PassedOn(w, cubes, m, n) && Level(w, m', n) == Level(w, m, n)
    ensures PassedOn(w, cubes, m', n)
  {
    var ns := Neighbours(w, n);
    forall k | 0 <= k < |ns|
      ensures Level(w, m, ns[k]) <= Level(w, m', ns[k])
    {
      assert NodeAt(ns[k].c, ns[k].x, ns[k].y, ns[k].z) == ns[k];
    }
  }

  /** One round of the loop keeps the light under every ceiling. */
  lemma StepKeepsBelow(w: World, cubes: Cubes, init: Lights, m: Lights, q: seq<Node>, start: Node, value: int, bound: LevelField)
    requires w.Valid() && Shaped(w, init) && Shaped(w, m) && QueueIn(w, q) && q != []
    requires Ceiling(w, init, start, value, bound) && Below(w, m, bound)
    ensures Below(w, UpdateAll(w, cubes, Fill(m, q[1..]), Neighbours(w, q[0]), Level(w, m, q[0])).lights, bound)
  {
    var p := q[0];
    assert NodeAt(p.c, p.x, p.y, p.z) == p;
    assert DropsByOne(w, bound, p);
    UpdateAllBelow(w, cubes, Fill(m, q[1..]), Neighbours(w, p), Level(w, m, p), bound);
  }

  /** One round of the loop keeps Reach. */
  lemma StepKeepsReach(w: World, cubes: Cubes, init: Lights, m: Lights, q: seq<Node>, start: Node, value: int)
    requires w.Valid() && Shaped(w, init) && Shaped(w, m) && QueueIn(w, q) && q != []
    requires Reach(w, cubes, init, Fill(m, q), start, value)
    ensures Reach(w, cubes, init, UpdateAll(w, cubes, Fill(m, q[1..]), Neighbours(w, q[0]), Level(w, m, q[0])), start, value)
  {
    StepKeepsSpread(w, cubes, init, m, q, start);
    forall bound: LevelField | Ceiling(w, init, start, value, bound)
      ensures Below(w, UpdateAll(w, cubes, Fill(m, q[1..]), Neighbours(w, q[0]), Level(w, m, q[0])).lights, bound)
    {
      StepKeepsBelow(w, cubes, init, m, q, start, value, bound);
    }
  }

  // ---------------------------------------------------------------------------
  // Termination of the flood fill
  // ---------------------------------------------------------------------------

  function Pow7(n: nat): (r: nat)
    ensures r >= 1
  {
    if n == 0 then 1 else 7 * Pow7(n - 1)
  }

  /**
   * The queue's weight: 7 to the power of each queued node's current level. A popped
   * node at level L pushes at most six nodes at level L - 1, which weigh less than it.
   */
  ghost function Weight(w: World, m: Lights, q: seq<Node>): nat
    requires w.Valid() && Shaped(w, m) && QueueIn(w, q)
  {
    if q == [] then 0 else Pow7(Level(w, m, q[0])) + Weight(w, m, q[1..])
  }

  lemma {:induction false} WeightAppend(w: World, m: Lights, q: seq<Node>, n: Node)
    requires w.Valid() && Shaped(w, m) && QueueIn(w, q) && NodeIn(w, n)
    ensures QueueIn(w, q + [n])
    ensures Weight(w, m, q + [n]) == Weight(w, m, q) + Pow7(Level(w, m, n))
  {
    if q != [] {
      assert (q + [n])[1..] == q[1..] + [n];
      WeightAppend(w, m, q[1..], n);
    }
  }

  /** What one visit at level L may add to the weight. */
  function Bump(lightLevel: int): nat {
    if lightLevel > MIN_LIGHT_LEVEL then Pow7(lightLevel - 1) else 0
  }

  /** Six visits at level L weigh less than the node visited at level L. */
  lemma SixBumpsWeighLess(lightLevel: LightLevel)
    ensures 6 * Bump(lightLevel) < Pow7(lightLevel)
  {
  }

  /** The (cell, level) pairs above each cell's current level: the raises still possible. */
  ghost function Remaining(w: World, m: Lights): set<(Chunk, int, int, int)>
    requires Shaped(w, m)
  {
    set c, s, i, v | c in w.chunks && 0 <= s < CHUNK_SPLITS && 0 <= i < SPLIT_SIZE && m[c][s][i].block < v <= MAX_LIGHT_LEVEL
      :: (c, s, i, v)
  }

  lemma SubsetCard<T>(a: set<T>, b: set<T>)
    requires a <= b
    ensures |a| <= |b| && (a != b ==> |a| < |b|)
  {
    assert b == a + (b - a);
    if a != b {
      var x :| x in b - a;
      assert |b - a| >= 1;
    }
  }

  /** Raising a cell never adds a possible raise, and a strict raise removes one. */
  lemma RaiseShrinks(w: World, m: Lights, n: Node, v: LightLevel)
    requires w.Valid() && Shaped(w, m) && NodeIn(w, n) && Level(w, m, n) <= v
    ensures Remaining(w, SetLevel(w, m, n, v)) <= Remaining(w, m)
    ensures Level(w, m, n) < v ==> Remaining(w, SetLevel(w, m, n, v)) != Remaining(w, m)
  {
    var m': Lights := SetLevel(w, m, n, v);
    forall e | e in Remaining(w, m')
      ensures e in Remaining(w, m)
    {
      var (c, s, i, v') := e;
      if IsStart(n, c, s, i) {
        assert m'[c][s][i].block == v;
      }
    }
    if Level(w, m, n) < v {
      var e := (n.c, n.renderChunkId, CellIndex(n), v);
      assert e in Remaining(w, m);
      assert e !in Remaining(w, m');
    }
  }

  /**
   * One visit either strictly shrinks the possible raises, or leaves the light maps as
   * they were and adds at most Bump(lightLevel) to the weight.
   */
  lemma UpdateMeasure(w: World, cubes: Cubes, f: Fill, n: Node, lightLevel: LightLevel)
    requires w.Valid() && Shaped(w, f.lights) && QueueIn(w, f.queue) && NodeIn(w, n)
    ensures var r := Update(w, cubes, f, n, lightLevel);
            && QueueIn(w, r.queue) && Remaining(w, r.lights) <= Remaining(w, f.lights)
            && (Remaining(w, r.lights) == Remaining(w, f.lights) ==>
                  Weight(w, r.lights, r.queue) <= Weight(w, f.lights, f.queue) + Bump(lightLevel))
  {
    if Gate(lightLevel, IsAir(cubes, n.c, FlattenWorldArrayIndex(n.x, n.y, n.z)), Level(w, f.lights, n)) {
      RaiseShrinks(w, f.lights, n, lightLevel - 1);
      WeightAppend(w, f.lights, f.queue, n);
      if Level(w, f.lights, n) == lightLevel - 1 {
        SetLevelSame(w, f.lights, n);
      }
    }
  }

  lemma {:induction false} UpdateAllMeasure(w: World, cubes: Cubes, f: Fill, ns: seq<Node>, lightLevel: LightLevel)
    requires w.Valid() && Shaped(w, f.lights) && QueueIn(w, f.queue) && QueueIn(w, ns)
    ensures var r := UpdateAll(w, cubes, f, ns, lightLevel);
            && QueueIn(w, r.queue) && Remaining(w, r.lights) <= Remaining(w, f.lights)
            && (Remaining(w, r.lights) == Remaining(w, f.lights) ==>
                  Weight(w, r.lights, r.queue) <= Weight(w, f.lights, f.queue) + |ns| * Bump(lightLevel))
    decreases |ns|
  {
    if ns != [] {
      var f' := Update(w, cubes, f, ns[0], lightLevel);
      UpdateMeasure(w, cubes, f, ns[0], lightLevel);
      UpdateAllMeasure(w, cubes, f', ns[1..], lightLevel);
      assert (|ns| - 1) * Bump(lightLevel) + Bump(lightLevel) == |ns| * Bump(lightLevel);
    }
  }

  /**
   * Visiting the neighbours of the popped front node at its own level either strictly
   * shrinks the possible raises, or lowers the queue's weight: the flood fill ends.
   */
  lemma SpreadDecreases(w: World, cubes: Cubes, m: Lights, q: seq<Node>, lightLevel: LightLevel)
    requires w.Valid() && Shaped(w, m) && QueueIn(w, q) && q != [] && Level(w, m, q[0]) == lightLevel
    ensures var r := UpdateAll(w, cubes, Fill(m, q[1..]), Neighbours(w, q[0]), lightLevel);
            && QueueIn(w, r.queue)
            && (|Remaining(w, r.lights)| < |Remaining(w, m)|
                || (Remaining(w, r.lights) == Remaining(w, m) && Weight(w, r.lights, r.queue) < Weight(w, m, q)))
  {
    var ns := Neighbours(w, q[0]);
    var r := UpdateAll(w, cubes, Fill(m, q[1..]), ns, lightLevel);
    UpdateAllMeasure(w, cubes, Fill(m, q[1..]), ns, lightLevel);
    SubsetCard(Remaining(w, r.lights), Remaining(w, m));
    MulMono(|ns|, 6, Bump(lightLevel));
    SixBumpsWeighLess(lightLevel);
  }

  // ---------------------------------------------------------------------------
  // updateSurroundingBlock and chunk_setBlockLight
  // ---------------------------------------------------------------------------

  /**
   * The raising branch of updateSurroundingBlock, taken when the gate passes: store
   * lightLevel - 1 in the voxel's cell and queue the voxel.
   */
  method RaiseAndEnqueue(w: World, ghost cubes: Cubes, q: LightQueue, chunk: Chunk, x: int, y: int, z: int,
                         lightLevel: LightLevel, ghost m: Lights)
    returns (ghost m': Lights)
    requires w.Valid() && w.Separate() && chunk in w.chunks && InChunk(x, y, z) && q.Valid() && Mirrors(w, m) && CubesMirror(w, cubes)
    requires Gate(lightLevel, IsAir(cubes, chunk, FlattenWorldArrayIndex(x, y, z)), Level(w, m, Node(x, y, z, chunk, SplitIndexOf(y))))
    modifies q, chunk.lightMap[SplitIndexOf(y)]
    ensures q.Valid() && Mirrors(w, m') && CubesMirror(w, cubes)
    ensures Fill(m', q.nodes) == Update(w, cubes, Fill(m, old(q.nodes)), Node(x, y, z, chunk, SplitIndexOf(y)), lightLevel)
  {
    var renderChunkId := CDiv(y, 16);
    ghost var n := Node(x, y, z, chunk, SplitIndexOf(y));
    ghost var q0 := q.nodes;
    LocalHeightSameCell(x, y, z);
    assert renderChunkId == SplitIndexOf(y);
    ghost var a := chunk.lightMap[renderChunkId];
    ghost var i := CellIndex(n);
    MirrorsSplit(w, m, chunk, renderChunkId);
    assert a[..] == m[chunk][renderChunkId];
    SetBlockLight(chunk.lightMap[renderChunkId], x, CRem(y, 16), z, lightLevel - 1);
    assert a[..] == m[chunk][renderChunkId][i := m[chunk][renderChunkId][i].(block := lightLevel - 1)];
    q.Push(x, y, z, chunk, renderChunkId);
    m' := SetLevel(w, m, n, lightLevel - 1);
    MirrorsAfterSet(w, m, n, lightLevel - 1);
    UpdateRaises(w, cubes, m, q0, n, lightLevel);
  }

  /**
   * updateSurroundingBlock: the light maps and the queue become Update of what they were.
   * The voxel's split is y / 16 and its local height y % 16.
   */
  method UpdateSurroundingBlock(w: World, ghost cubes: Cubes, q: LightQueue, chunk: Chunk, x: int, y: int, z: int,
                                lightLevel: LightLevel, ghost m: Lights)
    returns (ghost m': Lights)
    requires w.Valid() && w.Separate() && chunk in w.chunks && InChunk(x, y, z) && q.Valid() && Mirrors(w, m) && CubesMirror(w, cubes)
    modifies q, chunk.lightMap[SplitIndexOf(y)]
    ensures q.Valid() && Mirrors(w, m') && CubesMirror(w, cubes)
    ensures Fill(m', q.nodes) == Update(w, cubes, Fill(m, old(q.nodes)), Node(x, y, z, chunk, SplitIndexOf(y)), lightLevel)
  {
    var renderChunkId := CDiv(y, 16);
    ghost var n := Node(x, y, z, chunk, SplitIndexOf(y));
    ghost var q0 := q.nodes;
    LocalHeightSameCell(x, y, z);
    assert renderChunkId == SplitIndexOf(y);
    MirrorsSplit(w, m, chunk, renderChunkId);
    var transparent := IsTransparent(chunk.cubeData, x, y, z);
    var current := BlockLight(chunk.lightMap[renderChunkId], x, CRem(y, 16), z);
    assert transparent == IsAir(cubes, chunk, FlattenWorldArrayIndex(x, y, z));
    assert current == Level(w, m, n);
    m' := m;
    if lightLevel > MIN_LIGHT_LEVEL {
      if !transparent && current + MIN_LIGHT_LEVEL <= lightLevel {
        m' := RaiseAndEnqueue(w, cubes, q, chunk, x, y, z, lightLevel, m);
      } else {
        UpdateKeeps(w, cubes, m, q0, n, lightLevel);
      }
    } else {
      UpdateKeeps(w, cubes, m, q0, n, lightLevel);
    }
  }

  /**
   * One of the four horizontal blocks of chunk_setBlockLight's loop: visit the voxel one
   * step along X or Z, in n's chunk or, across its border, in the neighbouring chunk when
   * that one is loaded.
   */
  method SpreadBeside(w: World, ghost cubes: Cubes, q: LightQueue, n: Node, dx: int, dz: int, lightLevel: LightLevel, ghost m: Lights)
    returns (ghost m': Lights)
    requires w.Valid() && w.Separate() && NodeIn(w, n) && HorizontalStep(dx, dz) && q.Valid() && Mirrors(w, m) && CubesMirror(w, cubes)
    modifies q, w.LightArrays()
    ensures q.Valid() && Mirrors(w, m') && CubesMirror(w, cubes)
    ensures Fill(m', q.nodes) == UpdateAll(w, cubes, Fill(m, old(q.nodes)), Beside(w, n, dx, dz), lightLevel)
  {
    ghost var f := Fill(m, q.nodes);
    var x, z := n.x + dx, n.z + dz;
    if 0 <= x < CHUNK_WIDTH && 0 <= z < CHUNK_WIDTH {
      ghost var v := Node(x, n.y, z, n.c, n.renderChunkId);
      assert Beside(w, n, dx, dz) == [v];
      UpdateAllSingle(w, cubes, f, v, lightLevel);
      ghost var r := Update(w, cubes, f, v, lightLevel);
      m' := UpdateSurroundingBlock(w, cubes, q, n.c, x, n.y, z, lightLevel, m);
      assert Fill(m', q.nodes) == r;
    } else {
      var nextChunk := NeighbourChunk(w, n.c, n.y, dx, dz);
      m' := m;
      if nextChunk != null {
        var x', z' := x - CHUNK_WIDTH * dx, z - CHUNK_WIDTH * dz;
        ghost var v := Node(x', n.y, z', nextChunk, SplitIndexOf(n.y));
        assert Beside(w, n, dx, dz) == [v];
        UpdateAllSingle(w, cubes, f, v, lightLevel);
        ghost var r := Update(w, cubes, f, v, lightLevel);
        m' := UpdateSurroundingBlock(w, cubes, q, nextChunk, x', n.y, z', lightLevel, m);
        assert Fill(m', q.nodes) == r;
      } else {
        assert Beside(w, n, dx, dz) == [];
      }
    }
  }

  /** The two vertical visits of chunk_setBlockLight's loop: y - 1 when y > 0, y + 1 below the top. */
  method SpreadVertical(w: World, ghost cubes: Cubes, q: LightQueue, n: Node, dy: int, lightLevel: LightLevel, ghost m: Lights)
    returns (ghost m': Lights)
    requires w.Valid() && w.Separate() && NodeIn(w, n) && q.Valid() && Mirrors(w, m) && CubesMirror(w, cubes)
    modifies q, w.LightArrays()
    ensures q.Valid() && Mirrors(w, m') && CubesMirror(w, cubes)
    ensures Fill(m', q.nodes) == UpdateAll(w, cubes, Fill(m, old(q.nodes)), Vertical(w, n, dy), lightLevel)
  {
    m' := m;
    if 0 <= n.y + dy < MAX_CHUNK_HEIGHT {
      ghost var f := Fill(m, q.nodes);
      ghost var v := Node(n.x, n.y + dy, n.z, n.c, SplitIndexOf(n.y + dy));
      assert Vertical(w, n, dy) == [v];
      UpdateAllSingle(w, cubes, f, v, lightLevel);
      ghost var r := Update(w, cubes, f, v, lightLevel);
      m' := UpdateSurroundingBlock(w, cubes, q, n.c, n.x, n.y + dy, n.z, lightLevel, m);
      assert Fill(m', q.nodes) == r;
    }
  }

  /** Visiting the neighbours is visiting the six groups one after another. */
  lemma NeighboursInOrder(w: World, cubes: Cubes, f: Fill, n: Node, lightLevel: LightLevel)
    requires w.Valid() && Shaped(w, f.lights) && NodeIn(w, n)
    ensures var f1 := UpdateAll(w, cubes, f, Beside(w, n, -1, 0), lightLevel);
            var f2 := UpdateAll(w, cubes, f1, Beside(w, n, 1, 0), lightLevel);
            var f3 := UpdateAll(w, cubes, f2, Beside(w, n, 0, -1), lightLevel);
            var f4 := UpdateAll(w, cubes, f3, Beside(w, n, 0, 1), lightLevel);
            var f5 := UpdateAll(w, cubes, f4, Vertical(w, n, -1), lightLevel);
            UpdateAll(w, cubes, f, Neighbours(w, n), lightLevel) == UpdateAll(w, cubes, f5, Vertical(w, n, 1), lightLevel)
  {
    var west, east, south, north := Beside(w, n, -1, 0), Beside(w, n, 1, 0), Beside(w, n, 0, -1), Beside(w, n, 0, 1);
    var below, above := Vertical(w, n, -1), Vertical(w, n, 1);
    UpdateAllConcat(w, cubes, f, west, east, lightLevel);
    UpdateAllConcat(w, cubes, f, west + east, south, lightLevel);
    UpdateAllConcat(w, cubes, f, west + east + south, north, lightLevel);
    UpdateAllConcat(w, cubes, f, west + east + south + north, below, lightLevel);
    UpdateAllConcat(w, cubes, f, west + east + south + north + below, above, lightLevel);
  }

  /**
   * The body of chunk_setBlockLight's loop after the pop: visit the six neighbours of n
   * (west, east, south, north, below, above) at n's level.
   */
  method SpreadFrom(w: World, ghost cubes: Cubes, q: LightQueue, n: Node, lightLevel: LightLevel, ghost m: Lights)
    returns (ghost m': Lights)
    requires w.Valid() && w.Separate() && NodeIn(w, n) && q.Valid() && Mirrors(w, m) && CubesMirror(w, cubes)
    modifies q, w.LightArrays()
    ensures q.Valid() && Mirrors(w, m') && CubesMirror(w, cubes)
    ensures Fill(m', q.nodes) == UpdateAll(w, cubes, Fill(m, old(q.nodes)), Neighbours(w, n), lightLevel)
  {
    ghost var f := Fill(m, q.nodes);
    NeighboursInOrder(w, cubes, f, n, lightLevel);
    m' := SpreadBeside(w, cubes, q, n, -1, 0, lightLevel, m);
    ghost var f1 := Fill(m', q.nodes);
    m' := SpreadBeside(w, cubes, q, n, 1, 0, lightLevel, m');
    ghost var f2 := Fill(m', q.nodes);
    m' := SpreadBeside(w, cubes, q, n, 0, -1, lightLevel, m');
    ghost var f3 := Fill(m', q.nodes);
    m' := SpreadBeside(w, cubes, q, n, 0, 1, lightLevel, m');
    ghost var f4 := Fill(m', q.nodes);
    m' := SpreadVertical(w, cubes, q, n, -1, lightLevel, m');
    ghost var f5 := Fill(m', q.nodes);
    m' := SpreadVertical(w, cubes, q, n, 1, lightLevel, m');
  }

  /** Every split holding the start cell or a cell whose block level changed has been regenerated. */
  ghost predicate Regenerated(w: World, cubes: Cubes, init: Lights, final: Lights, start: Node)
    requires w.Valid() && Shaped(w, init) && Shaped(w, final)
    reads w.RenderChunkSet()
  {
    forall c, s, i ::
      c in w.chunks && 0 <= s < CHUNK_SPLITS && 0 <= i < SPLIT_SIZE &&
      (final[c][s][i].block != init[c][s][i].block || IsStart(start, c, s, i)) ==>
      RegeneratedSplit(w, cubes, SplitRef(c, s))
  }

  /**
   * The head of chunk_setBlockLight's loop: take the front node off the queue and read
   * its block level, addressing the split by the node's renderChunkId and the cell by its
   * height n.y.
   */
  method TakeFront(w: World, ghost cubes: Cubes, q: LightQueue, ghost m: Lights) returns (n: Node, lightLevel: LightLevel)
    requires w.Valid() && q.Valid() && q.count > 0 && QueueIn(w, q.nodes) && Mirrors(w, m) && CubesMirror(w, cubes)
    modifies q
    ensures q.Valid() && n == old(q.nodes[0]) && q.nodes == old(q.nodes[1..])
    ensures Mirrors(w, m) && CubesMirror(w, cubes) && NodeIn(w, n) && lightLevel == Level(w, m, n)
  {
    n := q.Front();
    q.Pop();
    lightLevel := BlockLight(n.c.lightMap[n.renderChunkId], n.x, n.y, n.z);
  }

  /**
   * One round of chunk_setBlockLight's loop: take the front node, note its split in the
   * dirty list and visit its six neighbours at its level. The invariant is kept, and
   * either fewer raises remain possible or the queue weighs less.
   */
  method FloodStep(w: World, ghost cubes: Cubes, ghost init: Lights, q: LightQueue, ghost start: Node, value: int,
                   ghost m: Lights, chunkList: seq<SplitRef>)
    returns (ghost m': Lights, chunkList': seq<SplitRef>)
    requires w.Valid() && w.Separate() && q.Valid() && q.count > 0 && Mirrors(w, m) && CubesMirror(w, cubes)
    requires Inv(w, cubes, init, Fill(m, q.nodes), start, value, chunkList)
    requires Reach(w, cubes, init, Fill(m, q.nodes), start, value)
    modifies q, w.LightArrays()
    ensures q.Valid() && Mirrors(w, m') && CubesMirror(w, cubes)
    ensures Inv(w, cubes, init, Fill(m', q.nodes), start, value, chunkList')
    ensures Reach(w, cubes, init, Fill(m', q.nodes), start, value)
    ensures || |Remaining(w, m')| < |Remaining(w, m)|
            || (Remaining(w, m') == Remaining(w, m) && Weight(w, m', q.nodes) < Weight(w, m, old(q.nodes)))
  {
    ghost var q0 := q.nodes;
    var n, lightLevel := TakeFront(w, cubes, q, m);
    chunkList' := InsertUnique(chunkList, SplitRef(n.c, n.renderChunkId));
    PopKeepsInv(w, cubes, init, Fill(m, q0), start, value, chunkList, chunkList');
    SpreadDecreases(w, cubes, m, q0, lightLevel);
    UpdateAllKeepsInv(w, cubes, init, Fill(m, q0[1..]), start, value, chunkList', Neighbours(w, n), lightLevel);
    StepKeepsReach(w, cubes, init, m, q0, start, value);
    m' := SpreadFrom(w, cubes, q, n, lightLevel, m);
  }

  /** The loop of chunk_setBlockLight, run until the queue is empty; the dirty list then tracks every change. */
  method FloodFill(w: World, ghost cubes: Cubes, ghost init: Lights, q: LightQueue, ghost start: Node, value: int, ghost m: Lights)
    returns (ghost final: Lights, chunkList: seq<SplitRef>)
    requires w.Valid() && w.Separate() && q.Valid() && Mirrors(w, m) && CubesMirror(w, cubes)
    requires Inv(w, cubes, init, Fill(m, q.nodes), start, value, [])
    requires Reach(w, cubes, init, Fill(m, q.nodes), start, value)
    modifies q, w.LightArrays()
    ensures q.Valid() && q.nodes == [] && Mirrors(w, final) && CubesMirror(w, cubes)
    ensures Inv(w, cubes, init, Fill(final, []), start, value, chunkList)
    ensures Reach(w, cubes, init, Fill(final, []), start, value)
  {
    final := m;
    chunkList := [];
    while q.count > 0
      invariant q.Valid() && Mirrors(w, final) && CubesMirror(w, cubes)
      invariant Inv(w, cubes, init, Fill(final, q.nodes), start, value, chunkList)
      invariant Reach(w, cubes, init, Fill(final, q.nodes), start, value)
      decreases |Remaining(w, final)|, Weight(w, final, q.nodes)
    {
      final, chunkList := FloodStep(w, cubes, init, q, start, value, final, chunkList);
    }
  }

  /**
   * One round of chunk_setBlockLight's regeneration loop: freeGenerateUpdate on entry i
   * of the dirty list. The splits regenerated before keep their meshes, because no two
   * entries share a RenderChunk.
   */
  method RegenerateSplit(w: World, chunkList: seq<SplitRef>, i: int, ghost cubes: Cubes)
    requires w.Valid() && w.Separate() && ListIn(w, chunkList) && NoDuplicates(chunkList) && CubesMirror(w, cubes)
    requires 0 <= i < |chunkList| && forall k :: 0 <= k < i ==> RegeneratedSplit(w, cubes, chunkList[k])
    modifies chunkList[i].chunk.renderChunks[chunkList[i].index]
    ensures CubesMirror(w, cubes) && forall k :: 0 <= k <= i ==> RegeneratedSplit(w, cubes, chunkList[k])
  {
    Regenerate(w, chunkList[i].chunk, chunkList[i].index, cubes);
    forall k | 0 <= k < i
      ensures RegeneratedSplit(w, cubes, chunkList[k])
    {
      SplitRenderChunksDistinct(w, chunkList[k], chunkList[i]);
    }
  }

  /** The regeneration loop of chunk_setBlockLight: freeGenerateUpdate on every split of the dirty list. */
  method RegenerateSplits(w: World, chunkList: seq<SplitRef>, ghost cubes: Cubes)
    requires w.Valid() && w.Separate() && ListIn(w, chunkList) && NoDuplicates(chunkList) && CubesMirror(w, cubes)
    modifies w.RenderChunkSet()
    ensures CubesMirror(w, cubes)
    ensures forall r :: r in chunkList ==> RegeneratedSplit(w, cubes, r)
    ensures forall c, s :: c in w.chunks && 0 <= s < CHUNK_SPLITS && SplitRef(c, s) !in chunkList ==>
              c.renderChunks[s].State() == old(c.renderChunks[s].State())
  {
    var i := 0;
    while i < |chunkList|
      invariant 0 <= i <= |chunkList| && CubesMirror(w, cubes)
      invariant forall k :: 0 <= k < i ==> RegeneratedSplit(w, cubes, chunkList[k])
      invariant forall c, s :: c in w.chunks && 0 <= s < CHUNK_SPLITS && SplitRef(c, s) !in chunkList ==>
                  c.renderChunks[s].State() == old(c.renderChunks[s].State())
    {
      forall c, s | c in w.chunks && 0 <= s < CHUNK_SPLITS && SplitRef(c, s) !in chunkList
        ensures c.renderChunks[s] != chunkList[i].chunk.renderChunks[chunkList[i].index]
      {
        SplitRenderChunksDistinct(w, SplitRef(c, s), chunkList[i]);
      }
      RegenerateSplit(w, chunkList, i, cubes);
      i := i + 1;
    }
  }

  /**
   * The end of chunk_setBlockLight: regenerate the dirty splits, then clean the queue up.
   * Light maps and cube arrays are left alone.
   */
  method Finish(w: World, q: LightQueue, chunkList: seq<SplitRef>, ghost m: Lights, ghost cubes: Cubes)
    requires w.Valid() && w.Separate() && ListIn(w, chunkList) && NoDuplicates(chunkList)
    requires q.Valid() && Mirrors(w, m) && CubesMirror(w, cubes)
    modifies q, w.RenderChunkSet()
    ensures q.Valid() && q.nodes == [] && Mirrors(w, m) && CubesMirror(w, cubes)
    ensures forall r :: r in chunkList ==> RegeneratedSplit(w, cubes, r)
    ensures forall c, s :: c in w.chunks && 0 <= s < CHUNK_SPLITS && SplitRef(c, s) !in chunkList ==>
              c.renderChunks[s].State() == old(c.renderChunks[s].State())
  {
    RegenerateSplits(w, chunkList, cubes);
    q.Cleanup();
  }

  /** Once the queue is empty, the invariant's tracking puts every change in the dirty list. */
  lemma DrainedListCovers(w: World, cubes: Cubes, init: Lights, final: Lights, start: Node, value: int, list: seq<SplitRef>)
    requires w.Valid() && Inv(w, cubes, init, Fill(final, []), start, value, list)
    requires forall r :: r in list ==> RegeneratedSplit(w, cubes, r)
    ensures Regenerated(w, cubes, init, final, start)
  {
  }

  /**
   * What chunk_setBlockLight leaves in the light maps: the start at value; every other
   * voxel only brightened, below value and never air; the sun channel as it was; every
   * voxel the fill set, and the start, passes its light on to its non-air neighbours
   * unless it is at MIN_LIGHT_LEVEL or less; and no voxel above any ceiling.
   */
  ghost predicate Lit(w: World, cubes: Cubes, init: Lights, final: Lights, start: Node, value: int)
    requires w.Valid() && Shaped(w, init) && Shaped(w, final) && NodeIn(w, start)
  {
    && Level(w, final, start) == value
    && GlobalKept(w, init, final)
    && AllBrightened(w, cubes, init, final, start, value)
    && (forall c, x, y, z ::
          (c in w.chunks && InChunk(x, y, z) &&
           (Level(w, final, NodeAt(c, x, y, z)) != Level(w, init, NodeAt(c, x, y, z)) || NodeAt(c, x, y, z) == start) &&
           Level(w, final, NodeAt(c, x, y, z)) > MIN_LIGHT_LEVEL) ==>
          PassedOn(w, cubes, final, NodeAt(c, x, y, z)))
    && (forall bound: LevelField :: Ceiling(w, init, start, value, bound) ==> Below(w, final, bound))
  }

  /** Once the queue is empty, the invariants say that the light maps are Lit. */
  lemma DrainedLit(w: World, cubes: Cubes, init: Lights, final: Lights, start: Node, value: int, list: seq<SplitRef>)
    requires w.Valid() && Inv(w, cubes, init, Fill(final, []), start, value, list)
    requires Reach(w, cubes, init, Fill(final, []), start, value)
    ensures Lit(w, cubes, init, final, start, value)
  {
  }

  /**
   * The start of chunk_setBlockLight: write `value` into the block channel of the start
   * voxel, in split y / 16 at local height y % 16, and queue the voxel.
   */
  method SeedLight(w: World, ghost cubes: Cubes, q: LightQueue, chunk: Chunk, x: int, y: int, z: int, value: LightLevel,
                   ghost init: Lights)
    returns (ghost m: Lights)
    requires w.Valid() && w.Separate() && chunk in w.chunks && InChunk(x, y, z)
    requires q.Valid() && q.nodes == [] && Mirrors(w, init) && CubesMirror(w, cubes)
    modifies q, chunk.lightMap[SplitIndexOf(y)]
    ensures var start := Node(x, y, z, chunk, SplitIndexOf(y));
            && q.Valid() && q.nodes == [start] && CubesMirror(w, cubes)
            && m == SetLevel(w, init, start, value) && Mirrors(w, m)
  {
    var renderChunkId := CDiv(y, 16);
    ghost var start := Node(x, y, z, chunk, renderChunkId);
    LocalHeightSameCell(x, y, z);
    MirrorsSplit(w, init, chunk, renderChunkId);
    SetBlockLight(chunk.lightMap[renderChunkId], x, CRem(y, 16), z, value);
    MirrorsAfterSet(w, init, start, value);
    q.Push(x, y, z, chunk, renderChunkId);
    m := SetLevel(w, init, start, value);
  }

  /**
   * The light half of chunk_setBlockLight: write `value` at the start, queue it and run
   * the loop until the queue is empty. No mesh is touched.
   */
  method LightFlood(w: World, chunk: Chunk, x: int, y: int, z: int, value: LightLevel)
    returns (q: LightQueue, chunkList: seq<SplitRef>, ghost init: Lights, ghost final: Lights, ghost cubes: Cubes)
    requires w.Valid() && w.Separate() && chunk in w.chunks && InChunk(x, y, z)
    modifies w.LightArrays()
    ensures fresh(q) && q.Valid() && q.nodes == []
    ensures init == old(LightsOfWorld(w)) && cubes == old(CubesOfWorld(w))
    ensures Mirrors(w, final) && CubesMirror(w, cubes)
    ensures var start := Node(x, y, z, chunk, SplitIndexOf(y));
            && Inv(w, cubes, init, Fill(final, []), start, value, chunkList)
            && Reach(w, cubes, init, Fill(final, []), start, value)
    ensures forall c, s :: c in w.chunks && 0 <= s < CHUNK_SPLITS ==> c.renderChunks[s].State() == old(c.renderChunks[s].State())
  {
    init := LightsOfWorld(w);
    cubes := CubesOfWorld(w);
    ghost var start := Node(x, y, z, chunk, SplitIndexOf(y));
    q := new LightQueue();
    ghost var m := SeedLight(w, cubes, q, chunk, x, y, z, value, init);
    InitialInv(w, cubes, init, start, value);
    InitialReach(w, cubes, init, start, value);
    final, chunkList := FloodFill(w, cubes, init, q, start, value, m);
  }

  /**
   * chunk_setBlockLight: write `value` into the block channel of the chunk's local voxel
   * (x, y, z), flood the light outwards breadth first, then regenerate the mesh of every
   * split in the dirty list. init and final are the light maps before and after; cubes
   * the cube arrays, which stay as they were; dirty the list of regenerated splits.
   * Afterwards the light maps are Lit, every changed split is regenerated and every
   * other mesh is as it was.
   */
  method ChunkSetBlockLight(w: World, chunk: Chunk, x: int, y: int, z: int, value: LightLevel)
    returns (ghost init: Lights, ghost final: Lights, ghost cubes: Cubes, ghost dirty: seq<SplitRef>)
    requires w.Valid() && w.Separate() && chunk in w.chunks && InChunk(x, y, z)
    modifies w.LightArrays(), w.RenderChunkSet()
    ensures init == old(LightsOfWorld(w)) && cubes == old(CubesOfWorld(w))
    ensures Mirrors(w, final) && CubesMirror(w, cubes)
    ensures var start := Node(x, y, z, chunk, SplitIndexOf(y));
            && Shaped(w, init) && Shaped(w, final)
            && Lit(w, cubes, init, final, start, value)
            && Regenerated(w, cubes, init, final, start)
    ensures ListIn(w, dirty) && forall r :: r in dirty ==> RegeneratedSplit(w, cubes, r)
    ensures forall c, s :: c in w.chunks && 0 <= s < CHUNK_SPLITS && SplitRef(c, s) !in dirty ==>
              c.renderChunks[s].State() == old(c.renderChunks[s].State())
  {
    var q, chunkList;
    q, chunkList, init, final, cubes := LightFlood(w, chunk, x, y, z, value);
    ghost var start := Node(x, y, z, chunk, SplitIndexOf(y));
    Finish(w, q, chunkList, final, cubes);
    DrainedListCovers(w, cubes, init, final, start, value, chunkList);
    DrainedLit(w, cubes, init, final, start, value, chunkList);
    dirty := chunkList;
  }
}
