# JeefCraft voxel core in Dafny

This project models the voxel-world core of JeefCraft, a small C voxel engine, and proves properties of it. The core covers:

- **Coordinates** (`coords.dfy`, `util.dfy`).
  - A world-space block position maps to a chunk column 16 x 16 wide and 256 high. The map uses C's truncating division, written out as `CDiv`/`CRem`.
  - A position maps to one of the chunk's sixteen 16-high render splits.
  - A position maps to its cube's offset in the chunk's flat cube array (`flattenWorldArrayIndex`) and its cell in a split's light map (`flattenRenderChunkArrayIndex`).
  - The loaded world is a flat `(2 worldSize)^2` grid of chunks, indexed by `getChunkAt`.
- **The chunk table** (`worldmap.dfy`). A growable array of chunks with a count and a capacity, searched linearly. It is modelled as the class `ChunkTable`, whose methods work on an `array<Chunk?>`.
- **The mesh builder** (`meshing.dfy`). For every solid voxel of a split, the builder appends one quad per side whose neighbour is air. In the model:
  - a quad is four vertices and the six indices `i, i+2, i+1, i, i+3, i+2`;
  - grass has a dirt bottom and grass-side sides;
  - across an X or Z chunk border, the builder reads the neighbouring chunk;
  - the triple loop is imperative Dafny over the RenderChunk objects, and is proved equal to a face list defined in world space.
- **Block light** (`lighting.dfy`). The flood fill has three parts:
  - a FIFO light queue;
  - per-split light maps;
  - the breadth-first fill `chunk_setBlockLight`, which writes a level, spreads it one level dimmer per step, and regenerates the mesh of every split it touched.

  The model covers the fill loop, its invariant, its termination and the dirty-list regeneration.
- **Block edits** (`edits.dfy`). `removeCubeAtWorldPosition` and `addCubeAtGlobalPos` each do three things:
  - refuse positions at the world's edge;
  - set one cube to air or to bedrock;
  - rebuild the edited voxel's split and, on a split boundary, at most one neighbouring split per axis.

## How the code is represented

- Objects the C code updates in place are Dafny classes:
  - `Chunk`: cube array, light-map arrays, RenderChunks;
  - `RenderChunk`: mesh buffers and counters;
  - `World`: the chunk grid;
  - `ChunkTable`;
  - `LightQueue`.
- Values are datatypes: `Cube`, `LightCell`, `Mesh`, `Node`.
- Methods that mutate state are proved against specification functions:
  - `SplitFaces` and `MeshOf` for the mesh builder;
  - `Update`/`UpdateAll` over a ghost copy of the light maps (`Lights`) for the flood fill;
  - `RemoveAtIndex`/`FirstIndex` for the chunk table.
- `startX`/`startZ` are chunk coordinates: `chunktable_insertAt` stores its arguments there, and `generateGeometryForRenderChunk` passes them to `getChunkAt`.
- Constants that the modelled files use but do not define are fixed in `WorldTypes` (materials.h and the LightMap definition are not part of this model):
  - `MAX_LIGHT_LEVEL` = 15 and `MIN_LIGHT_LEVEL` = 1;
  - material codes, with air = 0 (a calloc'd chunk is empty);
  - the 16 x 16 texture atlas.
- C's 32-bit integers are unbounded here. `SplitMeshFitsIndexType` shows that a split's index count stays far inside 32 bits.

### Where the code and its description differ

The model follows the code in each case below. Two places use a corrected definition instead, and both are logged under "Findings" with a member for the code as written. The flood fill's horizontal neighbour lookup uses the intended chunk (`Lighting.NeighbourChunk`, through `Lighting.Beside` and `Lighting.SpreadBeside`). `WorldMap.ChunkTable.InsertAt` grows a full table by `WorldMap.Grow`.

- A solid voxel on the outermost chunk column gets its outward face. `isOpaqueNegativeX` stays false when `chunkX == -worldSize` (src/world/world.c:152), so the world's outer walls are drawn.
- The comment at src/world/lighting.c:284 says light spreads into blocks that are not opaque. The gate at src/world/lighting.c:240 instead raises only voxels that are *not* transparent, that is, non-air voxels. `Lighting.Gate` models the gate as written.
- `freeGenerateUpdate` takes `(chunk, renderChunkId)` (src/world/world.c:219). The call at src/world/lighting.c:332 also passes the RenderChunk pointer. The model regenerates by chunk and split.
- The edit edge check accepts `x == worldSize*16 - 1`, `z == worldSize*16 - 1` and `y == 255`. At those three positions the rebuild looks one split beyond the world, so it fails the assert at src/world/util.c:57-58 or hands a null chunk to `freeGenerateUpdate`. See "Findings".

## Model

| member | source | states |
|---|---|---|
| Coords.SizesAgree | src/world/world.h:26-30 | CHUNK_SIZE is 256*16*16 and CHUNK_SPLITS is 256/16; a chunk holds CHUNK_SPLITS splits of SPLIT_SIZE cells |
| Coords.CDiv | src/world/util.c:42 | C division truncates toward zero: for a >= 0 the quotient is the floor, for a < 0 the ceiling |
| Coords.CRem | src/world/util.h:27 | C remainder: quotient*b + r == a, and r has the sign of a with abs(r) < b |
| Coords.CDivOfNatural | src/world/util.c:60 | on non-negative operands, C's / and % agree with the mathematical ones |
| Coords.FlattenWorldArrayIndex | src/world/util.h:22-24 | a voxel inside the chunk maps into [0, CHUNK_SIZE) |
| Coords.UnflattenWorldArrayIndex | src/world/util.h:22-24 | every cube-array offset decodes to a voxel inside the chunk |
| Coords.UnflattenOfFlatten | src/world/util.h:22-24 | decoding the flattened index gives back the voxel |
| Coords.FlattenOfUnflatten | src/world/util.h:22-24 | flattening a decoded offset gives back the offset |
| Coords.FlattenWorldRoundTrip | src/world/util.h:22-24 | both round trips of the cube-array layout together: the map is a bijection onto [0, CHUNK_SIZE) |
| Coords.FlattenWorldInjective | src/world/util.h:22-24 | two voxels of a chunk never share a cube |
| Coords.FlattenRenderChunkArrayIndex | src/world/util.h:26-28 | any non-negative height, local or global, maps into the SPLIT_SIZE cells of a light map |
| Coords.RenderIndexIgnoresSplit | src/world/util.h:27 | the light-map index depends on y only through y % 16, so global and local y address the same cell |
| Coords.RenderIndexNegativeY | src/world/util.h:27 | a negative y gives a negative index: (0, -1, 0) maps to -1, outside the light map |
| Coords.RenderIndexInjectiveInSplit | src/world/util.h:26-28 | two voxels of one split never share a light cell |
| Coords.ChunkCoordIsFloor | src/world/util.c:42-43 | the two-branch truncating expression is floor division by 16, so the chunk's extent contains x |
| Coords.ChunkCoordExamples | src/world/util.c:42-43 | -1 and -16 lie in chunk -1, -17 in chunk -2, 0 and 15 in chunk 0, 16 in chunk 1 |
| Coords.ChunkCoordOfOrigin | src/world/util.c:42-43 | every block of chunk cx's extent maps back to chunk cx |
| Coords.SplitIndexOf | src/world/util.c:60 | a height inside the chunk lies in split y/16, which is in range and whose 16-high band holds y |
| Coords.WorldPosToLocalPos | src/world/util.c:64-80 | the local position is in range (the asserts at 74-79) and adds back to the world position |
| Coords.LocalPosIsRemainder | src/world/util.c:64-80 | the local position is the floor remainder mod 16 on each axis |
| Coords.ChunkSlot | src/world/util.c:26-34 | a loaded chunk coordinate indexes inside the (2 worldSize)^2 grid |
| Coords.SlotBound | src/world/util.c:32 | the grid index z*(2ws) + x, normalised, is in range |
| Coords.ChunkSlotInjective | src/world/util.c:26-34 | distinct loaded chunk coordinates get distinct grid slots |
| Coords.SlotCoords | src/world/util.c:26-34 | every grid slot is the slot of one loaded chunk coordinate (getChunkAt is onto) |
| Util.ChunkAt | src/world/util.c:26-34 | getChunkAt on loaded coordinates returns the grid's chunk with those coordinates |
| Util.ChunkAtOfMember | src/world/util.c:26-34 | every chunk of the grid is found by getChunkAt at its own coordinates |
| Util.CubeAtLocalChunkPos | src/world/util.c:36-38 | getCubeAtLocalChunkPos uses the flattenWorldArrayIndex layout and stays inside the cube array |
| Util.ChunkAtWorldSpacePosition | src/world/util.c:40-51 | NULL exactly when the position's chunk is outside the loaded region; otherwise a grid chunk whose 16x16 extent contains (x, z) |
| Util.RenderChunkAtWorldSpacePosition | src/world/util.c:53-62 | none exactly outside the loaded region; otherwise the position's chunk and the split y/16 whose band holds y |
| Util.CubeAtWorldSpacePosition | src/world/util.c:82-102 | none exactly outside the loaded region; otherwise the chunk's cube at the local offset (asserts 96-99 hold) |
| Util.CubeAtWorldOfLocal | src/world/util.c:82-102 | the world-space lookup of a chunk's local voxel finds that chunk's cube |
| Util.CubeAtWorldInjective | src/world/util.c:82-102 | two world positions never share a cube |
| WorldTypes.RenderChunk.State | src/render/renderTypes.h:31-40 | a RenderChunk's state is its two buffers and three counters |
| WorldTypes.RenderChunk.constructor | src/world/worldmap.c:54-55 | a zeroed RenderChunk holds the empty mesh |
| WorldTypes.Chunk.constructor | src/world/worldmap.c:54-59 | the new chunk has the given coordinates, all-air cubes, dark light maps (chunk_initLightmap) and empty meshes, all freshly allocated |
| WorldMap.FirstIndex | src/world/worldmap.c:90-99 | the first entry holding (x, z), or count when none does |
| WorldMap.RemoveAtIndex | src/world/worldmap.c:75-80 | dropping entry i keeps the order of the others, shortens by one, and is a permutation minus s[i] |
| WorldMap.FirstIndexAppend | src/world/worldmap.c:90-99 | the lookup in a + b is the lookup in a, or past a the lookup in b |
| WorldMap.GrowAsWritten | src/world/worldmap.c:45 | the growth formula as written (floor of 1.5 n) |
| WorldMap.GrowthStallsAtOne | src/world/worldmap.c:43-47 | from capacity 1 the formula gives 1, so a full table of one slot does not grow |
| WorldMap.GrowAsWrittenFromTwo | src/world/worldmap.c:45 | from capacity 2 on, the formula strictly grows and stays within 1.5 n |
| WorldMap.Grow | src/world/worldmap.c:43-47 | the corrected growth always exceeds n and agrees with the formula from 2 on |
| WorldMap.ShiftDown | src/world/worldmap.c:75-79 | the memmove leaves the first n-1 slots equal to the old entries without entry i, and the slots past them unchanged |
| WorldMap.ChunkTable.Entries | src/world/worldMap.h:38-43 | the live entries are the first count slots, none null |
| WorldMap.ChunkTable.constructor | src/world/worldmap.c:20-27 | a table of the requested capacity with no entries (tblSize > 0 as asserted) |
| WorldMap.ChunkTable.InsertAt | src/world/worldmap.c:42-63 | one new chunk at (x, z) is appended, with every cube ZeroCube, every light cell ZeroLight and every split mesh EmptyMesh; old entries keep their places; a full table grows to the corrected `Grow` of its capacity, any other keeps its capacity |
| WorldMap.ChunkTable.RemoveAt | src/world/worldmap.c:65-88 | the first entry holding (x, z) is removed and the rest shift down in order; an entry must exist (assert at 87) |
| WorldMap.ChunkTable.RemoveEntry | src/world/worldmap.c:71-80 | removing entry i shifts the later entries down by one |
| WorldMap.ChunkTable.GetAt | src/world/worldmap.c:90-99 | NULL exactly when no entry holds (x, z); otherwise the first entry holding it |
| WorldMap.ChunkTable.Foreach | src/world/worldmap.c:101-104 | the callback sees exactly the live entries, in order |
| WorldMap.InsertThenRemove | src/world/worldmap.c:42-88 | after inserting a new coordinate, removing it gives back the old table |
| WorldMap.InsertDuplicateShadowed | src/world/worldmap.c:42-99 | inserting a coordinate already present does not change what getAt finds |
| WorldMap.DropNonMatch | src/world/worldmap.c:90-99 | an entry that does not hold the key shifts the lookup by one position and changes nothing else |
| WorldMap.RemoveKeepsOtherLookups | src/world/worldmap.c:65-99 | removing one key leaves every other key found, and found to the same chunk |
| Meshing.IsTransparent | src/world/world.c:86-90 | the voxel's cube is air |
| Meshing.WorldCube | src/world/util.c:82-102 | the world-space cube exists exactly inside the loaded region and the chunk height |
| Meshing.TransparencyTestsAgree | src/world/world.c:86-96 | isTransparentAtCube on the world-space cube agrees with isTransparent on the chunk array, and is false on NULL |
| Meshing.OpenInChunk | src/world/world.c:86-90 | inside a loaded chunk, the world-space openness test is the chunk's air test |
| Meshing.OpenAboveOrBelow | src/world/world.c:190-196 | positions above the top or below the floor count as open |
| Meshing.OpenBeyondX | src/world/world.c:152-167 | positions past the world's X edge count as open |
| Meshing.OpenBeyondZ | src/world/world.c:168-183 | positions past the world's Z edge count as open |
| Meshing.NeighbourhoodOf | src/world/world.c:147-183 | the builder reads the chunk's own cubes, and each X/Z neighbour exactly when it is loaded |
| Meshing.UpExposedIffOpen | src/world/world.c:190 | the up test (top layer, or air above) holds iff the world-space voxel above is open |
| Meshing.DownExposedIffOpen | src/world/world.c:195 | the down test (floor, or air below) holds iff the voxel below is open |
| Meshing.WestExposedIffOpen | src/world/world.c:152-159 | the west test (air in the chunk, air across the border, or the world's edge) holds iff the world-space voxel at x-1 is open |
| Meshing.EastExposedIffOpen | src/world/world.c:160-167 | the east test holds iff the voxel at x+1 is open |
| Meshing.SouthExposedIffOpen | src/world/world.c:168-175 | the south test holds iff the voxel at z-1 is open |
| Meshing.NorthExposedIffOpen | src/world/world.c:176-183 | the north test holds iff the voxel at z+1 is open |
| Meshing.ExposedIffOpen | src/world/world.c:147-213 | for every side, the code's exposure test on the chunk arrays equals world-space openness of the neighbour |
| Meshing.FaceIf | src/world/world.c:190-213 | a side contributes its one face exactly when exposed, with the face's material |
| Meshing.VoxelFacesSpec | src/world/world.c:140-213 | an air voxel gives no faces; a solid voxel gives at most six, one per exposed side, each with its side's material (grass: dirt bottom, grass-side walls) |
| Meshing.IsolatedVoxelShowsSixFaces | src/world/world.c:185-213 | a solid voxel with air on all six sides shows six faces |
| Meshing.AtlasCellOfMaterial | src/world/world.c:109-110 | the UV cell (material % 16, material / 16) is inside the atlas and determines the material |
| Meshing.WellFormedIndicesInRange | src/world/world.c:115-122 | in a well-formed mesh every index names an existing vertex |
| Meshing.AddFaceWellFormed | src/world/world.c:98-124 | buildFace keeps the mesh whole quads with counters matching the buffers |
| Meshing.AddFacesSnoc | src/world/world.c:98-124 | appending one more face is one more buildFace |
| Meshing.AddFacesAppend | src/world/world.c:98-124 | building two face lists in turn is building their concatenation |
| Meshing.AddFacesWellFormed | src/world/world.c:98-124 | building faces keeps a mesh well formed, adds 4 vertices and 6 indices per face, and keeps the old data as a prefix |
| Meshing.MeshOfWellFormed | src/world/world.c:98-124 | a rebuilt mesh has 4 vertices and 6 indices per face and is well formed |
| Meshing.BuildFace | src/world/world.c:98-124 | the split's mesh gains exactly one face |
| Meshing.SplitLayerInChunk | src/world/world.c:134 | the loop's height 16*id + j stays inside the chunk |
| Meshing.LoopFacesBound | src/world/world.c:131-133 | a partial loop emits at most six faces per voxel visited |
| Meshing.LoopFacesMember | src/world/world.c:131-216 | a face is emitted by the partial loop iff its voxel was visited and emits it |
| Meshing.VoxelFacesMember | src/world/world.c:185-213 | a voxel's faces are the split faces at that voxel |
| Meshing.ChunkVoxelsSpec | src/world/world.c:185-213 | each voxel emits at most six faces, all at its own position |
| Meshing.SplitFacesSpec | src/world/world.c:126-217 | the split's face list holds exactly the faces of solid, exposed voxels of the split, at most six per voxel |
| Meshing.VoxelFacesDistinct | src/world/world.c:185-213 | a voxel never emits the same face twice |
| Meshing.LoopFacesDistinct | src/world/world.c:131-216 | the triple loop visits each voxel once, so it emits no face twice |
| Meshing.SplitFacesOnce | src/world/world.c:126-217 | the split's face list has no duplicates, and each face of an exposed solid voxel of the split occurs in it exactly once |
| Meshing.AllAirSplitHasNoFaces | src/world/world.c:140-142 | a split of air emits no faces |
| Meshing.SplitFacesMatchWorld | src/world/world.c:126-217 | a face is in the rebuilt split iff its voxel is in the split and solid, its material follows the grass rule, and its world-space neighbour is open |
| Meshing.AllAirSplitMeshIsEmpty | src/world/world.c:126-217 | an all-air split rebuilds to the empty mesh |
| Meshing.SplitMeshFitsIndexType | src/world/world.c:113-123 | one split's mesh has at most 98304 vertices and 147456 indices, inside the 32-bit counters |
| Meshing.AddFaceIf | src/world/world.c:190-213 | each guarded buildFace is the face list of that side |
| Meshing.AddFacesSix | src/world/world.c:190-213 | six face groups in turn are their concatenation |
| Meshing.AddVoxelFaces | src/world/world.c:190-213 | a voxel's faces are the six guarded buildFace calls, in the code's order |
| Meshing.AirVoxelAddsNothing | src/world/world.c:140-142 | the skip of transparent voxels adds nothing |
| Meshing.NeighbourOpacity | src/world/world.c:147-183 | each isOpaque flag is set iff the voxel is on that border and the neighbour chunk's facing voxel is solid |
| Meshing.ExposureTests | src/world/world.c:190-213 | the six conditions computed equal the six exposure tests |
| Meshing.BuildFaceWhen | src/world/world.c:190-213 | a guarded buildFace adds the face iff its test holds |
| Meshing.EmitVoxelFaces | src/world/world.c:188-213 | the six guarded buildFace calls add the voxel's faces with the grass material rule |
| Meshing.BuildSolidCubeFaces | src/world/world.c:144-213 | a solid voxel adds exactly its VoxelFaces |
| Meshing.BuildCubeFaces | src/world/world.c:134-213 | one inner iteration adds the visited voxel's faces (none when transparent) |
| Meshing.ColumnStep | src/world/world.c:133 | one more inner iteration extends the loop's face list by that voxel's faces |
| Meshing.RowStep | src/world/world.c:132 | finishing a column is starting the next z |
| Meshing.SplitStep | src/world/world.c:131 | finishing a row is starting the next x |
| Meshing.BuildNextCube | src/world/world.c:133-213 | after the visit the mesh is the loop's face list up to the next voxel |
| Meshing.BuildColumn | src/world/world.c:133-214 | the j loop adds the faces of the 16 voxels of a column |
| Meshing.BuildRow | src/world/world.c:132-215 | the z loop adds the faces of a 16x16 row of columns |
| Meshing.GenerateGeometryForRenderChunk | src/world/world.c:126-217 | the split's mesh gains exactly SplitFaces of the chunk's neighbourhood, appended to what it held |
| Meshing.ClearRenderChunk | src/world/world.c:225 | freeing the split's buffers leaves the empty mesh |
| Meshing.FreeGenerateUpdate | src/world/world.c:219-228 | the split's mesh becomes exactly the mesh of its faces, and is well formed |
| Meshing.CubesOfWorld | src/world/world.c:29 | the snapshot mirrors every chunk's cube array |
| Meshing.NeighbourhoodInMirror | src/world/world.c:147-183 | the neighbourhood read from a snapshot is the live one |
| Meshing.SplitRenderChunksDistinct | src/world/worldTypes.h:35 | distinct (chunk, split) pairs own distinct RenderChunks |
| Meshing.Regenerate | src/world/world.c:219-228 | freeGenerateUpdate leaves the split regenerated from the current cubes |
| Lighting.LightQueue.constructor | src/world/lighting.c:52-56 | a new queue is empty |
| Lighting.LightQueue.Push | src/world/lighting.c:73-90 | the node joins the back; the nodes before it stay in order |
| Lighting.LightQueue.Front | src/world/lighting.c:92-95 | returns the front node (count > 0 asserted) |
| Lighting.LightQueue.Pop | src/world/lighting.c:58-65 | drops exactly the front node (count > 0 asserted) |
| Lighting.LightQueue.Cleanup | src/world/lighting.c:67-71 | pops until the queue is empty |
| Lighting.LightQueueSelfTest | src/world/lighting.c:150-178 | the self-test's three fronts are 0, 1 and 69: FIFO order survives interleaved pushes and pops |
| Lighting.SetBlockLight | src/world/lighting.c:204-210 | the cell's block channel becomes value, its global channel and every other cell stay, and an equal write changes nothing |
| Lighting.SetGlobalLight | src/world/lighting.c:193-198 | the cell's global channel becomes value, its block channel and every other cell stay |
| Lighting.LocalHeightSameCell | src/world/lighting.c:241-242 | passing y % 16 or y addresses the same light cell |
| Lighting.ChunkGetBlockLight | src/world/lighting.c:231-234 | reads the block channel of the voxel's cell in split y/16 |
| Lighting.LightCellsDistinct | src/world/lighting.c:200-210 | two voxels of a split never share a light cell |
| Lighting.InsertUnique | src/world/lighting.c:266-279 | the dirty list gains the (chunk, split) pair iff it was missing, and stays free of duplicates |
| Lighting.CellNodeOfNode | src/world/lighting.c:26-35 | a node is determined by its chunk, split and light cell |
| Lighting.CubeOffsetOfCell | src/world/util.h:22-28 | a light cell of a split names a cube of the chunk |
| Lighting.CubeOffsetOfNode | src/world/lighting.c:240 | a node's light cell and its cube are the same voxel |
| Lighting.MirrorsSplit | src/world/lighting.c:240-242 | the ghost light maps mirror the world iff they mirror every split and the one being written |
| Lighting.LightsOf | src/world/lighting.c:216-221 | a chunk's light maps, split by split |
| Lighting.LightsOfWorld | src/world/lighting.c:216-221 | the ghost light maps of the world mirror the arrays |
| Lighting.SetLevel | src/world/lighting.c:242 | writing a block level changes that cell's block channel only |
| Lighting.SetLevelSame | src/world/lighting.c:242 | writing the level a cell already has changes nothing |
| Lighting.MirrorsAfterSet | src/world/lighting.c:242 | after the array write the ghost light maps still mirror the world |
| Lighting.Update | src/world/lighting.c:236-246 | one visit keeps the light maps shaped |
| Lighting.UpdateRaises | src/world/lighting.c:239-244 | when the gate passes, the cell becomes lightLevel - 1 and the node joins the queue |
| Lighting.UpdateKeeps | src/world/lighting.c:239-240 | when the gate fails, nothing changes |
| Lighting.UpdateAllConcat | src/world/lighting.c:288-324 | visiting two groups in turn is visiting their concatenation |
| Lighting.UpdateAllSingle | src/world/lighting.c:288-324 | visiting one node is one updateSurroundingBlock |
| Lighting.NeighbourChunk | src/world/lighting.c:288-319 | the intended neighbour lookup: the chunk at chunk coordinates (startX+dx, startZ+dz), null exactly outside the loaded region |
| Lighting.NeighbourChunkAsWritten | src/world/lighting.c:289 | the lookup as written, with startX ± 16 read as a world coordinate: null iff that block's chunk is unloaded |
| Lighting.NeighbourChunkAsWrittenMisses | src/world/lighting.c:289-299 | for chunk (1, 0) the lookup as written finds the chunk itself to the east and chunk -1 to the west, where the intended neighbours are 2 and 0 |
| Lighting.Beside | src/world/lighting.c:288-319 | at most one neighbour per horizontal step, always a voxel of the world |
| Lighting.Vertical | src/world/lighting.c:321-324 | at most one neighbour below or above, none outside the height |
| Lighting.Neighbours | src/world/lighting.c:288-324 | at most six neighbours, all voxels of the world |
| Lighting.InitialInv | src/world/lighting.c:257-258 | the seeded light maps and one-node queue satisfy the flood invariant |
| Lighting.RaiseKeepsBrightened | src/world/lighting.c:240-242 | a raise of a solid cell below the start level keeps every non-start cell only brightened, below the start level |
| Lighting.RaiseKeepsTracked | src/world/lighting.c:242-243 | a raised and queued cell stays tracked |
| Lighting.SetLevelKeepsGlobal | src/world/lighting.c:242 | block writes never change a global (sun) level |
| Lighting.RaiseKeepsLevels | src/world/lighting.c:242-243 | queued levels stay at most the start level |
| Lighting.RaiseKeepsInv | src/world/lighting.c:240-243 | a gated raise keeps the whole flood invariant |
| Lighting.UpdateKeepsInv | src/world/lighting.c:236-246 | one visit keeps the flood invariant |
| Lighting.UpdateAllKeepsInv | src/world/lighting.c:288-324 | visiting all neighbours keeps the flood invariant |
| Lighting.PopKeepsInv | src/world/lighting.c:263-279 | pop plus dirty-list insert keeps the invariant: what the node tracked, the list now tracks |
| Lighting.PopKeepsTracked | src/world/lighting.c:263-279 | after the pop, every changed cell is queued or in the dirty list |
| Lighting.WeightAppend | src/world/lighting.c:243 | a push adds 7^level to the queue's weight |
| Lighting.SixBumpsWeighLess | src/world/lighting.c:239-243 | six pushes at level L-1 weigh less than the popped node at L |
| Lighting.RaiseShrinks | src/world/lighting.c:240-242 | a raise never adds a possible raise, and a strict one removes one |
| Lighting.UpdateMeasure | src/world/lighting.c:236-246 | a visit either shrinks the possible raises or adds at most one bump to the weight |
| Lighting.UpdateAllMeasure | src/world/lighting.c:288-324 | the same over a group of visits |
| Lighting.SpreadDecreases | src/world/lighting.c:262-325 | one loop round strictly decreases (possible raises, queue weight): the flood fill terminates |
| Lighting.RaiseAndEnqueue | src/world/lighting.c:241-243 | the raising branch stores lightLevel - 1 and pushes the node, which is Update of the old state |
| Lighting.UpdateSurroundingBlock | src/world/lighting.c:236-246 | the light maps and queue become Update of what they were |
| Lighting.SpreadBeside | src/world/lighting.c:288-319 | one horizontal block of the loop visits the in-chunk neighbour, or the neighbour chunk's facing voxel when loaded |
| Lighting.SpreadVertical | src/world/lighting.c:321-324 | the vertical visits happen only inside the height |
| Lighting.NeighboursInOrder | src/world/lighting.c:288-324 | the loop body visits west, east, south, north, below, above in that order |
| Lighting.SpreadFrom | src/world/lighting.c:288-324 | the six visits update the state to UpdateAll of the neighbours |
| Lighting.TakeFront | src/world/lighting.c:263-282 | the front node is popped and its own block level read |
| Lighting.SetLevelOther | src/world/lighting.c:242 | a block write leaves every other voxel's level alone |
| Lighting.UpdateGrows | src/world/lighting.c:236-246 | a visit lowers no level, queues every cell it changes, and leaves a solid neighbour at least lightLevel - 1 |
| Lighting.GrewTrans | src/world/lighting.c:288-324 | the same over two visits in turn |
| Lighting.UpdateAllGrows | src/world/lighting.c:288-324 | after the six visits every solid neighbour is at least one below the popped level, and no level dropped |
| Lighting.InitialReach | src/world/lighting.c:254-258 | the seeded state spreads nothing yet and lies under every ceiling that falls one per step from value at the start |
| Lighting.UpdateAllBelow | src/world/lighting.c:288-324 | the visits keep the light under a ceiling that the popped level minus one does not exceed at any neighbour |
| Lighting.StepKeepsSpread | src/world/lighting.c:262-325 | after a round, every changed cell that has left the queue has passed its level minus one on to each solid neighbour |
| Lighting.PassedOnKept | src/world/lighting.c:262-325 | the per-cell case of that: the popped cell has just passed on, any other passed on before and its neighbours only rose |
| Lighting.PassedOnRises | src/world/lighting.c:240-242 | raising neighbours keeps a cell's light passed on |
| Lighting.StepKeepsBelow | src/world/lighting.c:262-325 | a round keeps the light under every ceiling that falls by one per step from value at the start |
| Lighting.StepKeepsReach | src/world/lighting.c:262-325 | a round keeps both: light passed on, and under every such ceiling |
| Lighting.FloodStep | src/world/lighting.c:262-325 | one round keeps the flood invariant and the spread facts, and decreases the termination measure |
| Lighting.FloodFill | src/world/lighting.c:262-325 | the loop ends with an empty queue, the invariant intact, every changed cell passed on to its solid neighbours, and the light under every ceiling falling one per step from the start |
| Lighting.RegenerateSplit | src/world/lighting.c:328-333 | regenerating one dirty split keeps the earlier ones regenerated |
| Lighting.RegenerateSplits | src/world/lighting.c:328-333 | every split of the dirty list is regenerated and every other split's mesh is unchanged |
| Lighting.Finish | src/world/lighting.c:327-336 | the splits of the dirty list are regenerated, the rest keep their meshes, and the queue is cleaned up |
| Lighting.DrainedLit | src/world/lighting.c:262-325 | once the queue is empty, the light maps are lit: start at value, sun kept, others only brightened below value, every changed cell passed on, light under every ceiling that falls one per step from value at the start and bounds the old levels |
| Lighting.DrainedListCovers | src/world/lighting.c:262-333 | once the queue is empty, every changed cell's split is in the dirty list |
| Lighting.SeedLight | src/world/lighting.c:254-258 | the start voxel's block level becomes value and the queue holds just the start |
| Lighting.LightFlood | src/world/lighting.c:253-325 | the seed and loop leave an empty queue and lit light maps, and touch no mesh |
| Lighting.ChunkSetBlockLight | src/world/lighting.c:253-337 | start cell at value; no sun level changes; every other cell only brightens, to less than value and only if solid; every changed cell of level above MIN has given each solid neighbour at least its level minus one; every cell stays under any ceiling that is at least value at the start, at least the old level everywhere, and drops by at most one per neighbour step (so a cell k steps away ends at most the larger of its old level and value - k); every changed split is regenerated and every split outside the dirty list keeps its mesh |
| Edits.AcceptedEditIsLoaded | src/world/world.c:275-280 | a position past the edge check is loaded and above the floor |
| Edits.XTarget | src/world/world.c:242-250 | at most one split across X is rebuilt |
| Edits.YTarget | src/world/world.c:252-260 | at most one split across Y is rebuilt |
| Edits.ZTarget | src/world/world.c:262-270 | at most one split across Z is rebuilt |
| Edits.RemeshPositions | src/world/world.c:230-271 | the edited voxel first, then at most three more positions |
| Edits.SplitAt | src/world/util.c:53-62 | the split a position belongs to, in its loaded chunk |
| Edits.SplitsOf | src/world/util.c:53-62 | the splits of a list of positions, one each |
| Edits.RemeshSplits | src/world/world.c:230-271 | one to four splits, each of a chunk of the world |
| Edits.RemeshSplitsParts | src/world/world.c:230-271 | the rebuilt splits are the voxel's own, then the X, Y and Z ones |
| Edits.ChunkCoordSteps | src/world/world.c:243-247 | x ± 16 lies one chunk over |
| Edits.InRemeshSplits | src/world/world.c:230-271 | each position of the rebuild is loaded, and its split is rebuilt |
| Edits.RemeshPositionsShape | src/world/world.c:242-270 | the k-th extra position is a 16-block step along one axis, in X, Y, Z order |
| Edits.RemeshSplitsDistinct | src/world/world.c:230-271 | no split is rebuilt twice |
| Edits.XTargetInRange | src/world/world.c:242-250 | the X step stays in the world exactly off the two outermost columns |
| Edits.ZTargetInRange | src/world/world.c:262-270 | the Z step stays in the world exactly off the two outermost rows |
| Edits.YTargetInRange | src/world/world.c:252-260 | the Y step stays in the chunk's height exactly for 0 < y < 255 |
| Edits.IntendedEdgeCheckIsRemeshInRange | src/world/world.c:275-280 | the corrected edge check rejects exactly the positions whose rebuild would leave the world |
| Edits.EdgeCheckAdmitsEscapingRemesh | src/world/world.c:275-280 | past the check as written, the rebuild stays in the world iff x, z differ from worldSize*16-1 and y from 255 |
| Edits.EastEdgeEditEscapes | src/world/world.c:275-280 | the edit at (worldSize*16-1, 1, 0) passes the check but its rebuild leaves the world |
| Edits.TopEdgeEditEscapes | src/world/world.c:279-280 | the edit at (0, 255, 0) passes the check but its rebuild leaves the world |
| Edits.ChunkCoordOfNeighbour | src/world/world.c:237-250 | a one-block step changes the chunk only when it crosses a chunk border |
| Edits.SplitIndexOfNeighbour | src/world/world.c:252-260 | a one-block vertical step changes the split only across a split border |
| Edits.XNeighbourCovered | src/world/world.c:242-250 | the split of an X face neighbour is rebuilt |
| Edits.YNeighbourCovered | src/world/world.c:252-260 | the split of a Y face neighbour is rebuilt |
| Edits.ZNeighbourCovered | src/world/world.c:262-270 | the split of a Z face neighbour is rebuilt |
| Edits.RemeshCoversNeighbours | src/world/world.c:237-270 | every face neighbour's split is rebuilt, so every mesh an edit can change is regenerated |
| Edits.RemeshAt | src/world/world.c:233-235 | the voxel's split is regenerated and earlier regenerations kept |
| Edits.XPartShape | src/world/world.c:242-250 | the X split lies in another chunk of the same row |
| Edits.YPartShape | src/world/world.c:252-260 | the Y split is another split of the same chunk |
| Edits.ZPartShape | src/world/world.c:262-270 | the Z split lies in another chunk of the same column |
| Edits.SingleTarget | src/world/world.c:242-270 | a single target's split and RenderChunk |
| Edits.RemeshPartsDisjoint | src/world/world.c:230-271 | the voxel's split and the X, Y and Z splits are pairwise distinct |
| Edits.RenderChunksOfConcat | src/world/world.c:230-271 | the RenderChunks of two lists are the union of each list's |
| Edits.RemeshRenderChunksParts | src/world/world.c:230-271 | the rebuilt RenderChunks are the union of the four parts |
| Edits.RemeshAcrossX | src/world/world.c:242-250 | the X split, if any, is regenerated, earlier ones kept |
| Edits.RemeshAcrossY | src/world/world.c:252-260 | the Y split, if any, is regenerated, earlier ones kept |
| Edits.RemeshAcrossZ | src/world/world.c:262-270 | the Z split, if any, is regenerated, earlier ones kept |
| Edits.RemeshChunkGeometryAtGlobalPos | src/world/world.c:230-271 | every split of RemeshSplits is regenerated from the current cubes |
| Edits.WithMaterial | src/world/world.c:285 | the material changes; light and flags stay |
| Edits.SetMaterialIn | src/world/world.c:285 | exactly one cube of one chunk changes material |
| Edits.SetMaterial | src/world/world.c:285 | the write to the cube array is SetMaterialIn of the snapshot |
| Edits.RemoveCubeAtWorldPosition | src/world/world.c:273-287 | at the edge nothing changes; otherwise the given cube becomes air, its splits are rebuilt and no other RenderChunk changes |
| Edits.AddCubeAtGlobalPos | src/world/world.c:290-309 | at the edge nothing changes; otherwise the cube at (x, y, z) becomes bedrock, its splits are rebuilt and no other RenderChunk changes |

## Left out

- OpenGL: `freeRenderChunkGL` and `uploadRenderChunkToGL` (src/world/world.c:225-227) are not modelled beyond clearing the CPU-side buffers. Neither is `uploadGeometryToGL`.
- Console output: the `printf` calls (src/world/world.c:281, 302; src/world/lighting.c:176) are left out.
- `initWorld`, `freeWorld` and the terrain generator (`generateWorld`, `generateCavesAndStructures`) are not modelled. The world is a parameter whose chunks already exist.
- `checkCubeAtLookAtCube` and `getViewDistance` are float camera geometry and are not modelled.
- Floating point:
  - vertex positions are kept as integer voxel positions plus corner numbers;
  - the UV division by TEXTURE_ATLAS_COUNT_F is kept as the atlas cell it selects;
  - the `(S32)` casts of `addCubeAtGlobalPos`'s float position are left out.
- WorldMap.GrowAsWritten: the float growth `(S32)((F32)n * 1.5f)` is modelled as `n + n / 2`, which agrees with the float product for every capacity n with 3n < 2^24 (so for every capacity below 2^22), where `n` and `1.5n` are both exact in single precision. Above that bound the float product can round up, for instance at n = 5592409 it gives 8388614 where `n + n / 2` is 8388613; that rounding is not modelled.
- Memory management is left out: `malloc`/`realloc`/`free`, `chunktable_free`, `chunk_freeLightmap`, `sb_free`. So is the invalidation of chunk pointers by `realloc` or `memmove` in the chunk table, whose array holds references here.
- Lighting.LightQueue: the queue's linked nodes (`front`, `back`, `next`, `prev` pointers) are a sequence. The pointer wiring of `lightqueue_push` is not modelled, including `prev` set to the front rather than the old back.
- The circular-buffer queue in the comment at src/world/lighting.c:97-148 is dead code and is not modelled.
- Cube bit packing: a Cube is a datatype of bounded integers, not a packed 16-bit word (src/world/worldTypes.h:24-29).
- S32 overflow: integers are unbounded. No operation of the core comes near 2^31 for the world sizes used. `SplitMeshFitsIndexType` bounds the mesh counters.
- Edits.RemoveCubeAtWorldPosition: requires that an edit past the edge check is not at x = worldSize*16-1, z = worldSize*16-1 or y = 255. There the source would fail an assert or dereference NULL during the rebuild; see "Findings".
- Edits.AddCubeAtGlobalPos: the same precondition, for the same reason.
- Edits.RemoveCubeAtWorldPosition: the caller's `cube` pointer is a CubeRef into a chunk of the world. The model does not require it to be the cube at (x, y, z), and neither does the source.
- Lighting.ChunkSetBlockLight: states the final light maps by bounds and a local fixpoint (start at value, sun channel kept, others only brightened below value, each changed cell passed on to its solid neighbours, no cell above the larger of its old level and value minus its step distance), not by the exact level each cell ends at. Apart from the seed write at the start cell, no level drops during the fill, but the dirty list may still name a split with no changed cell, for two reasons. The gate at src/world/lighting.c:240 also passes when a cell already holds `lightLevel - 1`, so line 242 rewrites the same level, line 243 pushes the node, and its split enters `chunkList` when it is popped. And the seed write at line 257 may store the level the start cell already had, while line 258 still queues the start. Such a split's mesh is rebuilt all the same, and the model does not bound the dirty list from above. The `sb_` stretchy buffer `chunkList` is a sequence.
- Lighting.SpreadBeside: looks up the neighbouring chunk by chunk coordinates startX ± 1 (`Lighting.NeighbourChunk`), not by `startX ± CHUNK_WIDTH` as written at src/world/lighting.c:289, 297, 305 and 313, so the fill's spread across chunk borders is the intended one; the lookup as written is `Lighting.NeighbourChunkAsWritten` (see "Findings").
- WorldMap.ChunkTable.InsertAt: grows a full table by `WorldMap.Grow`, not by the formula as written, which leaves a full table of capacity 1 at capacity 1 (`WorldMap.GrowthStallsAtOne`, see "Findings"); for every capacity from 2 on the two agree.
- The `r` RenderChunk pointers that `remeshChunkGeometryAtGlobalPos` computes and never uses are not modelled.
- `lightmap_init`'s `memset` is the zeroing in the Chunk constructor. `lightmap_getGlobalLight`/`lightmap_getBlockLight` are the functions `GlobalLight`/`BlockLight`.

## Findings

| source | as written | input that shows it | evidently intended | confidence | as-written member | corrected member |
|---|---|---|---|---|---|---|
| src/world/worldmap.c:43-47 | the new capacity `(S32)(tableSize * 1.5f)` of a full table of capacity 1 is 1, so the `realloc` keeps one slot and the insert writes past the array | `chunktable_create(1, &t)`, then two `chunktable_insertAt` | a full table grows strictly | not executed | WorldMap.GrowthStallsAtOne | WorldMap.Grow |
| src/world/lighting.c:289 | the neighbour lookups pass `startX ± CHUNK_WIDTH` (chunk coordinates plus a block count) to `getChunkAtWorldSpacePosition`, which expects world coordinates; the same happens at lines 297, 305 and 313 | light at local x = 15 in the chunk with startX = 1: world x 17 lies in chunk 1 itself, so light re-enters the same chunk's column 0 instead of chunk 2 | look up the chunk at chunk coordinates startX ± 1 (world x (startX ± 1) * 16) | not executed | Lighting.NeighbourChunkAsWrittenMisses | Lighting.NeighbourChunk |
| src/world/world.c:275-280 | the edge check admits x = worldSize*16-1, z = worldSize*16-1 and y = 255, where the rebuild looks one split beyond the world | removing the cube at (worldSize*16-1, 1, 0), or at (0, 255, 0) | reject exactly the positions whose rebuild would leave the world | not executed | Edits.EastEdgeEditEscapes | Edits.IntendedEdgeCheckIsRemeshInRange |
