# voxel-impl chunk core in Dafny

This project models the chunk bookkeeping and meshing core of the voxel-impl Bevy demo and proves properties of the model. The core is:

- the 2-D chunk store with its coordinate codec (`linearize`, `delinearize`, `*_domain`, get-or-create, `reset`);
- the update queue and the loaded list;
- the render step with its `Wait`/`Render` state machine;
- the 16³ chunk and its face-culling mesher, with the voxel tables;
- the debug terrain classifier and the column fill `generate_terrain_3d`;
- the two older 3-D variants of the store, in `src/chunk/container.rs` and `src/chunk.rs`.

Rust integer semantics are written out in `RustInt` (`rust_int.dfy`):

- `/` and `%` truncate toward zero (`Div`, `Rem`);
- `i32` is a subset type, and `Wrap` gives two's-complement wrap-around;
- `<<`, `|` and `& 1023` act on the 32-bit pattern of an `i32` (`Pattern`, `Shl`, `BitOr`, `Low10`).

Every key the stores compute is therefore the source's own expression. Lemmas such as `Pack20` and `Pack3Injective` turn a key into base-1024 arithmetic wherever the components are in range.

Modules, one or two per source file:

| module | file | models |
|---|---|---|
| `RustInt` | rust_int.dfy | truncating division, i32 wrap, shift/or/mask on 32-bit patterns |
| `ChunkGrid` | chunk.dfy | `src/chunk/mod.rs`: sizes, `ChunkShape`, the `Chunk` class over an `array3`, `new`, `set_block` |
| `Voxel` | voxel.dfy | `src/chunk/voxel.rs`: `Voxel`, `VOID`, the cube tables, `get_visibility`, `merge_value` |
| `Meshing` | meshing.dfy | `src/chunk/meshing.rs`: the triple loop of `mesh`, its face tests and pushes, the index loop |
| `MeshingLemmas` | meshing_lemmas.dfy | vertex/index counts, index values, ordering, empty and solid chunks |
| `MeshIndexFinding` | mesh_finding.dfy | the index-stride discrepancy and the corrected mesher |
| `ChunkStore` | container.dfy | `src/chunk/container/mod.rs`: codec, get-or-create, `reset` |
| `UpdateQueue` | queue.dfy | `src/chunk/container/queue.rs` |
| `Loaded` | loaded.dfy | `src/chunk/container/loaded.rs` |
| `ChunkPlugin` | plugin.dfy | `src/chunk/plugin.rs`: `render_queue_check`, `render_blocks`, the aliasing discrepancy and the by-id variant |
| `Terrain` | terrain.dfy | `src/terrain/mod.rs`: `get_block_type` of `DebugTerrainGenerator` |
| `TerrainFill` | noise.dfy | `src/terrain/noise.rs`: `generate_terrain_3d` with the noise map as a parameter |
| `ChunkStore3d` | container_3d.dfy | `src/chunk/container.rs`: the 3-D store with 16-wide chunks |
| `OldChunks` | old_chunk.dfy | `src/chunk.rs`: the 3-D store with 12-wide, centre-positioned chunks, its `Chunk` and `set_block` |

Modelling choices:

- **Stateful objects are classes.**
  - The stores, the queue and the loaded list keep their collection in a `map` or `seq` field, which the methods reassign.
  - The two `Chunk` types keep their blocks in an `array3`. The constructors fill it with nested loops; `set_block` writes one cell.
- **Chunks inside a store are values.** A `StoredChunk` is a world position and a block sequence; a `Chunk3` is the 3-D equivalent.
- **Get-or-create keeps its recursion.** Each accessor inserts and then calls itself again. All of them are specified by one function, `ChunkStore.Fetch`, whose contract states hit and miss behaviour and that existing entries are kept.
- **The render step returns its effects.** Spawned entities become a returned list of spawn requests, and the Bevy state becomes a returned `ChunkLoadState`. The global queue is an object passed in.
- **Mesher positions are half-units.** The ±0.5 offsets of `CUBE_VERTICES` become ±1, and a cell's colour is identified by the cell's coordinates.
- **Terrain heights are exact reals.** The noise map is a function `(x, y) -> real`, and the generator is a function from a height to an id.
- **Division truncates toward zero**, as Rust's `/` on `i32` does.
- **The mesher emits one cube of 8 vertices per visible face**, with no greedy merging of faces.
- **The loaded list is replaced wholesale** at the end of `render_blocks`.
- **`render_blocks` drains the whole queue** in one step.

`src/chunk/container/mod.rs` calls a two-argument `Chunk::new(x, z)`, which `src/chunk/mod.rs` does not define. The store therefore treats a chunk as its constructor arguments plus 4096 blocks set to 1.

## Model

| member | source | states |
|---|---|---|
| RustInt.Div | src/chunk/container/mod.rs:60 | Rust's `/` on i32 for a positive divisor: the quotient truncated toward zero, bracketed on both sides of the dividend for either sign |
| RustInt.Rem | src/chunk/container/mod.rs:66 | Rust's `%`: the dividend is divisor times quotient plus remainder, and the remainder has the dividend's sign and is below the divisor in magnitude |
| RustInt.Wrap | src/chunk/container/mod.rs:49 | two's-complement wrap-around into i32: congruent to the input modulo 2^32 and the identity on in-range values |
| RustInt.DivMulCancel16 | src/chunk/container/mod.rs:49 | `(x * 16) / 16 == x` under truncating division, for every x |
| RustInt.Pattern | src/chunk/container.rs:18 | the 32-bit pattern of an i32: below 2^32, with negatives mapped to x + 2^32 |
| RustInt.Shl | src/chunk/container/mod.rs:96 | `<<` on an i32 gives a 32-bit pattern |
| RustInt.Low10 | src/chunk/container/mod.rs:96 | `x & 1023` is in [0, 1024), is x itself there, and agrees with x modulo 1024 for negative x as well |
| RustInt.Pack10 | src/chunk/container/mod.rs:96 | for a in range and c < 1024, `(a << 10) OR c == a * 1024 + c` |
| RustInt.Pack20 | src/chunk/container.rs:18 | for a < 2^12 and b, c < 1024, `(a << 20) OR (b << 10) OR c` is the base-1024 number a, b, c |
| RustInt.BitOrBound | src/chunk/container.rs:18 | OR-ing two values below 2^k stays below 2^k, so a packed key is a 32-bit pattern |
| RustInt.BitOrOnes | src/chunk/container.rs:18 | OR with an all-ones mask gives the mask, which is why a negative z index swallows the whole key |
| RustInt.Pack3Injective | src/chunk/container.rs:18 | the base-1024 packing of three components with the low two in range is equal exactly when all three components are |
| ChunkGrid.ShapeMatchesSizes | src/chunk/mod.rs:9-17 | `ChunkShape::ARRAY` is (16, 16, 16) and its size 4096 is X_SIZE · Y_SIZE · Z_SIZE |
| ChunkGrid.Filled | src/chunk/mod.rs:27-36 | the grid with every one of the 16³ cells set to v |
| ChunkGrid.Set | src/chunk/mod.rs:44-46 | the grid with exactly cell (x, y, z) replaced, every other cell as before |
| ChunkGrid.Chunk.constructor | src/chunk/mod.rs:26-42 | `Chunk::new`: after the nested loops every block is 1, and world_pos is (x, y, z) |
| ChunkGrid.Chunk.SetBlock | src/chunk/mod.rs:44-46 | `set_block` needs indices in [0, 16), because the source panics outside; it makes that cell id and leaves every other cell and world_pos unchanged |
| Voxel.CubeIndex | src/chunk/voxel.rs:20-28 | every entry of `CUBE_INDICES` names one of the 8 cube corners |
| Voxel.GetVisibility | src/chunk/voxel.rs:36-42 | Translucent exactly when id == 0, Opaque exactly otherwise |
| Voxel.MergeValue | src/chunk/voxel.rs:45-50 | the merge value is 0 exactly for translucent voxels |
| Voxel.MergeCompatibleIffEqual | src/chunk/voxel.rs:45-50 | two voxels have equal merge values iff they are equal |
| Voxel.VoidIsTranslucent | src/chunk/voxel.rs:8 | `VOID` has id 0 and is translucent |
| Voxel.CubeTables | src/chunk/voxel.rs:9-33 | `CUBE_VERTICES` has 24 entries, all ±0.5 (±1 in half-units); `CUBE_INDICES` has 36 entries in 0..8; `CUBE_NORMALS` has 24 entries, four +z unit normals then four -z |
| Voxel.CornerUse | src/chunk/voxel.rs:20-28 | every corner 0..7 is used by some entry of `CUBE_INDICES` |
| Voxel.CornerBits | src/chunk/voxel.rs:9-18 | corner c of `CUBE_VERTICES` has x from bit 0, y from bit 1 and z from bit 2 of c |
| Voxel.CornersDistinct | src/chunk/voxel.rs:9-18 | the 8 corners are pairwise distinct |
| Voxel.TrianglesNonDegenerate | src/chunk/voxel.rs:20-28 | each of the 12 triangles names three different corners |
| Meshing.VisibleFaces | src/chunk/meshing.rs:26-107 | a cell emits face f iff its id is > 0 and f lies on the grid edge or borders an id-0 neighbour; at most 6 faces |
| Meshing.CubeAt | src/chunk/meshing.rs:37-45 | the 8 vertices pushed for one face: corner i of the cube shifted to the cell, coloured by the cell |
| Meshing.Positions | src/chunk/meshing.rs:40-44 | the positions of a vertex stream, one per vertex |
| Meshing.Colors | src/chunk/meshing.rs:39 | the colours of a vertex stream, one per vertex |
| Meshing.PushCube | src/chunk/meshing.rs:37-45 | the `for i in 0..8` loop appends exactly the cube's 8 positions and 8 colours |
| Meshing.GridMirrors | src/chunk/meshing.rs:26 | a valid chunk's blocks are mirrored by its grid view |
| Meshing.MeshFace | src/chunk/meshing.rs:36-46 | one face test and its pushes append the face's vertices when the face is visible and nothing otherwise |
| Meshing.MeshCell | src/chunk/meshing.rs:26-108 | the six face tests, in order -x, +x, -y, +y, -z, +z, append exactly the cell's visible-face vertices |
| Meshing.MeshRow | src/chunk/meshing.rs:25-109 | the z loop appends the vertices of cells z = 0..15 in order |
| Meshing.MeshSlab | src/chunk/meshing.rs:24-110 | the y loop appends the rows y = 0..15 in order |
| Meshing.BuildIndices | src/chunk/meshing.rs:113-118 | the index loop produces `vertexCount / stride` groups of the 36 cube indices, group i shifted by `stride * i` |
| Meshing.MeshCells | src/chunk/meshing.rs:23-111 | the triple loop's vertices and colours are the sweep of the grid, x outer, y, z inner |
| Meshing.Mesh | src/chunk/meshing.rs:15-131 | `mesh`: the vertices and colours of the sweep, and the index list built from the vertex count |
| MeshingLemmas.SweepCounts | src/chunk/meshing.rs:37-106 | every sweep of the grid holds 8 vertices per visible face |
| MeshingLemmas.MeshVertexCount | src/chunk/meshing.rs:37-106 | vertex count (and colour count) is 8 × the number of visible faces |
| MeshingLemmas.CellVerticesCount | src/chunk/meshing.rs:36-107 | a cell pushes 8 vertices per visible face |
| MeshingLemmas.IndexGroupsLength | src/chunk/meshing.rs:113-117 | n groups hold 36·n indices |
| MeshingLemmas.IndexGroupsAt | src/chunk/meshing.rs:113-117 | entry j of group q is `CUBE_INDICES[j] + stride * q` |
| MeshingLemmas.MeshIndexCount | src/chunk/meshing.rs:113-118 | the index count is 36 × (vertices.len() / 24) |
| MeshingLemmas.MeshIndexAt | src/chunk/meshing.rs:113-117 | index k lies among the first 8 vertices of run k / 36 of 24 vertices |
| MeshingLemmas.MeshIndicesBounds | src/chunk/meshing.rs:113-117 | every index is below the vertex count, and every index is ≡ 0..7 mod 24 |
| MeshingLemmas.CellVerticesFrom | src/chunk/meshing.rs:27-45 | a cell's vertices carry its colour, come from a solid cell and are corners of its cube |
| MeshingLemmas.MeshVerticesFromSolidCells | src/chunk/meshing.rs:26-27 | every vertex of the mesh comes from a cell with id > 0 |
| MeshingLemmas.EmptySweep | src/chunk/meshing.rs:27 | a grid without solid cells sweeps to no vertices and no faces |
| MeshingLemmas.EmptyStream | src/chunk/meshing.rs:113 | no vertices give no positions, no colours and no indices |
| MeshingLemmas.EmptyChunkMesh | src/chunk/meshing.rs:27-118 | an all-empty chunk yields zero vertices, colours, faces and indices |
| MeshingLemmas.SweepXSorted | src/chunk/meshing.rs:23-25 | a sweep is ordered by cell, x outer, y, z inner |
| MeshingLemmas.CellStreamKeyed | src/chunk/meshing.rs:23-45 | each cell's vertices belong to that cell |
| MeshingLemmas.MeshVerticesOrdered | src/chunk/meshing.rs:23-25 | the vertex output is lexicographically ordered by (x, y, z) of the cell, determined by the block array alone |
| MeshingLemmas.SolidAxisFaces | src/chunk/meshing.rs:36-107 | in a solid grid each axis contributes a face exactly on the grid's edges |
| MeshingLemmas.SolidCellFaces | src/chunk/meshing.rs:36-107 | in a solid grid a cell emits exactly its boundary faces |
| MeshingLemmas.BoundaryGrid | src/chunk/meshing.rs:23-111 | over any per-cell stream with boundary counts, the sweep's length is the closed-form boundary count |
| MeshingLemmas.BoundaryTotal | src/chunk/meshing.rs:23-111 | such a sweep over the whole chunk has 6 · 16 · 16 = 1536 elements |
| MeshingLemmas.SolidFaceCount | src/chunk/meshing.rs:36-107 | a solid chunk emits exactly 1536 faces |
| MeshingLemmas.SolidVertexCount | src/chunk/meshing.rs:37-106 | a solid chunk yields 12288 vertices |
| MeshingLemmas.NewChunkSolid | src/chunk/mod.rs:30-36 | the grid `Chunk::new` fills is solid |
| MeshIndexFinding.UnindexedVertices | src/chunk/meshing.rs:113-117 | no vertex v with v % 24 >= 8 is ever indexed |
| MeshIndexFinding.VertexEightUnindexed | src/chunk/meshing.rs:113-117 | with more than 8 vertices, vertex 8 is never indexed |
| MeshIndexFinding.SolidChunkUnindexedVertex | src/chunk/meshing.rs:113-117 | the mesh of a fresh all-1 chunk has 12288 vertices, and vertex 8 is not indexed |
| MeshIndexFinding.CorrectedIndexAt | src/chunk/meshing.rs:113-117 | with stride 8, index k lies in the 8 vertices of face k / 36 |
| MeshIndexFinding.CorrectedIndicesBounds | src/chunk/meshing.rs:113-117 | with stride 8, every index is below the vertex count and lies in its own face's group |
| MeshIndexFinding.CorrectedIndexOf | src/chunk/meshing.rs:113-117 | with stride 8, every vertex of a whole face is indexed |
| MeshIndexFinding.CorrectedIndicesCover | src/chunk/meshing.rs:113-117 | with stride 8 and a multiple of 8 vertices, every vertex is indexed |
| MeshIndexFinding.WholeCubes | src/chunk/meshing.rs:37-106 | the mesher always pushes a multiple of 8 vertices |
| MeshIndexFinding.CorrectedIndicesExact | src/chunk/meshing.rs:113-117 | with stride 8, the indices are exactly in range and cover all vertices |
| MeshIndexFinding.CorrectedMesh | src/chunk/meshing.rs:15-131 | the mesher with stride 8: same vertices and colours, every index in range, every vertex referenced |
| ChunkStore.NewChunk | src/chunk/container/mod.rs:76-89 | the chunk a miss creates: at the constructor arguments, 4096 blocks all 1 |
| ChunkStore.Cleared | src/chunk/container/mod.rs:42 | `override_blocks` with zeros: the same world position, 4096 blocks all 0 |
| ChunkStore.Delinearize | src/chunk/container/mod.rs:63-67 | for id >= 0, x is non-negative and z is in [0, 1024·16) |
| ChunkStore.LinearizeValue | src/chunk/container/mod.rs:58-61 | `linearize([x, z]) == trunc(x/16) * 1024 + trunc(z/16)` whenever that fits in i32 |
| ChunkStore.LinearizeSameColumn | src/chunk/container/mod.rs:58-61 | in range, two points get one id iff their truncated column indices agree |
| ChunkStore.ColumnZero | src/chunk/container/mod.rs:60 | every x in (-16, 16) lands in column 0 |
| ChunkStore.TestPointIds | src/main.rs:211-215 | [5,5], [0,0] and [3,2] share id 0; [32,31] is 2049 and [-31,-41] is -1026; [-1,0] shares [0,0]'s id |
| ChunkStore.DiagonalColumns | src/main.rs:217-227 | `linearize([16i, 16i]) == 1025·i` and `16i / 16 == i`, for i in 0..512 |
| ChunkStore.ColumnIdInjective | src/chunk/container/mod.rs:58-61 | with the z column in (-512, 512], two columns share the id `a * 1024 + b` iff they are equal |
| ChunkStore.FetchColumnAt | src/chunk/container/mod.rs:69-80 | on a store `get_chunk_at` has filled, `get_chunk_at([x, z])` returns the chunk at column (x / 16, z / 16), hit or miss, and the store stays filled that way |
| ChunkStore.DiagonalStep | src/main.rs:217-224 | on such a store, one pass of the test loop returns the chunks at columns (i, i) and (i + 1, i + 1) |
| ChunkStore.DiagonalFilled | src/main.rs:217-227 | every pass of the test loop keeps the store filled by column |
| ChunkStore.ChunkTestLoop | src/main.rs:217-227 | in pass i of the loop (0 <= i < 512), after the five lookups and i earlier passes, the second chunk's world_pos is the first's plus one in x and in y |
| ChunkStore.LinearizeDelinearize | src/chunk/container/mod.rs:58-67 | `linearize(delinearize(id)) == id` for every i32 id |
| ChunkStore.LinearizeDomainExact | src/chunk/container/mod.rs:48-50 | `linearize_domain([x, z]) == x * 1024 + z` when nothing wraps |
| ChunkStore.DomainRoundTrip | src/chunk/container/mod.rs:48-56 | `delinearize_domain(linearize_domain([x, z])) == [x, z]` for 0 <= x < 2^21 and 0 <= z < 1024; above 2^21, `x * 16 * 1024 / 16` leaves i32 |
| ChunkStore.DomainKeyBits | src/chunk/container/mod.rs:96-109 | the domain key is `((x & 1023) << 10) OR (z & 1023)` on 32-bit patterns |
| ChunkStore.DomainKeyInjective | src/chunk/container/mod.rs:96-109 | two domains share a key iff their ten low bits agree in both components |
| ChunkStore.DomainKeyIsDomainId | src/chunk/container/mod.rs:48-96 | for 0 <= x, z < 1024 the domain key equals `linearize_domain([x, z]) == x * 1024 + z` |
| ChunkStore.DomainKeyAliases | src/chunk/container/mod.rs:96-109 | the key repeats every 1024 in either component |
| ChunkStore.Fetch | src/chunk/container/mod.rs:69-119 | get-or-create: the key is present afterwards and maps to the result; a hit leaves the map unchanged; a miss adds exactly that key with the created chunk; no existing entry changes |
| ChunkStore.FetchAgain | src/main.rs:248-253 | a repeated fetch with the same key returns the same chunk and map |
| ChunkStore.ChunkTest | src/main.rs:208-234 | the five lookups of `chunk_test` give world positions (0,0) three times, then (2,1) and (-1,-2), and leave the store filled by column |
| ChunkStore.DistinctDomains | src/main.rs:248-254 | in a domain-indexed store, two domains with different keys return different chunks |
| ChunkStore.Chunks.constructor | src/chunk/container/mod.rs:31-34 | `Chunks::default()` stores nothing |
| ChunkStore.Chunks.Reset | src/chunk/container/mod.rs:40-44 | `reset` keeps the key set and every world position and zeroes every chunk's blocks |
| ChunkStore.Chunks.GetChunkAt | src/chunk/container/mod.rs:69-80 | get-or-create under `linearize([x, z])`, creating `Chunk::new(x/16, z/16)` |
| ChunkStore.Chunks.GetChunkAtMut | src/chunk/container/mod.rs:82-93 | get-or-create under `linearize([x, z])`, creating `Chunk::new(x, z)` |
| ChunkStore.Chunks.GetDomainAt | src/chunk/container/mod.rs:95-106 | get-or-create under the ten-bit domain key, creating `Chunk::new(x, z)` |
| ChunkStore.Chunks.GetDomainAtMut | src/chunk/container/mod.rs:108-119 | the same as `get_domain_at` |
| UpdateQueue.ChunkUpdateQueue.constructor | src/chunk/container/queue.rs:1-4 | the default queue is empty and has no queue |
| UpdateQueue.ChunkUpdateQueue.HasQueue | src/chunk/container/queue.rs:15-17 | true iff at least one id is queued |
| UpdateQueue.ChunkUpdateQueue.Queue | src/chunk/container/queue.rs:7-9 | appends the id at the end, keeps the earlier entries, and the queue is then non-empty |
| UpdateQueue.ChunkUpdateQueue.Pull | src/chunk/container/queue.rs:11-13 | returns every queued id in order, duplicates included, and leaves the queue empty |
| Loaded.LoadedChunks.constructor | src/chunk/container/loaded.rs:7-10 | the default list holds no ids: no id is loaded |
| Loaded.LoadedChunks.Replace | src/chunk/container/loaded.rs:13-15 | the list becomes v, and an id is loaded afterwards iff it occurs in v |
| Loaded.LoadedChunks.IsChunkIdLoaded | src/chunk/container/loaded.rs:21-23 | true iff the list contains the id; reads only |
| Loaded.LoadedChunks.IsChunkLoaded | src/chunk/container/loaded.rs:17-19 | true iff the list holds the column id `linearize` gives for the chunk's world position; reads only |
| ChunkPlugin.RenderQueueCheck | src/chunk/plugin.rs:18-26 | the state changes iff it is `Wait` and the queue is non-empty, and then it becomes `Render` |
| ChunkPlugin.Fetches | src/chunk/plugin.rs:53-55 | fetching the drained ids in order yields one chunk per id |
| ChunkPlugin.OuterMost | src/chunk/plugin.rs:50-69 | the largest x translation among the spawns, or 0: an upper bound that some spawn attains unless it is 0 |
| ChunkPlugin.FetchesKeep | src/chunk/plugin.rs:55 | the drain never removes or replaces a stored chunk |
| ChunkPlugin.FetchesKeys | src/chunk/plugin.rs:55 | after the drain the keys are the old keys plus each drained id's key |
| ChunkPlugin.FetchesAt | src/chunk/plugin.rs:54-55 | each drained id's chunk is the one stored under its key afterwards |
| ChunkPlugin.SpawnsIff | src/chunk/plugin.rs:59-90 | a chunk gets a spawn request iff it was fetched and the previous loaded list does not hold it |
| ChunkPlugin.SpawnsCount | src/chunk/plugin.rs:59-90 | at most one spawn per drained id; one each when none is loaded, none when all are |
| ChunkPlugin.RenderBlocks | src/chunk/plugin.rs:28-99 | `render_blocks`: the queue is drained; the store is the in-order fetch through `get_domain_at_mut(delinearize(id))`; spawns follow the previous loaded list, at (x, 0, z) with scale 1; `outer_most_x` is the maximum spawned x or 0; the loaded list becomes the drained ids; the state ends `Wait` |
| ChunkPlugin.DomainFetchAliases | src/chunk/plugin.rs:54-55 | ids 64 apart within a row delinearize 1024 apart in z and so share a domain key |
| ChunkPlugin.AliasedRender | src/chunk/plugin.rs:53-90 | draining ids id and id + 64 into an empty store creates one chunk, hands it to both ids and requests its spawn twice |
| ChunkPlugin.ChunkForId | src/chunk/container/mod.rs:58-89 | keyed by id, the key is the id, and the created chunk lies in the id's column |
| ChunkPlugin.ByIdColumns | src/chunk/container/mod.rs:82-93 | fetching by id keeps every chunk under its own column, and each id gets its own column's chunk |
| ChunkPlugin.ByIdSpawnIff | src/chunk/plugin.rs:59-62 | with by-id fetching, an id is spawned iff the previous list does not hold it, and different ids get different chunks |
| ChunkPlugin.RenderBlocksById | src/chunk/plugin.rs:28-99 | `render_blocks` fetching through `get_chunk_at_mut`, with the same drain, loaded list, state change and spawn rule |
| Terrain.FirstMatch | src/terrain/mod.rs:11-17 | the first-match loop returns 0 or the id of a band that holds h |
| Terrain.BandsLookup | src/terrain/mod.rs:11-17 | the result on the five bands, band by band |
| Terrain.GetBlockType | src/terrain/mod.rs:11-17 | with h = ceil(height): 1 iff 7 <= h < 40, 2 iff 5 <= h < 7, 3 iff 4 <= h < 5 or 0 <= h < 2, 4 iff 2 <= h < 4, 0 iff h < 0 or h >= 40 |
| Terrain.Ceil | src/terrain/mod.rs:12 | `ceil`: the least integer not below r |
| Terrain.DebugBlockType | src/terrain/mod.rs:10-18 | `get_block_type(height)` is in 0..4, and non-zero iff -1 < height <= 39 |
| Terrain.BandEdges | src/terrain/mod.rs:11 | range ends are excluded: 6 gives 2, 7 and 39 give 1, 40 and -1 give 0, 0 gives 3, 2 gives 4 |
| Terrain.BandsPartition | src/terrain/mod.rs:11 | the bands are pairwise disjoint and together cover exactly [0, 40) |
| Terrain.FirstMatchAt | src/terrain/mod.rs:11-14 | in a disjoint band list, any band holding h gives the result |
| Terrain.FirstMatchMiss | src/terrain/mod.rs:17 | when no band holds h the result is 0 |
| Terrain.OrderIrrelevant | src/terrain/mod.rs:11 | any reordering of the bands gives the same block type |
| TerrainFill.Row | src/terrain/noise.rs:49-57 | the ids pushed for one row, one per x |
| TerrainFill.LayerIndex | src/terrain/noise.rs:48-49 | the position of (x, y) in a layer is inside the layer |
| TerrainFill.VolumeIndex | src/terrain/noise.rs:47-49 | the position x + X·(y + Y·z) of a cell is inside the volume |
| TerrainFill.RowAt | src/terrain/noise.rs:49-56 | entry x of a row is cell (x, y, z) |
| TerrainFill.LayerLength | src/terrain/noise.rs:48-49 | a layer of m rows holds X·m ids |
| TerrainFill.LayerAt | src/terrain/noise.rs:48-56 | in a layer, cell (x, y) sits at x + X·y |
| TerrainFill.VolumeLength | src/terrain/noise.rs:47-59 | the volume of n layers holds X·Y·n ids |
| TerrainFill.VolumeAt | src/terrain/noise.rs:47-56 | in the volume, cell (x, y, z) sits at x + X·(y + Y·z) |
| TerrainFill.VolumeCells | src/terrain/noise.rs:47-56 | the whole volume, every cell at its position |
| TerrainFill.GenerateTerrain3D | src/terrain/noise.rs:34-62 | returns exactly X·Y·Z ids, x innermost and z outermost, each being the cell's id; the output is a function of the heightmap and generator alone |
| TerrainFill.ColumnRun | src/terrain/noise.rs:51-56 | a filled cell's column is filled below it with the same id, and a cell above the height is 0 |
| TerrainFill.DebugColumn | src/terrain/noise.rs:51-56 | with the debug generator a cell is non-zero iff z <= height <= 39, and is in 0..4 |
| ChunkStore3d.NewChunk3 | src/chunk/container.rs:24-65 | the chunk a miss creates: at the given world position, every block 1 |
| ChunkStore3d.DomainId | src/chunk/container.rs:18 | the key `(xi << 20) OR (yi << 10) OR zi` is a 32-bit pattern |
| ChunkStore3d.Corner | src/chunk/container.rs:54-56 | `(v / 16) * 16`: the corner of the 16-cube v lies in, toward zero |
| ChunkStore3d.CornerChunk | src/chunk/container.rs:54-65 | for non-negative coordinates the created chunk's cube contains the point |
| ChunkStore3d.CornerIndex | src/chunk/container.rs:57-59 | dividing the corner by 16 gives the point's truncated chunk index |
| ChunkStore3d.DomainIdPacks | src/chunk/container.rs:18 | for xi < 2^12 and yi, zi < 1024 the key is the base-1024 number xi, yi, zi |
| ChunkStore3d.DomainIdInjective | src/chunk/container.rs:18 | in that range two index triples share a key iff they are equal |
| ChunkStore3d.DomainIdWrapsX | src/chunk/container.rs:18 | xi = 4096 and xi = 0 share a key: the shift drops the high bits |
| ChunkStore3d.DomainIdNegativeZ | src/chunk/container.rs:18 | zi = -1 is unmasked and turns every key into 2^32 - 1 |
| ChunkStore3d.ChunkIdPacks | src/chunk/container.rs:57-59 | for non-negative coordinates in range the chunk key packs the three chunk indices |
| ChunkStore3d.SameCube | src/chunk/container.rs:51-68 | in range, two points get one key iff they lie in the same 16-cube |
| ChunkStore3d.ChunkAt | src/chunk/container.rs:71-89 | `get_chunk_at` as written: a hit returns the stored chunk with the map unchanged; a miss adds the chunk key and the raw-coordinate domain key and returns the domain chunk; existing entries are kept |
| ChunkStore3d.Chunks3.constructor | src/chunk/container.rs:11-15 | `Chunks::new()` stores nothing |
| ChunkStore3d.Chunks3.GetDomainAt | src/chunk/container.rs:17-32 | get-or-create under the packed index key, creating the chunk at (xi·16, yi·16, zi·16) |
| ChunkStore3d.Chunks3.GetDomainAtMut | src/chunk/container.rs:34-49 | the same as `get_domain_at` |
| ChunkStore3d.Chunks3.GetChunkAtMut | src/chunk/container.rs:51-69 | get-or-create under the cube's key, creating the chunk at the cube's corner |
| ChunkStore3d.Chunks3.GetChunkAt | src/chunk/container.rs:71-89 | behaves as `ChunkAt`: it inserts the corner chunk, then returns `get_domain_at(x, y, z)` |
| ChunkStore3d.ChunkAtStrays | src/chunk/container.rs:85-88 | a miss at x in [16, 4096) adds two entries and returns a chunk at 16·x that does not contain the point |
| ChunkStore3d.ChunkAtMutContains | src/chunk/container.rs:51-69 | `get_chunk_at_mut` on a cube-indexed store returns a chunk containing the point and keeps the store cube-indexed |
| OldChunks.Centre | src/chunk.rs:34-36 | `v / 12 * 12 + 6`: for v >= 0 the centre of v's 12-cube, within 6 of v; for v < 0 the centre lies 6 to 17 above v |
| OldChunks.CentreChunk | src/chunk.rs:45-63 | the chunk a miss creates sits at the centres and has 1728 blocks |
| OldChunks.CentreIndex | src/chunk.rs:37-39 | the key component is the cube index for v >= 0 and one more for v <= -12 |
| OldChunks.ComponentZero | src/chunk.rs:34-37 | every coordinate in [-23, 11] gets key component 0 |
| OldChunks.NegativeShare | src/chunk.rs:34-39 | x in [-23, -12] and x' in [0, 11] share a key, while their centres are -6 and 6 |
| OldChunks.OldIdPacks | src/chunk.rs:37-39 | for non-negative coordinates in range the key packs the three 12-cube indices |
| OldChunks.OldSameCube | src/chunk.rs:33-49 | in range, two points share a key iff they have the same centre, i.e. lie in one 12-cube |
| OldChunks.FetchCentre | src/chunk.rs:33-49 | on a centre-indexed store a lookup returns the chunk whose world_pos is the centre of the point's cube, and the store stays centre-indexed |
| OldChunks.Chunks.constructor | src/chunk.rs:27-31 | `Chunks::new()` stores nothing |
| OldChunks.Chunks.GetChunkAtMut | src/chunk.rs:33-49 | get-or-create under the centre key, creating the chunk at the centres |
| OldChunks.Chunks.GetChunkAt | src/chunk.rs:51-67 | the same lookup as `get_chunk_at_mut` |
| OldChunks.OldChunk.constructor | src/chunk.rs:77-92 | `Chunk::new`: all 12³ blocks are 1 and world_pos is (x, y, z) |
| OldChunks.OldChunk.SetBlock | src/chunk.rs:94-96 | needs indices in [0, 12), because the source panics outside; changes exactly that one cell, and world_pos stays |

## Left out

- The global `Lazy<RwLock<ChunkUpdateQueue>>` and the `unsafe impl Send/Sync`: concurrency is not modelled. The queue is one object passed to the render step.
- Bevy's `Commands`, `Assets<Mesh>`, materials, `State` and `Mesh` attributes. Spawns become a returned list of requests and the state a returned value. The mesh handle and the material a spawn carries are left out.
- `get_mesh` and `override_blocks`, which `src/chunk/plugin.rs` and `src/chunk/container/mod.rs` call, are defined neither in `src/chunk/mod.rs` nor in `src/chunk/meshing.rs`. A spawn request carries the chunk itself, and `reset` is modelled as writing 4096 zeros.
- Mutable references: the stores return chunks as values. Writes through the returned `&mut Chunk` are outside the model, and so is aliasing between a returned reference and the map.
- `ChunkStore.Linearize`, `ChunkStore.LinearizeDomain` and `ChunkStore3d.DomainChunk`: the overflow panic of Rust's debug build is not modelled. The products `(x / 16) * 1024` in `Linearize`, `x * 16` and `z * 16` in `LinearizeDomain`, and `xi * 16` and its kin in `DomainChunk` wrap around instead.
  - Every member that computes through them inherits the wrap: `ChunkStore.Chunks.GetChunkAt`, `ChunkStore.Chunks.GetChunkAtMut`, `Loaded.LoadedChunks.IsChunkLoaded`, `ChunkPlugin.RenderBlocks`, `ChunkPlugin.RenderBlocksById`, `ChunkStore3d.Chunks3.GetDomainAt` and `ChunkStore3d.Chunks3.GetDomainAtMut`.
  - `ChunkStore.LinearizeValue` and `ChunkStore.LinearizeDomainExact` state the ranges in which nothing wraps.
- Floating point:
  - Mesher positions are half-unit integers, and colours are replaced by the cell's coordinates.
  - The `f32` height and the `f64` `ceil` are exact reals.
  - The saturating `as i32` cast in `get_block_type` is not written out. Every saturated value lies outside [0, 40), like the height it came from, so the result is the same.
- `TerrainFill.GenerateTerrain3D`: `generate_noise_map` and `Fbm<Perlin>` belong to the `noise` crate and are not part of this model. The noise map is a parameter, and the `u8` ids are unbounded integers; the debug generator's ids are proved to lie in 0..4.
- `render_blocks` in `src/chunk.rs`: floating-point render-window arithmetic and Bevy spawns.
- The loop of the `chunk_domain_test` test in `src/main.rs:240-246` is not stated. It cannot hold, because the domain key wraps every 1024 indices and a miss keeps the raw constructor arguments.
- `main.rs` app wiring, `camera.rs`, `player/mod.rs` and `material.rs`: input handling, float kinematics and an asset table.

## Findings

| source | as written | input that shows it | evidently intended | confidence | as-written member | corrected member |
|---|---|---|---|---|---|---|
| src/chunk/meshing.rs:113-117 | index groups are laid out with stride 24 (`vertices.len() / 24` groups, offset `i * 24`), but each visible face pushes 8 vertices | a fresh all-1 chunk: 12288 vertices, and vertex 8 (the second face of cell (0,0,0)) is never indexed; only vertices with `v % 24 < 8` are | stride 8: one group of the 36 cube indices per face, so that every vertex is referenced | not executed | MeshIndexFinding.SolidChunkUnindexedVertex | MeshIndexFinding.CorrectedMesh |
| src/chunk/plugin.rs:54-55 | the drained id is turned into world coordinates by `delinearize` (multiples of 16), which are then handed to `get_domain_at_mut`; its key keeps only the ten low bits of each component | ids 0 and 64 drained into an empty store: both fetch the chunk created at (0, 0), and it is spawned twice | fetch each id's own chunk through the key `linearize`, i.e. `get_chunk_at_mut(delinearize(id))`, so that distinct ids get distinct chunks | not executed | ChunkPlugin.AliasedRender | ChunkPlugin.ByIdSpawnIff |
| src/chunk/container.rs:85-88 | on a miss `get_chunk_at` inserts the corner chunk, then returns `get_domain_at(x, y, z)`, reading world coordinates as chunk indices | (16, 0, 0) on an empty store: two entries are added, and the returned chunk sits at x = 256 and does not contain the point | re-enter `get_chunk_at(x, y, z)`, as `get_chunk_at_mut` does | not executed | ChunkStore3d.ChunkAtStrays | ChunkStore3d.ChunkAtMutContains |
