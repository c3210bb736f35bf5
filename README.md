# Terrain generator of bevy_voxel_game, modelled in Dafny

This project models the procedural terrain generator of the game (`src/voxel.rs`): for a
chunk coordinate and a level of detail, the world hands the voxel library a sampling
function that maps each absolute integer position to `Unset`, `Air` or `Solid(material)`.
The model covers

- the texture-atlas table of the 20 block materials (`Materials`);
- the level-of-detail policy `chunk_lod` and the per-level chunk data edge (`Lod`);
- the biome decision tree and the surface and subsurface material of each biome (`Biomes`);
- the density field, its one- and five-voxel probes and the sea-level fill (`Terrain`);
- the three cave predicates, the protection rules and the ore back-fill table (`Caves`);
- the sampler itself (`Generator`): the chunk gate on the chunk's y coordinate, the skirt
  that level 2 cuts around the chunk's box, and the per-column cache of height and climate
  values. The closure that owns that cache becomes the class `VoxelSampler`, whose `Sample`
  method changes only the cache and is proved equal to `VoxelAt`, the same pipeline with the
  column recomputed from scratch.

Noise generators and splines are foreign code. Each is a field of `TerrainWorld`: a total
function from its scaled coordinates to a `real` (2-D channels for continents, erosion,
peaks and valleys, temperature, humidity and weirdness; 3-D channels for the density and
cave noises), and each spline returns `Option<real>`. The `unwrap_or(0.0)` and
`unwrap_or(0.3)` fallbacks are `GetOr` with those defaults. `f64` values are `real`s.

The voxel library's chunk edge `CHUNK_SIZE` (`Lod.ChunkSize`) is 32. That constant comes
from bevy_voxel_world, which is not part of this model.

Behaviour of the code worth noting:

- At temperature 0.5, humidity -0.5, weirdness 0 and height 60, the `height_offset > 50.0`
  test (src/voxel.rs:414) makes the column Desert with a Sand surface; at height 50 it is
  Savanna with a Gold surface (`Biomes.HotDryColumnsSplitAtHeightFifty`).
- The Lava floor and the Unset ceiling are decided on the chunk's y coordinate
  (`chunk_pos.y < -255`, `chunk_pos.y > 255`, src/voxel.rs:343-348), so whole chunks are
  affected and voxel y = -256 is still generated terrain.
- The back-fill for a voxel hit by cheese caves alone can return the voxel's own material:
  Dirt with all three climate values at 0 is refilled with Dirt
  (`Caves.CheeseFillCanKeepMaterial`).

## Model

| member | source | states |
|---|---|---|
| `Materials.IndexOf` | src/voxel.rs:21-45 | the discriminant of a material is the first position in the declaration order that holds it |
| `Materials.EveryMaterialDeclared` | src/voxel.rs:21-45 | each of the 20 materials appears in the declaration order, so every material has a discriminant |
| `Materials.Ordinal` | src/voxel.rs:21-45 | the discriminant of a material is a position of the declaration order that holds that material |
| `Materials.TextureIndices` | src/voxel.rs:48-70 | three layers (top, side, bottom), each below the 21 atlas layers of line 279; `[0, 1, 2]` exactly for Grass; one layer on all faces for every other material |
| `Materials.TextureIndexIsOrdinalPlusOne` | src/voxel.rs:48-70 | every material other than Grass uses layer `k` on all faces, where `k` is its declaration ordinal plus one |
| `Materials.LayerAtDeclaredIndex` | src/voxel.rs:48-70 | reading the atlas table along the declaration order, entry `k` (for `k` ≥ 1) is `[k+1, k+1, k+1]` |
| `Materials.SideIndexInjective` | src/voxel.rs:48-70 | two materials have the same side layer only if they are the same material |
| `Lod.ChunkLod` | src/voxel.rs:290-313 | the stride is one of 1, 2, 4, 8, 16, 32; it is 1 exactly when distance < 16 and 32 exactly when distance ≥ 48 |
| `Lod.ChunkLodDoublesPerBreakpoint` | src/voxel.rs:299-312 | the stride is 2 to the power of the number of breakpoints 16, 24, 32, 40 and 48 that the distance has reached (each test is a strict `<`) |
| `Lod.ChunkLodMonotonic` | src/voxel.rs:300-312 | a greater distance never gives a smaller stride |
| `Lod.ChunkDataEdge` | src/voxel.rs:282-284 | the edge is the integer quotient of the chunk size by the level, with level 0 treated as 1 |
| `Lod.StridesTileChunk` | src/voxel.rs:282-312 | every stride the policy picks divides the chunk edge exactly and leaves at least one voxel per edge |
| `Biomes.Classify` | src/voxel.rs:411-456 | the biome returned is one whose climate region, written out per biome, contains the input |
| `Biomes.RegionsDisjoint` | src/voxel.rs:411-456 | no input lies in the regions of two different biomes |
| `Biomes.ClassifyExactly` | src/voxel.rs:411-456 | the classifier returns biome `b` if and only if the input lies in `b`'s region, so the tree is total and each region is exact |
| `Biomes.HotDryColumnsSplitAtHeightFifty` | src/voxel.rs:411-418 | temperature 0.5, humidity -0.5 and weirdness 0 give Desert (Sand surface) at height 60 and Savanna (Gold surface) at height 50 |
| `Biomes.SurfaceMaterial` | src/voxel.rs:463-472 | the surface material is one of Grass, Leaves, Coal, Wood, Sand, Gold, Platinum and Snow |
| `Biomes.SurfaceMaterialInjective` | src/voxel.rs:463-472 | each biome has a surface material of its own |
| `Biomes.SubsurfaceMaterial` | src/voxel.rs:477-481 | Sand exactly for Desert, Snow exactly for Taiga and Tundra, Dirt exactly for every other biome |
| `Terrain.Density` | src/voxel.rs:406-410 | the final density equals the base noise at the terrain height, and everywhere in a column whose squash factor is 0 |
| `Terrain.SolidAt` | src/voxel.rs:406-410 | at the terrain height, and everywhere in a column whose squash factor is 0, a point is solid exactly where the base noise is positive |
| `Terrain.DensityCrossesAtHeight` | src/voxel.rs:406-410 | with a positive squash factor the density is below the base noise exactly above the terrain height and equal to it exactly at that height; positive noise is solid at or below the height and non-positive noise is open at or above it |
| `Terrain.DensityNonIncreasing` | src/voxel.rs:406-410 | with a non-negative squash factor and a fixed base value, density never increases going up a column |
| `Terrain.TerrainVoxel` | src/voxel.rs:458-499 | solid ground exactly where density > 0. Surface material where the y+1 probe is not solid, subsurface material where the y+5 probe is not solid, Stone exactly where both probes are solid. Liquid exactly for open space at y ≤ -11, with Ice exactly for Tundra at y = -11. Air exactly for open space above. Never Unset |
| `Terrain.OpenSpaceFill` | src/voxel.rs:486-499 | where the density is not solid the voxel is Air above y = -11, Ice at y = -11 in Tundra, and Water otherwise |
| `Terrain.StoneIsBuried` | src/voxel.rs:458-485 | with a non-negative squash factor, a Stone voxel has solid density at every probe height from 0 to 5 voxels above it |
| `Terrain.FlatColumnHasNoSurface` | src/voxel.rs:459-485 | because the probes reuse the voxel's base value, a column with squash factor 0 has no surface or subsurface layer: its ground is all Stone |
| `Caves.Flags` | src/voxel.rs:518-545 | cheese iff cave density > 0.9813. Meatballs iff warp plus each spaghetti magnitude is < -0.494321, which forces the warp itself below that threshold. Spaghetti iff both spaghetti samples lie strictly within ±0.007654321 |
| `Caves.OreFill` | src/voxel.rs:551-586 | the back-fill is Air exactly where temperature ≥ 0.5, or temperature < -0.5 with humidity ≥ 0.5, or the middle band has humidity or weirdness ≥ 0.5; any other result is one of the ore-table materials |
| `Caves.ColdOreIgnoresWeirdness` | src/voxel.rs:552-559 | below temperature -0.5 the back-fill does not depend on weirdness |
| `Caves.Carve` | src/voxel.rs:501-590 | Water, Ice, Air and below-sea-level Sand, Snow and Dirt are kept. Nothing is carved above height + 1 or when no predicate holds. Cheese alone gives the ore back-fill. Meatballs or spaghetti give Air |
| `Caves.CarveOutcomes` | src/voxel.rs:501-590 | carving keeps the voxel, empties it, or places an ore-table material; it never produces Unset and never fills Air |
| `Caves.CheeseFillCanKeepMaterial` | src/voxel.rs:551-577 | a Dirt voxel carved by cheese caves alone, with all climate values 0, is refilled with Dirt |
| `Generator.SquashFollowsPeaksValleys` | src/voxel.rs:386-389 | the squash factor is read from the same peaks-and-valleys sample as the height, so columns that agree on it get the same squash factor |
| `Generator.ChunkGate` | src/voxel.rs:343-348 | the whole chunk is Lava exactly when its y coordinate is below -255 and Unset exactly when above 255 |
| `Generator.GetOr` | src/voxel.rs:381-389 | a spline sample that exists is used as it is; a missing one is replaced by the given default (`unwrap_or`) |
| `Generator.ComputeColumn` | src/voxel.rs:379-401 | the column values a cache miss computes: a missing squashing sample at the column's peaks-and-valleys value gives the squash factor 0.3, and a column where none of the continent, erosion and peaks-and-valleys splines has a sample has height 0 |
| `Generator.ChunkMin` | src/voxel.rs:349 | the chunk's minimum corner has coordinates that are multiples of 32, and floor-dividing them by 32 gives the chunk coordinate back |
| `Generator.ChunkMax` | src/voxel.rs:350 | the exclusive upper corner is 32 past the minimum corner on every axis, which is the minimum corner of the diagonal neighbour chunk |
| `Generator.InsideChunk` | src/voxel.rs:349-366 | a position inside the chunk's half-open box has its column under the chunk's 32 × 32 footprint |
| `Generator.InsideChunkIsOwningChunk` | src/voxel.rs:349-366 | a position is inside the chunk's half-open box exactly when its floor-divided coordinates equal the chunk coordinate |
| `Generator.SkirtCut` | src/voxel.rs:351-369 | the skirt cuts a position exactly when the level is 2 and the position belongs to another chunk |
| `Generator.ColumnVoxel` | src/voxel.rs:406-592 | the pipeline after the gate and skirt never yields Lava: Lava comes only from the chunk gate |
| `Generator.VoxelAt` | src/voxel.rs:343-370 | Lava exactly for the positions of a chunk below -255. Unset exactly above 255 or for a level-2 position outside the chunk's box. Otherwise the column pipeline on freshly computed column values |
| `Generator.ColumnVoxelIsSet` | src/voxel.rs:458-592 | the pipeline after the gate and skirt never yields Unset |
| `Generator.SameVoxelInEveryContext` | src/voxel.rs:359-405 | a position gets the same voxel from every generating sampler, whatever its chunk or level, unless a skirt cuts it |
| `Generator.SkirtOnlyAtLevelTwo` | src/voxel.rs:351-370 | at any level other than 2 no generated position is Unset |
| `Generator.OpenSpaceIsSeaOrAir` | src/voxel.rs:486-506 | where the density is not solid, the final voxel is Air above y = -11, Ice at y = -11 in Tundra, and Water otherwise; caves do not change it |
| `Generator.NoCavesAboveTerrain` | src/voxel.rs:548-549 | above height + 1 the final voxel is the terrain voxel, uncarved |
| `Generator.SampleTerrain` | src/voxel.rs:406-499 | the step-by-step density, probe and sea-level computation equals the terrain voxel `TerrainVoxel` |
| `Generator.SampleCaves` | src/voxel.rs:501-590 | the early returns, the three carve predicates and the back-fill, computed step by step, equal `Carve` of the terrain voxel |
| `Generator.SampleColumn` | src/voxel.rs:406-592 | the step-by-step computation, with its reassignments and early returns, equals the column pipeline `ColumnVoxel` |
| `Generator.FootprintBound` | src/voxel.rs:349-370 | a set of columns inside one chunk's footprint has at most 32 × 32 members |
| `Generator.VoxelSampler.constructor` | src/voxel.rs:343-355 | the new sampler holds its world, chunk and level, and its cache is empty |
| `Generator.VoxelSampler.LookupColumn` | src/voxel.rs:373-405 | returns the fresh column values. A cached entry is returned and the cache is unchanged. A missing one is inserted, and no other key changes |
| `Generator.VoxelSampler.Sample` | src/voxel.rs:359-405 | the result equals `VoxelAt`, whatever was sampled before. Gate and skirt positions leave the cache untouched. Otherwise only the position's column key is added, holding the fresh values, and an existing entry is never overwritten. Every cached entry equals a fresh computation, and each column is computed at most once |
| `Generator.VoxelSampler.CacheBoundedBySkirt` | src/voxel.rs:360-405 | at level 2 the cache never holds more than 32 × 32 columns |
| `Generator.SamplingOrderIrrelevant` | src/voxel.rs:355-405 | two samplers of one chunk asked for the same two positions in opposite orders return the same voxels |

## Left out

- Noise and spline internals (`HybridMulti<Perlin>`, `Perlin::get`, `Spline::clamped_sample`) are foreign floating-point code. They become parameters of `TerrainWorld`. So do the world's default seeds, octave counts, frequencies and spline knots (src/voxel.rs:107-203), which only configure that foreign code.
- Floating-point rounding: `f64` arithmetic is modelled on exact `real`s, including the coordinate scaling and the density comparisons.
- 32-bit integer overflow: coordinates are unbounded `int`s, so the `i32` arithmetic of the chunk box is not wrapped or trapped. It overflows only for chunk coordinates ≥ 2^26 − 1 or < −2^26, in `chunk_min` (line 349) or `chunk_max` (line 350).
- The sampler's second argument (the previous voxel value) is ignored by the source and is not a parameter of `Sample`.
- Plugin and configuration wiring has no behaviour to state: `VoxelPlugin`, the `Arc` cloning in `voxel_lookup_delegate`, `texture_index_mapper`, the atlas path in `voxel_texture`, `spawning_distance` (64), `min_despawn_distance` (1) and `attach_chunks_to_root` (false). The atlas layer count 21 is kept as `Materials.AtlasLayers`.
- `padded_chunk_shape_uniform` is a library call. Only the quotient `CHUNK_SIZE / max(lod, 1)` is modelled (`Lod.ChunkDataEdge`); `chunk_meshing_shape` is the same expression.
- `Lod.ChunkLod`: the camera's chunk position, the `floor` and the Euclidean `distance` are float vector maths. The distance is a `real` input. The previous level argument is ignored by the source.
- Thread safety (`Send + Sync`, boxed closures) is not modelled. Each sampler is an object used by one caller.
- The UI overlays, fly controller, lighting, asset loading, window setup and plugin registration (the other source files) are engine glue outside the generator.
