/**
 * The per-chunk voxel sampler: the chunk-level gate, the level-2 skirt, the per-column cache
 * of height and climate values, and the pipeline biome -> density -> material -> caves.
 *
 * Noise generators and splines are foreign code here: each is a parameter of the world
 * (a total function from its scaled input coordinates to a real), and a spline sample may
 * be absent, in which case the documented default is used.
 */
module Generator {
  import opened Materials
  import opened Lod
  import opened Biomes
  import opened Terrain
  import opened Caves

  datatype Option<T> = None | Some(value: T)

  /** The sample if there is one, `default` otherwise (`unwrap_or`). */
  function GetOr<T>(o: Option<T>, default: T): (r: T)
    ensures o.Some? ==> r == o.value
    ensures o.None? ==> r == default
  {
    match o
    case Some(v) => v
    case None => default
  }

  type Noise2 = (real, real) -> real
  type Noise3 = (real, real, real) -> real
  type Spline = real -> Option<real>

  /** A 2-D noise channel and the spline that remaps its value to a height contribution. */
  datatype Shaped = Shaped(noise: Noise2, spline: Spline)

  /** The noise channels and splines every sampler of one world shares, read-only. */
  datatype TerrainWorld = TerrainWorld(
    continents: Shaped,
    erosion: Shaped,
    peaksValleys: Shaped,
    squashingSpline: Spline,
    temperatures: Noise2,
    humidity: Noise2,
    weirdness: Noise2,
    densityA: Noise3,
    densityB: Noise3,
    densityC: Noise3,
    spaghettiA: Noise3,
    spaghettiB: Noise3)

  datatype IVec3 = IVec3(x: int, y: int, z: int)

  datatype ColumnIndex = ColumnIndex(x: int, z: int)

  /** Values shared by every voxel of one (x, z) column. */
  datatype ColumnData = ColumnData(
    heightOffset: real,
    squashingFactor: real,
    temperature: real,
    humidity: real,
    weirdness: real)

  // Coordinate scales of the noise channels.
  const ContinentScale: real := 0.00025
  const ErosionScale: real := 0.0025
  const PeaksValleysScale: real := 0.01
  const ClimateScale: real := 0.0006667
  const WeirdnessScale: real := 0.00033
  const DensityScale: real := 0.01
  const CaveScale: real := 0.030303030303
  const SpaghettiScale: real := 0.0025

  /** Squash factor used when the squashing spline yields no sample. */
  const DefaultSquash: real := 0.3

  // The three height noises, sampled at column (x, z) at their own scales.
  function ContinentSample(world: TerrainWorld, x: int, z: int): real
  {
    world.continents.noise(x as real * ContinentScale, z as real * ContinentScale)
  }

  function ErosionSample(world: TerrainWorld, x: int, z: int): real
  {
    world.erosion.noise(x as real * ErosionScale, z as real * ErosionScale)
  }

  function PeaksValleysSample(world: TerrainWorld, x: int, z: int): real
  {
    world.peaksValleys.noise(x as real * PeaksValleysScale, z as real * PeaksValleysScale)
  }

  /**
   * Height and climate of column (x, z), computed from scratch. A spline without a sample
   * contributes nothing to the height, and a missing squashing sample gives the squash
   * factor 0.3.
   */
  function ComputeColumn(world: TerrainWorld, x: int, z: int): (c: ColumnData)
    ensures world.squashingSpline(PeaksValleysSample(world, x, z)).None? ==> c.squashingFactor == DefaultSquash
    ensures world.continents.spline(ContinentSample(world, x, z)).None?
         && world.erosion.spline(ErosionSample(world, x, z)).None?
         && world.peaksValleys.spline(PeaksValleysSample(world, x, z)).None?
      ==> c.heightOffset == 0.0
  {
    var fx, fz := x as real, z as real;
    var pvVal := PeaksValleysSample(world, x, z);
    var height :=
      GetOr(world.continents.spline(ContinentSample(world, x, z)), 0.0)
      + GetOr(world.erosion.spline(ErosionSample(world, x, z)), 0.0)
      + GetOr(world.peaksValleys.spline(pvVal), 0.0);
    ColumnData(
      height,
      GetOr(world.squashingSpline(pvVal), DefaultSquash),
      world.temperatures(fx * ClimateScale, fz * ClimateScale),
      world.humidity(fx * ClimateScale, fz * ClimateScale),
      world.weirdness(fx * WeirdnessScale, fz * WeirdnessScale))
  }

  /**
   * The squash factor reuses the peaks-and-valleys sample of the height computation: two
   * columns whose peaks-and-valleys noise agrees have the same squash factor.
   */
  lemma SquashFollowsPeaksValleys(world: TerrainWorld, x1: int, z1: int, x2: int, z2: int)
    requires PeaksValleysSample(world, x1, z1) == PeaksValleysSample(world, x2, z2)
    ensures ComputeColumn(world, x1, z1).squashingFactor == ComputeColumn(world, x2, z2).squashingFactor
  {
  }

  /** What a whole chunk yields, decided by its y coordinate alone. */
  datatype Gate = AllLava | AllUnset | Generated

  function ChunkGate(chunkY: int): (g: Gate)
    ensures g == AllLava <==> chunkY < -255
    ensures g == AllUnset <==> chunkY > 255
  {
    if chunkY < -255 then AllLava
    else if chunkY > 255 then AllUnset
    else Generated
  }

  /** The chunk's minimum corner: the one position of the chunk whose coordinates are all multiples of the chunk edge. */
  function ChunkMin(chunkPos: IVec3): (r: IVec3)
    ensures r.x % ChunkSize == 0 && r.y % ChunkSize == 0 && r.z % ChunkSize == 0
    ensures r.x / ChunkSize == chunkPos.x && r.y / ChunkSize == chunkPos.y && r.z / ChunkSize == chunkPos.z
  {
    IVec3(chunkPos.x * ChunkSize, chunkPos.y * ChunkSize, chunkPos.z * ChunkSize)
  }

  /** The exclusive upper corner: one chunk edge past the minimum corner, the minimum corner of the diagonal neighbour. */
  function ChunkMax(chunkPos: IVec3): (r: IVec3)
    ensures var lo := ChunkMin(chunkPos);
      r.x - lo.x == ChunkSize && r.y - lo.y == ChunkSize && r.z - lo.z == ChunkSize
    ensures r == ChunkMin(IVec3(chunkPos.x + 1, chunkPos.y + 1, chunkPos.z + 1))
  {
    var lo := ChunkMin(chunkPos);
    IVec3(lo.x + ChunkSize, lo.y + ChunkSize, lo.z + ChunkSize)
  }

  /** Whether `pos` lies in the chunk's own half-open box [ChunkMin, ChunkMax); if so, its column lies under the chunk. */
  function InsideChunk(chunkPos: IVec3, pos: IVec3): (b: bool)
    ensures b ==> InFootprint(chunkPos, ColumnIndex(pos.x, pos.z))
  {
    var lo, hi := ChunkMin(chunkPos), ChunkMax(chunkPos);
    lo.x <= pos.x < hi.x && lo.y <= pos.y < hi.y && lo.z <= pos.z < hi.z
  }

  /** The chunk's box holds exactly the positions whose floor-divided coordinates are the chunk's. */
  lemma InsideChunkIsOwningChunk(chunkPos: IVec3, pos: IVec3)
    ensures InsideChunk(chunkPos, pos)
        <==> (pos.x / ChunkSize == chunkPos.x && pos.y / ChunkSize == chunkPos.y && pos.z / ChunkSize == chunkPos.z)
  {
  }

  /**
   * Whether the level-2 skirt turns `pos` into Unset for a sampler of this chunk and level:
   * at level 2, exactly the positions that belong to another chunk.
   */
  function SkirtCut(chunkPos: IVec3, lodLevel: u8, pos: IVec3): (b: bool)
    ensures b <==> (lodLevel == 2
      && (pos.x / ChunkSize != chunkPos.x || pos.y / ChunkSize != chunkPos.y || pos.z / ChunkSize != chunkPos.z))
  {
    lodLevel == 2 && !InsideChunk(chunkPos, pos)
  }

  /** The voxel at `pos` given its column's values: terrain material, then cave carving. */
  function ColumnVoxel(world: TerrainWorld, column: ColumnData, pos: IVec3): (r: WorldVoxel)
    ensures r != Solid(Lava)
  {
    var fx, fy, fz := pos.x as real, pos.y as real, pos.z as real;
    var biome := Classify(column.temperature, column.humidity, column.weirdness, column.heightOffset);
    var base := world.densityA(fx * DensityScale, fy * DensityScale, fz * DensityScale);
    var terrain := TerrainVoxel(biome, base, pos.y, column.heightOffset, column.squashingFactor);
    Carve(terrain, pos.y, column.heightOffset, CaveFlagsAt(world, pos), column.temperature, column.humidity, column.weirdness)
  }

  /** The three carve predicates at `pos`, from the cave and spaghetti noises at their own scales. */
  function CaveFlagsAt(world: TerrainWorld, pos: IVec3): CaveFlags
  {
    var fx, fy, fz := pos.x as real, pos.y as real, pos.z as real;
    Flags(
      world.densityB(fx * CaveScale, fy * CaveScale, fz * CaveScale),
      world.densityC(fx * CaveScale, fy * CaveScale, fz * CaveScale),
      world.spaghettiA(fx * SpaghettiScale, fy * SpaghettiScale, fz * SpaghettiScale),
      world.spaghettiB(fx * SpaghettiScale, fy * SpaghettiScale, fz * SpaghettiScale))
  }

  /**
   * What the sampler built for `chunkPos` at `lodLevel` returns for `pos`, with the column's
   * values recomputed from scratch rather than read from any cache.
   */
  function VoxelAt(world: TerrainWorld, chunkPos: IVec3, lodLevel: u8, pos: IVec3): (r: WorldVoxel)
    ensures r == Solid(Lava) <==> chunkPos.y < -255
    ensures r == Unset <==> chunkPos.y > 255 || (-255 <= chunkPos.y && SkirtCut(chunkPos, lodLevel, pos))
    ensures ChunkGate(chunkPos.y) == Generated && !SkirtCut(chunkPos, lodLevel, pos)
      ==> r == ColumnVoxel(world, ComputeColumn(world, pos.x, pos.z), pos)
  {
    match ChunkGate(chunkPos.y)
    case AllLava => Solid(Lava)
    case AllUnset => Unset
    case Generated =>
      if SkirtCut(chunkPos, lodLevel, pos) then Unset
      else
        var v := ColumnVoxel(world, ComputeColumn(world, pos.x, pos.z), pos);
        assert v != Unset by {
          ColumnVoxelIsSet(world, ComputeColumn(world, pos.x, pos.z), pos);
        }
        v
  }

  lemma ColumnVoxelIsSet(world: TerrainWorld, column: ColumnData, pos: IVec3)
    ensures ColumnVoxel(world, column, pos) != Unset
  {
    var fx, fy, fz := pos.x as real, pos.y as real, pos.z as real;
    var biome := Classify(column.temperature, column.humidity, column.weirdness, column.heightOffset);
    var base := world.densityA(fx * DensityScale, fy * DensityScale, fz * DensityScale);
    var terrain := TerrainVoxel(biome, base, pos.y, column.heightOffset, column.squashingFactor);
    CarveOutcomes(terrain, pos.y, column.heightOffset, CaveFlagsAt(world, pos), column.temperature, column.humidity, column.weirdness);
  }

  /**
   * A voxel does not depend on which chunk's sampler, or which level of detail, produced it,
   * as long as both samplers generate terrain and neither cuts it away as skirt.
   */
  lemma SameVoxelInEveryContext(world: TerrainWorld, c1: IVec3, l1: u8, c2: IVec3, l2: u8, pos: IVec3)
    requires ChunkGate(c1.y) == Generated && ChunkGate(c2.y) == Generated
    requires !SkirtCut(c1, l1, pos) && !SkirtCut(c2, l2, pos)
    ensures VoxelAt(world, c1, l1, pos) == VoxelAt(world, c2, l2, pos)
  {
  }

  /** Only a level-2 sampler ever cuts a skirt: at any other level every generated voxel is set. */
  lemma SkirtOnlyAtLevelTwo(world: TerrainWorld, chunkPos: IVec3, lodLevel: u8, pos: IVec3)
    requires ChunkGate(chunkPos.y) == Generated && lodLevel != 2
    ensures VoxelAt(world, chunkPos, lodLevel, pos) != Unset
  {
  }

  /**
   * Open space stays open: where the density is not solid, the final voxel is water, the
   * Tundra ice sheet at sea level, or air, exactly as the sea-level rule says; carving
   * never changes it.
   */
  lemma OpenSpaceIsSeaOrAir(world: TerrainWorld, chunkPos: IVec3, lodLevel: u8, pos: IVec3)
    requires ChunkGate(chunkPos.y) == Generated && !SkirtCut(chunkPos, lodLevel, pos)
    requires var column := ComputeColumn(world, pos.x, pos.z);
      var fx, fy, fz := pos.x as real, pos.y as real, pos.z as real;
      !SolidAt(world.densityA(fx * DensityScale, fy * DensityScale, fz * DensityScale),
               fy, column.heightOffset, column.squashingFactor)
    ensures var column := ComputeColumn(world, pos.x, pos.z);
      var biome := Classify(column.temperature, column.humidity, column.weirdness, column.heightOffset);
      VoxelAt(world, chunkPos, lodLevel, pos)
        == if pos.y > SeaLevel then Air
           else if biome == Tundra && pos.y == SeaLevel then Solid(Ice)
           else Solid(Water)
  {
    var column := ComputeColumn(world, pos.x, pos.z);
    var fx, fy, fz := pos.x as real, pos.y as real, pos.z as real;
    var biome := Classify(column.temperature, column.humidity, column.weirdness, column.heightOffset);
    var terrain := TerrainVoxel(biome, world.densityA(fx * DensityScale, fy * DensityScale, fz * DensityScale),
                                pos.y, column.heightOffset, column.squashingFactor);
    OpenSpaceFill(biome, world.densityA(fx * DensityScale, fy * DensityScale, fz * DensityScale),
                  pos.y, column.heightOffset, column.squashingFactor);
    assert Protected(terrain, pos.y);
    assert VoxelAt(world, chunkPos, lodLevel, pos) == ColumnVoxel(world, column, pos);
  }

  /** Above one voxel over the column's terrain height nothing is carved. */
  lemma NoCavesAboveTerrain(world: TerrainWorld, chunkPos: IVec3, lodLevel: u8, pos: IVec3)
    requires ChunkGate(chunkPos.y) == Generated && !SkirtCut(chunkPos, lodLevel, pos)
    requires pos.y as real > ComputeColumn(world, pos.x, pos.z).heightOffset + 1.0
    ensures var column := ComputeColumn(world, pos.x, pos.z);
      var fx, fy, fz := pos.x as real, pos.y as real, pos.z as real;
      var biome := Classify(column.temperature, column.humidity, column.weirdness, column.heightOffset);
      VoxelAt(world, chunkPos, lodLevel, pos)
        == TerrainVoxel(biome, world.densityA(fx * DensityScale, fy * DensityScale, fz * DensityScale),
                        pos.y, column.heightOffset, column.squashingFactor)
  {
    var column := ComputeColumn(world, pos.x, pos.z);
    assert VoxelAt(world, chunkPos, lodLevel, pos) == ColumnVoxel(world, column, pos);
    assert !InCarveRange(pos.y, column.heightOffset);
  }

  /**
   * Pass 1 for one voxel, computed step by step: the final density, the probes one and
   * five voxels up that reuse the voxel's base density, and the sea-level fill.
   */
  method SampleTerrain(biome: Biome, baseDensity: real, y: int, h: real, s: real) returns (r: WorldVoxel)
    ensures r == TerrainVoxel(biome, baseDensity, y, h, s)
  {
    var heightGradient := (y as real - h) * s;
    var finalDensity := baseDensity - heightGradient;

    if finalDensity > 0.0 {
      var densityAbove := baseDensity - ((y as real + 1.0) - h) * s;
      if densityAbove <= 0.0 {
        r := Solid(SurfaceMaterial(biome));
      } else {
        var depthProbe := baseDensity - ((y as real + 5.0) - h) * s;
        if depthProbe <= 0.0 {
          r := Solid(SubsurfaceMaterial(biome));
        } else {
          r := Solid(Stone);
        }
      }
    } else if y < -10 {
      if biome == Tundra && y == -11 {
        r := Solid(Ice);
      } else {
        r := Solid(Water);
      }
    } else {
      r := Air;
    }
  }

  /** The voxel at `pos` from its column's values, computed as the closure does: pass 1 (terrain), then pass 2 (caves). */
  method SampleColumn(world: TerrainWorld, column: ColumnData, pos: IVec3) returns (v: WorldVoxel)
    ensures v == ColumnVoxel(world, column, pos)
  {
    var fx, fy, fz := pos.x as real, pos.y as real, pos.z as real;
    var h, s := column.heightOffset, column.squashingFactor;

    var baseDensity := world.densityA(fx * DensityScale, fy * DensityScale, fz * DensityScale);
    var biome := Classify(column.temperature, column.humidity, column.weirdness, h);
    var voxel := SampleTerrain(biome, baseDensity, pos.y, h, s);
    v := SampleCaves(world, column, pos, voxel);
  }

  /**
   * Pass 2 for one voxel, computed step by step: the early returns that protect liquid, air
   * and below-sea-level sand, snow and dirt, then the three carve predicates and the ore back-fill.
   */
  method SampleCaves(world: TerrainWorld, column: ColumnData, pos: IVec3, terrain: WorldVoxel) returns (v: WorldVoxel)
    ensures v == Carve(terrain, pos.y, column.heightOffset, CaveFlagsAt(world, pos),
                       column.temperature, column.humidity, column.weirdness)
  {
    var fx, fy, fz := pos.x as real, pos.y as real, pos.z as real;
    var h := column.heightOffset;
    var voxel := terrain;
    if voxel == Solid(Water) || voxel == Solid(Ice) || voxel == Air {
      return voxel;
    }
    if pos.y < -10 && (voxel == Solid(Sand) || voxel == Solid(Snow) || voxel == Solid(Dirt)) {
      return voxel;
    }

    var caveDensity := world.densityB(fx * CaveScale, fy * CaveScale, fz * CaveScale);
    var caveWarp := world.densityC(fx * CaveScale, fy * CaveScale, fz * CaveScale);
    var spaghettiAVal := Abs(world.spaghettiA(fx * SpaghettiScale, fy * SpaghettiScale, fz * SpaghettiScale));
    var spaghettiBVal := Abs(world.spaghettiB(fx * SpaghettiScale, fy * SpaghettiScale, fz * SpaghettiScale));

    var shouldCarveCheese := caveDensity > CheeseThreshold;
    var shouldCarveMeatballs := caveWarp + spaghettiAVal < MeatballThreshold
      && caveWarp + spaghettiBVal < MeatballThreshold;
    var shouldCarveSpaghetti := spaghettiAVal < SpaghettiThreshold && spaghettiBVal < SpaghettiThreshold;
    assert CaveFlagsAt(world, pos) == CaveFlags(shouldCarveCheese, shouldCarveMeatballs, shouldCarveSpaghetti);

    if fy <= h + 1.0 && (shouldCarveCheese || shouldCarveMeatballs || shouldCarveSpaghetti) {
      if shouldCarveCheese && !shouldCarveMeatballs && !shouldCarveSpaghetti {
        voxel := OreFill(column.temperature, column.humidity, column.weirdness);
      } else {
        voxel := Air;
      }
    }
    v := voxel;
  }

  /** The columns of a chunk's footprint. */
  ghost function Footprint(chunkPos: IVec3): set<ColumnIndex>
  {
    var lo := ChunkMin(chunkPos);
    Rect(lo.x, ChunkSize, lo.z, ChunkSize)
  }

  /** Whether column `k` lies under the chunk's box. */
  predicate InFootprint(chunkPos: IVec3, k: ColumnIndex)
  {
    var lo, hi := ChunkMin(chunkPos), ChunkMax(chunkPos);
    lo.x <= k.x < hi.x && lo.z <= k.z < hi.z
  }

  ghost function Rect(x0: int, width: nat, z0: int, depth: nat): set<ColumnIndex>
  {
    set x, z | x0 <= x < x0 + width && z0 <= z < z0 + depth :: ColumnIndex(x, z)
  }

  ghost function Row(x: int, z0: int, depth: nat): set<ColumnIndex>
  {
    set z | z0 <= z < z0 + depth :: ColumnIndex(x, z)
  }

  lemma {:induction false} RowSize(x: int, z0: int, depth: nat)
    ensures |Row(x, z0, depth)| == depth
  {
    if depth > 0 {
      RowSize(x, z0, depth - 1);
      assert Row(x, z0, depth) == Row(x, z0, depth - 1) + {ColumnIndex(x, z0 + depth - 1)};
    } else {
      assert Row(x, z0, depth) == {};
    }
  }

  lemma {:induction false} RectSize(x0: int, width: nat, z0: int, depth: nat)
    ensures |Rect(x0, width, z0, depth)| == width * depth
  {
    if width > 0 {
      var rest, last := Rect(x0, width - 1, z0, depth), Row(x0 + width - 1, z0, depth);
      RectSize(x0, width - 1, z0, depth);
      RowSize(x0 + width - 1, z0, depth);
      forall c | c in Rect(x0, width, z0, depth)
        ensures c in rest + last
      {
        if c.x < x0 + width - 1 {
          assert c in rest;
        } else {
          assert c in last;
        }
      }
      assert Rect(x0, width, z0, depth) == rest + last;
      assert rest * last == {};
      assert width * depth == (width - 1) * depth + depth;
    } else {
      assert Rect(x0, width, z0, depth) == {};
    }
  }

  /** A set of columns under one chunk's box holds at most ChunkSize * ChunkSize columns. */
  lemma FootprintBound(chunkPos: IVec3, keys: set<ColumnIndex>)
    requires forall k :: k in keys ==> InFootprint(chunkPos, k)
    ensures |keys| <= ChunkSize * ChunkSize
  {
    var lo := ChunkMin(chunkPos);
    forall k | k in keys
      ensures k in Footprint(chunkPos)
    {
      assert lo.x <= k.x < lo.x + ChunkSize && lo.z <= k.z < lo.z + ChunkSize;
    }
    RectSize(lo.x, ChunkSize, lo.z, ChunkSize);
    SubsetSize(keys, Footprint(chunkPos));
  }

  lemma {:induction false} SubsetSize<T>(a: set<T>, b: set<T>)
    requires a <= b
    ensures |a| <= |b|
  {
    assert b == a + (b - a);
  }

  /** Every cached column holds the values a fresh computation gives. */
  ghost predicate CacheFresh(world: TerrainWorld, cache: map<ColumnIndex, ColumnData>)
  {
    forall k :: k in cache ==> cache[k] == ComputeColumn(world, k.x, k.z)
  }

  /** Every cached column lies under the chunk's box. */
  ghost predicate CacheUnderChunk(chunkPos: IVec3, cache: map<ColumnIndex, ColumnData>)
  {
    forall k :: k in cache ==> InFootprint(chunkPos, k)
  }

  /** Inserting a missing column's fresh values keeps the cache fresh and adds exactly one key. */
  lemma InsertFreshColumn(world: TerrainWorld, chunkPos: IVec3, underChunk: bool,
                          cache: map<ColumnIndex, ColumnData>, pos: IVec3)
    requires CacheFresh(world, cache) && ColumnIndex(pos.x, pos.z) !in cache
    requires underChunk ==> CacheUnderChunk(chunkPos, cache) && InsideChunk(chunkPos, pos)
    ensures var index := ColumnIndex(pos.x, pos.z);
      var after := cache[index := ComputeColumn(world, pos.x, pos.z)];
      && CacheFresh(world, after)
      && (underChunk ==> CacheUnderChunk(chunkPos, after))
      && |after| == |cache| + 1
  {
  }

  /**
   * The sampling function for one chunk at one level of detail. It owns the cache of column
   * values; every entry in the cache equals a fresh computation of that column.
   */
  class VoxelSampler {
    const world: TerrainWorld
    const chunkPos: IVec3
    const lodLevel: u8
    const gate: Gate
    const chunkMin: IVec3
    const chunkMax: IVec3
    const skirtEnabled: bool
    var columnDataCache: map<ColumnIndex, ColumnData>
    /** How many times a column's values have been computed. */
    ghost var columnComputations: nat

    ghost predicate Valid()
      reads this
    {
      && gate == ChunkGate(chunkPos.y)
      && chunkMin == ChunkMin(chunkPos)
      && chunkMax == ChunkMax(chunkPos)
      && skirtEnabled == (lodLevel == 2)
      && (gate != Generated ==> columnDataCache == map[])
      && CacheFresh(world, columnDataCache)
      && (skirtEnabled ==> CacheUnderChunk(chunkPos, columnDataCache))
      && columnComputations == |columnDataCache|
    }

    /** Builds the sampler for chunk `chunkPos` at level `lodLevel`, with an empty cache. */
    constructor (world: TerrainWorld, chunkPos: IVec3, lodLevel: u8)
      ensures Valid()
      ensures this.chunkPos == chunkPos && this.lodLevel == lodLevel
      ensures this.world == world
      ensures columnDataCache == map[] && columnComputations == 0
    {
      this.world := world;
      this.chunkPos := chunkPos;
      this.lodLevel := lodLevel;
      gate := ChunkGate(chunkPos.y);
      chunkMin := ChunkMin(chunkPos);
      chunkMax := ChunkMax(chunkPos);
      skirtEnabled := lodLevel == 2;
      columnDataCache := map[];
      columnComputations := 0;
    }

    /**
     * The voxel at `pos`. The result is the same as a fresh computation, whatever was sampled
     * before; a missing column is computed once and cached, a cached one is never replaced,
     * and positions cut by the gate or the skirt leave the cache alone.
     */
    method Sample(pos: IVec3) returns (v: WorldVoxel)
      requires Valid()
      modifies this`columnDataCache, this`columnComputations
      ensures Valid()
      ensures v == VoxelAt(world, chunkPos, lodLevel, pos)
      ensures columnDataCache
        == if gate != Generated || SkirtCut(chunkPos, lodLevel, pos) then old(columnDataCache)
           else if ColumnIndex(pos.x, pos.z) in old(columnDataCache) then old(columnDataCache)
           else old(columnDataCache)[ColumnIndex(pos.x, pos.z) := ComputeColumn(world, pos.x, pos.z)]
      ensures columnComputations <= old(columnComputations) + 1
    {
      if gate == AllLava {
        return Solid(Lava);
      }
      if gate == AllUnset {
        return Unset;
      }
      if skirtEnabled {
        var outside := pos.x < chunkMin.x || pos.x >= chunkMax.x
          || pos.y < chunkMin.y || pos.y >= chunkMax.y
          || pos.z < chunkMin.z || pos.z >= chunkMax.z;
        if outside {
          return Unset;
        }
      }

      var column := LookupColumn(pos);
      v := SampleColumn(world, column, pos);
    }

    /**
     * The values of `pos`'s column: read from the cache when present, otherwise computed and
     * inserted; no other entry changes.
     */
    method LookupColumn(pos: IVec3) returns (column: ColumnData)
      requires Valid() && gate == Generated && !SkirtCut(chunkPos, lodLevel, pos)
      modifies this`columnDataCache, this`columnComputations
      ensures Valid()
      ensures column == ComputeColumn(world, pos.x, pos.z)
      ensures columnDataCache
        == if ColumnIndex(pos.x, pos.z) in old(columnDataCache) then old(columnDataCache)
           else old(columnDataCache)[ColumnIndex(pos.x, pos.z) := column]
    {
      var index := ColumnIndex(pos.x, pos.z);
      if index in columnDataCache {
        column := columnDataCache[index];
      } else {
        column := ComputeColumn(world, pos.x, pos.z);
        InsertFreshColumn(world, chunkPos, skirtEnabled, columnDataCache, pos);
        columnDataCache := columnDataCache[index := column];
        columnComputations := columnComputations + 1;
      }
    }

    /** At level 2 the cache never holds more columns than the chunk's footprint has. */
    lemma CacheBoundedBySkirt()
      requires Valid() && skirtEnabled
      ensures |columnDataCache| <= ChunkSize * ChunkSize
    {
      FootprintBound(chunkPos, columnDataCache.Keys);
    }
  }

  /**
   * Two samplers of the same chunk, asked for the same two positions in opposite orders,
   * return the same voxels: the cache never changes an answer.
   */
  method SamplingOrderIrrelevant(world: TerrainWorld, chunkPos: IVec3, lodLevel: u8, p: IVec3, q: IVec3)
    returns (pFirst: WorldVoxel, qSecond: WorldVoxel, qFirst: WorldVoxel, pSecond: WorldVoxel)
    ensures pFirst == pSecond && qFirst == qSecond
    ensures pFirst == VoxelAt(world, chunkPos, lodLevel, p)
  {
    var one := new VoxelSampler(world, chunkPos, lodLevel);
    pFirst := one.Sample(p);
    qSecond := one.Sample(q);
    var two := new VoxelSampler(world, chunkPos, lodLevel);
    qFirst := two.Sample(q);
    pSecond := two.Sample(p);
  }
}
