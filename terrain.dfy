/** The density field and the material a voxel gets before caves are carved. */
module Terrain {
  import opened Materials
  import opened Biomes

  /** What the generator returns for one position. */
  datatype WorldVoxel = Unset | Air | Solid(material: BlockMaterial)

  /** Highest y that is filled with water when not solid. */
  const SeaLevel: int := -11

  /** Density of a point at height `y` with base noise `base` in a column of the given height and squash. */
  function Density(base: real, y: real, height: real, squash: real): (r: real)
    // the density equals the base noise at the terrain height, and everywhere in an unsquashed column
    ensures y == height ==> r == base
    ensures squash == 0.0 ==> r == base
  {
    base - (y - height) * squash
  }

  /** With a non-negative squash factor, density never grows going up a column. */
  lemma DensityNonIncreasing(base: real, y1: real, y2: real, height: real, squash: real)
    requires 0.0 <= squash && y1 <= y2
    ensures Density(base, y2, height, squash) <= Density(base, y1, height, squash)
  {
    assert (y2 - height) * squash - (y1 - height) * squash == (y2 - y1) * squash;
    assert (y2 - y1) * squash >= 0.0;
  }

  /**
   * With a positive squash factor the terrain height is where density crosses the base noise:
   * above it the density is below the noise, below it above, so positive noise is solid at
   * or below the height and non-positive noise is open at or above it.
   */
  lemma DensityCrossesAtHeight(base: real, y: real, height: real, squash: real)
    requires squash > 0.0
    ensures Density(base, y, height, squash) < base <==> y > height
    ensures Density(base, y, height, squash) == base <==> y == height
    ensures y <= height && base > 0.0 ==> SolidAt(base, y, height, squash)
    ensures y >= height && base <= 0.0 ==> !SolidAt(base, y, height, squash)
  {
    if y > height {
      assert (y - height) * squash > 0.0;
    } else if y < height {
      assert (height - y) * squash > 0.0;
    }
  }

  predicate IsLiquid(v: WorldVoxel) { v == Solid(Water) || v == Solid(Ice) }

  /** Whether the density at height `y` (with the given base value) makes solid ground. */
  function SolidAt(base: real, y: real, height: real, squash: real): (b: bool)
    // at the terrain height, and in an unsquashed column everywhere, a point is solid exactly where the noise is positive
    ensures y == height ==> (b <==> base > 0.0)
    // an unsquashed column is solid exactly where the noise is positive
    ensures squash == 0.0 ==> (b <==> base > 0.0)
  {
    Density(base, y, height, squash) > 0.0
  }

  /**
   * Voxel at integer height `y` before cave carving. `base` is the 3-D density noise at the
   * voxel; the probes one and five voxels up reuse that same base value.
   */
  function TerrainVoxel(biome: Biome, base: real, y: int, height: real, squash: real): (r: WorldVoxel)
    // solid ground: surface, subsurface or stone, decided by the probes above
    ensures r.Solid? && !IsLiquid(r) <==> SolidAt(base, y as real, height, squash)
    ensures SolidAt(base, y as real, height, squash) && !SolidAt(base, y as real + 1.0, height, squash)
      ==> r == Solid(SurfaceMaterial(biome))
    ensures SolidAt(base, y as real, height, squash) && SolidAt(base, y as real + 1.0, height, squash)
      && !SolidAt(base, y as real + 5.0, height, squash)
      ==> r == Solid(SubsurfaceMaterial(biome))
    ensures r == Solid(Stone)
      <==> (SolidAt(base, y as real, height, squash) && SolidAt(base, y as real + 1.0, height, squash)
            && SolidAt(base, y as real + 5.0, height, squash))
    // open space: water at and below sea level, an ice sheet on Tundra sea level, air above
    ensures IsLiquid(r) <==> !SolidAt(base, y as real, height, squash) && y <= SeaLevel
    ensures r == Solid(Ice) <==> !SolidAt(base, y as real, height, squash) && y == SeaLevel && biome == Tundra
    ensures r == Air <==> !SolidAt(base, y as real, height, squash) && y > SeaLevel
    ensures r != Unset
  {
    var h, s := height, squash;
    if Density(base, y as real, h, s) > 0.0 then
      if Density(base, y as real + 1.0, h, s) <= 0.0 then
        Solid(SurfaceMaterial(biome))
      else if Density(base, y as real + 5.0, h, s) <= 0.0 then
        Solid(SubsurfaceMaterial(biome))
      else
        Solid(Stone)
    else if y < -10 then
      if biome == Tundra && y == -11 then Solid(Ice) else Solid(Water)
    else
      Air
  }

  /** Where the density is not solid, the fill is Air above sea level, the Tundra ice sheet at sea level, and Water otherwise. */
  lemma OpenSpaceFill(biome: Biome, base: real, y: int, height: real, squash: real)
    requires !SolidAt(base, y as real, height, squash)
    ensures TerrainVoxel(biome, base, y, height, squash)
      == if y > SeaLevel then Air
         else if biome == Tundra && y == SeaLevel then Solid(Ice)
         else Solid(Water)
  {
  }

  /**
   * With a non-negative squash factor, a Stone voxel has solid density at itself and at
   * every probe height up to five voxels above it (same base value).
   */
  lemma StoneIsBuried(biome: Biome, base: real, y: int, height: real, squash: real, k: nat)
    requires 0.0 <= squash && k <= 5
    requires TerrainVoxel(biome, base, y, height, squash) == Solid(Stone)
    ensures Density(base, y as real + k as real, height, squash) > 0.0
  {
    DensityNonIncreasing(base, y as real + k as real, y as real + 5.0, height, squash);
  }

  /**
   * Because the probes reuse the voxel's own base value, a column whose squash factor is 0
   * has no surface or subsurface layer: every solid ground voxel in it is Stone.
   */
  lemma FlatColumnHasNoSurface(biome: Biome, base: real, y: int, height: real)
    requires TerrainVoxel(biome, base, y, height, 0.0).Solid?
    requires !IsLiquid(TerrainVoxel(biome, base, y, height, 0.0))
    ensures TerrainVoxel(biome, base, y, height, 0.0) == Solid(Stone)
  {
  }
}
