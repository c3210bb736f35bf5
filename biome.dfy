/** Biome classification from a column's climate and height, and the materials each biome lays down. */
module Biomes {
  import opened Materials

  datatype Biome =
    // temperate
    | Grassland | Forest | PineForest
    // arid
    | Desert | Savanna | ScrubDesert
    // polar
    | Taiga | Tundra

  // The climate bands and thresholds the classifier compares against.
  predicate Hot(temperature: real) { temperature > 0.4 }
  predicate Cold(temperature: real) { temperature < -0.4 }
  predicate Temperate(temperature: real) { -0.4 <= temperature <= 0.4 }
  predicate Dry(humidity: real) { humidity < -0.3 }
  predicate Humid(humidity: real) { humidity > 0.2 }
  predicate Moderate(humidity: real) { -0.3 <= humidity <= 0.2 }
  predicate Weird(weirdness: real) { weirdness > 0.0 }

  /**
   * Where each biome occurs, written per biome: the part of
   * (temperature, humidity, weirdness, height) space that the classifier maps to `b`.
   */
  predicate InRegion(b: Biome, temperature: real, humidity: real, weirdness: real, height: real)
  {
    match b
    case Desert => Hot(temperature) && Dry(humidity) && height > 50.0
    case Savanna => Hot(temperature) && Dry(humidity) && height <= 50.0
    case ScrubDesert =>
      (Hot(temperature) && !Dry(humidity))
      || (Temperate(temperature) && Dry(humidity) && height >= 50.0)
    case Tundra => Cold(temperature) && Dry(humidity) && height < 50.0
    case Taiga =>
      Cold(temperature) && ((Dry(humidity) && height >= 50.0) || (!Dry(humidity) && height < 50.0))
    case PineForest =>
      (Cold(temperature) && !Dry(humidity) && height >= 50.0)
      || (Temperate(temperature) && Humid(humidity) && Weird(weirdness))
    case Forest =>
      Temperate(temperature)
      && ((Humid(humidity) && !Weird(weirdness)) || (Moderate(humidity) && Weird(weirdness)))
    case Grassland =>
      Temperate(temperature)
      && ((Dry(humidity) && height < 50.0) || (Moderate(humidity) && !Weird(weirdness)))
  }

  /** The biome of a column with the given climate and terrain height. */
  function Classify(temperature: real, humidity: real, weirdness: real, height: real): (r: Biome)
    ensures InRegion(r, temperature, humidity, weirdness, height)
  {
    if temperature > 0.4 then
      if humidity < -0.3 then
        if height > 50.0 then Desert else Savanna
      else ScrubDesert
    else if temperature < -0.4 then
      if humidity < -0.3 then
        if height < 50.0 then Tundra else Taiga
      else if height < 50.0 then Taiga else PineForest
    else if humidity < -0.3 then
      if height < 50.0 then Grassland else ScrubDesert
    else if humidity > 0.2 then
      if weirdness > 0.0 then PineForest else Forest
    else if weirdness > 0.0 then Forest
    else Grassland
  }

  /** No point of climate space lies in two biome regions. */
  lemma RegionsDisjoint(b1: Biome, b2: Biome, temperature: real, humidity: real, weirdness: real, height: real)
    requires InRegion(b1, temperature, humidity, weirdness, height)
    requires InRegion(b2, temperature, humidity, weirdness, height)
    ensures b1 == b2
  {
  }

  /** The classifier picks `b` exactly on `b`'s region; the regions cover every input. */
  lemma ClassifyExactly(b: Biome, temperature: real, humidity: real, weirdness: real, height: real)
    ensures Classify(temperature, humidity, weirdness, height) == b
        <==> InRegion(b, temperature, humidity, weirdness, height)
  {
  }

  /**
   * A hot, dry column is Desert only strictly above height 50: at temperature 0.5, humidity
   * -0.5 and weirdness 0 it is Desert (surface Sand) at height 60 and Savanna (surface Gold)
   * at height 50.
   */
  lemma HotDryColumnsSplitAtHeightFifty()
    ensures Classify(0.5, -0.5, 0.0, 60.0) == Desert && SurfaceMaterial(Desert) == Sand
    ensures Classify(0.5, -0.5, 0.0, 50.0) == Savanna && SurfaceMaterial(Savanna) == Gold
  {
  }

  /** Material of a solid voxel directly below open space. */
  function SurfaceMaterial(b: Biome): (m: BlockMaterial)
    ensures m in {Grass, Leaves, Coal, Wood, Sand, Gold, Platinum, Snow}
  {
    match b
    case Grassland => Grass
    case Forest => Leaves
    case PineForest => Coal
    case Taiga => Wood
    case Desert => Sand
    case Savanna => Gold
    case ScrubDesert => Platinum
    case Tundra => Snow
  }

  /** Each biome has its own surface material. */
  lemma SurfaceMaterialInjective(b1: Biome, b2: Biome)
    ensures SurfaceMaterial(b1) == SurfaceMaterial(b2) <==> b1 == b2
  {
  }

  /** Material of a solid voxel less than five voxels below open space but not at the surface. */
  function SubsurfaceMaterial(b: Biome): (m: BlockMaterial)
    ensures m == Sand <==> b == Desert
    ensures m == Snow <==> b in {Taiga, Tundra}
    ensures m == Dirt <==> b !in {Desert, Taiga, Tundra}
  {
    match b
    case Desert => Sand
    case Taiga | Tundra => Snow
    case _ => Dirt
  }
}
