/** Cave carving: three noise predicates, the protection rules and the ore back-fill table. */
module Caves {
  import opened Materials
  import opened Terrain

  const SpaghettiThreshold: real := 0.007654321
  const MeatballThreshold: real := -0.494321
  const CheeseThreshold: real := 0.9813

  function Abs(x: real): real { if x < 0.0 then -x else x }

  /** The three carve predicates of one voxel. */
  datatype CaveFlags = CaveFlags(cheese: bool, meatballs: bool, spaghetti: bool)

  /**
   * Carve predicates from the voxel's raw noise samples: `caveDensity` and `caveWarp` at scale
   * 0.030303030303, `spaghettiA` and `spaghettiB` at scale 0.0025 (signed; their magnitudes are compared).
   */
  function Flags(caveDensity: real, caveWarp: real, spaghettiA: real, spaghettiB: real): (f: CaveFlags)
    ensures f.cheese <==> caveDensity > CheeseThreshold
    ensures f.meatballs ==> caveWarp < MeatballThreshold
    ensures f.meatballs <==> caveWarp + Abs(spaghettiA) < MeatballThreshold && caveWarp + Abs(spaghettiB) < MeatballThreshold
    ensures f.spaghetti
      <==> (-SpaghettiThreshold < spaghettiA < SpaghettiThreshold
            && -SpaghettiThreshold < spaghettiB < SpaghettiThreshold)
  {
    var a, b := Abs(spaghettiA), Abs(spaghettiB);
    CaveFlags(
      caveDensity > CheeseThreshold,
      caveWarp + a < MeatballThreshold && caveWarp + b < MeatballThreshold,
      a < SpaghettiThreshold && b < SpaghettiThreshold)
  }

  /** The materials the back-fill table can place. */
  const OreMaterials: set<BlockMaterial> :=
    {Copper, Adamantine, Iron, Marble, Coal, Wood, Gold, Tin, Clay, Dirt, Silver}

  /**
   * Where the back-fill table has no entry: hot columns, cold columns with humidity 0.5 or more,
   * and temperate columns whose humidity or weirdness reaches 0.5.
   */
  predicate OutsideOreTable(temperature: real, humidity: real, weirdness: real)
  {
    temperature >= 0.5
    || (temperature < -0.5 && humidity >= 0.5)
    || (-0.5 <= temperature < 0.5 && (humidity >= 0.5 || weirdness >= 0.5))
  }

  /** What a voxel hollowed out by cheese caves alone is back-filled with. */
  function OreFill(temperature: real, humidity: real, weirdness: real): (r: WorldVoxel)
    ensures r == Air <==> OutsideOreTable(temperature, humidity, weirdness)
    ensures r != Air ==> r.Solid? && r.material in OreMaterials
  {
    if temperature < -0.5 then
      if humidity < -0.5 then Solid(Copper)
      else if humidity < -0.1 then Solid(Adamantine)
      else if humidity < 0.1 then Solid(Iron)
      else if humidity < 0.5 then Solid(Marble)
      else Air
    else if temperature < 0.5 then
      if humidity < -0.5 then
        if weirdness < -0.5 then Solid(Coal)
        else if weirdness < -0.1 then Solid(Wood)
        else if weirdness < 0.1 then Solid(Gold)
        else if weirdness < 0.5 then Solid(Tin)
        else Air
      else if humidity < -0.1 then
        if weirdness < -0.5 then Solid(Copper)
        else if weirdness < 0.5 then Solid(Iron)
        else Air
      else if humidity < 0.1 then
        if weirdness < -0.5 then Solid(Clay)
        else if weirdness < 0.5 then Solid(Dirt)
        else Air
      else if humidity < 0.5 then
        if weirdness < -0.5 then Solid(Silver)
        else if weirdness < 0.5 then Solid(Gold)
        else Air
      else Air
    else Air
  }

  /** In the coldest band the back-fill depends on humidity alone. */
  lemma ColdOreIgnoresWeirdness(temperature: real, humidity: real, w1: real, w2: real)
    requires temperature < -0.5
    ensures OreFill(temperature, humidity, w1) == OreFill(temperature, humidity, w2)
  {
  }

  /** Voxels cave carving never touches: open space and liquid, and below-sea-level sand, snow and dirt. */
  predicate Protected(v: WorldVoxel, y: int)
  {
    v == Solid(Water) || v == Solid(Ice) || v == Air
    || (y < -10 && (v == Solid(Sand) || v == Solid(Snow) || v == Solid(Dirt)))
  }

  /** Carving is considered only at or below one voxel above the column's terrain height. */
  predicate InCarveRange(y: int, height: real)
  {
    y as real <= height + 1.0
  }

  /** The voxel after cave carving, given the terrain voxel `v` at height `y`. */
  function Carve(v: WorldVoxel, y: int, height: real, flags: CaveFlags,
                 temperature: real, humidity: real, weirdness: real): (r: WorldVoxel)
    ensures Protected(v, y) ==> r == v
    ensures !InCarveRange(y, height) ==> r == v
    ensures !flags.cheese && !flags.meatballs && !flags.spaghetti ==> r == v
    ensures !Protected(v, y) && InCarveRange(y, height) && (flags.meatballs || flags.spaghetti) ==> r == Air
    ensures !Protected(v, y) && InCarveRange(y, height) && flags == CaveFlags(true, false, false)
      ==> r == OreFill(temperature, humidity, weirdness)
  {
    if Protected(v, y) then v
    else if InCarveRange(y, height) && (flags.cheese || flags.meatballs || flags.spaghetti) then
      if flags.cheese && !flags.meatballs && !flags.spaghetti then OreFill(temperature, humidity, weirdness)
      else Air
    else v
  }

  /** Carving only ever keeps a voxel, empties it, or back-fills it from the ore table; it never yields Unset from a set voxel. */
  lemma CarveOutcomes(v: WorldVoxel, y: int, height: real, flags: CaveFlags,
                      temperature: real, humidity: real, weirdness: real)
    ensures var r := Carve(v, y, height, flags, temperature, humidity, weirdness);
      r == v || r == Air || (r.Solid? && r.material in OreMaterials)
    ensures v != Unset ==> Carve(v, y, height, flags, temperature, humidity, weirdness) != Unset
    ensures v == Air ==> Carve(v, y, height, flags, temperature, humidity, weirdness) == Air
  {
  }

  /** Cheese caves alone can leave a voxel's material as it was: the table refills Dirt with Dirt. */
  lemma CheeseFillCanKeepMaterial()
    ensures Carve(Solid(Dirt), 0, 10.0, CaveFlags(true, false, false), 0.0, 0.0, 0.0) == Solid(Dirt)
  {
  }
}
