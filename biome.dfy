/** Biome classification and the per-biome height and tile policies. */
module Biome {
  import opened Wrappers
  import opened Tiles

  datatype BiomeType = Plains | Desert | Snow | Ocean

  /** The upper bounds of the Plains, Desert, Snow and Ocean buckets (biomeThresholds). */
  const BiomeThresholds: seq<real> := [0.5, 0.7, 0.9, 1.0]

  /** Position of a biome in the order of its thresholds. */
  function Rank(b: BiomeType): nat {
    match b
    case Plains => 0
    case Desert => 1
    case Snow => 2
    case Ocean => 3
  }

  /** DetermineBiomeType: the first threshold that exceeds the value picks the biome;
      the last bucket takes everything else, so its threshold is never consulted. */
  function DetermineBiomeType(value: real): (b: BiomeType)
    ensures b == Plains <==> value < 0.5
    ensures b == Desert <==> 0.5 <= value < 0.7
    ensures b == Snow <==> 0.7 <= value < 0.9
    ensures b == Ocean <==> 0.9 <= value
  {
    if value < BiomeThresholds[0] then Plains
    else if value < BiomeThresholds[1] then Desert
    else if value < BiomeThresholds[2] then Snow
    else Ocean
  }

  /** The classification is monotone: a larger value never yields an earlier bucket. */
  lemma DetermineBiomeTypeMonotone(v: real, w: real)
    requires v <= w
    ensures Rank(DetermineBiomeType(v)) <= Rank(DetermineBiomeType(w))
  {
  }

  /** How much a biome raises (or lowers) the noise height of its columns. */
  function HeightBias(b: BiomeType): int {
    match b
    case Plains => 0
    case Desert => -2
    case Snow => 3
    case Ocean => 0
  }

  /** AdjustSurfaceHeightForBiome: Plains keeps the height, Desert lowers it by 2,
      Snow raises it by 3 and Ocean replaces it by the ocean level. */
  function AdjustSurfaceHeightForBiome(baseHeight: int, b: BiomeType, oceanLevel: int): (h: int)
    ensures b != Ocean ==> h == baseHeight + HeightBias(b)
    ensures b == Ocean ==> h == oceanLevel
  {
    match b
    case Plains => baseHeight
    case Desert => baseHeight - 2
    case Snow => baseHeight + 3
    case Ocean => oceanLevel
  }

  /** GetSurfaceTileForBiome: grassy dirt on plains, sandy dirt in the desert, snowy dirt on
      snow and sand by the sea. */
  function GetSurfaceTileForBiome(b: BiomeType): (t: Tile)
    ensures b == Plains ==> t == DirtGrass
    ensures b == Desert ==> t == DirtSand
    ensures b == Snow ==> t == DirstSnow
    ensures b == Ocean ==> t == SandTile
  {
    match b
    case Plains => DirtGrass
    case Desert => DirtSand
    case Snow => DirstSnow
    case Ocean => SandTile
  }

  /** GetSubsurfaceTileForBiome: dirt under grass and snow, sand under desert and sea. */
  function GetSubsurfaceTileForBiome(b: BiomeType): (t: Tile)
    ensures t == (if b in {Desert, Ocean} then SandTile else DirtTile)
  {
    match b
    case Plains => DirtTile
    case Desert => SandTile
    case Snow => DirtTile
    case Ocean => SandTile
  }

  /** GetBackgroundTileForBiome: dark stone deeper than three rows under the surface,
      dark sand (Desert) or dark dirt (other biomes) in the top four rows, nothing above. */
  function GetBackgroundTileForBiome(b: BiomeType, y: int, surfaceHeight: int): (t: Option<Tile>)
    ensures t == None <==> y > surfaceHeight
    ensures t == Some(StoneDark) <==> y < surfaceHeight - 3
    ensures t == Some(SandDark) <==> surfaceHeight - 3 <= y <= surfaceHeight && b == Desert
    ensures t == Some(DirtDark) <==> surfaceHeight - 3 <= y <= surfaceHeight && b != Desert
  {
    if y < surfaceHeight - 3 then Some(StoneDark)
    else if y <= surfaceHeight then
      match b
      case Desert => Some(SandDark)
      case _ => Some(DirtDark)
    else None
  }
}
