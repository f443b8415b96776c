/** The generator's configuration (its public fields) and the inputs generation reads. */
module Config {
  import opened Arith
  import opened Noise
  import opened Rand
  import opened Ores

  /** The inspector fields of EnhancedWorldGenerator. */
  datatype WorldConfig = WorldConfig(
    mapWidth: int, mapDepth: int, chunkSize: int, oceanLevel: int, oceanDepth: int,
    caveThreshold: real, tunnelThreshold: real, minCaveDepth: int, maxCaveSize: int, caveConnectivity: real,
    oreTypes: seq<OreParameters>,
    lavaStartDepth: int, lavaChance: real,
    heightMapNoiseData: NoiseData, stoneNoiseData: NoiseData, caveNoiseData: NoiseData,
    oreNoiseData: NoiseData, tunnelNoiseData: NoiseData)
  {
    /** Every noise channel has at least one octave and a non-negative persistence, and
        every ore has a non-empty band and a positive rarity. */
    predicate Valid() {
      && heightMapNoiseData.Valid() && caveNoiseData.Valid()
      && oreNoiseData.Valid() && tunnelNoiseData.Valid()
      && forall o <- oreTypes :: o.Valid()
    }
  }

  /** The field initialisers, with every noise channel at NoiseDataSO's defaults. */
  const DefaultConfig := WorldConfig(
    1000, 500, 100, 0, 1,
    0.45, 0.35, 5, 15, 0.3,
    [],
    80, 0.05,
    DefaultNoiseData, DefaultNoiseData, DefaultNoiseData, DefaultNoiseData, DefaultNoiseData)

  /** The ore initialisation of Awake: an empty table is replaced by the default one. */
  function Awake(cfg: WorldConfig): (r: WorldConfig)
    ensures r.oreTypes != []
    ensures cfg.oreTypes != [] ==> r == cfg
    ensures cfg.oreTypes == [] ==> r == cfg.(oreTypes := DefaultOreTypes)
    ensures cfg.Valid() ==> r.Valid()
  {
    if |cfg.oreTypes| == 0 then cfg.(oreTypes := DefaultOreTypes) else cfg
  }

  /** The first column of the map, -mapWidth / 2 with C# division. */
  function FirstColumn(cfg: WorldConfig): int {
    Div(-cfg.mapWidth, 2)
  }

  /** The number of columns of the map: those in [-mapWidth / 2, mapWidth / 2). */
  function ColumnCount(cfg: WorldConfig): nat {
    Span(Div(-cfg.mapWidth, 2), Div(cfg.mapWidth, 2))
  }

  /** The number of rows above the base layer: [0, mapDepth), none when mapDepth is not positive. */
  function Rows(cfg: WorldConfig): nat {
    if cfg.mapDepth > 0 then cfg.mapDepth else 0
  }

  /** Everything generation reads and never writes: the configuration, the noise primitive
      and the samples of Unity's random stream. */
  datatype Env = Env(cfg: WorldConfig, perlin: Perlin, draws: Stream)
}
