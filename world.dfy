/** GenerateWorld: both tilemaps cleared, the base layer, the chunks left to right with a biome
    drawn from System.Random for each, then the tunnels. */
module World {
  import opened Wrappers
  import opened Tiles
  import opened Arith
  import opened Rand
  import opened Grid
  import opened Biome
  import opened Config
  import opened Ores
  import opened Chunk
  import ChunkBands
  import opened BaseLayer
  import opened Tunnels

  /** How a generation ends: normally, or with the DivideByZeroException of
      mapWidth / chunkSize when chunkSize is 0, after the base layer is already painted. */
  datatype Outcome = Completed | DivideByZero

  /** The first column of chunk k: k * chunkSize - mapWidth / 2, with C# division. */
  function ChunkStart(cfg: WorldConfig, k: int): int {
    k * cfg.chunkSize - Div(cfg.mapWidth, 2)
  }

  /** numChunks = mapWidth / chunkSize, with C# division. */
  function ChunkCount(cfg: WorldConfig): int
    requires cfg.chunkSize != 0
  {
    Div(cfg.mapWidth, cfg.chunkSize)
  }

  /** The biome of chunk k, drawn from System.Random whose position was pos before chunk 0.
      Chunk indices are never negative. The case k < 0 exists only because a pass is indexed
      by int; it fills in an arbitrary sample so that the function is total, and no chunk uses it. */
  function ChunkBiome(sysDraws: Stream, pos: nat, k: int): BiomeType {
    DetermineBiomeType(sysDraws(if k < 0 then pos else pos + k))
  }

  /** Chunk k: its columns [ChunkStart(k), ChunkStart(k) + chunkSize) in its biome. */
  ghost function ChunkPass(env: Env, sysDraws: Stream, pos: nat): Pass
    requires env.cfg.Valid()
  {
    (k: int, st: GenState) =>
      var b := ChunkBiome(sysDraws, pos, k);
      var start := ChunkStart(env.cfg, k);
      ChunkColumns(env, b, Heights(env.cfg, env.perlin, b), start, st, Span(start, start + env.cfg.chunkSize))
  }

  /** Chunk k, unfolded. */
  lemma ChunkPassIs(env: Env, sysDraws: Stream, pos: nat, k: int, st: GenState)
    requires env.cfg.Valid()
    ensures var b := ChunkBiome(sysDraws, pos, k);
            var start := ChunkStart(env.cfg, k);
            ChunkPass(env, sysDraws, pos)(k, st)
            == ChunkColumns(env, b, Heights(env.cfg, env.perlin, b), start, st, Span(start, start + env.cfg.chunkSize))
  {
  }

  /** The chunk loop of GenerateWorld: chunks [0, numChunks). */
  ghost function ChunksSpec(env: Env, sysDraws: Stream, pos: nat, s: GenState): GenState
    requires env.cfg.Valid() && env.cfg.chunkSize != 0
  {
    Sweep(ChunkPass(env, sysDraws, pos), 0, s, Span(0, ChunkCount(env.cfg)))
  }

  /** The whole of GenerateWorld from state s with System.Random at position pos: the new
      state, the new position of System.Random and how it ended. */
  ghost function WorldSpec(env: Env, sysDraws: Stream, pos: nat, s: GenState): (GenState, nat, Outcome)
    requires env.cfg.Valid()
  {
    var base := BaseLayerSpec(env, GenState(map[], map[], s.cursor));
    if env.cfg.chunkSize == 0 then (base, pos, DivideByZero)
    else (TunnelsSpec(env, ChunksSpec(env, sysDraws, pos, base)), pos + Span(0, ChunkCount(env.cfg)), Completed)
  }

  /** A product grows with its first factor when the second is positive. */
  lemma MulMonotone(a: int, b: int, c: int)
    requires a <= b && c > 0
    ensures a * c <= b * c
  {
    assert b * c - a * c == (b - a) * c;
  }

  /** The chunk containing column x when chunkSize is positive. */
  function ChunkOf(cfg: WorldConfig, x: int): (k: int)
    requires cfg.chunkSize > 0
    ensures ChunkStart(cfg, k) <= x < ChunkStart(cfg, k) + cfg.chunkSize
  {
    var k := (x + Div(cfg.mapWidth, 2)) / cfg.chunkSize;
    assert x + Div(cfg.mapWidth, 2) == k * cfg.chunkSize + (x + Div(cfg.mapWidth, 2)) % cfg.chunkSize;
    k
  }

  /** Chunks are disjoint: a column lies in no chunk other than ChunkOf(x). */
  lemma ChunkOfUnique(cfg: WorldConfig, x: int, j: int)
    requires cfg.chunkSize > 0
    requires ChunkStart(cfg, j) <= x < ChunkStart(cfg, j) + cfg.chunkSize
    ensures j == ChunkOf(cfg, x)
  {
    var k := ChunkOf(cfg, x);
    var cs := cfg.chunkSize;
    if j < k {
      MulMonotone(j + 1, k, cs);
      assert false;
    } else if j > k {
      MulMonotone(k + 1, j, cs);
      assert false;
    }
  }

  /** The chunks [0, numChunks) cover exactly the columns [ChunkStart(0), ChunkStart(numChunks)),
      each in the chunk ChunkOf(x). */
  lemma ChunksCover(cfg: WorldConfig, x: int)
    requires cfg.chunkSize > 0 && cfg.mapWidth >= 0
    ensures ChunkStart(cfg, 0) <= x < ChunkStart(cfg, ChunkCount(cfg)) <==> 0 <= ChunkOf(cfg, x) < ChunkCount(cfg)
  {
    var k := ChunkOf(cfg, x);
    var n := ChunkCount(cfg);
    var cs := cfg.chunkSize;
    if 0 <= k < n {
      MulMonotone(0, k, cs);
      MulMonotone(k + 1, n, cs);
    }
    if ChunkStart(cfg, 0) <= x < ChunkStart(cfg, n) {
      if k < 0 {
        MulMonotone(k + 1, 0, cs);
      }
      if k >= n {
        MulMonotone(n, k, cs);
      }
    }
  }

  /** Against the columns of the base layer and the tunnels, [-mapWidth / 2, mapWidth / 2):
      the chunks start at the same column, and when chunkSize divides mapWidth they end at the
      same column for an even width and one column further for an odd one. */
  lemma ChunksAgainstMapColumns(cfg: WorldConfig)
    requires cfg.chunkSize > 0 && cfg.mapWidth >= 0 && cfg.mapWidth % cfg.chunkSize == 0
    ensures ChunkStart(cfg, 0) == FirstColumn(cfg)
    ensures ChunkStart(cfg, ChunkCount(cfg)) == FirstColumn(cfg) + ColumnCount(cfg) + cfg.mapWidth % 2
  {
    var w := cfg.mapWidth;
    assert ChunkCount(cfg) * cfg.chunkSize == w;
    assert Div(w, 2) * 2 + w % 2 == w;
  }

  /** The generator as its fields are initialised, after Awake: a valid configuration whose ten
      chunks of 100 columns start at the map's first column and end exactly at its last. */
  lemma DefaultWorldChunks()
    ensures Awake(DefaultConfig).Valid() && Awake(DefaultConfig).oreTypes == DefaultOreTypes
    ensures ChunkCount(Awake(DefaultConfig)) == 10
    ensures ChunkStart(Awake(DefaultConfig), 0) == FirstColumn(Awake(DefaultConfig)) == -500
    ensures ChunkStart(Awake(DefaultConfig), 10) == FirstColumn(Awake(DefaultConfig)) + ColumnCount(Awake(DefaultConfig))
  {
    var cfg := Awake(DefaultConfig);
    assert AllValid(DefaultOreTypes) by {
      DefaultOreTypesBeyondReach(101, 0.0, u => 0.0, 0);
    }
    ChunksAgainstMapColumns(cfg);
  }

  /** After the chunk loop, row y in [0, mapDepth) of a column in one of the chunks holds the
      background of that chunk's biome for its row and its column's surface height. */
  lemma ChunksBackground(env: Env, sysDraws: Stream, pos: nat, s: GenState, c: Cell)
    requires env.cfg.Valid() && env.cfg.chunkSize > 0 && env.cfg.mapWidth >= 0
    requires ChunkStart(env.cfg, 0) <= c.0 < ChunkStart(env.cfg, ChunkCount(env.cfg)) && 0 <= c.1 < Rows(env.cfg)
    ensures var b := ChunkBiome(sysDraws, pos, ChunkOf(env.cfg, c.0));
            Lookup(ChunksSpec(env, sysDraws, pos, s).background, c)
            == GetBackgroundTileForBiome(b, c.1, SurfaceHeight(env.cfg, env.perlin, b, c.0))
  {
    var cfg := env.cfg;
    var pass := ChunkPass(env, sysDraws, pos);
    var k0 := ChunkOf(cfg, c.0);
    var b0 := ChunkBiome(sysDraws, pos, k0);
    var t := GetBackgroundTileForBiome(b0, c.1, SurfaceHeight(cfg, env.perlin, b0, c.0));
    ChunksCover(cfg, c.0);
    forall k, st: GenState | 0 <= k < Span(0, ChunkCount(cfg))
      ensures Lookup(pass(k, st).background, c) == if k == k0 then t else Lookup(st.background, c)
    {
      var b := ChunkBiome(sysDraws, pos, k);
      var start := ChunkStart(cfg, k);
      ChunkPassIs(env, sysDraws, pos, k, st);
      ChunkBands.ChunkColumnsBackground(env, b, Heights(cfg, env.perlin, b), start, st, Span(start, start + cfg.chunkSize), c);
      if start <= c.0 < start + cfg.chunkSize {
        ChunkOfUnique(cfg, c.0, k);
      }
    }
    SweepBackground(pass, 0, s, Span(0, ChunkCount(cfg)), k0, c, t);
  }

  /** In the finished world, row y in [0, mapDepth) of a column in one of the chunks holds the
      background of its chunk's biome for its row and surface height, unless a tunnel opened the
      cell: then it holds no ground and dark stone behind. */
  lemma WorldBackground(env: Env, sysDraws: Stream, pos: nat, s: GenState, c: Cell)
    requires env.cfg.Valid() && env.cfg.chunkSize > 0 && env.cfg.mapWidth >= 0
    requires ChunkStart(env.cfg, 0) <= c.0 < ChunkStart(env.cfg, ChunkCount(env.cfg)) && 0 <= c.1 < Rows(env.cfg)
    ensures var b := ChunkBiome(sysDraws, pos, ChunkOf(env.cfg, c.0));
            var world := WorldSpec(env, sysDraws, pos, s).0;
            Lookup(world.background, c) == GetBackgroundTileForBiome(b, c.1, SurfaceHeight(env.cfg, env.perlin, b, c.0))
            || Carved(world, c)
  {
    var chunks := ChunksSpec(env, sysDraws, pos, BaseLayerSpec(env, GenState(map[], map[], s.cursor)));
    ChunksBackground(env, sysDraws, pos, BaseLayerSpec(env, GenState(map[], map[], s.cursor)), c);
    TunnelsOnlyCarve(env, chunks, c);
  }

  /** The rows more than 15 under 2 * minCaveDepth end the world as the chunks left them:
      no tunnel reaches them. */
  lemma WorldKeepsChunksBelowTunnels(env: Env, sysDraws: Stream, pos: nat, s: GenState, c: Cell)
    requires env.cfg.Valid() && env.cfg.chunkSize != 0
    requires c.1 < env.cfg.minCaveDepth * 2 - 15
    ensures var chunks := ChunksSpec(env, sysDraws, pos, BaseLayerSpec(env, GenState(map[], map[], s.cursor)));
            && Lookup(WorldSpec(env, sysDraws, pos, s).0.ground, c) == Lookup(chunks.ground, c)
            && Lookup(WorldSpec(env, sysDraws, pos, s).0.background, c) == Lookup(chunks.background, c)
  {
    var chunks := ChunksSpec(env, sysDraws, pos, BaseLayerSpec(env, GenState(map[], map[], s.cursor)));
    TunnelsKeepLowRows(env, chunks, c);
  }

  /** Every cell of the world holds what the chunks left there, or has been opened by a tunnel:
      no ground and dark stone behind. */
  lemma WorldTunnelsOnlyCarve(env: Env, sysDraws: Stream, pos: nat, s: GenState, c: Cell)
    requires env.cfg.Valid() && env.cfg.chunkSize != 0
    ensures CarvedOrKept(ChunksSpec(env, sysDraws, pos, BaseLayerSpec(env, GenState(map[], map[], s.cursor))),
                         WorldSpec(env, sysDraws, pos, s).0, c)
  {
    TunnelsOnlyCarve(env, ChunksSpec(env, sysDraws, pos, BaseLayerSpec(env, GenState(map[], map[], s.cursor))), c);
  }

  /** One turn of the chunk loop: painting chunk k over the first k chunks gives the first k + 1. */
  lemma ChunkStep(env: Env, sysDraws: Stream, pos: nat, s0: GenState, k: nat, draw: real, start: int,
                  before: GenState, after: GenState)
    requires env.cfg.Valid() && before == Sweep(ChunkPass(env, sysDraws, pos), 0, s0, k)
    requires draw == sysDraws(pos + k) && start == k * env.cfg.chunkSize - Div(env.cfg.mapWidth, 2)
    requires var b := DetermineBiomeType(draw);
             after == ChunkColumns(env, b, Heights(env.cfg, env.perlin, b), start, before, Span(start, start + env.cfg.chunkSize))
    ensures after == Sweep(ChunkPass(env, sysDraws, pos), 0, s0, k + 1)
  {
    ChunkPassIs(env, sysDraws, pos, k, before);
    SweepStep(ChunkPass(env, sysDraws, pos), 0, s0, k, k, before, after);
  }

  /** The loop of GenerateWorld over the chunks [0, numChunks). */
  method GenerateChunks(env: Env, grid: WorldGrid, rng: RandomStream, sys: RandomStream, numChunks: int)
    requires env.cfg.Valid() && rng.draws == env.draws && rng != sys
    modifies grid, rng, sys
    ensures Snapshot(grid, rng) == Sweep(ChunkPass(env, sys.draws, old(sys.cursor)), 0, old(Snapshot(grid, rng)), Span(0, numChunks))
    ensures sys.cursor == old(sys.cursor) + Span(0, numChunks)
  {
    ghost var s0 := Snapshot(grid, rng);
    ghost var pos := sys.cursor;
    var chunkIndex := 0;
    while chunkIndex < numChunks
      invariant 0 <= chunkIndex && (chunkIndex <= numChunks || chunkIndex == 0)
      invariant sys.cursor == pos + chunkIndex
      invariant Snapshot(grid, rng) == Sweep(ChunkPass(env, sys.draws, pos), 0, s0, chunkIndex)
    {
      var chunkStartX := chunkIndex * env.cfg.chunkSize - Div(env.cfg.mapWidth, 2);
      var chunkEndX := chunkStartX + env.cfg.chunkSize;
      var biomeValue := sys.Value();
      var biomeType := DetermineBiomeType(biomeValue);
      ghost var before := Snapshot(grid, rng);
      GenerateChunk(env, grid, rng, chunkStartX, chunkEndX, biomeType);
      ghost var after := Snapshot(grid, rng);
      ChunkStep(env, sys.draws, pos, s0, chunkIndex, biomeValue, chunkStartX, before, after);
      chunkIndex := chunkIndex + 1;
    }
    assert chunkIndex == Span(0, numChunks);
  }

  /** GenerateWorld, with Unity's random stream rng and the generator's System.Random sys. */
  method GenerateWorld(env: Env, grid: WorldGrid, rng: RandomStream, sys: RandomStream) returns (outcome: Outcome)
    requires env.cfg.Valid() && rng.draws == env.draws && rng != sys
    modifies grid, rng, sys
    ensures var (world, cursor, result) := WorldSpec(env, sys.draws, old(sys.cursor), old(Snapshot(grid, rng)));
            Snapshot(grid, rng) == world && sys.cursor == cursor && outcome == result
  {
    grid.ClearGroundTilemap();
    grid.ClearPerlind2DTilemap();
    GenerateBaseLayer(env, grid, rng);
    if env.cfg.chunkSize == 0 {
      return DivideByZero;
    }
    var numChunks := Div(env.cfg.mapWidth, env.cfg.chunkSize);
    GenerateChunks(env, grid, rng, sys, numChunks);
    GenerateTunnels(env, grid, rng);
    outcome := Completed;
  }
}
