/** GenerateChunk: the surface heights of a chunk, then its columns from row 0 up to mapDepth,
    then an occasional tree on each Plains column. */
module Chunk {
  import opened Wrappers
  import opened Tiles
  import opened Arith
  import opened Noise
  import opened Rand
  import opened Grid
  import opened Biome
  import opened Ores
  import opened Config
  import opened Caves
  import opened Trees

  /** The first pass for column x: the height noise sampled at row 1 and column
      (int)(offset.x + x), mapped onto [noiseRangeMin, noiseRangeMax], floored and adjusted
      for the biome; an Ocean column sits at the ocean level whatever the noise. */
  function SurfaceHeight(cfg: WorldConfig, perlin: Perlin, b: BiomeType, x: int): (h: int)
    requires cfg.heightMapNoiseData.Valid()
    ensures b == Ocean ==> h == cfg.oceanLevel
    ensures b != Ocean && cfg.heightMapNoiseData.noiseRangeMin <= cfg.heightMapNoiseData.noiseRangeMax ==>
      FloorToInt(cfg.heightMapNoiseData.noiseRangeMin) + HeightBias(b) <= h
      <= FloorToInt(cfg.heightMapNoiseData.noiseRangeMax) + HeightBias(b)
  {
    var nd := cfg.heightMapNoiseData;
    var noise := Sample(perlin, Truncate(nd.offsetX + x as real), 1, nd);
    var noiseInRange := RangeMap(noise, 0.0, 1.0, nd.noiseRangeMin, nd.noiseRangeMax);
    FloorMonotone(nd.noiseRangeMin, noiseInRange);
    FloorMonotone(noiseInRange, nd.noiseRangeMax);
    var surfaceHeight := AdjustSurfaceHeightForBiome(FloorToInt(noiseInRange), b, cfg.oceanLevel);
    if b == Ocean then cfg.oceanLevel else surfaceHeight
  }

  lemma FloorMonotone(a: real, b: real)
    ensures a <= b ==> FloorToInt(a) <= FloorToInt(b)
  {
  }

  /** The first pass of GenerateChunk: the height of every column in [startX, endX),
      computed before any tile is written. */
  method ComputeSurfaceHeights(cfg: WorldConfig, perlin: Perlin, b: BiomeType, startX: int, endX: int)
    returns (surfaceHeights: map<int, int>)
    requires cfg.heightMapNoiseData.Valid()
    ensures forall x :: x in surfaceHeights <==> startX <= x < endX
    ensures forall x <- surfaceHeights :: surfaceHeights[x] == SurfaceHeight(cfg, perlin, b, x)
  {
    var nd := cfg.heightMapNoiseData;
    surfaceHeights := map[];
    var x := startX;
    while x < endX
      invariant startX <= x && (x <= endX || x == startX)
      invariant forall x' :: x' in surfaceHeights <==> startX <= x' < x
      invariant forall x' <- surfaceHeights :: surfaceHeights[x'] == SurfaceHeight(cfg, perlin, b, x')
    {
      var noise := SumNoise(perlin, Truncate(nd.offsetX + x as real), 1, nd);
      var noiseInRange := RangeMap(noise, 0.0, 1.0, nd.noiseRangeMin, nd.noiseRangeMax);
      var surfaceHeight := FloorToInt(noiseInRange);
      surfaceHeight := AdjustSurfaceHeightForBiome(surfaceHeight, b, cfg.oceanLevel);
      if b == Ocean {
        surfaceHeight := cfg.oceanLevel;
      }
      assert surfaceHeight == SurfaceHeight(cfg, perlin, b, x);
      surfaceHeights := surfaceHeights[x := surfaceHeight];
      x := x + 1;
    }
  }

  /** The grass decoration picked by Random.Range(1, 5). */
  function GrassTile(grassType: int): (t: Tile)
    ensures t in {Grass1Tile, Grass2Tile, Grass3Tile, Grass4Tile}
    ensures 1 <= grassType <= 4 ==> t == [Grass1Tile, Grass2Tile, Grass3Tile, Grass4Tile][grassType - 1]
    ensures !(1 <= grassType <= 3) ==> t == Grass4Tile
  {
    match grassType
    case 1 => Grass1Tile
    case 2 => Grass2Tile
    case 3 => Grass3Tile
    case _ => Grass4Tile
  }

  /** The foreground of a cell more than 3 rows under the surface: an ore when the ore scan
      picks one, otherwise lava (at a lavaChance draw, in rows over lavaStartDepth) or stone.
      What it yields in each case is stated by ChunkBands.CellChoiceBands. */
  ghost function UndergroundTile(env: Env, x: int, y: int, pos: nat): (r: (Option<Tile>, nat))
    requires env.cfg.Valid()
    ensures r.1 >= pos
    ensures r.0.Some? && (r.0.value in {StoneTile, LavaTile} || IsOreAt(env.cfg.oreTypes, y, r.0.value))
  {
    var cfg := env.cfg;
    var ore := OreScan(cfg.oreTypes, y, Sample(env.perlin, x, y, cfg.oreNoiseData), env.draws, pos);
    OreScanSound(cfg.oreTypes, y, Sample(env.perlin, x, y, cfg.oreNoiseData), env.draws, pos);
    if ore.0.Some? then ore
    else if y > cfg.lavaStartDepth then
      (Some(if env.draws(ore.1) < cfg.lavaChance then LavaTile else StoneTile), ore.1 + 1)
    else (Some(StoneTile), ore.1)
  }

  /** The foreground of a cell above the surface: water up to oceanDepth over an ocean, and on
      the row right over plains grass (a 0.15 draw) or a rock (a 0.05 draw); air otherwise. */
  function AirTile(env: Env, b: BiomeType, y: int, h: int, pos: nat): (r: (Option<Tile>, nat))
    ensures r.1 >= pos
    ensures r.0 == Some(WaterTile) <==> b == Ocean && y <= h + env.cfg.oceanDepth
    ensures r.0.Some? && r.0 != Some(WaterTile) ==> b == Plains && y == h + 1
    ensures r.1 != pos ==> b == Plains && y == h + 1 && r.1 == pos + 2
    ensures b == Plains && y == h + 1 && env.draws(pos) < 0.15 ==>
              r.0.Some? && r.0.value in {Grass1Tile, Grass2Tile, Grass3Tile, Grass4Tile}
    ensures r.0 == Some(RockTile) <==> b == Plains && y == h + 1 && env.draws(pos) >= 0.15 && env.draws(pos + 1) < 0.05
  {
    if b == Ocean && y <= h + env.cfg.oceanDepth then (Some(WaterTile), pos)
    else if y == h + 1 && b == Plains then
      if env.draws(pos) < 0.15 then (Some(GrassTile(RangeOf(1, 5, env.draws(pos + 1)))), pos + 2)
      else if env.draws(pos + 1) < 0.05 then (Some(RockTile), pos + 2)
      else (None, pos + 2)
    else (None, pos)
  }

  /** The foreground of a cell that is not a cave, and the random position after it.
      The tile of each band is stated by ChunkBands.CellChoiceBands. */
  ghost function Foreground(env: Env, b: BiomeType, x: int, y: int, h: int, pos: nat): (r: (Option<Tile>, nat))
    requires env.cfg.Valid()
    ensures r.1 >= pos
  {
    if y == h then (Some(GetSurfaceTileForBiome(b)), pos)
    else if y < h then
      if h - y <= 3 then (Some(GetSubsurfaceTileForBiome(b)), pos)
      else UndergroundTile(env, x, y, pos)
    else AirTile(env, b, y, h, pos)
  }

  /** The choice for one cell of the second pass: the biome background, then either a cave
      (lava at most) or the foreground of its band. ChunkBands.CellChoiceBands states the result. */
  ghost function CellChoice(env: Env, b: BiomeType, x: int, y: int, h: int, pos: nat): (p: CellPaint)
    requires env.cfg.Valid()
    ensures p.cursor >= pos
  {
    var cfg := env.cfg;
    var back := GetBackgroundTileForBiome(b, y, h);
    if IsCave(cfg, env.perlin, x, y, h) then
      if y > cfg.lavaStartDepth then
        CellPaint(back, if env.draws(pos) < cfg.lavaChance then Some(LavaTile) else None, pos + 1)
      else CellPaint(back, None, pos)
    else
      var fg := Foreground(env, b, x, y, h, pos);
      CellPaint(back, fg.0, fg.1)
  }

  /** The choices of column x, whose surface is at h. */
  ghost function ChunkChooser(env: Env, b: BiomeType, x: int, h: int): Chooser
    requires env.cfg.Valid()
  {
    (y: int, pos: nat) => CellChoice(env, b, x, y, h, pos)
  }

  /** One cell of the second pass. */
  ghost function ChunkCell(env: Env, b: BiomeType, x: int, y: int, h: int, s: GenState): GenState
    requires env.cfg.Valid()
  {
    Paint(s, (x, y), CellChoice(env, b, x, y, h, s.cursor))
  }

  /** The rows [0, n) of column x, bottom to top. */
  ghost function ChunkColumn(env: Env, b: BiomeType, x: int, h: int, s: GenState, n: nat): GenState
    requires env.cfg.Valid()
  {
    PaintColumn(ChunkChooser(env, b, x, h), x, 0, s, n)
  }

  /** The tree draw that ends a column: in Plains one draw plants a tree on top of the
      surface one time in twenty; other biomes draw nothing. */
  function TreeDraw(draws: Stream, b: BiomeType, x: int, h: int, s: GenState): GenState {
    if b == Plains then
      if draws(s.cursor) < 0.05 then GrowTree(s.Advance(1), draws, x, h + 1) else s.Advance(1)
    else s
  }

  /** A whole column of the second pass: its rows, then the tree draw. */
  ghost function ColumnWithTree(env: Env, b: BiomeType, x: int, h: int, s: GenState): GenState
    requires env.cfg.Valid()
  {
    TreeDraw(env.draws, b, x, h, ChunkColumn(env, b, x, h, s, Rows(env.cfg)))
  }

  /** The heights of the first pass, as a function of the column. */
  function Heights(cfg: WorldConfig, perlin: Perlin, b: BiomeType): int -> int
    requires cfg.heightMapNoiseData.Valid()
  {
    x => SurfaceHeight(cfg, perlin, b, x)
  }

  /** Column x of a chunk, standing on heights(x). */
  ghost function ChunkPainter(env: Env, b: BiomeType, heights: int -> int): Pass
    requires env.cfg.Valid()
  {
    (x: int, st: GenState) => ColumnWithTree(env, b, x, heights(x), st)
  }

  /** The columns [startX, startX + n) of a chunk. */
  ghost function ChunkColumns(env: Env, b: BiomeType, heights: int -> int, startX: int, s: GenState, n: nat): GenState
    requires env.cfg.Valid()
  {
    Sweep(ChunkPainter(env, b, heights), startX, s, n)
  }

  /** The body of the row loop of GenerateChunk. */
  method GenerateChunkCell(env: Env, grid: WorldGrid, rng: RandomStream, b: BiomeType, x: int, y: int, h: int)
    requires env.cfg.Valid() && rng.draws == env.draws
    modifies grid, rng
    ensures Snapshot(grid, rng) == ChunkCell(env, b, x, y, h, old(Snapshot(grid, rng)))
  {
    var cfg := env.cfg;
    var isCave := IsCave(cfg, env.perlin, x, y, h);
    if isCave {
      var backgroundTile := GetBackgroundTileForBiome(b, y, h);
      grid.SetBackgroundTile(x, y, backgroundTile);
      if y > cfg.lavaStartDepth {
        var u := rng.Value();
        if u < cfg.lavaChance {
          grid.SetGroundTile(x, y, Some(LavaTile));
        }
      }
      return;
    }
    var backTile := GetBackgroundTileForBiome(b, y, h);
    grid.SetBackgroundTile(x, y, backTile);
    var foregroundTile := ForegroundTile(env, rng, b, x, y, h);
    if foregroundTile.Some? {
      grid.SetGroundTile(x, y, foregroundTile);
    }
  }

  /** The ore, lava or stone branch of the second pass. */
  method UndergroundForeground(env: Env, rng: RandomStream, x: int, y: int) returns (foregroundTile: Option<Tile>)
    requires env.cfg.Valid() && rng.draws == env.draws
    modifies rng
    ensures (foregroundTile, rng.cursor) == UndergroundTile(env, x, y, old(rng.cursor))
  {
    var cfg := env.cfg;
    foregroundTile := GetOreTile(cfg.oreTypes, cfg.oreNoiseData, env.perlin, rng, x, y);
    if foregroundTile == None {
      var lava := false;
      if y > cfg.lavaStartDepth {
        var u := rng.Value();
        lava := u < cfg.lavaChance;
      }
      foregroundTile := Some(if lava then LavaTile else StoneTile);
    }
  }

  /** The water, grass and rock branch of the second pass. */
  method AirForeground(env: Env, rng: RandomStream, b: BiomeType, y: int, h: int) returns (foregroundTile: Option<Tile>)
    requires rng.draws == env.draws
    modifies rng
    ensures (foregroundTile, rng.cursor) == AirTile(env, b, y, h, old(rng.cursor))
  {
    if b == Ocean && y <= h + env.cfg.oceanDepth {
      foregroundTile := Some(WaterTile);
    } else {
      var grass := false;
      if y == h + 1 && b == Plains {
        var u := rng.Value();
        grass := u < 0.15;
      }
      if grass {
        var grassType := rng.Range(1, 5);
        foregroundTile := Some(GrassTile(grassType));
      } else {
        var rock := false;
        if y == h + 1 && b == Plains {
          var u := rng.Value();
          rock := u < 0.05;
        }
        foregroundTile := if rock then Some(RockTile) else None;
      }
    }
  }

  /** The foreground branch of the second pass, for a cell that is not a cave. */
  method ForegroundTile(env: Env, rng: RandomStream, b: BiomeType, x: int, y: int, h: int) returns (foregroundTile: Option<Tile>)
    requires env.cfg.Valid() && rng.draws == env.draws
    modifies rng
    ensures (foregroundTile, rng.cursor) == Foreground(env, b, x, y, h, old(rng.cursor))
  {
    if y == h {
      foregroundTile := Some(GetSurfaceTileForBiome(b));
    } else if y < h {
      if h - y <= 3 {
        foregroundTile := Some(GetSubsurfaceTileForBiome(b));
      } else {
        foregroundTile := UndergroundForeground(env, rng, x, y);
      }
    } else {
      foregroundTile := AirForeground(env, rng, b, y, h);
    }
  }

  /** The row loop of one column: rows 0 to mapDepth - 1, bottom first. */
  method GenerateRows(env: Env, grid: WorldGrid, rng: RandomStream, b: BiomeType, x: int, surfaceHeight: int)
    requires env.cfg.Valid() && rng.draws == env.draws
    modifies grid, rng
    ensures Snapshot(grid, rng) == ChunkColumn(env, b, x, surfaceHeight, old(Snapshot(grid, rng)), Rows(env.cfg))
  {
    ghost var s0 := Snapshot(grid, rng);
    for y := 0 to Rows(env.cfg)
      invariant Snapshot(grid, rng) == ChunkColumn(env, b, x, surfaceHeight, s0, y)
    {
      GenerateChunkCell(env, grid, rng, b, x, y, surfaceHeight);
    }
  }

  /** The tree draw after the rows of a column. */
  method DrawTree(grid: WorldGrid, rng: RandomStream, b: BiomeType, x: int, surfaceHeight: int)
    modifies grid, rng
    ensures Snapshot(grid, rng) == TreeDraw(rng.draws, b, x, surfaceHeight, old(Snapshot(grid, rng)))
  {
    if b == Plains {
      var u := rng.Value();
      if u < 0.05 {
        GenerateTree(grid, rng, x, surfaceHeight + 1);
      }
    }
  }

  /** One column of the second pass of GenerateChunk: its rows, then the tree draw. */
  method GenerateColumn(env: Env, grid: WorldGrid, rng: RandomStream, b: BiomeType, x: int, surfaceHeight: int)
    requires env.cfg.Valid() && rng.draws == env.draws
    modifies grid, rng
    ensures Snapshot(grid, rng) == ColumnWithTree(env, b, x, surfaceHeight, old(Snapshot(grid, rng)))
  {
    GenerateRows(env, grid, rng, b, x, surfaceHeight);
    DrawTree(grid, rng, b, x, surfaceHeight);
  }

  /** The column loop of GenerateChunk over [startX, endX), with the heights of the first pass. */
  method GenerateColumns(env: Env, grid: WorldGrid, rng: RandomStream, b: BiomeType, startX: int, endX: int,
                         surfaceHeights: map<int, int>, ghost heights: int -> int)
    requires env.cfg.Valid() && rng.draws == env.draws
    requires forall x :: startX <= x < endX ==> x in surfaceHeights && surfaceHeights[x] == heights(x)
    modifies grid, rng
    ensures Snapshot(grid, rng) == ChunkColumns(env, b, heights, startX, old(Snapshot(grid, rng)), Span(startX, endX))
  {
    ghost var start := Snapshot(grid, rng);
    var x := startX;
    ghost var done: nat := 0;
    while x < endX
      invariant x == startX + done && (x <= endX || done == 0)
      invariant Snapshot(grid, rng) == ChunkColumns(env, b, heights, startX, start, done)
    {
      ghost var before := Snapshot(grid, rng);
      GenerateColumn(env, grid, rng, b, x, surfaceHeights[x]);
      SweepStep(ChunkPainter(env, b, heights), startX, start, done, x, before, Snapshot(grid, rng));
      x := x + 1;
      done := done + 1;
    }
    assert done == Span(startX, endX);
  }

  /** GenerateChunk: the first pass fixes every column's height, the second paints the
      columns left to right. */
  method GenerateChunk(env: Env, grid: WorldGrid, rng: RandomStream, startX: int, endX: int, b: BiomeType)
    requires env.cfg.Valid() && rng.draws == env.draws
    modifies grid, rng
    ensures Snapshot(grid, rng)
         == ChunkColumns(env, b, Heights(env.cfg, env.perlin, b), startX, old(Snapshot(grid, rng)), Span(startX, endX))
  {
    var surfaceHeights := ComputeSurfaceHeights(env.cfg, env.perlin, b, startX, endX);
    GenerateColumns(env, grid, rng, b, startX, endX, surfaceHeights, Heights(env.cfg, env.perlin, b));
  }
}

/** What a chunk column guarantees about the cells it paints. */
module ChunkBands {
  import opened Wrappers
  import opened Tiles
  import opened Rand
  import opened Grid
  import opened Biome
  import opened Ores
  import opened Config
  import opened Caves
  import opened Trees
  import opened Chunk

  /** The ground a chunk cell ends with, against the ground it had before: a cave keeps it or
      turns to lava below lavaStartDepth; the surface row gets the biome's surface tile and the
      three rows under it its subsurface tile; deeper rows always get a tile, an ore of a band
      covering the row, stone, or lava below lavaStartDepth; above the surface an ocean column
      is water up to oceanDepth, the row just above a Plains surface may get grass or a rock,
      and every other cell keeps what it had. */
  ghost predicate GroundFollowsBands(env: Env, b: BiomeType, x: int, y: int, h: int, before: Option<Tile>, after: Option<Tile>)
    requires env.cfg.Valid()
  {
    var cfg := env.cfg;
    if IsCave(cfg, env.perlin, x, y, h) then after == before || (after == Some(LavaTile) && y > cfg.lavaStartDepth)
    else if y == h then after == Some(GetSurfaceTileForBiome(b))
    else if y < h && h - y <= 3 then after == Some(GetSubsurfaceTileForBiome(b))
    else if y < h then
      after.Some? && (IsOreAt(cfg.oreTypes, y, after.value) || after.value == StoneTile
                      || (after.value == LavaTile && y > cfg.lavaStartDepth))
    else if b == Ocean && y <= h + cfg.oceanDepth then after == Some(WaterTile)
    else if y == h + 1 && b == Plains then
      after == before || after == Some(RockTile) || (after.Some? && after.value in {Grass1Tile, Grass2Tile, Grass3Tile, Grass4Tile})
    else after == before
  }

  /** One chunk cell's choice: the biome background, and a ground tile that follows the bands
      whatever ground the cell had. */
  lemma CellChoiceBands(env: Env, b: BiomeType, x: int, y: int, h: int, pos: nat, before: Option<Tile>, after: Option<Tile>)
    requires env.cfg.Valid()
    requires var p := CellChoice(env, b, x, y, h, pos); after == if p.ground.Some? then p.ground else before
    ensures CellChoice(env, b, x, y, h, pos).background == GetBackgroundTileForBiome(b, y, h)
    ensures GroundFollowsBands(env, b, x, y, h, before, after)
  {
    var cfg := env.cfg;
    if !IsCave(cfg, env.perlin, x, y, h) && y < h && h - y > 3 {
      OreScanSound(cfg.oreTypes, y, Noise.Sample(env.perlin, x, y, cfg.oreNoiseData), env.draws, pos);
    }
  }

  /** After rows [0, n) of column x, each of those rows holds the biome background and a
      ground tile that follows the bands. */
  lemma ChunkColumnBands(env: Env, b: BiomeType, x: int, h: int, s: GenState, n: nat, y: nat)
    requires env.cfg.Valid()
    requires y < n
    ensures Lookup(ChunkColumn(env, b, x, h, s, n).background, (x, y)) == GetBackgroundTileForBiome(b, y, h)
    ensures GroundFollowsBands(env, b, x, y, h, Lookup(s.ground, (x, y)), Lookup(ChunkColumn(env, b, x, h, s, n).ground, (x, y)))
  {
    var choose := ChunkChooser(env, b, x, h);
    var pos := PaintColumn(choose, x, 0, s, y).cursor;
    var last := PaintColumn(choose, x, 0, s, n);
    var p := CellChoice(env, b, x, y, h, pos);
    assert choose(0 + y, pos) == p;
    PaintColumnRow(choose, x, 0, s, n, y, (x, y), p);
    CellChoiceBands(env, b, x, y, h, pos, Lookup(s.ground, (x, y)), Lookup(last.ground, (x, y)));
    assert last == ChunkColumn(env, b, x, h, s, n);
  }

  /** Rows [0, n) of column x change no cell outside those rows of that column, and the
      random position only moves forward. */
  lemma ChunkColumnFrame(env: Env, b: BiomeType, x: int, h: int, s: GenState, n: nat, c: Cell)
    requires env.cfg.Valid()
    requires c.0 != x || c.1 < 0 || c.1 >= n
    ensures ChunkColumn(env, b, x, h, s, n).cursor >= s.cursor
    ensures Lookup(ChunkColumn(env, b, x, h, s, n).ground, c) == Lookup(s.ground, c)
    ensures Lookup(ChunkColumn(env, b, x, h, s, n).background, c) == Lookup(s.background, c)
  {
    var choose := ChunkChooser(env, b, x, h);
    assert Forward(choose) by {
      forall y, pos ensures choose(y, pos).cursor >= pos {
        assert choose(y, pos) == CellChoice(env, b, x, y, h, pos);
      }
    }
    PaintColumnFrame(choose, x, 0, s, n, c);
  }

  /** The tree draw of a column only touches the ground from the row above the surface
      upwards and within one column of x: the column's own terrain and every background stay
      as painted. */
  lemma TreeDrawAboveSurface(draws: Stream, b: BiomeType, x: int, h: int, s: GenState, c: Cell)
    requires c.1 <= h || c.0 < x - 1 || c.0 > x + 1
    ensures Lookup(TreeDraw(draws, b, x, h, s).ground, c) == Lookup(s.ground, c)
    ensures TreeDraw(draws, b, x, h, s).background == s.background
  {
    if b == Plains && draws(s.cursor) < 0.05 {
      GrowTreeFrame(s.Advance(1), draws, x, h + 1, c);
    }
  }

  /** A whole column, rows and tree, paints the background of its own rows 0 to mapDepth - 1
      and leaves every other background cell as it was. */
  lemma ColumnWithTreeBackground(env: Env, b: BiomeType, x: int, h: int, st: GenState, c: Cell)
    requires env.cfg.Valid()
    ensures Lookup(ColumnWithTree(env, b, x, h, st).background, c)
         == if c.0 == x && 0 <= c.1 < Rows(env.cfg) then GetBackgroundTileForBiome(b, c.1, h) else Lookup(st.background, c)
  {
    var rows := ChunkColumn(env, b, x, h, st, Rows(env.cfg));
    TreeDrawAboveSurface(env.draws, b, x, h, rows, (x, h));
    if c.0 == x && 0 <= c.1 < Rows(env.cfg) {
      ChunkColumnBands(env, b, x, h, st, Rows(env.cfg), c.1);
    } else {
      ChunkColumnFrame(env, b, x, h, st, Rows(env.cfg), c);
    }
  }

  /** After the columns [startX, startX + n) of a chunk, rows 0 to mapDepth - 1 of each of those
      columns hold the background of the biome for their row and their column's height, and
      every other background cell is as it was: later columns and trees leave it alone. */
  lemma ChunkColumnsBackground(env: Env, b: BiomeType, heights: int -> int, startX: int, s: GenState, n: nat, c: Cell)
    requires env.cfg.Valid()
    ensures Lookup(ChunkColumns(env, b, heights, startX, s, n).background, c)
         == if startX <= c.0 < startX + n && 0 <= c.1 < Rows(env.cfg) then GetBackgroundTileForBiome(b, c.1, heights(c.0))
            else Lookup(s.background, c)
  {
    var pass := ChunkPainter(env, b, heights);
    var t := GetBackgroundTileForBiome(b, c.1, heights(c.0));
    var ci := if 0 <= c.1 < Rows(env.cfg) then c.0 else startX - 1;
    forall i, st: GenState | startX <= i < startX + n
      ensures Lookup(pass(i, st).background, c) == if i == ci then t else Lookup(st.background, c)
    {
      ColumnWithTreeBackground(env, b, i, heights(i), st, c);
    }
    SweepBackground(pass, startX, s, n, ci, c, t);
  }
}
