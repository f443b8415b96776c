/** GenerateBaseLayer: the 100 rows below row 0, across the whole map width. */
module BaseLayer {
  import opened Wrappers
  import opened Tiles
  import opened Arith
  import opened Noise
  import opened Rand
  import opened Grid
  import opened Ores
  import opened Config
  import opened Caves

  /** The base layer always spans rows [-BaseLayerHeight, 0). */
  const BaseLayerHeight := 100

  /** The deepest rows, those below -BaseLayerHeight + 20, are where lava may appear. */
  predicate LavaRow(y: int) {
    y < -BaseLayerHeight + 20
  }

  /** The choice for one base-layer cell: dark stone behind, then a deep cave (lava at most,
      twice as likely as in a chunk) or the ore found at depth y + mapDepth, else lava or stone.
      BaseLayerBands.BaseChoiceBands states the result. */
  ghost function BaseChoice(env: Env, x: int, y: int, pos: nat): (p: CellPaint)
    requires env.cfg.Valid()
    ensures p.cursor >= pos
  {
    var cfg := env.cfg;
    var back := Some(StoneDark);
    if IsDeepCave(cfg, env.perlin, x, y) then
      if LavaRow(y) then
        CellPaint(back, if env.draws(pos) < cfg.lavaChance * 2.0 then Some(LavaTile) else None, pos + 1)
      else CellPaint(back, None, pos)
    else
      var fg := BaseForeground(env, x, y, pos);
      CellPaint(back, Some(fg.0), fg.1)
  }

  /** The ground of a base-layer cell that is not a deep cave, and the random position after it:
      the ore found at depth y + mapDepth, else lava or stone (see BaseLayerBands.BaseChoiceBands). */
  ghost function BaseForeground(env: Env, x: int, y: int, pos: nat): (r: (Tile, nat))
    requires env.cfg.Valid()
    ensures r.1 >= pos
  {
    var cfg := env.cfg;
    var noise := Sample(env.perlin, x, y + cfg.mapDepth, cfg.oreNoiseData);
    var ore := OreScan(cfg.oreTypes, y + cfg.mapDepth, noise, env.draws, pos);
    OreScanSound(cfg.oreTypes, y + cfg.mapDepth, noise, env.draws, pos);
    if ore.0.Some? then (ore.0.value, ore.1)
    else if LavaRow(y) then (if env.draws(ore.1) < cfg.lavaChance * 1.5 then LavaTile else StoneTile, ore.1 + 1)
    else (StoneTile, ore.1)
  }

  /** The choices of base-layer column x. */
  ghost function BaseChooser(env: Env, x: int): Chooser
    requires env.cfg.Valid()
  {
    (y: int, pos: nat) => BaseChoice(env, x, y, pos)
  }

  /** One base-layer cell. */
  ghost function BaseCell(env: Env, x: int, y: int, s: GenState): GenState
    requires env.cfg.Valid()
  {
    Paint(s, (x, y), BaseChoice(env, x, y, s.cursor))
  }

  /** Rows [-BaseLayerHeight, -BaseLayerHeight + n) of column x. */
  ghost function BaseColumn(env: Env, x: int, s: GenState, n: nat): GenState
    requires env.cfg.Valid()
  {
    PaintColumn(BaseChooser(env, x), x, -BaseLayerHeight, s, n)
  }

  /** Column x of the base layer, complete. */
  ghost function BasePainter(env: Env): Pass
    requires env.cfg.Valid()
  {
    (x: int, st: GenState) => BaseColumn(env, x, st, BaseLayerHeight)
  }

  /** Columns [lo, lo + n) of the base layer, each complete. */
  ghost function BaseColumns(env: Env, lo: int, s: GenState, n: nat): GenState
    requires env.cfg.Valid()
  {
    Sweep(BasePainter(env), lo, s, n)
  }

  /** The base layer over the whole map width. */
  ghost function BaseLayerSpec(env: Env, s: GenState): GenState
    requires env.cfg.Valid()
  {
    BaseColumns(env, FirstColumn(env.cfg), s, ColumnCount(env.cfg))
  }

  /** The body of the row loop of GenerateBaseLayer. */
  method GenerateBaseCell(env: Env, grid: WorldGrid, rng: RandomStream, x: int, y: int)
    requires env.cfg.Valid() && rng.draws == env.draws
    modifies grid, rng
    ensures Snapshot(grid, rng) == BaseCell(env, x, y, old(Snapshot(grid, rng)))
  {
    var cfg := env.cfg;
    var isCave := IsDeepCave(cfg, env.perlin, x, y);
    if isCave {
      grid.SetBackgroundTile(x, y, Some(StoneDark));
      if y < -BaseLayerHeight + 20 {
        var u := rng.Value();
        if u < cfg.lavaChance * 2.0 {
          grid.SetGroundTile(x, y, Some(LavaTile));
        }
      }
      return;
    }
    grid.SetBackgroundTile(x, y, Some(StoneDark));
    var foregroundTile := BaseForegroundTile(env, rng, x, y);
    grid.SetGroundTile(x, y, Some(foregroundTile));
  }

  /** The ground decision of a base-layer cell that is not a deep cave. */
  method BaseForegroundTile(env: Env, rng: RandomStream, x: int, y: int) returns (tile: Tile)
    requires env.cfg.Valid() && rng.draws == env.draws
    modifies rng
    ensures (tile, rng.cursor) == BaseForeground(env, x, y, old(rng.cursor))
  {
    var cfg := env.cfg;
    var foregroundTile := GetOreTile(cfg.oreTypes, cfg.oreNoiseData, env.perlin, rng, x, y + cfg.mapDepth);
    if foregroundTile == None {
      var lava := false;
      if y < -BaseLayerHeight + 20 {
        var u := rng.Value();
        lava := u < cfg.lavaChance * 1.5;
      }
      foregroundTile := Some(if lava then LavaTile else StoneTile);
    }
    tile := foregroundTile.value;
  }

  /** One column of GenerateBaseLayer: rows -BaseLayerHeight up to -1, bottom first. */
  method GenerateBaseColumn(env: Env, grid: WorldGrid, rng: RandomStream, x: int)
    requires env.cfg.Valid() && rng.draws == env.draws
    modifies grid, rng
    ensures Snapshot(grid, rng) == BaseColumn(env, x, old(Snapshot(grid, rng)), BaseLayerHeight)
  {
    var baseLayerHeight := BaseLayerHeight;
    ghost var s0 := Snapshot(grid, rng);
    for y := -baseLayerHeight to 0
      invariant Snapshot(grid, rng) == BaseColumn(env, x, s0, y + baseLayerHeight)
    {
      GenerateBaseCell(env, grid, rng, x, y);
    }
  }

  /** The column loop of GenerateBaseLayer over [lo, hi), left to right. */
  method GenerateBaseColumns(env: Env, grid: WorldGrid, rng: RandomStream, lo: int, hi: int)
    requires env.cfg.Valid() && rng.draws == env.draws
    modifies grid, rng
    ensures Snapshot(grid, rng) == BaseColumns(env, lo, old(Snapshot(grid, rng)), Span(lo, hi))
  {
    ghost var start := Snapshot(grid, rng);
    var x := lo;
    ghost var done: nat := 0;
    while x < hi
      invariant x == lo + done && (x <= hi || done == 0)
      invariant Snapshot(grid, rng) == BaseColumns(env, lo, start, done)
    {
      ghost var before := Snapshot(grid, rng);
      GenerateBaseColumn(env, grid, rng, x);
      SweepStep(BasePainter(env), lo, start, done, x, before, Snapshot(grid, rng));
      x := x + 1;
      done := done + 1;
    }
    assert done == Span(lo, hi);
  }

  /** GenerateBaseLayer: the columns [-mapWidth / 2, mapWidth / 2) with C# division. */
  method GenerateBaseLayer(env: Env, grid: WorldGrid, rng: RandomStream)
    requires env.cfg.Valid() && rng.draws == env.draws
    modifies grid, rng
    ensures Snapshot(grid, rng) == BaseLayerSpec(env, old(Snapshot(grid, rng)))
  {
    GenerateBaseColumns(env, grid, rng, Div(-env.cfg.mapWidth, 2), Div(env.cfg.mapWidth, 2));
  }
}

/** What the base layer guarantees about the cells it paints. */
module BaseLayerBands {
  import opened Wrappers
  import opened Tiles
  import opened Grid
  import opened Ores
  import opened Config
  import opened Caves
  import opened BaseLayer

  /** The ground a base-layer cell ends with, against the ground it had: a deep cave keeps it or
      turns to lava in the lava rows; any other cell always gets a tile, an ore of a band covering
      depth y + mapDepth, stone, or lava in the lava rows. */
  ghost predicate BaseGroundRule(env: Env, x: int, y: int, before: Option<Tile>, after: Option<Tile>)
    requires env.cfg.Valid()
  {
    if IsDeepCave(env.cfg, env.perlin, x, y) then after == before || (after == Some(LavaTile) && LavaRow(y))
    else
      after.Some? && (IsOreAt(env.cfg.oreTypes, y + env.cfg.mapDepth, after.value) || after.value == StoneTile
                      || (after.value == LavaTile && LavaRow(y)))
  }

  /** One base-layer cell's choice: a dark stone background, and a ground tile that follows the
      base-layer rule whatever ground the cell had. */
  lemma BaseChoiceBands(env: Env, x: int, y: int, pos: nat, before: Option<Tile>, after: Option<Tile>)
    requires env.cfg.Valid()
    requires var p := BaseChoice(env, x, y, pos); after == if p.ground.Some? then p.ground else before
    ensures BaseChoice(env, x, y, pos).background == Some(StoneDark)
    ensures BaseGroundRule(env, x, y, before, after)
  {
    var cfg := env.cfg;
    if !IsDeepCave(cfg, env.perlin, x, y) {
      OreScanSound(cfg.oreTypes, y + cfg.mapDepth, Noise.Sample(env.perlin, x, y + cfg.mapDepth, cfg.oreNoiseData), env.draws, pos);
    }
  }

  /** Rows [-BaseLayerHeight, -BaseLayerHeight + n) of column x change no cell outside those
      rows of that column, and the random position only moves forward. */
  lemma BaseColumnFrame(env: Env, x: int, s: GenState, n: nat, c: Cell)
    requires env.cfg.Valid()
    requires c.0 != x || c.1 < -BaseLayerHeight || c.1 >= -BaseLayerHeight + n
    ensures BaseColumn(env, x, s, n).cursor >= s.cursor
    ensures Lookup(BaseColumn(env, x, s, n).ground, c) == Lookup(s.ground, c)
    ensures Lookup(BaseColumn(env, x, s, n).background, c) == Lookup(s.background, c)
  {
    var choose := BaseChooser(env, x);
    assert Forward(choose) by {
      forall y, pos ensures choose(y, pos).cursor >= pos {
        assert choose(y, pos) == BaseChoice(env, x, y, pos);
      }
    }
    PaintColumnFrame(choose, x, -BaseLayerHeight, s, n, c);
  }

  /** After rows [-BaseLayerHeight, -BaseLayerHeight + n) of column x, the cell c of each of
      those rows has a dark stone background and a ground that follows the base-layer rule. */
  lemma BaseColumnBands(env: Env, x: int, s: GenState, n: nat, k: nat, c: Cell)
    requires env.cfg.Valid()
    requires k < n && c == (x, -BaseLayerHeight + k)
    ensures Lookup(BaseColumn(env, x, s, n).background, c) == Some(StoneDark)
    ensures BaseGroundRule(env, c.0, c.1, Lookup(s.ground, c), Lookup(BaseColumn(env, x, s, n).ground, c))
  {
    var choose := BaseChooser(env, x);
    var pos := PaintColumn(choose, x, -BaseLayerHeight, s, k).cursor;
    var last := PaintColumn(choose, x, -BaseLayerHeight, s, n);
    var p := BaseChoice(env, c.0, c.1, pos);
    assert choose(-BaseLayerHeight + k, pos) == p;
    PaintColumnRow(choose, x, -BaseLayerHeight, s, n, k, c, p);
    BaseChoiceBands(env, c.0, c.1, pos, Lookup(s.ground, c), Lookup(last.ground, c));
  }

  /** A complete base-layer column x keeps every cell outside its rows. */
  lemma BaseColumnKeeps(env: Env, x: int, c: Cell)
    requires env.cfg.Valid()
    requires c.0 != x || c.1 < -BaseLayerHeight || c.1 >= 0
    ensures Keeps(BasePainter(env), x, c)
  {
    forall st: GenState
      ensures Lookup(BasePainter(env)(x, st).ground, c) == Lookup(st.ground, c)
      ensures Lookup(BasePainter(env)(x, st).background, c) == Lookup(st.background, c)
    {
      BaseColumnFrame(env, x, st, BaseLayerHeight, c);
    }
  }

  /** The rectangle the base layer paints: the map's columns, rows [-BaseLayerHeight, 0). */
  predicate InBaseLayer(cfg: WorldConfig, c: Cell) {
    FirstColumn(cfg) <= c.0 < FirstColumn(cfg) + ColumnCount(cfg) && -BaseLayerHeight <= c.1 < 0
  }

  /** Every cell of the base layer's rectangle ends with a dark stone background and a ground
      that follows the base-layer rule. */
  lemma BaseLayerBandsHold(env: Env, s: GenState, c: Cell)
    requires env.cfg.Valid() && InBaseLayer(env.cfg, c)
    ensures Lookup(BaseLayerSpec(env, s).background, c) == Some(StoneDark)
    ensures BaseGroundRule(env, c.0, c.1, Lookup(s.ground, c), Lookup(BaseLayerSpec(env, s).ground, c))
  {
    var lo, n := FirstColumn(env.cfg), ColumnCount(env.cfg);
    var paint := BasePainter(env);
    var j: nat := c.0 - lo;
    var k: nat := c.1 + BaseLayerHeight;
    forall x | lo <= x < lo + n && x != c.0
      ensures Keeps(paint, x, c)
    {
      BaseColumnKeeps(env, x, c);
    }
    var prev := Sweep(paint, lo, s, j);
    var final := BaseLayerSpec(env, s);
    assert final == Sweep(paint, lo, s, n);
    SweepFrame(paint, lo, s, j, c);
    SweepKeepsPass(paint, lo, s, n, j, c);
    var painted := BaseColumn(env, c.0, prev, BaseLayerHeight);
    SweepStep(paint, lo, s, j, c.0, prev, painted);
    BaseColumnBands(env, c.0, prev, BaseLayerHeight, k, c);
  }

  /** Every cell outside that rectangle is left as it was. */
  lemma BaseLayerFrame(env: Env, s: GenState, c: Cell)
    requires env.cfg.Valid() && !InBaseLayer(env.cfg, c)
    ensures Lookup(BaseLayerSpec(env, s).ground, c) == Lookup(s.ground, c)
    ensures Lookup(BaseLayerSpec(env, s).background, c) == Lookup(s.background, c)
  {
    var lo, n := FirstColumn(env.cfg), ColumnCount(env.cfg);
    forall x | lo <= x < lo + n
      ensures Keeps(BasePainter(env), x, c)
    {
      BaseColumnKeeps(env, x, c);
    }
    SweepFrame(BasePainter(env), lo, s, n, c);
  }

  /** As written, the base layer looks ores up at depth y + mapDepth; with the default table and
      a map deeper than 200 rows no default ore reaches that far, so the base layer has no ore. */
  lemma BaseLayerMissesDefaultOres(mapDepth: int, y: int, t: Tile)
    requires mapDepth > 200 && y >= -BaseLayerHeight
    ensures !IsOreAt(DefaultOreTypes, y + mapDepth, t)
  {
    if IsOreAt(DefaultOreTypes, y + mapDepth, t) {
      var k :| 0 <= k < |DefaultOreTypes| && DefaultOreTypes[k].Covers(y + mapDepth);
    }
  }
}
