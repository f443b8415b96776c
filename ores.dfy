/** The ore table: OreParameters, the default table of Awake and GetOreTile. */
module Ores {
  import opened Wrappers
  import opened Tiles
  import opened Arith
  import opened Noise
  import opened Rand

  /** One ore definition (OreParameters). */
  datatype OreParameters = OreParameters(
    oreTile: Tile, oreAltTile: Tile,
    minDepth: int, maxDepth: int,
    peakDepth: real, rarity: real)
  {
    /** A definition whose probability formula divides by non-zero values. */
    predicate Valid() {
      minDepth < maxDepth && rarity > 0.0
    }

    /** The depth band [minDepth, maxDepth] in which the ore may appear. */
    predicate Covers(y: int) {
      y >= minDepth && y <= maxDepth
    }

    /** The threshold a draw must stay under: depth factor over rarity, scaled by twice the ore noise. */
    function Probability(y: int, noise: real): real
      requires Valid()
    {
      var depthFactor := 1.0 - Abs(y as real - peakDepth) / (maxDepth - minDepth) as real;
      var probability := depthFactor / rarity;
      probability * (noise * 2.0)
    }
  }

  /** The table Awake installs when none is configured: coal, iron, silver, gold, diamond and ruby. */
  const DefaultOreTypes: seq<OreParameters> := [
    OreParameters(StoneCoal, StoneCoalAlt, 5, 80, 20.0, 2.0),
    OreParameters(StoneIron, StoneIronAlt, 10, 70, 30.0, 3.0),
    OreParameters(StoneSilver, StoneSilverAlt, 20, 60, 40.0, 5.0),
    OreParameters(StoneGold, StoneGoldAlt, 30, 90, 60.0, 7.0),
    OreParameters(StoneDiamond, StoneDiamondAlt, 50, 95, 70.0, 9.0),
    OreParameters(RubyStone, RubyStoneAlt, 40, 100, 80.0, 10.0)
  ]

  ghost predicate AllValid(ores: seq<OreParameters>) {
    forall o <- ores :: o.Valid()
  }

  /** The ore tiles a table can produce at depth y: a tile of some ore whose band covers y. */
  ghost predicate IsOreAt(ores: seq<OreParameters>, y: int, t: Tile) {
    exists k :: 0 <= k < |ores| && ores[k].Covers(y) && (t == ores[k].oreTile || t == ores[k].oreAltTile)
  }

  /** The scan GetOreTile performs, from random position `pos`: the result and the next position.
      An ore outside its band is skipped without a draw; an ore inside it costs one draw,
      and a successful draw costs a second one that picks the primary or alternative tile. */
  ghost function OreScan(ores: seq<OreParameters>, y: int, noise: real, draws: Stream, pos: nat): (Option<Tile>, nat)
    requires AllValid(ores)
    decreases |ores|
  {
    if |ores| == 0 then (None, pos)
    else if ores[0].Covers(y) then
      if draws(pos) < ores[0].Probability(y, noise) then
        (Some(if draws(pos + 1) < 0.5 then ores[0].oreTile else ores[0].oreAltTile), pos + 2)
      else OreScan(ores[1..], y, noise, draws, pos + 1)
    else OreScan(ores[1..], y, noise, draws, pos)
  }

  /** Any ore the scan returns belongs to a definition whose band covers y. */
  lemma {:induction false} OreScanSound(ores: seq<OreParameters>, y: int, noise: real, draws: Stream, pos: nat)
    requires AllValid(ores)
    ensures OreScan(ores, y, noise, draws, pos).0.Some? ==> IsOreAt(ores, y, OreScan(ores, y, noise, draws, pos).0.value)
    ensures OreScan(ores, y, noise, draws, pos).1 >= pos
    decreases |ores|
  {
    if |ores| > 0 {
      OreScanSound(ores[1..], y, noise, draws, if ores[0].Covers(y) then pos + 1 else pos);
      var r := OreScan(ores, y, noise, draws, pos);
      if r.0.Some? && !(ores[0].Covers(y) && draws(pos) < ores[0].Probability(y, noise)) {
        var k :| 0 <= k < |ores[1..]| && ores[1..][k].Covers(y)
                 && (r.0.value == ores[1..][k].oreTile || r.0.value == ores[1..][k].oreAltTile);
        assert ores[k + 1] == ores[1..][k];
      }
    }
  }

  /** When no definition covers y, the scan returns no ore and draws nothing. */
  lemma {:induction false} OreScanUncovered(ores: seq<OreParameters>, y: int, noise: real, draws: Stream, pos: nat)
    requires AllValid(ores)
    requires forall o <- ores :: !o.Covers(y)
    ensures OreScan(ores, y, noise, draws, pos) == (None, pos)
    decreases |ores|
  {
    if |ores| > 0 {
      assert ores[0] in ores;
      OreScanUncovered(ores[1..], y, noise, draws, pos);
    }
  }

  /** The number of definitions among the first j that cover y: each costs the scan one draw
      before definition j is reached, unless an earlier draw succeeded. */
  function CoveringBefore(ores: seq<OreParameters>, y: int, j: nat): (n: nat)
    requires j <= |ores|
    ensures n <= j
  {
    if j == 0 then 0
    else (if ores[0].Covers(y) then 1 else 0) + CoveringBefore(ores[1..], y, j - 1)
  }

  /** Every covering definition among the first m has drawn, in turn from pos, and failed. */
  ghost predicate FailedBefore(ores: seq<OreParameters>, m: nat, y: int, noise: real, draws: Stream, pos: nat)
    requires AllValid(ores) && m <= |ores|
  {
    forall j :: 0 <= j < m && ores[j].Covers(y) ==> draws(pos + CoveringBefore(ores, y, j)) >= ores[j].Probability(y, noise)
  }

  /** Past a failed first definition, the scan and its failed prefix continue on the rest of the table. */
  lemma FailedBeforeShift(ores: seq<OreParameters>, m: nat, y: int, noise: real, draws: Stream, pos: nat)
    requires AllValid(ores) && 0 < m <= |ores| && FailedBefore(ores, m, y, noise, draws, pos)
    ensures var d := if ores[0].Covers(y) then 1 else 0;
            && FailedBefore(ores[1..], m - 1, y, noise, draws, pos + d)
            && CoveringBefore(ores, y, m) == d + CoveringBefore(ores[1..], y, m - 1)
            && OreScan(ores, y, noise, draws, pos) == OreScan(ores[1..], y, noise, draws, pos + d)
  {
    var d := if ores[0].Covers(y) then 1 else 0;
    if ores[0].Covers(y) {
      assert draws(pos + CoveringBefore(ores, y, 0)) >= ores[0].Probability(y, noise);
    }
    forall j | 0 <= j < m - 1 && ores[1..][j].Covers(y)
      ensures draws(pos + d + CoveringBefore(ores[1..], y, j)) >= ores[1..][j].Probability(y, noise)
    {
      assert ores[1..][j] == ores[j + 1];
      assert CoveringBefore(ores, y, j + 1) == d + CoveringBefore(ores[1..], y, j);
    }
  }

  /** The first definition k that covers y and whose draw succeeds decides the tile, after every
      earlier covering definition j has drawn, at position pos + CoveringBefore(ores, y, j), and
      failed: its tile is picked by the next draw, and ores after it are not consulted. */
  lemma {:induction false} OreScanFirstSuccess(ores: seq<OreParameters>, k: nat, y: int, noise: real, draws: Stream, pos: nat)
    requires AllValid(ores) && k < |ores|
    requires FailedBefore(ores, k, y, noise, draws, pos)
    requires ores[k].Covers(y) && draws(pos + CoveringBefore(ores, y, k)) < ores[k].Probability(y, noise)
    ensures var q := pos + CoveringBefore(ores, y, k);
            OreScan(ores, y, noise, draws, pos)
            == (Some(if draws(q + 1) < 0.5 then ores[k].oreTile else ores[k].oreAltTile), q + 2)
    decreases k
  {
    if k > 0 {
      var d := if ores[0].Covers(y) then 1 else 0;
      FailedBeforeShift(ores, k, y, noise, draws, pos);
      assert ores[1..][k - 1] == ores[k];
      OreScanFirstSuccess(ores[1..], k - 1, y, noise, draws, pos + d);
    }
  }

  /** When every covering definition's draw fails, the scan returns no ore, after one draw per
      covering definition. */
  lemma {:induction false} OreScanAllFail(ores: seq<OreParameters>, y: int, noise: real, draws: Stream, pos: nat)
    requires AllValid(ores) && FailedBefore(ores, |ores|, y, noise, draws, pos)
    ensures OreScan(ores, y, noise, draws, pos) == (None, pos + CoveringBefore(ores, y, |ores|))
    decreases |ores|
  {
    if |ores| > 0 {
      var d := if ores[0].Covers(y) then 1 else 0;
      FailedBeforeShift(ores, |ores|, y, noise, draws, pos);
      OreScanAllFail(ores[1..], y, noise, draws, pos + d);
    }
  }

  /** The default table is well formed, and no default ore lies deeper than 100, so a lookup
      at any y above 100 finds none. */
  lemma DefaultOreTypesBeyondReach(y: int, noise: real, draws: Stream, pos: nat)
    requires y > 100
    ensures AllValid(DefaultOreTypes)
    ensures OreScan(DefaultOreTypes, y, noise, draws, pos) == (None, pos)
  {
    OreScanUncovered(DefaultOreTypes, y, noise, draws, pos);
  }

  /** The draw threshold of one ore at (x, y), computed as GetOreTile computes it. */
  method OreProbability(ore: OreParameters, oreNoiseData: NoiseData, perlin: Perlin, x: int, y: int) returns (probability: real)
    requires ore.Valid() && oreNoiseData.Valid()
    ensures probability == ore.Probability(y, Sample(perlin, x, y, oreNoiseData))
  {
    var depthFactor := 1.0 - Abs(y as real - ore.peakDepth) / (ore.maxDepth - ore.minDepth) as real;
    probability := depthFactor / ore.rarity;
    var noiseValue := SumNoise(perlin, x, y, oreNoiseData);
    probability := probability * (noiseValue * 2.0);
  }

  /** GetOreTile: scans the table in order and returns from the first ore whose draw succeeds. */
  method GetOreTile(ores: seq<OreParameters>, oreNoiseData: NoiseData, perlin: Perlin, rng: RandomStream, x: int, y: int)
    returns (tile: Option<Tile>)
    requires AllValid(ores) && oreNoiseData.Valid()
    modifies rng
    ensures (tile, rng.cursor) == OreScan(ores, y, Sample(perlin, x, y, oreNoiseData), rng.draws, old(rng.cursor))
  {
    ghost var noise := Sample(perlin, x, y, oreNoiseData);
    for i := 0 to |ores|
      invariant OreScan(ores, y, noise, rng.draws, old(rng.cursor)) == OreScan(ores[i..], y, noise, rng.draws, rng.cursor)
    {
      var ore := ores[i];
      assert ore in ores;
      ghost var rest := ores[i..];
      assert rest[0] == ore && rest[1..] == ores[i + 1..];
      if y >= ore.minDepth && y <= ore.maxDepth {
        var probability := OreProbability(ore, oreNoiseData, perlin, x, y);
        ghost var pos := rng.cursor;
        var u := rng.Value();
        if u < probability {
          var v := rng.Value();
          assert OreScan(rest, y, noise, rng.draws, pos) == (Some(if v < 0.5 then ore.oreTile else ore.oreAltTile), pos + 2);
          return Some(if v < 0.5 then ore.oreTile else ore.oreAltTile);
        }
        assert OreScan(rest, y, noise, rng.draws, pos) == OreScan(ores[i + 1..], y, noise, rng.draws, rng.cursor);
      } else {
        assert OreScan(rest, y, noise, rng.draws, rng.cursor) == OreScan(ores[i + 1..], y, noise, rng.draws, rng.cursor);
      }
    }
    assert ores[|ores|..] == [];
    return None;
  }
}
