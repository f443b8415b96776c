/** GenerateTree: a trunk of random height topped by a 3 x 3 crown of leaves. */
module Trees {
  import opened Wrappers
  import opened Tiles
  import opened Arith
  import opened Rand
  import opened Grid

  const LeavesWidth := 3
  const LeavesHeight := 3

  /** The crown's column offsets run from -LeavesWidth / 2 to LeavesWidth / 2, in C# division. */
  const LeavesLo := Div(-LeavesWidth, 2)
  const LeavesHi := Div(LeavesWidth, 2)

  /** The reference shape: what a tree of the given trunk height planted at (x, y) puts at c.
      The bottom cell is trunk, the cells above it up to (but excluding) y + trunkHeight - 1 are
      trunk, and the crown covers the 3 x 3 block from y + trunkHeight - 1 upwards, except the
      crown's centre bottom cell, which is left untouched. */
  function TreePart(x: int, y: int, trunkHeight: int, c: Cell): Option<Tile> {
    if c == (x, y) then Some(TrunkBottomTile)
    else if c.0 == x && y < c.1 < y + trunkHeight - 1 then Some(TrunkMidTile)
    else if x - 1 <= c.0 <= x + 1 && y + trunkHeight - 1 <= c.1 <= y + trunkHeight + 1
         && c != (x, y + trunkHeight - 1) then Some(LeavesTransparentTile)
    else None
  }

  /** The trunk loop: middle trunk tiles at heights y + i for i in [1, n). */
  function TrunkMids(g: map<Cell, Tile>, x: int, y: int, n: int): map<Cell, Tile>
    decreases n
  {
    if n <= 1 then g
    else Write(TrunkMids(g, x, y, n - 1), (x, y + n - 1), Some(TrunkMidTile))
  }

  /** The inner leaves loop for column offset lx: rows top + ly for ly in [0, n),
      skipping the cell straight above the trunk. */
  function LeafColumn(g: map<Cell, Tile>, x: int, top: int, lx: int, n: nat): map<Cell, Tile> {
    if n == 0 then g
    else
      var g' := LeafColumn(g, x, top, lx, n - 1);
      if lx == 0 && n - 1 == 0 then g'
      else Write(g', (x + lx, top + n - 1), Some(LeavesTransparentTile))
  }

  /** The outer leaves loop: column offsets lx in [lo, lo + n). */
  function LeafRows(g: map<Cell, Tile>, x: int, top: int, lo: int, n: nat): map<Cell, Tile> {
    if n == 0 then g
    else LeafColumn(LeafRows(g, x, top, lo, n - 1), x, top, lo + n - 1, LeavesHeight)
  }

  /** The ground layer after a tree of the given trunk height is planted at (x, y), in the
      order GenerateTree writes it. */
  function PlantTree(g: map<Cell, Tile>, x: int, y: int, trunkHeight: int): map<Cell, Tile> {
    var trunk := TrunkMids(Write(g, (x, y), Some(TrunkBottomTile)), x, y, trunkHeight - 1);
    LeafRows(trunk, x, y + trunkHeight - 1, LeavesLo, (LeavesHi - LeavesLo + 1) as nat)
  }

  lemma LeafRowsStep(g: map<Cell, Tile>, x: int, top: int, lo: int, n: nat)
    ensures LeafRows(g, x, top, lo, n + 1) == LeafColumn(LeafRows(g, x, top, lo, n), x, top, lo + n, LeavesHeight)
  {
  }

  /** The crown spans column offsets -1, 0 and 1. */
  lemma PlantTreeUnfold(g: map<Cell, Tile>, x: int, y: int, trunkHeight: int)
    ensures LeavesLo == -1 && LeavesHi == 1
    ensures PlantTree(g, x, y, trunkHeight)
         == LeafRows(TrunkMids(Write(g, (x, y), Some(TrunkBottomTile)), x, y, trunkHeight - 1), x, y + trunkHeight - 1, -1, 3)
  {
  }

  /** GenerateTree as a state change: one draw picks the trunk height in [3, 6). */
  function GrowTree(s: GenState, draws: Stream, x: int, y: int): GenState {
    var trunkHeight := RangeOf(3, 6, draws(s.cursor));
    s.(ground := PlantTree(s.ground, x, y, trunkHeight), cursor := s.cursor + 1)
  }

  lemma {:induction false} TrunkMidsShape(g: map<Cell, Tile>, x: int, y: int, n: int, c: Cell)
    ensures Lookup(TrunkMids(g, x, y, n), c)
         == if c.0 == x && y < c.1 < y + n then Some(TrunkMidTile) else Lookup(g, c)
    decreases n
  {
    if n > 1 {
      TrunkMidsShape(g, x, y, n - 1, c);
    }
  }

  lemma {:induction false} LeafColumnShape(g: map<Cell, Tile>, x: int, top: int, lx: int, n: nat, c: Cell)
    ensures Lookup(LeafColumn(g, x, top, lx, n), c)
         == if c.0 == x + lx && top <= c.1 < top + n && !(lx == 0 && c.1 == top)
            then Some(LeavesTransparentTile) else Lookup(g, c)
  {
    if n > 0 {
      LeafColumnShape(g, x, top, lx, n - 1, c);
    }
  }

  lemma {:induction false} LeafRowsShape(g: map<Cell, Tile>, x: int, top: int, lo: int, n: nat, c: Cell)
    ensures Lookup(LeafRows(g, x, top, lo, n), c)
         == if lo <= c.0 - x < lo + n && top <= c.1 < top + LeavesHeight && c != (x, top)
            then Some(LeavesTransparentTile) else Lookup(g, c)
  {
    if n > 0 {
      LeafRowsShape(g, x, top, lo, n - 1, c);
      LeafColumnShape(LeafRows(g, x, top, lo, n - 1), x, top, lo + n - 1, LeavesHeight, c);
    }
  }

  /** Planting a tree writes exactly the reference shape and leaves every other cell as it was;
      in particular the cell between the trunk and the crown is not painted. */
  lemma TreeShape(g: map<Cell, Tile>, x: int, y: int, trunkHeight: int, c: Cell)
    requires trunkHeight >= 1
    ensures Lookup(PlantTree(g, x, y, trunkHeight), c)
         == if TreePart(x, y, trunkHeight, c).Some? then TreePart(x, y, trunkHeight, c) else Lookup(g, c)
  {
    var g1 := Write(g, (x, y), Some(TrunkBottomTile));
    var trunk := TrunkMids(g1, x, y, trunkHeight - 1);
    TrunkMidsShape(g1, x, y, trunkHeight - 1, c);
    assert LeavesLo == -1 && LeavesHi == 1;
    LeafRowsShape(trunk, x, y + trunkHeight - 1, -1, 3, c);
  }

  /** The cell just under the crown's centre is never part of a tree of trunk height 3 to 5. */
  lemma TreeGap(x: int, y: int, trunkHeight: int)
    requires 3 <= trunkHeight < 6
    ensures TreePart(x, y, trunkHeight, (x, y + trunkHeight - 1)) == None
    ensures TreePart(x, y, trunkHeight, (x, y + trunkHeight - 2)) == Some(TrunkMidTile)
  {
  }

  /** A tree rooted at (x, y) paints nothing below y or more than one column away from x, and
      never touches the background. */
  lemma GrowTreeFrame(s: GenState, draws: Stream, x: int, y: int, c: Cell)
    requires c.1 < y || c.0 < x - 1 || c.0 > x + 1
    ensures Lookup(GrowTree(s, draws, x, y).ground, c) == Lookup(s.ground, c)
    ensures GrowTree(s, draws, x, y).background == s.background
  {
    TreeShape(s.ground, x, y, RangeOf(3, 6, draws(s.cursor)), c);
  }

  /** The leaves loops of GenerateTree: column offsets lx in [lo, hi], rows top + ly for ly in
      [0, LeavesHeight), skipping the cell straight above the trunk. */
  method PlaceLeaves(grid: WorldGrid, x: int, top: int, lo: int, hi: int)
    modifies grid
    ensures grid.ground == LeafRows(old(grid.ground), x, top, lo, Span(lo, hi + 1))
    ensures grid.background == old(grid.background)
  {
    var lx := lo;
    while lx <= hi
      invariant lo <= lx && (lx <= hi + 1 || lx == lo)
      invariant grid.ground == LeafRows(old(grid.ground), x, top, lo, lx - lo)
      invariant grid.background == old(grid.background)
    {
      ghost var g3 := grid.ground;
      LeafRowsStep(old(grid.ground), x, top, lo, lx - lo);
      for ly := 0 to LeavesHeight
        invariant grid.ground == LeafColumn(g3, x, top, lx, ly)
        invariant grid.background == old(grid.background)
      {
        if lx == 0 && ly == 0 {
          continue;
        }
        grid.SetGroundTile(x + lx, top + ly, Some(LeavesTransparentTile));
      }
      lx := lx + 1;
    }
    ghost var count: nat := lx - lo;
    assert count == Span(lo, hi + 1);
  }

  /** GenerateTree: draws the trunk height, paints the bottom and middle trunk tiles, then the
      crown column by column. */
  method GenerateTree(grid: WorldGrid, rng: RandomStream, x: int, y: int)
    modifies grid, rng
    ensures Snapshot(grid, rng) == GrowTree(old(Snapshot(grid, rng)), rng.draws, x, y)
  {
    var trunkHeight := rng.Range(3, 6);
    ghost var grown := GrowTree(old(Snapshot(grid, rng)), rng.draws, x, y);
    assert grown.cursor == rng.cursor;
    grid.SetGroundTile(x, y, Some(TrunkBottomTile));
    ghost var g1 := grid.ground;
    for i := 1 to trunkHeight - 1
      invariant grid.ground == TrunkMids(g1, x, y, i)
      invariant grid.background == old(grid.background) && rng.cursor == old(rng.cursor) + 1
    {
      grid.SetGroundTile(x, y + i, Some(TrunkMidTile));
    }
    PlantTreeUnfold(old(grid.ground), x, y, trunkHeight);
    PlaceLeaves(grid, x, y + trunkHeight - 1, LeavesLo, LeavesHi);
    assert grid.ground == PlantTree(old(grid.ground), x, y, trunkHeight);
  }
}
