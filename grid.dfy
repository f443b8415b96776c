/** The two tilemaps the generator paints: ground (foreground) and background. */
module Grid {
  import opened Wrappers
  import opened Tiles
  import opened Rand

  /** The tile at `c`, or None where the tilemap holds nothing. */
  function Lookup(m: map<Cell, Tile>, c: Cell): Option<Tile> {
    if c in m then Some(m[c]) else None
  }

  /** Setting a tile: Some(t) stores t at c, None (a null tile) erases c. */
  function Write(m: map<Cell, Tile>, c: Cell, t: Option<Tile>): map<Cell, Tile> {
    if t.Some? then m[c := t.value] else m - {c}
  }

  /** After a write, the written cell holds the new tile and every other cell is unchanged. */
  lemma WriteEffect(m: map<Cell, Tile>, c: Cell, t: Option<Tile>, d: Cell)
    ensures Lookup(Write(m, c, t), d) == if d == c then t else Lookup(m, d)
  {
  }

  /** Everything generation changes: both tilemaps and the position of Unity's random stream. */
  datatype GenState = GenState(ground: map<Cell, Tile>, background: map<Cell, Tile>, cursor: nat)
  {
    function SetGround(c: Cell, t: Option<Tile>): GenState {
      this.(ground := Write(ground, c, t))
    }

    function SetBackground(c: Cell, t: Option<Tile>): GenState {
      this.(background := Write(background, c, t))
    }

    function Advance(n: nat): GenState {
      this.(cursor := cursor + n)
    }

    /** The two tilemaps, without the random position. */
    function Layers(): (map<Cell, Tile>, map<Cell, Tile>) {
      (ground, background)
    }
  }

  /** The world renderer, reduced to its two tilemaps. */
  class WorldGrid {
    var ground: map<Cell, Tile>
    var background: map<Cell, Tile>

    constructor ()
      ensures ground == map[] && background == map[]
    {
      ground := map[];
      background := map[];
    }

    method SetGroundTile(x: int, y: int, t: Option<Tile>)
      modifies this
      ensures ground == Write(old(ground), (x, y), t) && background == old(background)
    {
      ground := Write(ground, (x, y), t);
    }

    method SetBackgroundTile(x: int, y: int, t: Option<Tile>)
      modifies this
      ensures background == Write(old(background), (x, y), t) && ground == old(ground)
    {
      background := Write(background, (x, y), t);
    }

    method ClearGroundTilemap()
      modifies this
      ensures ground == map[] && background == old(background)
    {
      ground := map[];
    }

    /** Clears the background tilemap. */
    method ClearPerlind2DTilemap()
      modifies this
      ensures background == map[] && ground == old(ground)
    {
      background := map[];
    }
  }

  /** The generation state held by a grid and Unity's random stream. */
  function Snapshot(grid: WorldGrid, rng: RandomStream): GenState
    reads grid, rng
  {
    GenState(grid.ground, grid.background, rng.cursor)
  }

  /** What one cell of a generation pass receives: a background tile, a ground tile when one
      is set (None leaves the ground as it was), and the random position after the cell. */
  datatype CellPaint = CellPaint(background: Option<Tile>, ground: Option<Tile>, cursor: nat)

  /** For row y of a column and the random position pos before it, what the cell receives. */
  type Chooser = (int, nat) -> CellPaint

  /** Painting cell c with p. */
  function Paint(s: GenState, c: Cell, p: CellPaint): GenState {
    var s1 := s.SetBackground(c, p.background).(cursor := p.cursor);
    if p.ground.Some? then s1.SetGround(c, p.ground) else s1
  }

  /** Rows [y0, y0 + n) of column x painted bottom to top, each cell with the choice made at
      the random position its predecessors left. */
  function PaintColumn(choose: Chooser, x: int, y0: int, s: GenState, n: nat): GenState {
    if n == 0 then s
    else
      var prev := PaintColumn(choose, x, y0, s, n - 1);
      Paint(prev, (x, y0 + n - 1), choose(y0 + n - 1, prev.cursor))
  }

  /** A chooser that never moves the random position backwards. */
  ghost predicate Forward(choose: Chooser) {
    forall y, pos :: choose(y, pos).cursor >= pos
  }

  /** A painted column changes no cell outside its rows, and with a forward chooser the
      random position only moves forward. */
  lemma {:induction false} PaintColumnFrame(choose: Chooser, x: int, y0: int, s: GenState, n: nat, c: Cell)
    requires c.0 != x || c.1 < y0 || c.1 >= y0 + n
    ensures Forward(choose) ==> PaintColumn(choose, x, y0, s, n).cursor >= s.cursor
    ensures Lookup(PaintColumn(choose, x, y0, s, n).ground, c) == Lookup(s.ground, c)
    ensures Lookup(PaintColumn(choose, x, y0, s, n).background, c) == Lookup(s.background, c)
  {
    if n > 0 {
      var prev := PaintColumn(choose, x, y0, s, n - 1);
      PaintColumnFrame(choose, x, y0, s, n - 1, c);
      WriteEffect(prev.ground, (x, y0 + n - 1), choose(y0 + n - 1, prev.cursor).ground, c);
      WriteEffect(prev.background, (x, y0 + n - 1), choose(y0 + n - 1, prev.cursor).background, c);
    }
  }

  /** After rows [y0, y0 + n), the cell c of row y0 + k holds exactly what was chosen for it,
      p: its background, and its ground tile when one was chosen, else the ground it had before. */
  lemma {:induction false} PaintColumnRow(choose: Chooser, x: int, y0: int, s: GenState, n: nat, k: nat, c: Cell, p: CellPaint)
    requires k < n && c == (x, y0 + k)
    requires p == choose(y0 + k, PaintColumn(choose, x, y0, s, k).cursor)
    ensures Lookup(PaintColumn(choose, x, y0, s, n).background, c) == p.background
    ensures Lookup(PaintColumn(choose, x, y0, s, n).ground, c) == if p.ground.Some? then p.ground else Lookup(s.ground, c)
  {
    var prev := PaintColumn(choose, x, y0, s, n - 1);
    var q := choose(y0 + n - 1, prev.cursor);
    WriteEffect(prev.ground, (x, y0 + n - 1), q.ground, c);
    WriteEffect(prev.background, (x, y0 + n - 1), q.background, c);
    if n > k + 1 {
      PaintColumnRow(choose, x, y0, s, n - 1, k, c, p);
    } else {
      PaintColumnFrame(choose, x, y0, s, k, c);
    }
  }

  /** One step of a sweep: what happens at position i (a column, a row, a tunnel step) to a state. */
  type Pass = (int, GenState) -> GenState

  /** The positions [lo, lo + n) swept in increasing order. */
  function Sweep(pass: Pass, lo: int, s: GenState, n: nat): GenState {
    if n == 0 then s else pass(lo + n - 1, Sweep(pass, lo, s, n - 1))
  }

  /** Doing position lo + n after positions [lo, lo + n) gives positions [lo, lo + n + 1). */
  lemma SweepStep(pass: Pass, lo: int, s: GenState, n: nat, i: int, before: GenState, after: GenState)
    requires i == lo + n && before == Sweep(pass, lo, s, n) && after == pass(i, before)
    ensures after == Sweep(pass, lo, s, n + 1)
  {
  }

  /** Position i of the pass leaves cell c as it was, whatever the state. */
  ghost predicate Keeps(pass: Pass, i: int, c: Cell) {
    forall st: GenState ::
      Lookup(pass(i, st).ground, c) == Lookup(st.ground, c) && Lookup(pass(i, st).background, c) == Lookup(st.background, c)
  }

  /** A cell that no position of [lo, lo + n) touches keeps its tiles. */
  lemma {:induction false} SweepFrame(pass: Pass, lo: int, s: GenState, n: nat, c: Cell)
    requires forall i :: lo <= i < lo + n ==> Keeps(pass, i, c)
    ensures Lookup(Sweep(pass, lo, s, n).ground, c) == Lookup(s.ground, c)
    ensures Lookup(Sweep(pass, lo, s, n).background, c) == Lookup(s.background, c)
  {
    if n > 0 {
      SweepFrame(pass, lo, s, n - 1, c);
      assert Keeps(pass, lo + n - 1, c);
    }
  }

  /** Once position lo + j is done, a cell that the later positions do not touch keeps what it
      received up to then. */
  lemma {:induction false} SweepKeepsPass(pass: Pass, lo: int, s: GenState, n: nat, j: nat, c: Cell)
    requires j < n
    requires forall i :: lo + j < i < lo + n ==> Keeps(pass, i, c)
    ensures Lookup(Sweep(pass, lo, s, n).ground, c) == Lookup(Sweep(pass, lo, s, j + 1).ground, c)
    ensures Lookup(Sweep(pass, lo, s, n).background, c) == Lookup(Sweep(pass, lo, s, j + 1).background, c)
  {
    if n > j + 1 {
      SweepKeepsPass(pass, lo, s, n - 1, j, c);
      assert Keeps(pass, lo + n - 1, c);
    }
  }

  /** When every position but lo + j leaves cell c alone, the sweep leaves at c exactly what
      position lo + j left there, and that position started from c as it was. */
  lemma SweepOnly(pass: Pass, lo: int, s: GenState, n: nat, j: nat, c: Cell, before: GenState, after: GenState)
    requires j < n
    requires forall i :: lo <= i < lo + n && i != lo + j ==> Keeps(pass, i, c)
    requires before == Sweep(pass, lo, s, j) && after == pass(lo + j, before)
    ensures Lookup(before.ground, c) == Lookup(s.ground, c) && Lookup(before.background, c) == Lookup(s.background, c)
    ensures Lookup(Sweep(pass, lo, s, n).ground, c) == Lookup(after.ground, c)
    ensures Lookup(Sweep(pass, lo, s, n).background, c) == Lookup(after.background, c)
  {
    SweepFrame(pass, lo, s, j, c);
    SweepStep(pass, lo, s, j, lo + j, before, after);
    SweepKeepsPass(pass, lo, s, n, j, c);
  }

  /** When position ci is the only one of [lo, lo + n) that changes the background at c, and it
      puts t there whatever the state, the sweep ends with t at c if ci is in range and with
      the background c had otherwise. */
  lemma {:induction false} SweepBackground(pass: Pass, lo: int, s: GenState, n: nat, ci: int, c: Cell, t: Option<Tile>)
    requires forall i, st: GenState :: lo <= i < lo + n ==>
      Lookup(pass(i, st).background, c) == if i == ci then t else Lookup(st.background, c)
    ensures Lookup(Sweep(pass, lo, s, n).background, c) == if lo <= ci < lo + n then t else Lookup(s.background, c)
  {
    if n > 0 {
      var prev := Sweep(pass, lo, s, n - 1);
      SweepBackground(pass, lo, s, n - 1, ci, c, t);
      assert Lookup(pass(lo + n - 1, prev).background, c) == if lo + n - 1 == ci then t else Lookup(prev.background, c);
    }
  }

  /** When every position moves the random position by k, the sweep moves it by n * k. */
  lemma {:induction false} SweepCursor(pass: Pass, lo: int, s: GenState, n: nat, k: nat)
    requires forall i, st: GenState :: lo <= i < lo + n ==> pass(i, st).cursor == st.cursor + k
    ensures Sweep(pass, lo, s, n).cursor == s.cursor + n * k
  {
    if n > 0 {
      SweepCursor(pass, lo, s, n - 1, k);
      var prev := Sweep(pass, lo, s, n - 1);
      assert pass(lo + n - 1, prev).cursor == prev.cursor + k;
    }
  }
}
