/** GenerateTunnels and CreateTunnel: tunnels of small round cavities, dug from deep cells
    where the tunnel noise is high and a cave lies close by. */
module Tunnels {
  import opened Wrappers
  import opened Tiles
  import opened Arith
  import opened Noise
  import opened Rand
  import opened Grid
  import opened Config
  import opened Caves

  /** Clearing the ground at c and putting dark stone behind it. */
  function Carve(s: GenState, c: Cell): GenState {
    s.SetGround(c, None).SetBackground(c, Some(StoneDark))
  }

  /** Cell c is open: no ground, dark stone behind. */
  predicate Carved(s: GenState, c: Cell) {
    Lookup(s.ground, c) == None && Lookup(s.background, c) == Some(StoneDark)
  }

  /** Cell c of `after` holds what it held in `before`, or it is open. */
  predicate CarvedOrKept(before: GenState, after: GenState, c: Cell) {
    || (Lookup(after.ground, c) == Lookup(before.ground, c) && Lookup(after.background, c) == Lookup(before.background, c))
    || Carved(after, c)
  }

  /** The inner loop of a cavity of radius r around (x, y), at column offset cx: the row offsets
      inside the circle are carved. */
  function CavityRow(x: int, y: int, r: int, cx: int): Pass {
    (cy: int, st: GenState) => if cx * cx + cy * cy <= r * r then Carve(st, (x + cx, y + cy)) else st
  }

  /** The outer loop of a cavity: column offset cx sweeps its row offsets -r to r. */
  function CavityPass(x: int, y: int, r: int): Pass {
    (cx: int, st: GenState) => Sweep(CavityRow(x, y, r, cx), -r, st, Span(-r, r + 1))
  }

  /** The cavity of radius r around (x, y): column offsets -r to r, each with row offsets -r to r. */
  function Cavity(s: GenState, x: int, y: int, r: int): GenState {
    Sweep(CavityPass(x, y, r), -r, s, Span(-r, r + 1))
  }

  /** One row step of a cavity touches only its own cell. */
  lemma CavityRowKeeps(x: int, y: int, r: int, cx: int, cy: int, c: Cell)
    requires c != (x + cx, y + cy)
    ensures Keeps(CavityRow(x, y, r, cx), cy, c)
  {
    forall st: GenState
      ensures Lookup(CavityRow(x, y, r, cx)(cy, st).ground, c) == Lookup(st.ground, c)
      ensures Lookup(CavityRow(x, y, r, cx)(cy, st).background, c) == Lookup(st.background, c)
    {
      var d := (x + cx, y + cy);
      WriteEffect(st.ground, d, None, c);
      WriteEffect(Write(st.ground, d, None), d, None, c);
      WriteEffect(st.background, d, Some(StoneDark), c);
    }
  }

  /** The column of offset cx opens the cell c exactly when c lies in that column at a row
      offset inside the circle, and leaves every other cell as it was. */
  lemma CavityRowEffect(x: int, y: int, r: int, cx: int, st: GenState, c: Cell)
    ensures var after := Sweep(CavityRow(x, y, r, cx), -r, st, Span(-r, r + 1));
      if c.0 == x + cx && -r <= c.1 - y <= r && cx * cx + (c.1 - y) * (c.1 - y) <= r * r then Carved(after, c)
      else Lookup(after.ground, c) == Lookup(st.ground, c) && Lookup(after.background, c) == Lookup(st.background, c)
  {
    var row := CavityRow(x, y, r, cx);
    var n := Span(-r, r + 1);
    var dy := c.1 - y;
    forall cy | -r <= cy < -r + n && (c.0 != x + cx || cy != dy)
      ensures Keeps(row, cy, c)
    {
      CavityRowKeeps(x, y, r, cx, cy, c);
    }
    if c.0 == x + cx && -r <= dy <= r {
      var before := Sweep(row, -r, st, dy + r);
      var after := row(dy, before);
      SweepOnly(row, -r, st, n, dy + r, c, before, after);
      assert (x + cx, y + dy) == c;
      if cx * cx + dy * dy <= r * r {
        WriteEffect(before.ground, c, None, c);
        WriteEffect(before.background, c, Some(StoneDark), c);
      }
    } else {
      SweepFrame(row, -r, st, n, c);
    }
  }

  /** A cavity opens exactly the cells within radius r of its centre and leaves the others as
      they were; the random position does not move. */
  lemma CavityEffect(s: GenState, x: int, y: int, r: int, c: Cell)
    ensures InCircle(c.0 - x, c.1 - y, r) ==> Carved(Cavity(s, x, y, r), c)
    ensures !InCircle(c.0 - x, c.1 - y, r) ==>
      Lookup(Cavity(s, x, y, r).ground, c) == Lookup(s.ground, c) && Lookup(Cavity(s, x, y, r).background, c) == Lookup(s.background, c)
    ensures Cavity(s, x, y, r).cursor == s.cursor
  {
    var col := CavityPass(x, y, r);
    var n := Span(-r, r + 1);
    var dx := c.0 - x;
    forall cx | -r <= cx < -r + n && cx != dx
      ensures Keeps(col, cx, c)
    {
      forall st: GenState
        ensures Lookup(col(cx, st).ground, c) == Lookup(st.ground, c)
        ensures Lookup(col(cx, st).background, c) == Lookup(st.background, c)
      {
        CavityRowEffect(x, y, r, cx, st, c);
      }
    }
    if -r <= dx <= r {
      var before := Sweep(col, -r, s, dx + r);
      var after := col(dx, before);
      SweepOnly(col, -r, s, n, dx + r, c, before, after);
      CavityRowEffect(x, y, r, dx, before, c);
    } else {
      SweepFrame(col, -r, s, n, c);
    }
    CavityCursor(s, x, y, r);
  }

  /** A cavity only writes tiles. */
  lemma CavityCursor(s: GenState, x: int, y: int, r: int)
    ensures Cavity(s, x, y, r).cursor == s.cursor
  {
    var col := CavityPass(x, y, r);
    var n := Span(-r, r + 1);
    forall cx, st: GenState | -r <= cx < -r + n
      ensures col(cx, st).cursor == st.cursor + 0
    {
      var row := CavityRow(x, y, r, cx);
      forall cy, st': GenState | -r <= cy < -r + n
        ensures row(cy, st').cursor == st'.cursor + 0
      {
      }
      SweepCursor(row, -r, st, n, 0);
    }
    SweepCursor(col, -r, s, n, 0);
  }

  /** The inner loop of a cavity: row offsets -r to r of column offset cx. */
  method CarveCavityColumn(grid: WorldGrid, rng: RandomStream, x: int, y: int, r: int, cx: int)
    modifies grid
    ensures Snapshot(grid, rng) == Sweep(CavityRow(x, y, r, cx), -r, old(Snapshot(grid, rng)), Span(-r, r + 1))
  {
    ghost var s0 := Snapshot(grid, rng);
    var cy := -r;
    ghost var done: nat := 0;
    while cy <= r
      invariant cy == -r + done && (cy <= r + 1 || done == 0)
      invariant Snapshot(grid, rng) == Sweep(CavityRow(x, y, r, cx), -r, s0, done)
    {
      ghost var before := Snapshot(grid, rng);
      if cx * cx + cy * cy <= r * r {
        grid.SetGroundTile(x + cx, y + cy, None);
        grid.SetBackgroundTile(x + cx, y + cy, Some(StoneDark));
      }
      SweepStep(CavityRow(x, y, r, cx), -r, s0, done, cy, before, Snapshot(grid, rng));
      cy := cy + 1;
      done := done + 1;
    }
    assert done == Span(-r, r + 1);
  }

  /** The cavity loops of CreateTunnel: column offsets -r to r, each with its row offsets. */
  method CarveCavity(grid: WorldGrid, rng: RandomStream, x: int, y: int, r: int)
    modifies grid
    ensures Snapshot(grid, rng) == Cavity(old(Snapshot(grid, rng)), x, y, r)
  {
    ghost var s0 := Snapshot(grid, rng);
    var cx := -r;
    ghost var done: nat := 0;
    while cx <= r
      invariant cx == -r + done && (cx <= r + 1 || done == 0)
      invariant Snapshot(grid, rng) == Sweep(CavityPass(x, y, r), -r, s0, done)
    {
      ghost var before := Snapshot(grid, rng);
      CarveCavityColumn(grid, rng, x, y, r, cx);
      SweepStep(CavityPass(x, y, r), -r, s0, done, cx, before, Snapshot(grid, rng));
      cx := cx + 1;
      done := done + 1;
    }
    assert done == Span(-r, r + 1);
  }

  /** A sweep whose every position leaves cell c as it was or opens it leaves c, from any
      intermediate state onwards, as it was or open. */
  lemma {:induction false} SweepCarves(pass: Pass, lo: int, s: GenState, n: nat, j: nat, c: Cell)
    requires j <= n
    requires forall i, st: GenState :: lo <= i < lo + n ==> CarvedOrKept(st, pass(i, st), c)
    ensures CarvedOrKept(Sweep(pass, lo, s, j), Sweep(pass, lo, s, n), c)
  {
    if n > j {
      SweepCarves(pass, lo, s, n - 1, j, c);
      var prev := Sweep(pass, lo, s, n - 1);
      assert CarvedOrKept(prev, pass(lo + n - 1, prev), c);
    }
  }

  /** The step of CreateTunnel for each direction: 0 horizontal, 1 vertical, 2 and 3 the two
      diagonals; any other value leaves the tunnel standing on its start point. */
  function Direction(direction: int): (step: (int, int))
    ensures direction == 0 ==> step == (1, 0)
    ensures direction == 1 ==> step == (0, 1)
    ensures direction == 2 ==> step == (1, 1)
    ensures direction == 3 ==> step == (1, -1)
    ensures !(0 <= direction < 4) ==> step == (0, 0)
  {
    match direction
    case 0 => (1, 0)
    case 1 => (0, 1)
    case 2 => (1, 1)
    case 3 => (1, -1)
    case _ => (0, 0)
  }

  /** Point i of a tunnel from (startX, startY) going by step. */
  function PathPoint(startX: int, startY: int, step: (int, int), i: int): Cell {
    (startX + i * step.0, startY + i * step.1)
  }

  /** Step i of a tunnel: one sample picks the cavity radius (1 or 2), then the cavity is dug
      around point i. */
  function TunnelPass(draws: Stream, startX: int, startY: int, step: (int, int)): Pass {
    (i: int, st: GenState) =>
      var p := PathPoint(startX, startY, step, i);
      Cavity(st.Advance(1), p.0, p.1, RangeOf(1, 3, draws(st.cursor)))
  }

  /** CreateTunnel: the steps 0 to length - 1 (none when length is not positive). */
  function Tunnel(s: GenState, draws: Stream, startX: int, startY: int, length: int, direction: int): GenState {
    Sweep(TunnelPass(draws, startX, startY, Direction(direction)), 0, s, Span(0, length))
  }

  /** A cell within radius 1 is within any radius of at least 1. */
  lemma UnitCircleWithin(dx: int, dy: int, r: int)
    requires 1 <= r && InCircle(dx, dy, 1)
    ensures InCircle(dx, dy, r)
  {
    assert 1 <= r * r by {
      assert r * r >= r * 1;
    }
  }

  /** Every step of a tunnel leaves each cell as it was or opens it. */
  lemma TunnelPassCarves(draws: Stream, startX: int, startY: int, step: (int, int), i: int, st: GenState, c: Cell)
    ensures CarvedOrKept(st, TunnelPass(draws, startX, startY, step)(i, st), c)
  {
    var p := PathPoint(startX, startY, step, i);
    CavityEffect(st.Advance(1), p.0, p.1, RangeOf(1, 3, draws(st.cursor)), c);
  }

  /** Step i of a tunnel opens point i of the path and its four neighbours. */
  lemma TunnelPassOpens(draws: Stream, startX: int, startY: int, step: (int, int), i: int, st: GenState, dx: int, dy: int)
    requires InCircle(dx, dy, 1)
    ensures var p := PathPoint(startX, startY, step, i);
      Carved(TunnelPass(draws, startX, startY, step)(i, st), (p.0 + dx, p.1 + dy))
  {
    var p := PathPoint(startX, startY, step, i);
    var r := RangeOf(1, 3, draws(st.cursor));
    UnitCircleWithin(dx, dy, r);
    CavityEffect(st.Advance(1), p.0, p.1, r, (p.0 + dx, p.1 + dy));
  }

  /** From any step onwards, a tunnel leaves each cell as it was or opens it. */
  lemma TunnelCarvesFrom(s: GenState, draws: Stream, startX: int, startY: int, length: int, direction: int, j: nat, c: Cell)
    requires j <= Span(0, length)
    ensures CarvedOrKept(Sweep(TunnelPass(draws, startX, startY, Direction(direction)), 0, s, j),
                         Tunnel(s, draws, startX, startY, length, direction), c)
  {
    var pass := TunnelPass(draws, startX, startY, Direction(direction));
    forall i, st: GenState | 0 <= i < Span(0, length)
      ensures CarvedOrKept(st, pass(i, st), c)
    {
      TunnelPassCarves(draws, startX, startY, Direction(direction), i, st, c);
    }
    SweepCarves(pass, 0, s, Span(0, length), j, c);
  }

  /** A tunnel only opens cells: each cell is left as it was or emptied with dark stone behind. */
  lemma TunnelOnlyCarves(s: GenState, draws: Stream, startX: int, startY: int, length: int, direction: int, c: Cell)
    ensures CarvedOrKept(s, Tunnel(s, draws, startX, startY, length, direction), c)
  {
    TunnelCarvesFrom(s, draws, startX, startY, length, direction, 0, c);
  }

  /** A sweep whose position lo + j opens cell c whatever the state, and whose every position
      leaves c as it was or opens it, ends with c open. */
  lemma SweepOpens(pass: Pass, lo: int, s: GenState, n: nat, j: nat, k: int, c: Cell)
    requires j < n && k == lo + j
    requires forall st: GenState :: Carved(pass(k, st), c)
    requires forall i, st: GenState :: lo <= i < lo + n ==> CarvedOrKept(st, pass(i, st), c)
    ensures Carved(Sweep(pass, lo, s, n), c)
  {
    var before := Sweep(pass, lo, s, j);
    SweepStep(pass, lo, s, j, k, before, pass(k, before));
    SweepCarves(pass, lo, s, n, j + 1, c);
  }

  /** Every point of the tunnel's path, and its four neighbours, ends up open: the smallest
      cavity has radius 1, and later cavities never fill a cell again. */
  lemma TunnelPathOpen(s: GenState, draws: Stream, startX: int, startY: int, length: int, direction: int,
                       i: int, dx: int, dy: int)
    requires 0 <= i < length && InCircle(dx, dy, 1)
    ensures var p := PathPoint(startX, startY, Direction(direction), i);
      Carved(Tunnel(s, draws, startX, startY, length, direction), (p.0 + dx, p.1 + dy))
  {
    var step := Direction(direction);
    var pass := TunnelPass(draws, startX, startY, step);
    var p := PathPoint(startX, startY, step, i);
    var c := (p.0 + dx, p.1 + dy);
    forall st: GenState
      ensures Carved(pass(i, st), c)
    {
      TunnelPassOpens(draws, startX, startY, step, i, st, dx, dy);
    }
    forall k, st: GenState | 0 <= k < Span(0, length)
      ensures CarvedOrKept(st, pass(k, st), c)
    {
      TunnelPassCarves(draws, startX, startY, step, k, st, c);
    }
    SweepOpens(pass, 0, s, Span(0, length), i, i, c);
  }

  /** A cavity radius drawn by CreateTunnel fits within radius 2. */
  lemma CircleWithin(dx: int, dy: int, r: int)
    requires 1 <= r <= 2 && InCircle(dx, dy, r)
    ensures InCircle(dx, dy, 2)
  {
    assert r * r <= 4 by {
      if r == 1 {} else {}
    }
  }

  /** CreateTunnel writes only cells within distance 2 (the largest cavity radius) of some point
      of its path: every other cell keeps its tiles. */
  lemma TunnelFrame(s: GenState, draws: Stream, startX: int, startY: int, length: int, direction: int, c: Cell)
    requires forall i :: 0 <= i < length ==>
      !InCircle(c.0 - PathPoint(startX, startY, Direction(direction), i).0, c.1 - PathPoint(startX, startY, Direction(direction), i).1, 2)
    ensures var t := Tunnel(s, draws, startX, startY, length, direction);
      Lookup(t.ground, c) == Lookup(s.ground, c) && Lookup(t.background, c) == Lookup(s.background, c)
  {
    var step := Direction(direction);
    var pass := TunnelPass(draws, startX, startY, step);
    forall i | 0 <= i < Span(0, length)
      ensures Keeps(pass, i, c)
    {
      var p := PathPoint(startX, startY, step, i);
      forall st: GenState
        ensures Lookup(pass(i, st).ground, c) == Lookup(st.ground, c)
        ensures Lookup(pass(i, st).background, c) == Lookup(st.background, c)
      {
        var r := RangeOf(1, 3, draws(st.cursor));
        if InCircle(c.0 - p.0, c.1 - p.1, r) {
          CircleWithin(c.0 - p.0, c.1 - p.1, r);
        }
        CavityEffect(st.Advance(1), p.0, p.1, r, c);
      }
    }
    SweepFrame(pass, 0, s, Span(0, length), c);
  }

  /** Digging the same cavity twice leaves the tiles of the first: re-carving changes nothing. */
  lemma CavityIdempotent(s: GenState, x: int, y: int, r: int, c: Cell)
    ensures var once := Cavity(s, x, y, r);
      var twice := Cavity(once, x, y, r);
      Lookup(twice.ground, c) == Lookup(once.ground, c) && Lookup(twice.background, c) == Lookup(once.background, c)
  {
    CavityEffect(s, x, y, r, c);
    CavityEffect(Cavity(s, x, y, r), x, y, r, c);
  }

  /** A tunnel consumes one sample per step. */
  lemma TunnelDraws(s: GenState, draws: Stream, startX: int, startY: int, length: int, direction: int)
    ensures Tunnel(s, draws, startX, startY, length, direction).cursor == s.cursor + Span(0, length)
  {
    var step := Direction(direction);
    var pass := TunnelPass(draws, startX, startY, step);
    forall i, st: GenState | 0 <= i < Span(0, length)
      ensures pass(i, st).cursor == st.cursor + 1
    {
      var p := PathPoint(startX, startY, step, i);
      CavityCursor(st.Advance(1), p.0, p.1, RangeOf(1, 3, draws(st.cursor)));
    }
    SweepCursor(pass, 0, s, Span(0, length), 1);
  }

  /** One step of CreateTunnel: draws the cavity radius and digs around point i. */
  method DigTunnelPoint(grid: WorldGrid, rng: RandomStream, startX: int, startY: int, step: (int, int), i: int)
    modifies grid, rng
    ensures Snapshot(grid, rng) == TunnelPass(rng.draws, startX, startY, step)(i, old(Snapshot(grid, rng)))
  {
    var x := startX + i * step.0;
    var y := startY + i * step.1;
    var cavitySize := rng.Range(1, 3);
    CarveCavity(grid, rng, x, y, cavitySize);
  }

  /** The loop of CreateTunnel: steps 0 to length - 1 along step. */
  method DigTunnel(grid: WorldGrid, rng: RandomStream, startX: int, startY: int, step: (int, int), length: int)
    modifies grid, rng
    ensures Snapshot(grid, rng) == Sweep(TunnelPass(rng.draws, startX, startY, step), 0, old(Snapshot(grid, rng)), Span(0, length))
  {
    ghost var s0 := Snapshot(grid, rng);
    ghost var pass := TunnelPass(rng.draws, startX, startY, step);
    var i := 0;
    while i < length
      invariant 0 <= i && (i <= length || i == 0)
      invariant Snapshot(grid, rng) == Sweep(pass, 0, s0, i)
    {
      ghost var before := Snapshot(grid, rng);
      DigTunnelPoint(grid, rng, startX, startY, step, i);
      SweepStep(pass, 0, s0, i, i, before, Snapshot(grid, rng));
      i := i + 1;
    }
    assert i == Span(0, length);
  }

  /** CreateTunnel: picks the step from the direction, then digs a cavity of random radius
      around each of the length points of the path. */
  method CreateTunnel(grid: WorldGrid, rng: RandomStream, startX: int, startY: int, length: int, direction: int)
    modifies grid, rng
    ensures Snapshot(grid, rng) == Tunnel(old(Snapshot(grid, rng)), rng.draws, startX, startY, length, direction)
  {
    var dx, dy := 0, 0;
    if direction == 0 {
      dx, dy := 1, 0;
    } else if direction == 1 {
      dx, dy := 0, 1;
    } else if direction == 2 {
      dx, dy := 1, 1;
    } else if direction == 3 {
      dx, dy := 1, -1;
    }
    DigTunnel(grid, rng, startX, startY, (dx, dy), length);
  }

  /** Each point of a tunnel's path lies at most i rows away from its start. */
  lemma PathPointRow(startX: int, startY: int, direction: int, i: int)
    requires 0 <= i
    ensures startY - i <= PathPoint(startX, startY, Direction(direction), i).1 <= startY + i
  {
    var step := Direction(direction);
    assert step.1 == -1 || step.1 == 0 || step.1 == 1;
    if step.1 == -1 {
      assert i * step.1 == -i;
    } else if step.1 == 0 {
      assert i * step.1 == 0;
    } else {
      assert i * step.1 == i;
    }
  }

  /** A tunnel of at most 14 steps leaves every row more than 15 below its start untouched. */
  lemma TunnelKeepsLowRows(s: GenState, draws: Stream, startX: int, startY: int, length: int, direction: int, c: Cell)
    requires length <= 14 && c.1 < startY - 15
    ensures var t := Tunnel(s, draws, startX, startY, length, direction);
      Lookup(t.ground, c) == Lookup(s.ground, c) && Lookup(t.background, c) == Lookup(s.background, c)
  {
    forall i | 0 <= i < length
      ensures !InCircle(c.0 - PathPoint(startX, startY, Direction(direction), i).0, c.1 - PathPoint(startX, startY, Direction(direction), i).1, 2)
    {
      PathPointRow(startX, startY, direction, i);
    }
    TunnelFrame(s, draws, startX, startY, length, direction, c);
  }

  /** The noise level a cell of row y must exceed: tunnelThreshold, lowered by up to 0.1 as
      the row goes from 0 to 50. */
  function TunnelThreshold(cfg: WorldConfig, y: int): real {
    cfg.tunnelThreshold - 0.1 * Min(1.0, y as real / 50.0)
  }

  /** The tunnel noise of cell (x, y), read 1000 rows away from the cave noise. */
  function TunnelNoise(env: Env, x: int, y: int): real
    requires env.cfg.Valid()
  {
    Sample(env.perlin, x, y + 1000, env.cfg.tunnelNoiseData)
  }

  /** The tunnel GenerateTunnels starts at (x, y): two samples give its length (3 to 14) and
      its direction (0 to 3). */
  function NewTunnel(draws: Stream, x: int, y: int, s: GenState): GenState {
    Tunnel(s.Advance(2), draws, x, y, RangeOf(3, 15, draws(s.cursor)), RangeOf(0, 4, draws(s.cursor + 1)))
  }

  /** NewTunnel is the tunnel of the two samples it draws. */
  lemma NewTunnelIs(draws: Stream, x: int, y: int, s: GenState, start: GenState, length: int, direction: int)
    requires start == s.Advance(2)
    requires length == RangeOf(3, 15, draws(s.cursor)) && direction == RangeOf(0, 4, draws(s.cursor + 1))
    ensures NewTunnel(draws, x, y, s) == Tunnel(start, draws, x, y, length, direction)
  {
  }

  /** A tunnel starts at (x, y) only when a cave lies within 10 cells. */
  ghost function NearbyTunnel(env: Env, x: int, y: int, s: GenState): GenState
    requires env.cfg.Valid()
  {
    if CaveNearby(env.cfg, env.perlin, x, y, 10) then NewTunnel(env.draws, x, y, s) else s
  }

  /** What GenerateTunnels does at (x, y) once the noise test has passed: one sample is drawn,
      and the cave test follows when it is under caveConnectivity. */
  ghost function TunnelDraw(env: Env, x: int, y: int, s: GenState): GenState
    requires env.cfg.Valid()
  {
    if env.draws(s.cursor) < env.cfg.caveConnectivity then NearbyTunnel(env, x, y, s.Advance(1)) else s.Advance(1)
  }

  /** The two outcomes of the draw against caveConnectivity. */
  lemma TunnelDrawCases(env: Env, x: int, y: int, s: GenState)
    requires env.cfg.Valid()
    ensures env.draws(s.cursor) < env.cfg.caveConnectivity ==> TunnelDraw(env, x, y, s) == NearbyTunnel(env, x, y, s.Advance(1))
    ensures env.draws(s.cursor) >= env.cfg.caveConnectivity ==> TunnelDraw(env, x, y, s) == s.Advance(1)
  {
  }

  /** Cell (x, y) of GenerateTunnels from state s: rows under 2 * minCaveDepth are skipped, and
      so is a cell whose tunnel noise does not beat the threshold of its row. */
  ghost function TunnelCell(env: Env, x: int, y: int, s: GenState): GenState
    requires env.cfg.Valid()
  {
    if y < env.cfg.minCaveDepth * 2 || TunnelNoise(env, x, y) <= TunnelThreshold(env.cfg, y) then s
    else TunnelDraw(env, x, y, s)
  }

  /** The conditions under which GenerateTunnels starts a tunnel at (x, y) from state s. */
  ghost predicate StartsTunnel(env: Env, x: int, y: int, s: GenState)
    requires env.cfg.Valid()
  {
    && y >= env.cfg.minCaveDepth * 2
    && TunnelNoise(env, x, y) > TunnelThreshold(env.cfg, y)
    && env.draws(s.cursor) < env.cfg.caveConnectivity
    && CaveNearby(env.cfg, env.perlin, x, y, 10)
  }

  /** The three outcomes of a cell of GenerateTunnels. */
  lemma TunnelCellCases(env: Env, x: int, y: int, s: GenState)
    requires env.cfg.Valid()
    ensures StartsTunnel(env, x, y, s) ==> TunnelCell(env, x, y, s) == NewTunnel(env.draws, x, y, s.Advance(1))
    ensures !StartsTunnel(env, x, y, s) ==> TunnelCell(env, x, y, s) == s || TunnelCell(env, x, y, s) == s.Advance(1)
    ensures !StartsTunnel(env, x, y, s) && y >= env.cfg.minCaveDepth * 2 && TunnelNoise(env, x, y) > TunnelThreshold(env.cfg, y) ==>
      TunnelCell(env, x, y, s) == s.Advance(1)
  {
  }

  /** The tunnel a cell starts opens that cell and its four neighbours, leaves every other cell
      as it was or open, never reaches a row more than 15 under the cell, and consumes two
      samples plus one per step. */
  lemma NewTunnelEffect(draws: Stream, x: int, y: int, s: GenState, c: Cell)
    ensures InCircle(c.0 - x, c.1 - y, 1) ==> Carved(NewTunnel(draws, x, y, s), c)
    ensures CarvedOrKept(s, NewTunnel(draws, x, y, s), c)
    ensures c.1 < y - 15 ==>
      Lookup(NewTunnel(draws, x, y, s).ground, c) == Lookup(s.ground, c) && Lookup(NewTunnel(draws, x, y, s).background, c) == Lookup(s.background, c)
    ensures NewTunnel(draws, x, y, s).cursor == s.cursor + 2 + RangeOf(3, 15, draws(s.cursor))
  {
    var length := RangeOf(3, 15, draws(s.cursor));
    var direction := RangeOf(0, 4, draws(s.cursor + 1));
    var start := s.Advance(2);
    NewTunnelIs(draws, x, y, s, start, length, direction);
    if InCircle(c.0 - x, c.1 - y, 1) {
      TunnelPathOpen(start, draws, x, y, length, direction, 0, c.0 - x, c.1 - y);
      assert PathPoint(x, y, Direction(direction), 0) == (x, y);
    }
    TunnelOnlyCarves(start, draws, x, y, length, direction, c);
    if c.1 < y - 15 {
      TunnelKeepsLowRows(start, draws, x, y, length, direction, c);
    }
    TunnelDraws(start, draws, x, y, length, direction);
  }

  /** A cell of GenerateTunnels changes tiles only by starting a tunnel there, and a tunnel it
      starts opens its own cell and the four around it. */
  lemma TunnelCellEffect(env: Env, x: int, y: int, s: GenState, dx: int, dy: int)
    requires env.cfg.Valid() && InCircle(dx, dy, 1)
    ensures StartsTunnel(env, x, y, s) ==> Carved(TunnelCell(env, x, y, s), (x + dx, y + dy))
    ensures !StartsTunnel(env, x, y, s) ==> TunnelCell(env, x, y, s).Layers() == s.Layers()
  {
    TunnelCellCases(env, x, y, s);
    NewTunnelEffect(env.draws, x, y, s.Advance(1), (x + dx, y + dy));
  }

  /** A cell of GenerateTunnels leaves every cell as it was or opens it. */
  lemma TunnelCellCarves(env: Env, x: int, y: int, s: GenState, c: Cell)
    requires env.cfg.Valid()
    ensures CarvedOrKept(s, TunnelCell(env, x, y, s), c)
  {
    TunnelCellCases(env, x, y, s);
    NewTunnelEffect(env.draws, x, y, s.Advance(1), c);
  }

  /** A cell of GenerateTunnels never touches a row more than 15 under 2 * minCaveDepth. */
  lemma TunnelCellKeepsLowRows(env: Env, x: int, y: int, s: GenState, c: Cell)
    requires env.cfg.Valid() && c.1 < env.cfg.minCaveDepth * 2 - 15
    ensures Lookup(TunnelCell(env, x, y, s).ground, c) == Lookup(s.ground, c)
    ensures Lookup(TunnelCell(env, x, y, s).background, c) == Lookup(s.background, c)
  {
    TunnelCellCases(env, x, y, s);
    NewTunnelEffect(env.draws, x, y, s.Advance(1), c);
  }

  /** The samples a cell of GenerateTunnels draws: none when it is skipped or the noise is low,
      one when the draw or the cave test fails, and 3 plus the tunnel length otherwise. */
  lemma TunnelCellDraws(env: Env, x: int, y: int, s: GenState)
    requires env.cfg.Valid()
    ensures var t := TunnelCell(env, x, y, s);
      if StartsTunnel(env, x, y, s) then t.cursor == s.cursor + 3 + RangeOf(3, 15, env.draws(s.cursor + 1))
      else if y >= env.cfg.minCaveDepth * 2 && TunnelNoise(env, x, y) > TunnelThreshold(env.cfg, y) then t.cursor == s.cursor + 1
      else t.cursor == s.cursor
  {
    TunnelCellCases(env, x, y, s);
    NewTunnelEffect(env.draws, x, y, s.Advance(1), (x, y));
  }

  /** The two draws and the CreateTunnel call of GenerateTunnels. */
  method StartTunnel(env: Env, grid: WorldGrid, rng: RandomStream, x: int, y: int)
    requires rng.draws == env.draws
    modifies grid, rng
    ensures Snapshot(grid, rng) == NewTunnel(env.draws, x, y, old(Snapshot(grid, rng)))
  {
    ghost var s0 := Snapshot(grid, rng);
    var tunnelLength := rng.Range(3, 15);
    var tunnelDirection := rng.Range(0, 4);
    ghost var s1 := Snapshot(grid, rng);
    NewTunnelIs(env.draws, x, y, s0, s1, tunnelLength, tunnelDirection);
    CreateTunnel(grid, rng, x, y, tunnelLength, tunnelDirection);
  }

  /** The cave test of GenerateTunnels and the tunnel it lets through. */
  method TunnelIfNearby(env: Env, grid: WorldGrid, rng: RandomStream, x: int, y: int)
    requires env.cfg.Valid() && rng.draws == env.draws
    modifies grid, rng
    ensures Snapshot(grid, rng) == NearbyTunnel(env, x, y, old(Snapshot(grid, rng)))
  {
    var hasCaveNearby := HasCaveNearby(env.cfg, env.perlin, x, y, 10);
    if hasCaveNearby {
      StartTunnel(env, grid, rng, x, y);
    }
  }

  /** The part of an iteration of GenerateTunnels after the noise test. */
  method DrawTunnel(env: Env, grid: WorldGrid, rng: RandomStream, x: int, y: int)
    requires env.cfg.Valid() && rng.draws == env.draws
    modifies grid, rng
    ensures Snapshot(grid, rng) == TunnelDraw(env, x, y, old(Snapshot(grid, rng)))
  {
    TunnelDrawCases(env, x, y, Snapshot(grid, rng));
    var u := rng.Value();
    if u < env.cfg.caveConnectivity {
      TunnelIfNearby(env, grid, rng, x, y);
    }
  }

  /** One iteration of the loops of GenerateTunnels. */
  method TunnelAt(env: Env, grid: WorldGrid, rng: RandomStream, x: int, y: int)
    requires env.cfg.Valid() && rng.draws == env.draws
    modifies grid, rng
    ensures Snapshot(grid, rng) == TunnelCell(env, x, y, old(Snapshot(grid, rng)))
  {
    if y < env.cfg.minCaveDepth * 2 {
      return;
    }
    var tunnelNoise := SumNoise(env.perlin, x, y + 1000, env.cfg.tunnelNoiseData);
    var depthFactor := Min(1.0, y as real / 50.0);
    var adjustedThreshold := env.cfg.tunnelThreshold - 0.1 * depthFactor;
    if tunnelNoise > adjustedThreshold {
      DrawTunnel(env, grid, rng, x, y);
    }
  }

  /** The rows of column x that GenerateTunnels visits. */
  ghost function TunnelRowPass(env: Env, x: int): Pass
    requires env.cfg.Valid()
  {
    (y: int, st: GenState) => TunnelCell(env, x, y, st)
  }

  /** Column x of GenerateTunnels: rows 0 to mapDepth - 1. */
  ghost function TunnelColumnPass(env: Env): Pass
    requires env.cfg.Valid()
  {
    (x: int, st: GenState) => Sweep(TunnelRowPass(env, x), 0, st, Rows(env.cfg))
  }

  /** GenerateTunnels: the columns -mapWidth / 2 to mapWidth / 2 - 1. */
  ghost function TunnelsSpec(env: Env, s: GenState): GenState
    requires env.cfg.Valid()
  {
    Sweep(TunnelColumnPass(env), FirstColumn(env.cfg), s, ColumnCount(env.cfg))
  }

  /** The inner loop of GenerateTunnels over the rows of column x. */
  method GenerateTunnelColumn(env: Env, grid: WorldGrid, rng: RandomStream, x: int)
    requires env.cfg.Valid() && rng.draws == env.draws
    modifies grid, rng
    ensures Snapshot(grid, rng) == Sweep(TunnelRowPass(env, x), 0, old(Snapshot(grid, rng)), Rows(env.cfg))
  {
    ghost var s0 := Snapshot(grid, rng);
    ghost var pass := TunnelRowPass(env, x);
    var y := 0;
    while y < env.cfg.mapDepth
      invariant 0 <= y && (y <= env.cfg.mapDepth || y == 0)
      invariant Snapshot(grid, rng) == Sweep(pass, 0, s0, y)
    {
      ghost var before := Snapshot(grid, rng);
      TunnelAt(env, grid, rng, x, y);
      SweepStep(pass, 0, s0, y, y, before, Snapshot(grid, rng));
      y := y + 1;
    }
    assert y == Rows(env.cfg);
  }

  /** The outer loop of GenerateTunnels over the columns [lo, hi). */
  method GenerateTunnelColumns(env: Env, grid: WorldGrid, rng: RandomStream, lo: int, hi: int)
    requires env.cfg.Valid() && rng.draws == env.draws
    modifies grid, rng
    ensures Snapshot(grid, rng) == Sweep(TunnelColumnPass(env), lo, old(Snapshot(grid, rng)), Span(lo, hi))
  {
    ghost var s0 := Snapshot(grid, rng);
    ghost var pass := TunnelColumnPass(env);
    var x := lo;
    while x < hi
      invariant lo <= x && (x <= hi || x == lo)
      invariant Snapshot(grid, rng) == Sweep(pass, lo, s0, x - lo)
    {
      ghost var before := Snapshot(grid, rng);
      GenerateTunnelColumn(env, grid, rng, x);
      SweepStep(pass, lo, s0, x - lo, x, before, Snapshot(grid, rng));
      x := x + 1;
    }
    assert x - lo == Span(lo, hi);
  }

  /** GenerateTunnels: every column of the map, each with every row. */
  method GenerateTunnels(env: Env, grid: WorldGrid, rng: RandomStream)
    requires env.cfg.Valid() && rng.draws == env.draws
    modifies grid, rng
    ensures Snapshot(grid, rng) == TunnelsSpec(env, old(Snapshot(grid, rng)))
  {
    GenerateTunnelColumns(env, grid, rng, Div(-env.cfg.mapWidth, 2), Div(env.cfg.mapWidth, 2));
  }

  /** GenerateTunnels only opens cells: every cell keeps its tiles or ends with no ground and
      dark stone behind. */
  lemma TunnelsOnlyCarve(env: Env, s: GenState, c: Cell)
    requires env.cfg.Valid()
    ensures CarvedOrKept(s, TunnelsSpec(env, s), c)
  {
    var cols := TunnelColumnPass(env);
    forall x, st: GenState | FirstColumn(env.cfg) <= x < FirstColumn(env.cfg) + ColumnCount(env.cfg)
      ensures CarvedOrKept(st, cols(x, st), c)
    {
      var rows := TunnelRowPass(env, x);
      forall y, st': GenState | 0 <= y < Rows(env.cfg)
        ensures CarvedOrKept(st', rows(y, st'), c)
      {
        TunnelCellCarves(env, x, y, st', c);
      }
      SweepCarves(rows, 0, st, Rows(env.cfg), 0, c);
    }
    SweepCarves(cols, FirstColumn(env.cfg), s, ColumnCount(env.cfg), 0, c);
  }

  /** GenerateTunnels never touches a row more than 15 under 2 * minCaveDepth. */
  lemma TunnelsKeepLowRows(env: Env, s: GenState, c: Cell)
    requires env.cfg.Valid() && c.1 < env.cfg.minCaveDepth * 2 - 15
    ensures Lookup(TunnelsSpec(env, s).ground, c) == Lookup(s.ground, c)
    ensures Lookup(TunnelsSpec(env, s).background, c) == Lookup(s.background, c)
  {
    var cols := TunnelColumnPass(env);
    forall x | FirstColumn(env.cfg) <= x < FirstColumn(env.cfg) + ColumnCount(env.cfg)
      ensures Keeps(cols, x, c)
    {
      var rows := TunnelRowPass(env, x);
      forall st: GenState
        ensures Lookup(cols(x, st).ground, c) == Lookup(st.ground, c)
        ensures Lookup(cols(x, st).background, c) == Lookup(st.background, c)
      {
        forall y | 0 <= y < Rows(env.cfg)
          ensures Keeps(rows, y, c)
        {
          forall st': GenState
            ensures Lookup(rows(y, st').ground, c) == Lookup(st'.ground, c)
            ensures Lookup(rows(y, st').background, c) == Lookup(st'.background, c)
          {
            TunnelCellKeepsLowRows(env, x, y, st', c);
          }
        }
        SweepFrame(rows, 0, st, Rows(env.cfg), c);
      }
    }
    SweepFrame(cols, FirstColumn(env.cfg), s, ColumnCount(env.cfg), c);
  }
}
