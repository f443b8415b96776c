# Terrain generator model

This project models `EnhancedWorldGenerator`, the procedural terrain generator of a 2D Unity game.
The generator paints two tilemaps, ground (foreground) and background, over a grid of integer
cells. `GenerateWorld` does the following in order:

1. It clears both maps.
2. It paints a 100-row base layer under row 0 across the map width.
3. It cuts the width into chunks. Each chunk gets a biome (Plains, Desert, Snow or Ocean) drawn
   from `System.Random`. For each column of the chunk, it first computes the surface height from
   layered Perlin noise. Then it paints rows `0` to `mapDepth - 1`. The painting follows the
   surface bands, shallow caves, ores, lava, ocean water, grass and rocks. Some Plains columns
   also get a tree.
4. It digs tunnels. Each tunnel starts at a deep cell where the tunnel noise is high, a draw
   passes and a cave lies within 10 cells. The tunnel is a chain of small round cavities.

## How the model is built

- **Inputs.**
  - `Mathf.PerlinNoise` is a parameter `perlin` of type `Noise.Perlin`: an arbitrary function
    into [0, 1].
  - Unity's `Random.value` and `Random.Range` are one stream of samples in [0, 1), read at a
    cursor (`Rand.RandomStream`).
  - `System.Random.NextDouble` is a second stream of the same kind.
  - Floats are reals.
  - C# integer division truncates toward zero (`Arith.Div`).
- **Output grid.** `Grid.WorldGrid` is a class with two `map<Cell, Tile>` fields. Writing
  `null` (`None`) removes the cell.
- **Data files.** `BlockData.cs` becomes the `Tiles.Tile` datatype. `NoiseDataSO.cs` becomes the
  `Noise.NoiseData` record. The inspector fields become `Config.WorldConfig`.
- **How each loop is specified.**
  - `Grid.GenState` holds the two maps and the random cursor.
  - Every loop of the source is a `method` with a `while` or `for` loop, and its invariant ties
    the state to a specification function.
  - The loops that paint the grid cell by cell or column by column are specified by
    `Grid.Sweep` (positions swept in order) or `Grid.PaintColumn` (a column painted bottom to top).
  - The other loops have a function of their own: `Noise.OctaveSum` for `SumNoise`,
    `Ores.OreScan` for `GetOreTile`, `Caves.CaveNearby` for `HasCaveNearby`, `Chunk.SurfaceHeight`
    for `ComputeSurfaceHeights`, and `Trees.TrunkMids`, `Trees.LeafColumn` and `Trees.LeafRows`
    for the tree loops.
  - Each method's `ensures` states that its result, or the final grid and cursor, equal that
    function of the inputs or of the initial state.
  - Lemmas about these functions then state what each pass guarantees: which tiles each band
    receives, which cells a pass leaves alone, and how many samples it consumes.
- **Quirks kept as written.**
  - The base layer looks ores up at depth `y + mapDepth`.
  - `HasCaveNearby` judges caves against a fixed surface height of 100.
  - `IsCave` computes `caveSize` and never uses it; the model computes it too, and it affects no result.
  - A tree leaves the cell between its trunk and its crown unpainted.
  - Random draws short-circuit exactly where the C# `&&` does. For example, the lava draw happens
    only for rows over `lavaStartDepth`.

### Behaviour worth noting


- A `chunkSize` that does not divide `mapWidth` is not rejected. The columns beyond the last
  whole chunk simply get no chunk terrain.
- A `chunkSize` of 0 throws `DivideByZeroException` after the base layer is painted. This is the
  `DivideByZero` outcome of `World.WorldSpec`.
- Tunnels are not clamped to the map: cavities may open cells outside the map's columns.
- A cave cell above the base layer gets its background and no new ground: it keeps whatever ground
  the cell had, and only a successful lava draw fills it.
- For an odd `mapWidth`, the chunks reach one column further right than the base layer and the
  tunnel pass (`World.ChunksAgainstMapColumns`).
- A Plains tree planted from column x, at row h + 1 over its surface h, puts its leaves into
  rows h + t to h + t + 2 of columns x - 1, x and x + 1, where t in [3, 5] is the drawn trunk
  height. Those rows are above the surface of column x, but not necessarily above a neighbour's:
  a Snow column next to a Plains one sits 3 rows higher for the same noise. So a tree can
  overwrite the surface or subsurface tile of column x - 1, which has already been painted.
  Column x + 1 is painted next, and its row loop overwrites the leaves only where it writes a
  ground tile: air cells and cave cells without lava keep them. So `ChunkBands.ChunkColumnBands`
  describes a column's ground right after its own row loop only. The background is not affected
  (`ChunkBands.ChunkColumnsBackground`).

## Model

| member | source | states |
|---|---|---|
| Noise.OctaveSumBounds | Assets/_Scripts/EnhancedWorldGenerator.cs:640-646 | every octave adds between 0 and its amplitude, so the weighted sum lies between 0 and the sum of amplitudes, and that sum is at least the first amplitude |
| Noise.Sample | Assets/_Scripts/EnhancedWorldGenerator.cs:633-649 | the normalised octave sum stays inside the range [0, 1] of the noise primitive |
| Noise.SampleIsQuotient | Assets/_Scripts/EnhancedWorldGenerator.cs:647-648 | with the sums the loop accumulates, the amplitude sum is positive and their quotient is the sample |
| Noise.SumNoise | Assets/_Scripts/EnhancedWorldGenerator.cs:633-649 | the octave loop returns the weighted average of the samples, which lies in [0, 1] |
| Noise.RangeMap | Assets/_Scripts/EnhancedWorldGenerator.cs:652-655 | sends inMin to outMin and inMax to outMax, and maps [inMin, inMax] into [outMin, outMax] |
| Rand.RangeOf | Assets/_Scripts/EnhancedWorldGenerator.cs:385-386 | Random.Range(lo, hi) on ints yields a value in [lo, hi) |
| Rand.RangeOfIsScaledFloor | Assets/_Scripts/EnhancedWorldGenerator.cs:435 | Random.Range(lo, hi) is lo plus the floor of (hi - lo) times the sample |
| Rand.RandomStream.Value | Assets/_Scripts/EnhancedWorldGenerator.cs:259 | Random.value returns the next sample, in [0, 1), and advances the stream by one |
| Rand.RandomStream.Range | Assets/_Scripts/EnhancedWorldGenerator.cs:435 | Random.Range consumes one sample and returns its image in [lo, hi) |
| Grid.WriteEffect | Assets/_Scripts/EnhancedWorldGenerator.cs:444-445 | a write sets the written cell (a null tile erases it) and leaves every other cell unchanged |
| Grid.WorldGrid.SetGroundTile | Assets/_Scripts/EnhancedWorldGenerator.cs:444 | SetGroundTile writes one ground cell, null erasing it, and leaves the background unchanged |
| Grid.WorldGrid.SetBackgroundTile | Assets/_Scripts/EnhancedWorldGenerator.cs:445 | SetBackgroundTile writes one background cell and leaves the ground unchanged |
| Grid.WorldGrid.ClearGroundTilemap | Assets/_Scripts/EnhancedWorldGenerator.cs:129 | the ground map becomes empty and the background is unchanged |
| Grid.WorldGrid.ClearPerlind2DTilemap | Assets/_Scripts/EnhancedWorldGenerator.cs:130 | the background map becomes empty and the ground is unchanged |
| Biome.DetermineBiomeType | Assets/_Scripts/EnhancedWorldGenerator.cs:207-213 | exactly one biome per value: Plains below 0.5, Desert in [0.5, 0.7), Snow in [0.7, 0.9), Ocean from 0.9 on, each in both directions |
| Biome.DetermineBiomeTypeMonotone | Assets/_Scripts/EnhancedWorldGenerator.cs:207-213 | a larger value never yields a biome earlier in threshold order |
| Biome.AdjustSurfaceHeightForBiome | Assets/_Scripts/EnhancedWorldGenerator.cs:453-467 | Plains keeps the height, Desert lowers it by 2, Snow raises it by 3, and Ocean replaces it with oceanLevel |
| Biome.GetSurfaceTileForBiome | Assets/_Scripts/EnhancedWorldGenerator.cs:471-486 | Plains gets dirt with grass, Desert dirt with sand, Snow dirt with snow and Ocean sand |
| Biome.GetSubsurfaceTileForBiome | Assets/_Scripts/EnhancedWorldGenerator.cs:489-504 | sand under Desert and Ocean, dirt under Plains and Snow |
| Biome.GetBackgroundTileForBiome | Assets/_Scripts/EnhancedWorldGenerator.cs:507-527 | none above the surface; dark stone more than 3 rows under it; in the top four rows dark sand for Desert and dark dirt otherwise; each case in both directions |
| Ores.OreScanSound | Assets/_Scripts/EnhancedWorldGenerator.cs:530-556 | any ore the scan returns is the primary or alternate tile of a definition whose band covers y; the random position never moves back |
| Ores.OreScanUncovered | Assets/_Scripts/EnhancedWorldGenerator.cs:533-555 | when no definition covers y, the scan returns null and draws nothing |
| Ores.OreScanFirstSuccess | Assets/_Scripts/EnhancedWorldGenerator.cs:533-551 | when every earlier covering definition has drawn in turn and failed, the first covering definition whose draw succeeds decides the tile, primary or alternate by the next sample; later definitions are not consulted, and the scan ends two samples past that definition's draw |
| Ores.OreScanAllFail | Assets/_Scripts/EnhancedWorldGenerator.cs:533-553 | when every covering definition's draw fails, the scan returns null after exactly one sample per covering definition |
| Ores.DefaultOreTypesBeyondReach | Assets/_Scripts/EnhancedWorldGenerator.cs:56-122 | the default ore table is well formed, and no default ore covers a depth over 100 |
| Ores.OreProbability | Assets/_Scripts/EnhancedWorldGenerator.cs:539-544 | the draw threshold is the depth factor over rarity, times twice the ore noise at (x, y) |
| Ores.GetOreTile | Assets/_Scripts/EnhancedWorldGenerator.cs:530-556 | the foreach loop with its early return computes the scan's tile and random position |
| Config.Awake | Assets/_Scripts/EnhancedWorldGenerator.cs:55-122 | an empty ore table is replaced by the six default ores and a configured one is kept; validity is preserved |
| Caves.IsCave | Assets/_Scripts/EnhancedWorldGenerator.cs:559-585 | never a cave within minCaveDepth of the surface; below that, a cave exactly when the noise beats caveThreshold + 0.1 * min(1, y / 30) |
| Caves.IsDeepCave | Assets/_Scripts/EnhancedWorldGenerator.cs:588-598 | a deep cave exactly when the noise 5000 rows away beats caveThreshold - 0.1 * abs(y) / 50, so every cell deeper than 500 * caveThreshold is one |
| Caves.HasCaveNearby | Assets/_Scripts/EnhancedWorldGenerator.cs:396-412 | the scan with its early return finds a cave exactly when some offset inside the circle holds a cave judged at surface height 100 |
| Trees.TrunkMidsShape | Assets/_Scripts/EnhancedWorldGenerator.cs:610-613 | the trunk loop puts a middle trunk tile on rows y + 1 to y + n - 1 of column x and nothing elsewhere |
| Trees.LeafColumnShape | Assets/_Scripts/EnhancedWorldGenerator.cs:621-628 | the inner leaves loop paints leaves on its column's rows, except the cell straight above the trunk |
| Trees.LeafRowsShape | Assets/_Scripts/EnhancedWorldGenerator.cs:619-629 | the leaves loops paint the crown block except the cell straight above the trunk |
| Trees.TreeShape | Assets/_Scripts/EnhancedWorldGenerator.cs:601-630 | a planted tree writes exactly the reference shape: trunk bottom, middle trunk, and the 3 x 3 crown less its centre bottom cell; every other cell is unchanged |
| Trees.TreeGap | Assets/_Scripts/EnhancedWorldGenerator.cs:610-627 | for trunk heights 3 to 5 the cell under the crown's centre gets no tile, and the one below it is trunk |
| Trees.GrowTreeFrame | Assets/_Scripts/EnhancedWorldGenerator.cs:601-630 | a tree changes nothing below its root or more than one column away, and never the background |
| Trees.PlaceLeaves | Assets/_Scripts/EnhancedWorldGenerator.cs:619-629 | the leaves loops change the ground as the crown function says and leave the background unchanged |
| Trees.GenerateTree | Assets/_Scripts/EnhancedWorldGenerator.cs:601-630 | GenerateTree draws the trunk height in [3, 6) and plants exactly that tree |
| Chunk.SurfaceHeight | Assets/_Scripts/EnhancedWorldGenerator.cs:225-236 | an Ocean column sits at oceanLevel whatever the noise; any other column lies between the floors of the noise range's ends plus the biome bias |
| Chunk.ComputeSurfaceHeights | Assets/_Scripts/EnhancedWorldGenerator.cs:219-239 | the first pass computes a height for exactly the columns of [startX, endX), each the column's surface height, before any tile is written |
| Chunk.GrassTile | Assets/_Scripts/EnhancedWorldGenerator.cs:321-328 | grass types 1 to 4 pick the four grass tiles in order, and any other value picks grass 4 |
| Chunk.UndergroundTile | Assets/_Scripts/EnhancedWorldGenerator.cs:288-305 | a deep cell always gets a tile: stone, lava or an ore whose band covers its row; the random position never moves back |
| Chunk.AirTile | Assets/_Scripts/EnhancedWorldGenerator.cs:308-340 | water exactly over an ocean up to oceanDepth above the surface; any other tile only on the row right over plains, which alone draws, two samples; there a first sample under 0.15 gives grass, and a rock comes exactly when that sample fails and the second is under 0.05 |
| Chunk.Foreground | Assets/_Scripts/EnhancedWorldGenerator.cs:271-341 | the foreground choice of a cell that is not a cave never moves the random position back; the tile of each band is proved in ChunkBands.CellChoiceBands |
| Chunk.CellChoice | Assets/_Scripts/EnhancedWorldGenerator.cs:250-347 | a chunk cell's choice never moves the random position back; its background and ground are proved in ChunkBands.CellChoiceBands |
| Chunk.UndergroundForeground | Assets/_Scripts/EnhancedWorldGenerator.cs:288-305 | the ore, lava or stone branch returns the tile and random position of the underground choice |
| Chunk.AirForeground | Assets/_Scripts/EnhancedWorldGenerator.cs:308-340 | the water, grass and rock branch returns the tile and random position of the air choice |
| Chunk.ForegroundTile | Assets/_Scripts/EnhancedWorldGenerator.cs:271-341 | the foreground branches return the tile and random position of the foreground choice |
| Chunk.GenerateChunkCell | Assets/_Scripts/EnhancedWorldGenerator.cs:250-347 | one cell of the second pass paints the cell's choice and moves the random position as the choice says |
| Chunk.GenerateRows | Assets/_Scripts/EnhancedWorldGenerator.cs:247-348 | the row loop paints rows 0 to mapDepth - 1 of column x, bottom first |
| Chunk.DrawTree | Assets/_Scripts/EnhancedWorldGenerator.cs:351-354 | a Plains column draws once and plants a tree on its surface when the draw is under 0.05; other biomes draw nothing |
| Chunk.GenerateColumn | Assets/_Scripts/EnhancedWorldGenerator.cs:244-354 | one column of the second pass is its rows followed by its tree draw |
| Chunk.GenerateColumns | Assets/_Scripts/EnhancedWorldGenerator.cs:242-355 | the second pass paints the columns of [startX, endX) left to right, each on the height the first pass stored |
| Chunk.GenerateChunk | Assets/_Scripts/EnhancedWorldGenerator.cs:216-356 | GenerateChunk paints the chunk's columns on the heights of the first pass |
| ChunkBands.CellChoiceBands | Assets/_Scripts/EnhancedWorldGenerator.cs:250-347 | a chunk cell gets its biome background, and a ground tile that follows the bands (surface tile, subsurface tile, ore, stone or lava, water, decoration or unchanged) whatever ground it had |
| ChunkBands.ChunkColumnBands | Assets/_Scripts/EnhancedWorldGenerator.cs:247-348 | after the row loop, every painted row of the column holds the biome background and a ground tile that follows the bands |
| ChunkBands.ChunkColumnFrame | Assets/_Scripts/EnhancedWorldGenerator.cs:247-348 | the row loop changes no cell outside its column's rows, and the random position only moves forward |
| ChunkBands.TreeDrawAboveSurface | Assets/_Scripts/EnhancedWorldGenerator.cs:351-354 | the tree draw never touches the ground at or under the surface row, nor more than one column away, nor any background |
| ChunkBands.ColumnWithTreeBackground | Assets/_Scripts/EnhancedWorldGenerator.cs:244-354 | after a column and its tree, each row of the column in [0, mapDepth) holds the biome background for that row and surface height; every other cell keeps its background |
| ChunkBands.ChunkColumnsBackground | Assets/_Scripts/EnhancedWorldGenerator.cs:242-355 | after a chunk's column loop, each cell of its columns in rows [0, mapDepth) holds the biome background for its row and its own column's surface height; every other cell keeps its background |
| BaseLayer.BaseChoice | Assets/_Scripts/EnhancedWorldGenerator.cs:164-201 | a base-layer cell's choice never moves the random position back; its dark-stone background and ground rule are proved in BaseLayerBands.BaseChoiceBands |
| BaseLayer.BaseForeground | Assets/_Scripts/EnhancedWorldGenerator.cs:186-199 | the ground choice of a base-layer cell that is not a deep cave never moves the random position back; the ore, lava or stone rule is proved in BaseLayerBands.BaseChoiceBands |
| BaseLayer.GenerateBaseCell | Assets/_Scripts/EnhancedWorldGenerator.cs:164-201 | one iteration paints the cell's choice and moves the random position as the choice says |
| BaseLayer.BaseForegroundTile | Assets/_Scripts/EnhancedWorldGenerator.cs:186-199 | the ore, lava or stone decision returns the tile and random position of the ground choice |
| BaseLayer.GenerateBaseColumn | Assets/_Scripts/EnhancedWorldGenerator.cs:161-202 | the row loop paints rows -100 to -1 of column x, bottom first |
| BaseLayer.GenerateBaseColumns | Assets/_Scripts/EnhancedWorldGenerator.cs:159-203 | the column loop paints the columns of [lo, hi) left to right |
| BaseLayer.GenerateBaseLayer | Assets/_Scripts/EnhancedWorldGenerator.cs:155-204 | GenerateBaseLayer paints the columns [-mapWidth / 2, mapWidth / 2) |
| BaseLayerBands.BaseChoiceBands | Assets/_Scripts/EnhancedWorldGenerator.cs:164-201 | a base-layer cell gets dark stone behind, and a ground that follows the base rule: a deep cave keeps its ground or turns to lava in the lava rows; any other cell gets an ore covering y + mapDepth, stone, or lava in the lava rows |
| BaseLayerBands.BaseColumnFrame | Assets/_Scripts/EnhancedWorldGenerator.cs:161-202 | the row loop changes no cell outside its column's rows, and the random position only moves forward |
| BaseLayerBands.BaseColumnBands | Assets/_Scripts/EnhancedWorldGenerator.cs:161-202 | every painted row of a base-layer column holds dark stone behind and a ground that follows the base rule |
| BaseLayerBands.BaseColumnKeeps | Assets/_Scripts/EnhancedWorldGenerator.cs:161-202 | a base-layer column keeps every cell outside its own rows |
| BaseLayerBands.BaseLayerBandsHold | Assets/_Scripts/EnhancedWorldGenerator.cs:155-204 | every cell of the base layer's rectangle ends with dark stone behind and a ground that follows the base rule |
| BaseLayerBands.BaseLayerFrame | Assets/_Scripts/EnhancedWorldGenerator.cs:155-204 | every cell outside the base layer's rectangle keeps its tiles |
| BaseLayerBands.BaseLayerMissesDefaultOres | Assets/_Scripts/EnhancedWorldGenerator.cs:186 | looking ores up at y + mapDepth, a map deeper than 200 rows gets no default ore in its base layer |
| Tunnels.CavityRowKeeps | Assets/_Scripts/EnhancedWorldGenerator.cs:439-446 | one row step of a cavity touches only its own cell |
| Tunnels.CavityRowEffect | Assets/_Scripts/EnhancedWorldGenerator.cs:439-447 | the inner cavity loop opens exactly the cells of its column inside the circle and keeps the rest |
| Tunnels.CavityEffect | Assets/_Scripts/EnhancedWorldGenerator.cs:437-448 | a cavity opens exactly the cells within its radius (no ground, dark stone behind), keeps every other cell, and draws nothing |
| Tunnels.CavityCursor | Assets/_Scripts/EnhancedWorldGenerator.cs:437-448 | a cavity consumes no random sample |
| Tunnels.CarveCavityColumn | Assets/_Scripts/EnhancedWorldGenerator.cs:439-447 | the inner cavity loop carves the row offsets -r to r of one column offset |
| Tunnels.CarveCavity | Assets/_Scripts/EnhancedWorldGenerator.cs:437-448 | the cavity loops carve the cavity of radius r |
| Tunnels.Direction | Assets/_Scripts/EnhancedWorldGenerator.cs:417-426 | direction 0 steps (1, 0), 1 steps (0, 1), 2 steps (1, 1), 3 steps (1, -1), and any other value leaves the step at (0, 0) |
| Tunnels.TunnelPassCarves | Assets/_Scripts/EnhancedWorldGenerator.cs:431-448 | every tunnel step keeps each cell or opens it |
| Tunnels.TunnelPassOpens | Assets/_Scripts/EnhancedWorldGenerator.cs:431-448 | step i opens path point i and its four neighbours |
| Tunnels.TunnelCarvesFrom | Assets/_Scripts/EnhancedWorldGenerator.cs:429-449 | from any step onwards, a tunnel keeps each cell or opens it |
| Tunnels.TunnelOnlyCarves | Assets/_Scripts/EnhancedWorldGenerator.cs:415-450 | CreateTunnel only opens cells: every cell keeps its tiles or ends with no ground and dark stone behind |
| Tunnels.TunnelPathOpen | Assets/_Scripts/EnhancedWorldGenerator.cs:429-449 | every point of the path and its four neighbours end up open, whatever later steps do |
| Tunnels.TunnelFrame | Assets/_Scripts/EnhancedWorldGenerator.cs:415-450 | a cell farther than radius 2 from every path point keeps its tiles |
| Tunnels.CavityIdempotent | Assets/_Scripts/EnhancedWorldGenerator.cs:444-445 | carving the same cavity again changes no tile |
| Tunnels.TunnelDraws | Assets/_Scripts/EnhancedWorldGenerator.cs:429-435 | a tunnel consumes one sample per step |
| Tunnels.DigTunnelPoint | Assets/_Scripts/EnhancedWorldGenerator.cs:431-448 | one loop iteration draws the cavity radius and carves around point i |
| Tunnels.DigTunnel | Assets/_Scripts/EnhancedWorldGenerator.cs:429-449 | the tunnel loop performs steps 0 to length - 1 in order |
| Tunnels.CreateTunnel | Assets/_Scripts/EnhancedWorldGenerator.cs:415-450 | CreateTunnel digs the tunnel of its start, length and direction |
| Tunnels.PathPointRow | Assets/_Scripts/EnhancedWorldGenerator.cs:431-432 | point i of the path lies within i rows of the start |
| Tunnels.TunnelKeepsLowRows | Assets/_Scripts/EnhancedWorldGenerator.cs:415-450 | a tunnel of at most 14 steps leaves every row more than 15 under its start untouched |
| Tunnels.NewTunnelEffect | Assets/_Scripts/EnhancedWorldGenerator.cs:385-388 | the tunnel started at (x, y) opens that cell and its four neighbours, only opens cells, never reaches 15 rows under y, and consumes two samples plus one per step |
| Tunnels.TunnelCellCases | Assets/_Scripts/EnhancedWorldGenerator.cs:366-390 | an iteration starts the drawn tunnel when the noise, draw and cave tests all pass; otherwise it changes nothing but possibly the one connectivity draw |
| Tunnels.TunnelCellEffect | Assets/_Scripts/EnhancedWorldGenerator.cs:366-390 | an iteration changes tiles only when it starts a tunnel, and such a tunnel opens the iteration's cell and its four neighbours |
| Tunnels.TunnelCellCarves | Assets/_Scripts/EnhancedWorldGenerator.cs:366-390 | an iteration keeps each cell or opens it |
| Tunnels.TunnelCellKeepsLowRows | Assets/_Scripts/EnhancedWorldGenerator.cs:366-390 | an iteration never touches a row more than 15 under 2 * minCaveDepth |
| Tunnels.TunnelCellDraws | Assets/_Scripts/EnhancedWorldGenerator.cs:366-390 | an iteration draws nothing when skipped or when the noise is low, one sample when the draw or the cave test fails, and 3 plus the tunnel length when it starts a tunnel |
| Tunnels.StartTunnel | Assets/_Scripts/EnhancedWorldGenerator.cs:385-388 | the length and direction draws and the CreateTunnel call dig the tunnel of those two samples |
| Tunnels.TunnelIfNearby | Assets/_Scripts/EnhancedWorldGenerator.cs:380-389 | a tunnel is started exactly when a cave lies within 10 cells |
| Tunnels.DrawTunnel | Assets/_Scripts/EnhancedWorldGenerator.cs:377-390 | one connectivity draw, then the cave test only when the draw is under caveConnectivity |
| Tunnels.TunnelAt | Assets/_Scripts/EnhancedWorldGenerator.cs:365-390 | one iteration: rows under 2 * minCaveDepth are skipped, then the noise test against the row's threshold, then the draw |
| Tunnels.GenerateTunnelColumn | Assets/_Scripts/EnhancedWorldGenerator.cs:363-391 | the row loop visits rows 0 to mapDepth - 1 of column x in order |
| Tunnels.GenerateTunnelColumns | Assets/_Scripts/EnhancedWorldGenerator.cs:361-392 | the column loop visits the columns of [lo, hi) in order |
| Tunnels.GenerateTunnels | Assets/_Scripts/EnhancedWorldGenerator.cs:359-393 | GenerateTunnels visits every cell of the map's columns and rows in order |
| Tunnels.TunnelsOnlyCarve | Assets/_Scripts/EnhancedWorldGenerator.cs:359-393 | the tunnel pass only opens cells: every cell keeps its tiles or ends with no ground and dark stone behind |
| Tunnels.TunnelsKeepLowRows | Assets/_Scripts/EnhancedWorldGenerator.cs:359-393 | the tunnel pass never touches a row more than 15 under 2 * minCaveDepth |
| World.ChunkOf | Assets/_Scripts/EnhancedWorldGenerator.cs:140-141 | every column lies in the chunk [chunkStartX, chunkEndX) of index (x + mapWidth / 2) / chunkSize |
| World.ChunkOfUnique | Assets/_Scripts/EnhancedWorldGenerator.cs:138-141 | chunks are disjoint: no other chunk contains that column |
| World.ChunksCover | Assets/_Scripts/EnhancedWorldGenerator.cs:136-141 | a column lies in one of the numChunks chunks exactly when it lies between the first chunk's start and the end of the last one |
| World.DefaultWorldChunks | Assets/_Scripts/EnhancedWorldGenerator.cs:13-122 | the initial field values, after Awake, form a valid configuration with the default ores, whose ten chunks start at the map's first column and end exactly at its last |
| World.ChunksAgainstMapColumns | Assets/_Scripts/EnhancedWorldGenerator.cs:136-141 | when chunkSize divides mapWidth, the chunks start at the map's first column and end at its last column plus mapWidth % 2 |
| World.GenerateChunks | Assets/_Scripts/EnhancedWorldGenerator.cs:136-148 | the chunk loop paints chunks 0 to numChunks - 1 in order, each with the biome of the next System.Random sample, and advances that stream by one per chunk |
| World.GenerateWorld | Assets/_Scripts/EnhancedWorldGenerator.cs:127-152 | GenerateWorld paints the base layer, then the chunks, then the tunnels, on maps cleared first; a chunkSize of 0 ends after the base layer with DivideByZero |
| World.WorldKeepsChunksBelowTunnels | Assets/_Scripts/EnhancedWorldGenerator.cs:127-152 | in the finished world, every row more than 15 under 2 * minCaveDepth holds what the base layer and the chunks left there |
| World.WorldTunnelsOnlyCarve | Assets/_Scripts/EnhancedWorldGenerator.cs:150-151 | in the finished world, every cell holds what the chunks left there or has been opened by a tunnel |
| World.ChunksBackground | Assets/_Scripts/EnhancedWorldGenerator.cs:136-145 | after the chunk loop, a cell of a column in one of the chunks, in rows [0, mapDepth), holds the background of the biome drawn for that column's chunk, at that column's surface height |
| World.WorldBackground | Assets/_Scripts/EnhancedWorldGenerator.cs:127-152 | in the finished world, such a cell holds that chunk background, or a tunnel has opened it (no ground, dark stone behind) |

## Left out

- Floating point: every `float` is a real. Rounding, the `(float)` cast of `NextDouble` and NaN are not modelled.
- `Mathf.PerlinNoise` is any function into [0, 1]. Its actual values, smoothness and range are not modelled.
- Unity's `Random.Range` algorithm is not modelled. `Random.Range(lo, hi)` is taken as `lo + floor((hi - lo) * u)` of one sample `u` in [0, 1).
- Unity's `Random.value` may return 1.0 exactly; the model's samples lie in [0, 1). The only effect is on a comparison `Random.value < p` with p > 1, which the model lets pass for every sample, while the source fails it for the sample 1.0.
- The construction and seeding of `System.Random` in `Awake` are left out; its samples are a parameter. Only the ore-table half of `Awake` is modelled.
- The probability and distribution claims behind each `Random.value < p` are left out. For example, that ores are more common near their peak depth. Draws are given inputs, and only the decisions taken on them are modelled.
- The `WorldRenderer` and its Unity tilemaps are reduced to two maps from cells to tiles. `OnDrawGizmos` and editor visualisation are left out.
- `Player_Movement.cs`, `WallCheck.cs` and `LedgeDetection.cs` are engine physics and input handling. They are not part of this model.
- Valid configuration: every member that samples noise requires `WorldConfig.Valid()`: at least one octave and a non-negative persistence for each noise channel that is sampled (height map, cave, ore and tunnel; `stoneNoiseData` is declared but never sampled and carries no requirement), and `minDepth < maxDepth` and a positive rarity for each ore. With no octave, or with an ore whose `minDepth == maxDepth` or whose rarity is 0, the source divides by zero and gets an infinity or NaN, which reals cannot represent. A negative persistence does not always divide by zero, but the octave weights can then be negative, and the sample is no longer bounded by [0, 1]. So configurations the source would still run without a fault are left out: an ore with `minDepth > maxDepth`, which never covers any row and so is never evaluated, an ore with a negative rarity, and a negative persistence whose amplitude sum happens to stay non-zero.
- C# `int` is 32 bits wide and wraps around on overflow. The model uses unbounded integers, so the sums `y + 5000` in `IsDeepCave`, `y + 1000` for the tunnel noise, `y + mapDepth` in the base layer, `chunkIndex * chunkSize` in `GenerateWorld` and the cell offsets of trees and tunnels are exact. They differ from the source only for coordinates or sizes near 2^31. The cast of a float beyond the `int` range to `int` is likewise not modelled.
- Methods are split into helpers where the source has one large method body. Examples are `Chunk.GenerateRows`, `Tunnels.DigTunnel` and `World.GenerateChunks`. Each helper is one loop or branch of the source, proved against the same specification function.
- ChunkBands.ChunkColumnBands: the ground bands are stated for a column right after its own row loop and are not lifted to the finished chunk or world. A neighbouring column's tree may overwrite any of the column's ground tiles in the rows of its crown, and which columns grow a tree, and how tall, depends on the draws. Only the background is lifted (`World.ChunksBackground`, `World.WorldBackground`).
- Tunnels.TunnelFrame: stated with the largest cavity radius, 2, rather than the radius drawn at each step, so it leaves open which cells between radius 1 and 2 a given tunnel actually opens.
- Tunnels.TunnelKeepsLowRows: bounds the length by 14, the largest value GenerateTunnels draws, not every length CreateTunnel accepts.
- World.WorldKeepsChunksBelowTunnels: states what the world keeps below the tunnels only. Which cells the chunks and trees leave to the base layer is not stated at world level. The chunk and base-layer passes have their own frame lemmas for that.
