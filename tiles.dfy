/** The tile assets the generator paints (the fields of BlockData). */
module Tiles {
  /** One constructor per TileBase field of BlockData, in declaration order. */
  datatype Tile =
    | DirtGrass | DirtTile | StoneGrass | StoneTile
    | DirtSand | StoneSand | DirstSnow | StoneSnow
    | StoneSilver | StoneSilverAlt | StoneIron | StoneIronAlt
    | StoneGold | StoneGoldAlt | StoneDiamond | StoneDiamondAlt
    | StoneCoal | StoneCoalAlt | RubyStone | RubyStoneAlt
    | SandTile | SandDark | SnowTile | IceTile | LavaTile | WaterTile
    | TrunkBottomTile | TrunkMidTile | LeavesTransparentTile
    | RockTile | Grass1Tile | Grass2Tile | Grass3Tile | Grass4Tile
    | Perlin2D | StoneDark | DirtDark

  /** A tilemap position (x, y); y grows upwards. */
  type Cell = (int, int)
}
