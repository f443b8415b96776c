/** Cave predicates: shallow caves of the chunk pass, deep caves of the base layer,
    and the neighbourhood search of the tunnel pass. */
module Caves {
  import opened Arith
  import opened Noise
  import opened Config

  /** IsCave: no cave within minCaveDepth of the surface; below that, a cave wherever the
      cave noise exceeds the threshold, which rises by up to 0.1 over the first 30 rows. */
  function IsCave(cfg: WorldConfig, perlin: Perlin, x: int, y: int, surfaceHeight: int): (cave: bool)
    requires cfg.Valid()
    ensures y > surfaceHeight - cfg.minCaveDepth ==> !cave
    ensures y <= surfaceHeight - cfg.minCaveDepth ==>
      (cave <==> Sample(perlin, x, y, cfg.caveNoiseData) > cfg.caveThreshold + 0.1 * Min(1.0, y as real / 30.0))
  {
    if y > surfaceHeight - cfg.minCaveDepth then false
    else
      var caveNoise := Sample(perlin, x, y, cfg.caveNoiseData);
      var depthFactor := Min(1.0, y as real / 30.0);
      var threshold := cfg.caveThreshold + 0.1 * depthFactor;
      if caveNoise > threshold then
        // The cave size is computed and never used.
        var caveSize := FloorToInt(caveNoise * cfg.maxCaveSize as real);
        true
      else false
  }

  /** IsDeepCave: the cave noise sampled 5000 rows away, against a threshold that falls by
      0.1 every 50 rows of depth; once it falls below zero every cell is a cave. */
  function IsDeepCave(cfg: WorldConfig, perlin: Perlin, x: int, y: int): (cave: bool)
    requires cfg.Valid()
    ensures cave <==> Sample(perlin, x, y + 5000, cfg.caveNoiseData) > cfg.caveThreshold - 0.1 * ((if y < 0 then -y else y) as real / 50.0)
    ensures cfg.caveThreshold * 500.0 < (if y < 0 then -y else y) as real ==> cave
  {
    var caveNoise := Sample(perlin, x, y + 5000, cfg.caveNoiseData);
    var depthFactor := Abs(y as real) / 50.0;
    var threshold := cfg.caveThreshold - 0.1 * depthFactor;
    caveNoise > threshold
  }

  /** The cell at offset (dx, dy) from (x, y) is a cave, judged against the fixed surface height 100. */
  predicate CaveAtOffset(cfg: WorldConfig, perlin: Perlin, x: int, y: int, dx: int, dy: int)
    requires cfg.Valid()
  {
    IsCave(cfg, perlin, x + dx, y + dy, 100)
  }

  /** The offset (dx, dy) lies in the square of side 2 * radius + 1 and within the circle of that radius. */
  predicate InCircle(dx: int, dy: int, radius: int) {
    -radius <= dx <= radius && -radius <= dy <= radius && dx * dx + dy * dy <= radius * radius
  }

  /** Some cell within `radius` of (x, y) is a cave. */
  ghost predicate CaveNearby(cfg: WorldConfig, perlin: Perlin, x: int, y: int, radius: int)
    requires cfg.Valid()
  {
    exists dx, dy :: InCircle(dx, dy, radius) && CaveAtOffset(cfg, perlin, x, y, dx, dy)
  }

  /** HasCaveNearby: scans the square around (x, y) row by row and stops at the first
      cave inside the circle. */
  method HasCaveNearby(cfg: WorldConfig, perlin: Perlin, x: int, y: int, radius: int) returns (found: bool)
    requires cfg.Valid()
    ensures found <==> CaveNearby(cfg, perlin, x, y, radius)
  {
    var dx := -radius;
    while dx <= radius
      invariant dx <= radius + 1 || radius < 0
      invariant forall i, j :: -radius <= i < dx && InCircle(i, j, radius) ==> !CaveAtOffset(cfg, perlin, x, y, i, j)
    {
      var dy := -radius;
      while dy <= radius
        invariant dy <= radius + 1 || radius < 0
        invariant forall i, j :: -radius <= i < dx && InCircle(i, j, radius) ==> !CaveAtOffset(cfg, perlin, x, y, i, j)
        invariant forall j :: -radius <= j < dy && InCircle(dx, j, radius) ==> !CaveAtOffset(cfg, perlin, x, y, dx, j)
      {
        if dx * dx + dy * dy <= radius * radius {
          if IsCave(cfg, perlin, x + dx, y + dy, 100) {
            assert InCircle(dx, dy, radius) && CaveAtOffset(cfg, perlin, x, y, dx, dy);
            return true;
          }
        }
        dy := dy + 1;
      }
      dx := dx + 1;
    }
    return false;
  }
}
