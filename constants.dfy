/** The tuning constants of Constants.java that the modelled code reads. */
module Constants {
  const TILE: int := 32
  const MAX_JUMPS: int := 2
  const DASH_TILES: int := 5
  /** DASH_DISTANCE = DASH_TILES * TILE, an int product widened to float. */
  const DASH_DISTANCE: real := (DASH_TILES * TILE) as real
  const DASH_SPEED: real := 900.0
}
