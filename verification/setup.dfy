/** The game's tuning constants: sprite sizes, enemy speeds, the tile grid
    and the score awarded for reaching the water or being caught. */
module Setup {
  // Enemy (bug) sprite and motion
  const BugWidth: int := 101
  const BugHeight: int := 171
  const BugMinSpeed: int := 150
  const BugVariableSpeed: int := 300
  const BugStartPosition: int := -300

  // Player sprite
  const PlayerWidth: int := 101
  const PlayerHeight: int := 171

  // Tile grid: a tile is TileStepX by TileStepY pixels; sprites on it are
  // drawn -TileYOffset (30) pixels above the tile's top edge
  const TileStepX: int := 101
  const TileStepY: int := 83
  const TileYOffset: int := -30

  // Player placement on the grid (columns 0..PlayerMaxX, rows 0..PlayerMaxY;
  // row 0 is the water)
  const PlayerInitialX: int := 2
  const PlayerInitialY: int := 5
  const PlayerMaxX: int := 4
  const PlayerMaxY: int := 5

  // Score changes
  const ScoreGoalReached: int := 2
  const ScorePlayerCaught: int := -1
}
