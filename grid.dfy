/** The fixed 5x5 table the robot moves on. */
module Grid {
  /** Side length of the square table; there is no runtime configuration. */
  const GridSize: int := 5

  /** True exactly when (x, y) is a cell of the table: origin (0, 0), x growing east, y growing north. */
  predicate IsValidPosition(x: int, y: int) {
    x >= 0 && x < GridSize && y >= 0 && y < GridSize
  }
}
