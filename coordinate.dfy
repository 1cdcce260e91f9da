/** A cell address on the board: an unvalidated (column, row) pair of bytes. */
module Coordinates {

  /** An unsigned 8-bit integer, the width of both axes. */
  type u8 = x: int | 0 <= x < 0x100

  /** A column and a row; equality is structural on the pair. */
  datatype Coordinate = Coordinate(col: u8, row: u8)

  /** Builds a coordinate from any pair of bytes: no range is checked here. */
  function New(col: u8, row: u8): (c: Coordinate)
    ensures c.col == col
    ensures c.row == row
  {
    Coordinate(col, row)
  }

  /** Two coordinates are equal exactly when their columns and their rows are. */
  lemma EqualityIsStructural(a: Coordinate, b: Coordinate)
    ensures a == b <==> a.col == b.col && a.row == b.row
  {
  }
}
