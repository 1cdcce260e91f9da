/** A placed ship and the span of cells it covers. */
module Ships {
  import opened ShipTypes
  import opened Coordinates

  /** Landscape ships extend along the column axis, Portrait ships along the row axis. */
  datatype Orientation = Landscape | Portrait

  /** The number of cells a ship of kind `t` covers. */
  function SizeOf(t: ShipType): (n: u8)
    ensures 2 <= n <= 5
    ensures n == 5 <==> t == AircraftCarrier
    ensures n == 4 <==> t == Battleship
    ensures n == 3 <==> t == Destroyer || t == Submarine
    ensures n == 2 <==> t == PatrolBoat
  {
    match t
    case AircraftCarrier => 5
    case Battleship => 4
    case Destroyer | Submarine => 3
    case PatrolBoat => 2
  }

  /** A ship; equality is structural over all four fields. */
  datatype Ship = Ship(size: u8, shipType: ShipType, coord: Coordinate, orientation: Orientation)

  /** Builds a ship, deriving its size from its kind; the other fields are kept as given. */
  function New(shipType: ShipType, coord: Coordinate, orientation: Orientation): (s: Ship)
    ensures s.size == SizeOf(shipType)
    ensures s.shipType == shipType && s.coord == coord && s.orientation == orientation
  {
    Ship(SizeOf(shipType), shipType, coord, orientation)
  }

  /** Ships built from equal arguments are equal, and only those. */
  lemma NewIsInjective(t1: ShipType, c1: Coordinate, o1: Orientation, t2: ShipType, c2: Coordinate, o2: Orientation)
    ensures New(t1, c1, o1) == New(t2, c2, o2) <==> t1 == t2 && c1 == c2 && o1 == o2
  {
  }

  /** An inclusive span (start column, end column, start row, end row). */
  datatype Span = Span(startCol: u8, endCol: u8, startRow: u8, endRow: u8)

  /** The span's start does not pass its end on either axis. */
  predicate WellFormed(p: Span)
  {
    p.startCol <= p.endCol && p.startRow <= p.endRow
  }

  /** Whether the span covers the cell at (`col`, `row`). */
  predicate Covers(p: Span, col: int, row: int)
  {
    p.startCol <= col <= p.endCol && p.startRow <= row <= p.endRow
  }

  /**
   * The byte arithmetic of the span does not leave 0..255: the far end is
   * computed as `(origin + size) - 1`, so the intermediate sum must fit too.
   */
  predicate SpanInRange(s: Ship)
  {
    1 <= s.size &&
    match s.orientation
    case Landscape => s.coord.col + s.size <= 255
    case Portrait => s.coord.row + s.size <= 255
  }

  /** The cells the ship covers, starting at its origin and `size` long along its orientation. */
  function FullPosition(s: Ship): (p: Span)
    requires SpanInRange(s)
    ensures WellFormed(p)
    ensures p.startCol == s.coord.col && p.startRow == s.coord.row
    ensures s.orientation == Landscape ==> p.endCol - p.startCol + 1 == s.size && p.endRow == p.startRow
    ensures s.orientation == Portrait ==> p.endRow - p.startRow + 1 == s.size && p.endCol == p.startCol
  {
    var col := s.coord.col;
    var row := s.coord.row;
    match s.orientation
    case Landscape => Span(col, col + s.size - 1, row, row)
    case Portrait => Span(col, col, row, row + s.size - 1)
  }

  /** A ship built by `New` whose origin lies on a 1..10 board never overflows its span. */
  lemma OnBoardSpanInRange(s: Ship)
    requires s.size == SizeOf(s.shipType)
    requires 1 <= s.coord.col <= 10 && 1 <= s.coord.row <= 10
    ensures SpanInRange(s)
  {
  }
}
