/**
 * The placement and start rules of the game, as functions on the per-player
 * fleets. The `Game` class runs these rules step by step; the lemmas here say
 * what the rules accept and reject.
 */
module Placement {
  import opened ShipTypes
  import opened Coordinates
  import opened Ships

  /** Why a placement or a start was refused. */
  datatype Error =
    | InvalidColumn
    | InvalidRow
    | Duplicate(shipType: ShipType)
    | Overlap
    | PlayerNotFound
    | Incomplete(player: string)

  /** The `Result<(), String>` of the game's operations. */
  datatype Outcome = Ok | Err(error: Error)

  /** Every player's placed ships, keyed by player name. */
  type Fleets = map<string, seq<Ship>>

  /**
   * The text each error is reported with. The duplicate error shows the kind's
   * display name after a fixed 20-character prefix; the start error begins
   * with the player's name.
   */
  function Message(e: Error): (m: string)
    ensures e.Duplicate? ==> (|m| > 20 + |DisplayName(e.shipType)| &&
                              m[20..20 + |DisplayName(e.shipType)|] == DisplayName(e.shipType))
    ensures e.Incomplete? ==> e.player <= m && |m| > |e.player|
  {
    match e
    case InvalidColumn => "invalid column"
    case InvalidRow => "invalid row"
    case Duplicate(t) => "you already have an " + DisplayName(t) + " on board"
    case Overlap => "could not be possible posicioning the ship on this coords. This ship will overlap another ship"
    case PlayerNotFound => "player not found"
    case Incomplete(p) => p + " need positioning all ships before start"
  }

  /** The values of each board axis, `(1..=10)`. */
  const GridAxis: seq<u8> := [1, 2, 3, 4, 5, 6, 7, 8, 9, 10]

  /** Whether `v` lies on a board axis. */
  predicate OnAxis(v: u8)
  {
    1 <= v <= 10
  }

  /** Membership in the axis vector is the 1..10 range. */
  lemma AxisMembership(v: u8)
    ensures v in GridAxis <==> OnAxis(v)
  {
  }

  /** A ship as the game stores it: built by `Ships.New` with its origin on the board. */
  predicate Placed(s: Ship)
  {
    s.size == SizeOf(s.shipType) && OnAxis(s.coord.col) && OnAxis(s.coord.row)
  }

  /** Whether every ship of the fleet is placed. */
  predicate AllPlaced(fleet: seq<Ship>)
  {
    forall k :: 0 <= k < |fleet| ==> Placed(fleet[k])
  }

  /** Whether every fleet of every player is placed. */
  predicate FleetsPlaced(fleets: Fleets)
  {
    forall p :: p in fleets ==> AllPlaced(fleets[p])
  }

  /**
   * The overlap test: the new span's start or end column lies in the existing
   * column range, and its start or end row lies in the existing row range.
   */
  predicate EndpointsInside(n: Span, e: Span)
    ensures WellFormed(n) && EndpointsInside(n, e) ==> RangesIntersect(n, e)
  {
    (e.startCol <= n.startCol <= e.endCol || e.startCol <= n.endCol <= e.endCol) &&
    (e.startRow <= n.startRow <= e.endRow || e.startRow <= n.endRow <= e.endRow)
  }

  /** The check of a new ship `n` against one existing ship `e`: same kind first, then overlap. */
  function Check(n: Ship, e: Ship): (r: Outcome)
    requires SpanInRange(n) && SpanInRange(e)
    ensures r == Ok || r == Err(Overlap) || r == Err(Duplicate(n.shipType))
    ensures r == Err(Duplicate(n.shipType)) <==> n.shipType == e.shipType
    ensures r == Err(Overlap) ==> RangesIntersect(FullPosition(n), FullPosition(e))
  {
    if n.shipType == e.shipType then Err(Duplicate(n.shipType))
    else if EndpointsInside(FullPosition(n), FullPosition(e)) then Err(Overlap)
    else Ok
  }

  /** The scan of a fleet for the new ship: the first refusal, in list order, or `Ok`. */
  function Scan(fleet: seq<Ship>, n: Ship): (r: Outcome)
    requires SpanInRange(n) && AllPlaced(fleet)
    ensures r == Ok || r == Err(Overlap) || r == Err(Duplicate(n.shipType))
  {
    if fleet == [] then Ok
    else
      var r0 := Check(n, fleet[0]);
      if r0.Err? then r0 else Scan(fleet[1..], n)
  }

  /**
   * A placement request of `player`: the origin's column, then its row, must be
   * on the board; an unknown player is accepted with nothing stored; otherwise
   * the new ship is scanned against the player's fleet and appended if nothing
   * refuses it. Returns the outcome and the new fleets.
   */
  function Place(fleets: Fleets, player: string, t: ShipType, c: Coordinate, o: Orientation): (res: (Outcome, Fleets))
    requires FleetsPlaced(fleets)
    ensures res.0 != Err(PlayerNotFound)
    ensures res.0 != Ok ==> res.1 == fleets
    ensures res.1.Keys == fleets.Keys
  {
    if !OnAxis(c.col) then (Err(InvalidColumn), fleets)
    else if !OnAxis(c.row) then (Err(InvalidRow), fleets)
    else if player !in fleets then (Ok, fleets)
    else
      var s := Ships.New(t, c, o);
      var r := Scan(fleets[player], s);
      if r.Err? then (r, fleets) else (Ok, fleets[player := fleets[player] + [s]])
  }

  /** The start gate: player 1's fleet size is checked before player 2's. */
  function StartOutcome(fleets: Fleets, player1: string, player2: string): (r: Outcome)
    requires player1 in fleets && player2 in fleets
    ensures r == Ok <==> |fleets[player1]| >= 5 && |fleets[player2]| >= 5
    ensures r == Err(Incomplete(player1)) <==> |fleets[player1]| < 5
    ensures r.Err? ==> r == Err(Incomplete(player1)) || r == Err(Incomplete(player2))
  {
    if |fleets[player1]| < 5 then Err(Incomplete(player1))
    else if |fleets[player2]| < 5 then Err(Incomplete(player2))
    else Ok
  }

  // ---------------------------------------------------------------------------
  // The scan: first refusal in list order

  /** The scan accepts exactly when every existing ship passes the check. */
  lemma {:induction false} ScanAccepts(fleet: seq<Ship>, n: Ship)
    requires SpanInRange(n) && AllPlaced(fleet)
    ensures Scan(fleet, n) == Ok <==> forall k :: 0 <= k < |fleet| ==> Check(n, fleet[k]) == Ok
  {
    if fleet != [] {
      ScanAccepts(fleet[1..], n);
      assert forall k :: 1 <= k < |fleet| ==> fleet[1..][k - 1] == fleet[k];
    }
  }

  /** The scan reports the refusal of the first ship, in list order, that refuses. */
  lemma {:induction false} ScanFirstRefusal(fleet: seq<Ship>, n: Ship, k: nat)
    requires SpanInRange(n) && AllPlaced(fleet)
    requires k < |fleet| && Check(n, fleet[k]).Err?
    requires forall j :: 0 <= j < k ==> Check(n, fleet[j]) == Ok
    ensures Scan(fleet, n) == Check(n, fleet[k])
  {
    if k > 0 {
      assert forall j :: 0 <= j < k - 1 ==> fleet[1..][j] == fleet[j + 1];
      ScanFirstRefusal(fleet[1..], n, k - 1);
    }
  }

  /** Conversely, a refusal of the scan comes from a first refusing ship. */
  lemma {:induction false} ScanRefusalHasSource(fleet: seq<Ship>, n: Ship)
    requires SpanInRange(n) && AllPlaced(fleet)
    requires Scan(fleet, n).Err?
    ensures exists k :: (0 <= k < |fleet| && Check(n, fleet[k]) == Scan(fleet, n) &&
                         forall j :: 0 <= j < k ==> Check(n, fleet[j]) == Ok)
  {
    if Check(n, fleet[0]).Ok? {
      ScanRefusalHasSource(fleet[1..], n);
      var k :| 0 <= k < |fleet[1..]| && Check(n, fleet[1..][k]) == Scan(fleet[1..], n) &&
        forall j :: 0 <= j < k ==> Check(n, fleet[1..][j]) == Ok;
      assert fleet[1..][k] == fleet[k + 1];
      forall j | 0 <= j < k + 1 ensures Check(n, fleet[j]) == Ok {
        if j > 0 {
          assert fleet[1..][j - 1] == fleet[j];
        }
      }
    }
  }

  // ---------------------------------------------------------------------------
  // Placement outcomes

  /** A column off the board is refused first, and nothing changes. */
  lemma PlaceInvalidColumn(fleets: Fleets, player: string, t: ShipType, c: Coordinate, o: Orientation)
    requires FleetsPlaced(fleets)
    requires !OnAxis(c.col)
    ensures Place(fleets, player, t, c, o) == (Err(InvalidColumn), fleets)
  {
  }

  /**
   * With the column on the board, a row off the board is refused, and nothing
   * changes; the far end of the span is never checked.
   */
  lemma PlaceInvalidRow(fleets: Fleets, player: string, t: ShipType, c: Coordinate, o: Orientation)
    requires FleetsPlaced(fleets)
    requires OnAxis(c.col) && !OnAxis(c.row)
    ensures Place(fleets, player, t, c, o) == (Err(InvalidRow), fleets)
  {
  }

  /** An origin on the board is never refused for its bounds, however far the span reaches. */
  lemma PlaceOriginOnlyBounds(fleets: Fleets, player: string, t: ShipType, c: Coordinate, o: Orientation)
    requires FleetsPlaced(fleets)
    requires OnAxis(c.col) && OnAxis(c.row)
    ensures Place(fleets, player, t, c, o).0 !in {Err(InvalidColumn), Err(InvalidRow)}
  {
  }

  /** An unknown player name with an on-board origin is accepted, and nothing is stored. */
  lemma PlaceUnknownPlayer(fleets: Fleets, player: string, t: ShipType, c: Coordinate, o: Orientation)
    requires FleetsPlaced(fleets)
    requires OnAxis(c.col) && OnAxis(c.row) && player !in fleets
    ensures Place(fleets, player, t, c, o) == (Ok, fleets)
  {
  }

  /**
   * For a known player and an on-board origin, placement succeeds exactly when
   * the new ship passes the check against every ship of the player; it then
   * appends the ship to that player's list and leaves every other list alone.
   */
  lemma PlaceAppends(fleets: Fleets, player: string, t: ShipType, c: Coordinate, o: Orientation)
    requires FleetsPlaced(fleets)
    requires OnAxis(c.col) && OnAxis(c.row) && player in fleets
    ensures var s := Ships.New(t, c, o);
      Place(fleets, player, t, c, o).0 == Ok <==>
        forall k :: 0 <= k < |fleets[player]| ==> Check(s, fleets[player][k]) == Ok
    ensures var res := Place(fleets, player, t, c, o);
      res.0 == Ok ==>
        res.1[player] == fleets[player] + [Ships.New(t, c, o)] &&
        forall p :: p in fleets && p != player ==> res.1[p] == fleets[p]
  {
    ScanAccepts(fleets[player], Ships.New(t, c, o));
  }

  /**
   * For a known player and an on-board origin, placement fails with error `e`
   * exactly when some ship refuses the new one with `e` and every ship before
   * it in the list accepts it.
   */
  lemma PlaceFirstRefusal(fleets: Fleets, player: string, t: ShipType, c: Coordinate, o: Orientation, e: Error)
    requires FleetsPlaced(fleets)
    requires OnAxis(c.col) && OnAxis(c.row) && player in fleets
    ensures var fleet, s := fleets[player], Ships.New(t, c, o);
      Place(fleets, player, t, c, o).0 == Err(e) <==>
        exists k :: (0 <= k < |fleet| && Check(s, fleet[k]) == Err(e) &&
                     forall j :: 0 <= j < k ==> Check(s, fleet[j]) == Ok)
  {
    var fleet, s := fleets[player], Ships.New(t, c, o);
    if Scan(fleet, s).Err? {
      ScanRefusalHasSource(fleet, s);
    }
    if exists k :: 0 <= k < |fleet| && Check(s, fleet[k]) == Err(e) &&
        forall j :: 0 <= j < k ==> Check(s, fleet[j]) == Ok {
      var k :| 0 <= k < |fleet| && Check(s, fleet[k]) == Err(e) &&
        forall j :: 0 <= j < k ==> Check(s, fleet[j]) == Ok;
      ScanFirstRefusal(fleet, s, k);
    }
  }

  /**
   * A second ship of a kind the player already has is always refused, and the
   * lists do not change: with the duplicate error naming that kind, unless a
   * ship earlier in the list is hit by the overlap test first.
   */
  lemma PlaceDuplicateRefused(fleets: Fleets, player: string, t: ShipType, c: Coordinate, o: Orientation, k: nat)
    requires FleetsPlaced(fleets)
    requires OnAxis(c.col) && OnAxis(c.row) && player in fleets
    requires k < |fleets[player]| && fleets[player][k].shipType == t
    ensures var res := Place(fleets, player, t, c, o);
      res.1 == fleets && (res.0 == Err(Duplicate(t)) || res.0 == Err(Overlap))
    ensures (forall j :: 0 <= j < k ==> Check(Ships.New(t, c, o), fleets[player][j]) == Ok) ==>
      Place(fleets, player, t, c, o).0 == Err(Duplicate(t))
  {
    var fleet, s := fleets[player], Ships.New(t, c, o);
    ScanAccepts(fleet, s);
    assert Check(s, fleet[k]) != Ok;
    if forall j :: 0 <= j < k ==> Check(s, fleet[j]) == Ok {
      ScanFirstRefusal(fleet, s, k);
    }
  }

  // ---------------------------------------------------------------------------
  // What placement keeps invariant

  /** The kinds in a fleet are pairwise distinct. */
  predicate DistinctKinds(fleet: seq<Ship>)
  {
    forall i, j :: 0 <= i < j < |fleet| ==> fleet[i].shipType != fleet[j].shipType
  }

  /**
   * A fleet as placement builds it: every ship placed, and every ship passed
   * the check against each ship placed before it.
   */
  predicate Checked(fleet: seq<Ship>)
  {
    AllPlaced(fleet) &&
    forall i, j :: 0 <= i < j < |fleet| ==> Check(fleet[j], fleet[i]) == Ok
  }

  /** Whether every fleet of every player is as placement builds it. */
  predicate FleetsChecked(fleets: Fleets)
  {
    forall p :: p in fleets ==> Checked(fleets[p])
  }

  /** A checked fleet has no two ships of one kind. */
  lemma CheckedDistinctKinds(fleet: seq<Ship>)
    requires Checked(fleet)
    ensures DistinctKinds(fleet)
  {
  }

  /** Placement keeps every fleet checked. */
  lemma PlaceKeepsChecked(fleets: Fleets, player: string, t: ShipType, c: Coordinate, o: Orientation)
    requires FleetsChecked(fleets)
    ensures FleetsPlaced(fleets)
    ensures FleetsChecked(Place(fleets, player, t, c, o).1)
  {
    var res := Place(fleets, player, t, c, o);
    if res.1 != fleets {
      var fleet, s := fleets[player], Ships.New(t, c, o);
      ScanAccepts(fleet, s);
      var grown := fleet + [s];
      assert res.1[player] == grown;
      forall i, j | 0 <= i < j < |grown| ensures Check(grown[j], grown[i]) == Ok {
        if j < |fleet| {
          assert grown[j] == fleet[j] && grown[i] == fleet[i];
        } else {
          assert grown[i] == fleet[i];
        }
      }
    }
  }

  /** The kinds present in a fleet. */
  function Kinds(fleet: seq<Ship>): (ks: set<ShipType>)
    ensures forall k :: 0 <= k < |fleet| ==> fleet[k].shipType in ks
  {
    if fleet == [] then {} else Kinds(fleet[..|fleet| - 1]) + {fleet[|fleet| - 1].shipType}
  }

  /** A kind that no ship of the fleet has is not among its kinds. */
  lemma {:induction false} KindsOnlyFromShips(fleet: seq<Ship>, t: ShipType)
    requires forall k :: 0 <= k < |fleet| ==> fleet[k].shipType != t
    ensures t !in Kinds(fleet)
  {
    if fleet != [] {
      var last := |fleet| - 1;
      assert forall k :: 0 <= k < last ==> fleet[..last][k] == fleet[k];
      KindsOnlyFromShips(fleet[..last], t);
    }
  }

  /** With distinct kinds, a fleet has as many kinds as ships. */
  lemma {:induction false} DistinctKindsCount(fleet: seq<Ship>)
    requires DistinctKinds(fleet)
    ensures |Kinds(fleet)| == |fleet|
  {
    if fleet != [] {
      var last := |fleet| - 1;
      var prefix := fleet[..last];
      assert DistinctKinds(prefix) by {
        forall i, j | 0 <= i < j < |prefix| ensures prefix[i].shipType != prefix[j].shipType {
          assert prefix[i] == fleet[i] && prefix[j] == fleet[j];
        }
      }
      DistinctKindsCount(prefix);
      assert forall k :: 0 <= k < last ==> prefix[k] == fleet[k];
      KindsOnlyFromShips(prefix, fleet[last].shipType);
    }
  }

  /** A fleet with distinct kinds holds at most five ships. */
  lemma DistinctKindsAtMostFive(fleet: seq<Ship>)
    requires DistinctKinds(fleet)
    ensures |fleet| <= 5
  {
    DistinctKindsCount(fleet);
    AtMostFiveKinds(Kinds(fleet));
  }

  /** Every checked fleet holds at most five ships, of distinct kinds. */
  lemma CheckedFleetsBounded(fleets: Fleets)
    requires FleetsChecked(fleets)
    ensures forall p :: p in fleets ==> DistinctKinds(fleets[p]) && |fleets[p]| <= 5
  {
    forall p | p in fleets ensures DistinctKinds(fleets[p]) && |fleets[p]| <= 5 {
      CheckedDistinctKinds(fleets[p]);
      DistinctKindsAtMostFive(fleets[p]);
    }
  }

  // ---------------------------------------------------------------------------
  // Start

  /** Whether the fleet holds a ship of every kind. */
  predicate FullFleet(fleet: seq<Ship>)
  {
    forall t: ShipType :: t in Kinds(fleet)
  }

  /** A fleet of distinct kinds has at least five ships exactly when it holds every kind. */
  lemma FiveShipsIffFull(fleet: seq<Ship>)
    requires DistinctKinds(fleet)
    ensures |fleet| >= 5 <==> FullFleet(fleet)
  {
    DistinctKindsCount(fleet);
    AtMostFiveKinds(Kinds(fleet));
    if FullFleet(fleet) {
      AtMostFiveKinds(Kinds(fleet));
      AllButOne(Battleship);
      forall t | t in AllShipTypeSet() ensures t in Kinds(fleet) {
      }
      SubsetCardinality(AllShipTypeSet(), Kinds(fleet));
    }
  }

  /**
   * On fleets as placement builds them, the size-only start gate means what
   * it is meant to: start succeeds exactly when both players hold a ship of
   * every kind, and it names player 1 whenever player 1 is short of one.
   */
  lemma StartIffFullFleets(fleets: Fleets, player1: string, player2: string)
    requires player1 in fleets && player2 in fleets
    requires Checked(fleets[player1]) && Checked(fleets[player2])
    ensures StartOutcome(fleets, player1, player2) == Ok <==>
      FullFleet(fleets[player1]) && FullFleet(fleets[player2])
    ensures StartOutcome(fleets, player1, player2) == Err(Incomplete(player1)) <==>
      !FullFleet(fleets[player1])
  {
    CheckedDistinctKinds(fleets[player1]);
    CheckedDistinctKinds(fleets[player2]);
    FiveShipsIffFull(fleets[player1]);
    FiveShipsIffFull(fleets[player2]);
  }

  // ---------------------------------------------------------------------------
  // The overlap test against true cell sharing

  /** Whether two spans have a cell in common. */
  ghost predicate SharesCell(a: Span, b: Span)
  {
    exists col: int, row: int :: Covers(a, col, row) && Covers(b, col, row)
  }

  /** Rectangle intersection: the column ranges meet and the row ranges meet. */
  predicate RangesIntersect(a: Span, b: Span)
  {
    a.startCol <= b.endCol && b.startCol <= a.endCol &&
    a.startRow <= b.endRow && b.startRow <= a.endRow
  }

  /** For well-formed spans, sharing a cell is rectangle intersection. */
  lemma SharesCellIffIntersect(a: Span, b: Span)
    requires WellFormed(a) && WellFormed(b)
    ensures SharesCell(a, b) <==> RangesIntersect(a, b)
  {
    if RangesIntersect(a, b) {
      var col := if a.startCol < b.startCol then b.startCol else a.startCol;
      var row := if a.startRow < b.startRow then b.startRow else a.startRow;
      assert Covers(a, col, row) && Covers(b, col, row);
    }
  }

  /** Whatever the overlap test rejects really shares a cell with the existing ship. */
  lemma EndpointsInsideSharesCell(n: Span, e: Span)
    requires WellFormed(n)
    requires EndpointsInside(n, e)
    ensures SharesCell(n, e)
  {
    var col := if e.startCol <= n.startCol <= e.endCol then n.startCol else n.endCol;
    var row := if e.startRow <= n.startRow <= e.endRow then n.startRow else n.endRow;
    assert Covers(n, col, row) && Covers(e, col, row);
  }

  /**
   * The overlap test is not intersection: a Landscape Aircraft Carrier at
   * (1, 2) crosses a Portrait Battleship at (3, 1) in cell (3, 2), yet neither
   * end of the carrier lies in the battleship's column, so it is accepted.
   */
  lemma CrossingShipsAccepted()
    ensures var e := Ships.New(Battleship, Coordinate(3, 1), Portrait);
      var n := Ships.New(AircraftCarrier, Coordinate(1, 2), Landscape);
      SharesCell(FullPosition(n), FullPosition(e)) &&
      Place(map["User1" := [e]], "User1", AircraftCarrier, Coordinate(1, 2), Landscape) ==
        (Ok, map["User1" := [e, n]])
  {
    var e := Ships.New(Battleship, Coordinate(3, 1), Portrait);
    var n := Ships.New(AircraftCarrier, Coordinate(1, 2), Landscape);
    assert Covers(FullPosition(n), 3, 2) && Covers(FullPosition(e), 3, 2);
    assert !EndpointsInside(FullPosition(n), FullPosition(e));
    assert [e][1..] == [];
    assert Scan([e], n) == Ok;
    assert [e] + [n] == [e, n];
    var fleets := map["User1" := [e]];
    assert FleetsPlaced(fleets);
    assert Place(fleets, "User1", AircraftCarrier, Coordinate(1, 2), Landscape).0 == Ok;
    assert Place(fleets, "User1", AircraftCarrier, Coordinate(1, 2), Landscape).1 == map["User1" := [e, n]];
    assert SharesCell(FullPosition(n), FullPosition(e));
  }

  /**
   * Nor is it containment in the other direction: a Landscape Aircraft Carrier
   * at (1, 1) swallows a Landscape Patrol Boat at (3, 1), yet neither end of the
   * carrier lies in the boat's columns, so it is accepted.
   */
  lemma ContainingShipAccepted()
    ensures var e := Ships.New(PatrolBoat, Coordinate(3, 1), Landscape);
      var n := Ships.New(AircraftCarrier, Coordinate(1, 1), Landscape);
      SharesCell(FullPosition(n), FullPosition(e)) &&
      Place(map["User1" := [e]], "User1", AircraftCarrier, Coordinate(1, 1), Landscape) ==
        (Ok, map["User1" := [e, n]])
  {
    var e := Ships.New(PatrolBoat, Coordinate(3, 1), Landscape);
    var n := Ships.New(AircraftCarrier, Coordinate(1, 1), Landscape);
    assert Covers(FullPosition(n), 3, 1) && Covers(FullPosition(e), 3, 1);
    assert !EndpointsInside(FullPosition(n), FullPosition(e));
    assert [e][1..] == [];
    assert Scan([e], n) == Ok;
    assert [e] + [n] == [e, n];
    var fleets := map["User1" := [e]];
    assert FleetsPlaced(fleets);
    assert Place(fleets, "User1", AircraftCarrier, Coordinate(1, 1), Landscape).1 == map["User1" := [e, n]];
  }

  // ---------------------------------------------------------------------------
  // Messages

  /** Duplicate-kind messages name the kind, so different kinds give different messages. */
  lemma DuplicateMessageInjective(a: ShipType, b: ShipType)
    ensures Message(Duplicate(a)) == Message(Duplicate(b)) <==> a == b
  {
    var prefix, suffix := "you already have an ", " on board";
    if Message(Duplicate(a)) == Message(Duplicate(b)) {
      var ma, mb := Message(Duplicate(a)), Message(Duplicate(b));
      assert ma == prefix + DisplayName(a) + suffix;
      assert mb == prefix + DisplayName(b) + suffix;
      assert |DisplayName(a)| == |DisplayName(b)|;
      assert DisplayName(a) == ma[|prefix|..|ma| - |suffix|];
      assert DisplayName(b) == mb[|prefix|..|mb| - |suffix|];
      DisplayNameInjective(a, b);
    }
  }
}
