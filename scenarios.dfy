/**
 * Concrete games: the placement and start scenarios the game's own tests
 * exercise, and the corner cases of the rules as written.
 */
module Scenarios {
  import opened ShipTypes
  import opened Coordinates
  import opened Ships
  import opened Turns
  import opened Placement
  import opened Games

  /** An Aircraft Carrier placed Portrait at (1, 1) is the only ship of its player, as built. */
  method CreateShipByType() returns (ships: seq<Ship>)
    ensures ships == [Ships.New(AircraftCarrier, Coordinate(1, 1), Portrait)]
    ensures FullPosition(ships[0]) == Span(1, 1, 1, 5)
  {
    var game := new Game("User1", "Computer");
    var _ := game.CreateShip("User1", AircraftCarrier, Coordinate(1, 1), Portrait);
    ships := game.PlayerShips()["User1"];
  }

  /** Column 11 is refused as an invalid column. */
  method ColumnOffBoard() returns (r: Outcome, ships: seq<Ship>)
    ensures r == Err(Error.InvalidColumn) && Message(r.error) == "invalid column"
    ensures ships == []
  {
    var game := new Game("User1", "Computer");
    r := game.CreateShip("User1", AircraftCarrier, Coordinate(11, 5), Portrait);
    ships := game.PlayerShips()["User1"];
  }

  /** Row 30 is refused as an invalid row. */
  method RowOffBoard() returns (r: Outcome, ships: seq<Ship>)
    ensures r == Err(Error.InvalidRow) && Message(r.error) == "invalid row"
    ensures ships == []
  {
    var game := new Game("User1", "Computer");
    r := game.CreateShip("User1", AircraftCarrier, Coordinate(10, 30), Portrait);
    ships := game.PlayerShips()["User1"];
  }

  /** Two Portrait ships in column 1 whose rows meet are refused, from below and from above. */
  method VerticalOverlap() returns (r1: Outcome, r2: Outcome)
    ensures r1 == Err(Overlap) && r2 == Err(Overlap)
  {
    var game := new Game("User1", "Computer");
    var _ := game.CreateShip("User1", AircraftCarrier, Coordinate(1, 5), Portrait);
    r1 := game.CreateShip("User1", PatrolBoat, Coordinate(1, 9), Portrait);
    r2 := game.CreateShip("User1", Destroyer, Coordinate(1, 4), Portrait);
  }

  /** Ships that meet a Landscape carrier on row 2 are refused, from the left, inside and the right. */
  method HorizontalOverlap() returns (r1: Outcome, r2: Outcome, r3: Outcome, r4: Outcome)
    ensures r1 == Err(Overlap) && r2 == Err(Overlap) && r3 == Err(Overlap) && r4 == Err(Overlap)
  {
    var game := new Game("User1", "Computer");
    var _ := game.CreateShip("User1", AircraftCarrier, Coordinate(2, 2), Landscape);
    r1 := game.CreateShip("User1", Destroyer, Coordinate(1, 2), Landscape);
    r2 := game.CreateShip("User1", Battleship, Coordinate(4, 2), Landscape);
    r3 := game.CreateShip("User1", Submarine, Coordinate(6, 2), Landscape);
    r4 := game.CreateShip("User1", PatrolBoat, Coordinate(4, 1), Portrait);
  }

  /** A second Destroyer is refused by name, even where it would not overlap the first. */
  method SecondDestroyer() returns (r: Outcome)
    ensures r == Err(Duplicate(Destroyer))
    ensures Message(r.error) == "you already have an Destroyer on board"
  {
    var game := new Game("User1", "Computer");
    var carrier := Ships.New(AircraftCarrier, Coordinate(2, 2), Landscape);
    var destroyer := Ships.New(Destroyer, Coordinate(3, 5), Landscape);
    var _ := game.CreateShip("User1", AircraftCarrier, Coordinate(2, 2), Landscape);
    assert game.playerShips["User1"] == [carrier];
    assert FullPosition(destroyer) == Span(3, 5, 5, 5);
    assert FullPosition(carrier) == Span(2, 6, 2, 2);
    assert Check(destroyer, carrier) == Ok;
    assert [carrier][1..] == [];
    assert Scan([carrier], destroyer) == Ok;
    var _ := game.CreateShip("User1", Destroyer, Coordinate(3, 5), Landscape);
    assert game.playerShips["User1"] == [carrier, destroyer];
    var second := Ships.New(Destroyer, Coordinate(4, 5), Landscape);
    assert Check(second, carrier) == Ok;
    assert [carrier, destroyer][1..] == [destroyer];
    assert Scan([carrier, destroyer], second) == Err(Duplicate(Destroyer));
    r := game.CreateShip("User1", Destroyer, Coordinate(4, 5), Landscape);
    DestroyerMessage();
  }

  /** The duplicate error for a Destroyer reads as the tests expect. */
  lemma DestroyerMessage()
    ensures Message(Duplicate(Destroyer)) == "you already have an Destroyer on board"
  {
  }

  /** The fleet every player of the tests places, in placement order. */
  function TestFleet(): (fleet: seq<Ship>)
    ensures |fleet| == 5
  {
    [Ships.New(AircraftCarrier, Coordinate(2, 1), Landscape),
     Ships.New(Battleship, Coordinate(8, 1), Portrait),
     Ships.New(Destroyer, Coordinate(3, 8), Portrait),
     Ships.New(PatrolBoat, Coordinate(5, 5), Landscape),
     Ships.New(Submarine, Coordinate(8, 7), Landscape)]
  }

  /** Each ship of the test fleet passes the scan of the ships placed before it. */
  lemma TestFleetAccepted(k: nat)
    requires k < 5
    ensures AllPlaced(TestFleet()[..k]) && SpanInRange(TestFleet()[k])
    ensures Scan(TestFleet()[..k], TestFleet()[k]) == Ok
  {
    var f := TestFleet();
    var a, b, d, p, s := f[0], f[1], f[2], f[3], f[4];
    assert f[..0] == [] && f[..1] == [a] && f[..2] == [a, b] && f[..3] == [a, b, d] && f[..4] == [a, b, d, p];
    assert [a][1..] == [] && [b][1..] == [] && [d][1..] == [] && [p][1..] == [];
    assert [a, b][1..] == [b] && [b, d][1..] == [d] && [d, p][1..] == [p];
    assert [a, b, d][1..] == [b, d] && [b, d, p][1..] == [d, p];
    assert [a, b, d, p][1..] == [b, d, p];
    if k == 2 {
      assert Scan([b], d) == Ok;
    } else if k == 3 {
      assert Check(p, d) == Ok && Check(p, b) == Ok;
      assert Scan([d], p) == Ok;
      assert [b, d] != [] && [b, d][0] == b;
      assert Scan([b, d], p) == Ok;
    } else if k == 4 {
      assert Check(s, p) == Ok && Check(s, d) == Ok && Check(s, b) == Ok;
      assert Scan([p], s) == Ok && Scan([d, p], s) == Ok && Scan([b, d, p], s) == Ok;
    }
  }

  /** Places the next ship of the test fleet for `player`. */
  method PlaceNext(game: Game, player: string, k: nat)
    requires game.Valid() && k < 5
    requires player in game.playerShips && game.playerShips[player] == TestFleet()[..k]
    modifies game
    ensures game.Valid()
    ensures game.playerShips == old(game.playerShips)[player := TestFleet()[..k + 1]]
    ensures game.turn.player == old(game.turn.player)
  {
    var ship := TestFleet()[k];
    TestFleetAccepted(k);
    assert TestFleet()[..k] + [ship] == TestFleet()[..k + 1];
    var _ := game.CreateShip(player, ship.shipType, ship.coord, ship.orientation);
  }

  /** Places the test fleet for `player`, ship by ship. */
  method PlaceTestFleet(game: Game, player: string)
    requires game.Valid() && player in game.playerShips && game.playerShips[player] == []
    modifies game
    ensures game.Valid()
    ensures game.playerShips == old(game.playerShips)[player := TestFleet()]
    ensures game.turn.player == old(game.turn.player)
  {
    assert TestFleet()[..0] == [];
    PlaceNext(game, player, 0);
    PlaceNext(game, player, 1);
    PlaceNext(game, player, 2);
    PlaceNext(game, player, 3);
    PlaceNext(game, player, 4);
    assert TestFleet()[..5] == TestFleet();
  }

  /** Starting with no ship placed names player 1. */
  method StartWithoutShips() returns (r: Outcome)
    ensures r == Err(Incomplete("User1"))
  {
    var game := new Game("User1", "Computer");
    r := game.Start();
  }

  /** Starting with only player 1's fleet placed names player 2. */
  method StartWithoutSecondFleet() returns (r: Outcome, toMove: Option<string>)
    ensures r == Err(Incomplete("Computer"))
    ensures toMove == None
  {
    var game := new Game("User1", "Computer");
    PlaceTestFleet(game, "User1");
    r := game.Start();
    toMove := game.PlayerTurn();
  }

  /** With both fleets placed the game starts, player 1 to move in round 0. */
  method StartGame() returns (r: Outcome, toMove: Option<string>, round: nat)
    ensures r == Ok && toMove == Some("User1") && round == 0
  {
    var game := new Game("User1", "Computer");
    PlaceTestFleet(game, "User1");
    PlaceTestFleet(game, "Computer");
    r := game.Start();
    toMove := game.PlayerTurn();
    round := game.Round();
  }

  /** Only the origin is bounds-checked: a carrier at column 10 is stored reaching column 14. */
  method CarrierPastTheEdge() returns (r: Outcome, span: Span)
    ensures r == Ok
    ensures span == Span(10, 14, 1, 1)
  {
    var game := new Game("User1", "Computer");
    r := game.CreateShip("User1", AircraftCarrier, Coordinate(10, 1), Landscape);
    var ships := game.PlayerShips()["User1"];
    span := FullPosition(ships[0]);
  }

  /** A name that is not a player's is accepted on the board, and nothing is stored. */
  method UnknownPlayer() returns (r: Outcome, fleets: Fleets)
    ensures r == Ok
    ensures fleets == map["User1" := [], "Computer" := []]
  {
    var game := new Game("User1", "Computer");
    r := game.CreateShip("Nobody", PatrolBoat, Coordinate(1, 1), Portrait);
    fleets := game.PlayerShips();
  }

  /** Two players of the same name share one fleet: the second cannot place a kind the first has. */
  method SharedName() returns (r: Outcome, fleets: Fleets)
    ensures r == Err(Duplicate(PatrolBoat))
    ensures fleets == map["Ann" := [Ships.New(PatrolBoat, Coordinate(1, 1), Portrait)]]
  {
    var game := new Game("Ann", "Ann");
    var boat := Ships.New(PatrolBoat, Coordinate(1, 1), Portrait);
    assert game.playerShips == map["Ann" := []];
    assert Scan([], boat) == Ok;
    assert [] + [boat] == [boat];
    var _ := game.CreateShip(game.player1, PatrolBoat, Coordinate(1, 1), Portrait);
    assert game.playerShips == map["Ann" := [boat]];
    r := game.CreateShip(game.player2, PatrolBoat, Coordinate(9, 9), Landscape);
    fleets := game.PlayerShips();
  }

  /**
   * The start gate counts ships and nothing else: five carriers pass it
   * though the fleet lacks four kinds. Placement never builds such a fleet.
   */
  lemma StartCountsShipsOnly()
    ensures var carrier := Ships.New(AircraftCarrier, Coordinate(1, 1), Portrait);
      var fleets := map["Ann" := [carrier, carrier, carrier, carrier, carrier]];
      StartOutcome(fleets, "Ann", "Ann") == Ok && !FullFleet(fleets["Ann"]) && !Checked(fleets["Ann"])
  {
    var carrier := Ships.New(AircraftCarrier, Coordinate(1, 1), Portrait);
    var fleet := [carrier, carrier, carrier, carrier, carrier];
    assert forall k :: 0 <= k < |fleet| ==> fleet[k].shipType == AircraftCarrier;
    KindsOnlyFromShips(fleet, PatrolBoat);
    assert Check(fleet[1], fleet[0]) != Ok;
  }
}
