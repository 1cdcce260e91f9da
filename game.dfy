/** The game: two players' fleets, the placement request and the start gate. */
module Games {
  import opened ShipTypes
  import opened Coordinates
  import opened Ships
  import opened Turns
  import opened Placement

  /**
   * A game between two players, identified by name. The fleets are keyed by
   * name, so two players with the same name share one fleet.
   */
  class Game {
    const columns: seq<u8>
    const rows: seq<u8>
    var playerShips: Fleets
    const player1: string
    const player2: string
    const turn: Turn

    /**
     * The game's invariant: the board axes are 1..10, the fleets belong to the
     * two players and are as placement builds them, and the turn has not moved
     * past round 0 nor to anybody but player 1.
     */
    ghost predicate Valid()
      reads this, turn
    {
      columns == GridAxis && rows == GridAxis &&
      playerShips.Keys == {player1, player2} &&
      FleetsChecked(playerShips) &&
      turn.round == 0 &&
      (turn.player == None || turn.player == Some(player1))
    }

    /** A new game: an empty fleet for each player and a fresh turn. */
    constructor (player1: string, player2: string)
      ensures Valid()
      ensures this.player1 == player1 && this.player2 == player2
      ensures playerShips == map[player1 := [], player2 := []]
      ensures fresh(turn) && turn.round == 0 && turn.player == None
    {
      columns := GridAxis;
      rows := GridAxis;
      playerShips := map[player1 := [], player2 := []];
      this.player1 := player1;
      this.player2 := player2;
      turn := new Turn();
    }

    /**
     * Asks to place a ship of kind `shipType` for `player` at `coordinate`.
     * The outcome and the new fleets are those of `Place`; the turn is untouched.
     */
    method CreateShip(player: string, shipType: ShipType, coordinate: Coordinate, orientation: Orientation)
      returns (r: Outcome)
      requires Valid()
      modifies this
      ensures Valid()
      ensures (r, playerShips) == Place(old(playerShips), player, shipType, coordinate, orientation)
      ensures turn.player == old(turn.player) && turn.round == old(turn.round)
    {
      AxisMembership(coordinate.col);
      AxisMembership(coordinate.row);
      if coordinate.col !in columns {
        return Err(InvalidColumn);
      }
      if coordinate.row !in rows {
        return Err(InvalidRow);
      }

      var newShip := Ships.New(shipType, coordinate, orientation);
      if player !in playerShips {
        return Ok;
      }
      var fleet := playerShips[player];
      var span := FullPosition(newShip);
      for i := 0 to |fleet|
        invariant Scan(fleet, newShip) == Scan(fleet[i..], newShip)
      {
        var ship := fleet[i];
        var shipSpan := FullPosition(ship);
        if newShip.shipType == ship.shipType {
          return Err(Duplicate(newShip.shipType));
        }
        if EndpointsInside(span, shipSpan) {
          return Err(Overlap);
        }
        assert fleet[i..][1..] == fleet[i + 1..];
      }

      // The player's key was found above, so the lookup for the push succeeds.
      playerShips := playerShips[player := fleet + [newShip]];
      r := Ok;
      PlaceKeepsChecked(old(playerShips), player, shipType, coordinate, orientation);
    }

    /** Every player's fleet: at most five ships each, of distinct kinds. */
    function PlayerShips(): (fleets: Fleets)
      reads this, turn
      requires Valid()
      ensures fleets.Keys == {player1, player2}
      ensures forall p :: p in fleets ==> DistinctKinds(fleets[p]) && |fleets[p]| <= 5
    {
      CheckedFleetsBounded(playerShips);
      playerShips
    }

    /**
     * Starts the game once both fleets hold at least five ships: player 1 is
     * then to move. Otherwise it names the first player short of ships and
     * leaves the turn as it was.
     */
    method Start() returns (r: Outcome)
      requires Valid()
      modifies turn
      ensures Valid()
      ensures r == StartOutcome(playerShips, player1, player2)
      ensures r == Ok ==> turn.player == Some(player1)
      ensures r != Ok ==> turn.player == old(turn.player)
      ensures turn.round == old(turn.round)
    {
      if |playerShips[player1]| < 5 {
        return Err(Incomplete(player1));
      }
      if |playerShips[player2]| < 5 {
        return Err(Incomplete(player2));
      }
      turn.Change(player1);
      r := Ok;
    }

    /** The round: nothing in the game advances it, so it is always 0. */
    function Round(): (n: nat)
      reads this, turn
      requires Valid()
      ensures n == 0
    {
      turn.Round()
    }

    /** The player to move: nobody before the start, player 1 after it. */
    function PlayerTurn(): (p: Option<string>)
      reads this, turn
      requires Valid()
      ensures p == None || p == Some(player1)
    {
      turn.Player()
    }
  }
}
