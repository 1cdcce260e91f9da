# Battleship setup engine: placement and start rules

This project models the setup phase of a small Battleship game library and
proves properties of it. There are two players, each with a fleet of ships on a
10 x 10 board. A player asks the game to place a ship of a given kind at an
origin cell, lying Landscape (along the columns) or Portrait (along the rows).
The game validates the request and stores the ship in that player's fleet. Once
both fleets hold five ships, the game can start, and player 1 moves first.

Modules, one per source file:

- `ShipTypes` (`ship_type.dfy`): the five ship kinds and their display names.
- `Coordinates` (`coordinate.dfy`): the unvalidated (column, row) byte pair.
- `Ships` (`ship.dfy`): a ship, its size by kind, and the span of cells it covers.
- `Turns` (`turn.dfy`): the turn record, a class whose `Change` updates the player in place.
- `Placement` (`placement.dfy`): the rules of `src/game.rs` as functions on the
  fleets (`Place`, `Scan`, `Check`, `StartOutcome`), with the lemmas about them.
- `Games` (`game.dfy`): the `Game` class. Its `CreateShip` runs the checks
  step by step with a loop over the fleet, and is proved to compute `Place`.
  Its `Start` is proved to compute `StartOutcome` and to hand the turn to player 1.
- `Scenarios` (`scenarios.dfy`): the game's own test scenarios, and the corner
  cases of the rules as written, as client code of `Game`.

The rules as written have these quirks, and the model keeps them:

- Only the origin is bounds-checked. A ship may reach past the board edge; an
  Aircraft Carrier at column 10 ends at column 14.
- The overlap test asks whether either end of the new ship lies inside the
  existing ship's range, on both axes. It is not rectangle intersection.
  Everything it rejects does share a cell (`EndpointsInsideSharesCell`).
  But it misses two kinds of true overlap. Crossing ships are accepted
  (`CrossingShipsAccepted`). So is a new ship whose span swallows an existing
  one (`ContainingShipAccepted`).
- `start` checks only that each fleet has at least five ships. On fleets built
  by placement this is the same as holding one ship of every kind
  (`StartIffFullFleets`), because placement refuses a second ship of a kind.
- An unknown player name is NOT reported as "player not found". The
  `return Ok(())` at `src/game.rs:60` sits inside a block expression, so it
  returns from `create_ship` itself. An on-board placement for an unknown name
  therefore succeeds and stores nothing. The "player not found" branch at
  `src/game.rs:90-92` cannot be reached. `Place` ensures that it never yields
  `PlayerNotFound`, and `Scenarios.UnknownPlayer` exhibits the silent success.
- Fleets are keyed by player name, so two players with the same name share one
  fleet (`Scenarios.SharedName`).

## Model

| member | source | states |
|---|---|---|
| `ShipTypes.ExactlyFiveVariants` | src/ships/ship_type.rs:4-10 | there are exactly five ship kinds: every kind is in the list of variants, which has five pairwise distinct entries |
| `ShipTypes.DisplayName` | src/ships/ship_type.rs:12-21 | the display name equals the identifier exactly for Battleship, Submarine and Destroyer; Patrol Boat and Aircraft Carrier differ from theirs by a space |
| `ShipTypes.DebugName` | src/ships/ship_type.rs:3 | the derived `Debug` rendering is the bare identifier, without spaces |
| `ShipTypes.DisplayNameInjective` | src/ships/ship_type.rs:14-20 | two kinds have the same display name only if they are the same kind |
| `ShipTypes.AtMostFiveKinds` | src/ships/ship_type.rs:4-10 | any set of kinds has at most five members, and five only when it holds every kind |
| `Coordinates.New` | src/ships/coordinate.rs:8-18 | any byte pair is accepted, and `col()`/`row()` give back the column and row it was built from |
| `Coordinates.EqualityIsStructural` | src/ships/coordinate.rs:1 | two coordinates are equal exactly when columns and rows are equal |
| `Ships.SizeOf` | src/ships/ship.rs:13-18 | the size is 5 exactly for an Aircraft Carrier, 4 for a Battleship, 3 for a Destroyer or Submarine, 2 for a Patrol Boat |
| `Ships.New` | src/ships/ship.rs:12-42 | the size is derived from the kind; kind, origin and orientation are stored, and the accessors return them unchanged |
| `Ships.NewIsInjective` | src/ships/ship.rs:3 | ships built from equal arguments are equal, and only those (structural equality) |
| `Ships.FullPosition` | src/ships/ship.rs:44-52 | the span starts at the origin, start does not pass end on either axis, its length along the orientation is the size, and the other axis is a single cell; requires the byte sum `origin + size` not to overflow |
| `Ships.OnBoardSpanInRange` | src/ships/ship.rs:49-50 | for a ship built by `new` with an origin in 1..10, the byte arithmetic of the span cannot overflow |
| `Turns.Turn.constructor` | src/turn.rs:9-14 | a new turn is in round 0 with no player to move |
| `Turns.Turn.Player` | src/turn.rs:16-18 | returns the player to move; a read that changes nothing |
| `Turns.Turn.Round` | src/turn.rs:20-22 | returns the round counter; a read that changes nothing |
| `Turns.Turn.Change` | src/turn.rs:24-26 | afterwards `player()` is the given player, and the round is unchanged |
| `Turns.ChangeTwice` | src/turn.rs:24-26 | of two changes the last one wins, and the round never moves |
| `Turns.ChangeIdempotent` | src/turn.rs:24-26 | changing a turn twice to one player leaves it equal to an equal turn changed once |
| `Placement.AxisMembership` | src/game.rs:20-21 | `(1..=10).contains(v)` holds exactly when 1 <= v <= 10 |
| `Placement.Message` | src/game.rs:43-110 | the error texts: the duplicate error shows the kind's display name after a fixed prefix, and the start error begins with the player's name |
| `Placement.EndpointsInside` | src/game.rs:75-78 | the endpoint test; whatever it rejects has intersecting column and row ranges |
| `Placement.Check` | src/game.rs:69-81 | the check of one existing ship: the duplicate error exactly when the kinds are equal (checked first), otherwise the overlap error, which only fires on intersecting ranges |
| `Placement.StartOutcome` | src/game.rs:101-112 | start succeeds exactly when both fleets have at least five ships; it names player 1 exactly when player 1 has fewer than five, and otherwise player 2 |
| `Placement.Scan` | src/game.rs:65-83 | the scan refuses only with `Overlap` or with `Duplicate` of the new ship's own kind |
| `Placement.Place` | src/game.rs:32-95 | placement never yields "player not found"; a refusal leaves every fleet unchanged; the set of players is unchanged |
| `Placement.ScanAccepts` | src/game.rs:65-83 | the scan accepts exactly when the new ship passes the per-ship check against every existing ship |
| `Placement.ScanFirstRefusal` | src/game.rs:65-82 | the scan reports the refusal of the first refusing ship in list order; for each ship the kind check comes before the overlap check |
| `Placement.ScanRefusalHasSource` | src/game.rs:65-82 | every refusal of the scan is the refusal of some ship, and all ships before it pass |
| `Placement.PlaceInvalidColumn` | src/game.rs:42-44 | a column outside 1..10 is refused with "invalid column" before anything else, and no fleet changes |
| `Placement.PlaceInvalidRow` | src/game.rs:46-48 | with the column on the board, a row outside 1..10 is refused with "invalid row", and no fleet changes |
| `Placement.PlaceOriginOnlyBounds` | src/game.rs:42-48 | an origin on the board is never refused for bounds, whatever the span's far end |
| `Placement.PlaceUnknownPlayer` | src/game.rs:57-61 | with the origin on the board, a name that is not a key is accepted and nothing is stored |
| `Placement.PlaceAppends` | src/game.rs:55-94 | for a known player the placement succeeds exactly when every existing ship passes the check; the new ship is then appended to that player's list, and every other list is unchanged |
| `Placement.PlaceFirstRefusal` | src/game.rs:63-86 | for a known player, placement fails with error e exactly when the first refusing ship in list order refuses with e |
| `Placement.PlaceDuplicateRefused` | src/game.rs:69-73 | a ship of a kind the player already has is always refused, with no change; the error is the duplicate error naming that kind unless an earlier ship trips the overlap test first |
| `Placement.CheckedDistinctKinds` | src/game.rs:69-73 | in a fleet built by placement no two ships share a kind |
| `Placement.PlaceKeepsChecked` | src/game.rs:65-89 | placement keeps every fleet in the shape placement builds: each ship on the board and passing the check against every earlier ship |
| `Placement.DistinctKindsCount` | src/game.rs:69-73 | a fleet without repeated kinds has as many kinds as ships |
| `Placement.DistinctKindsAtMostFive` | src/game.rs:69-73 | a fleet without repeated kinds holds at most five ships |
| `Placement.CheckedFleetsBounded` | src/game.rs:65-89 | every fleet placement builds has distinct kinds and at most five ships |
| `Placement.FiveShipsIffFull` | src/game.rs:102 | for a fleet without repeated kinds, at least five ships means one ship of every kind, and the converse |
| `Placement.StartIffFullFleets` | src/game.rs:101-117 | on fleets built by placement, start succeeds exactly when both players hold every kind; it names player 1 exactly when player 1 lacks a kind |
| `Placement.SharesCellIffIntersect` | src/ships/ship.rs:44-52 | two spans share a cell exactly when their column ranges and their row ranges intersect |
| `Placement.EndpointsInsideSharesCell` | src/game.rs:75-81 | everything the overlap test rejects really shares a cell with the existing ship |
| `Placement.CrossingShipsAccepted` | src/game.rs:75-81 | a Landscape carrier at (1,2) crossing a Portrait battleship at (3,1) shares cell (3,2), yet is accepted and appended |
| `Placement.ContainingShipAccepted` | src/game.rs:75-81 | a Landscape carrier at (1,1) swallowing a Landscape patrol boat at (3,1) shares cell (3,1), yet is accepted and appended |
| `Placement.DuplicateMessageInjective` | src/game.rs:70-72 | duplicate-kind messages for different kinds differ |
| `Games.Game.constructor` | src/game.rs:18-30 | a new game has an empty fleet for each player name, a 1..10 board and a fresh turn |
| `Games.Game.CreateShip` | src/game.rs:32-95 | the outcome and the new fleets are those of `Place`, computed by a loop over the fleet; the invariant is kept and the turn is unchanged |
| `Games.Game.PlayerShips` | src/game.rs:97-99 | the fleets belong to the two players, and each has at most five ships of distinct kinds |
| `Games.Game.Start` | src/game.rs:101-117 | the outcome is `StartOutcome` (player 1 checked first); on success player 1 is to move; on failure the turn is unchanged; the round never changes |
| `Games.Game.Round` | src/game.rs:119-121 | the round is always 0, since nothing advances it |
| `Games.Game.PlayerTurn` | src/game.rs:123-125 | the player to move is nobody or player 1 |
| `Scenarios.CreateShipByType` | src/game.rs:133-156 | a carrier placed Portrait at (1,1) is the player's only ship, equal to one built from the same arguments, covering rows 1-5 |
| `Scenarios.ColumnOffBoard` | src/game.rs:158-174 | column 11 is refused with "invalid column" and the fleet stays empty |
| `Scenarios.RowOffBoard` | src/game.rs:176-192 | row 30 is refused with "invalid row" and the fleet stays empty |
| `Scenarios.VerticalOverlap` | src/game.rs:194-227 | ships meeting a Portrait carrier in its column are refused with the overlap error |
| `Scenarios.HorizontalOverlap` | src/game.rs:229-276 | ships meeting a Landscape carrier on its row are refused with the overlap error |
| `Scenarios.SecondDestroyer` | src/game.rs:278-308 | a second Destroyer is refused with the duplicate error, whose text is "you already have an Destroyer on board" |
| `Scenarios.DestroyerMessage` | src/game.rs:292 | the duplicate error for a Destroyer reads "you already have an Destroyer on board" |
| `Scenarios.PlaceTestFleet` | src/game.rs:392-465 | places the tests' five-ship fleet for one player; that player's list becomes exactly that fleet, the other list and the turn are unchanged |
| `Scenarios.TestFleetAccepted` | src/game.rs:392-428 | each ship of the tests' fleet passes the scan against the ships placed before it |
| `Scenarios.StartWithoutShips` | src/game.rs:310-325 | start with no ships names player 1 |
| `Scenarios.StartWithoutSecondFleet` | src/game.rs:327-377 | start with only player 1's fleet placed names player 2, and nobody is to move |
| `Scenarios.StartGame` | src/game.rs:379-390 | with both fleets placed, start succeeds, player 1 is to move, and the round is 0 |
| `Scenarios.CarrierPastTheEdge` | src/game.rs:42-48 | a carrier placed Landscape at column 10 is accepted and covers columns 10-14 |
| `Scenarios.UnknownPlayer` | src/game.rs:57-61 | placing for a name that is not a player's succeeds and leaves both fleets empty |
| `Scenarios.SharedName` | src/game.rs:22-25 | two players named alike share one fleet, so the second cannot place a kind the first has |
| `Scenarios.StartCountsShipsOnly` | src/game.rs:102-108 | five carriers pass the start gate though they are not a full fleet; placement never builds such a fleet |

## Left out

- `src/player.rs`: a player is modelled by its name string. Its `Display` only writes the name, which the start error carries.
- `src/ships/mod.rs`: module declarations and re-exports only.
- The orientation enum's own file is not part of this model. Its two variants are taken from their use at `src/ships/ship.rs:48-51`.
- Lifetimes and `&Player` references: the game holds the two names, and the turn holds the name of the player to move.
- `HashMap` hashing and iteration order: only keyed lookup is used, so a Dafny `map` is used.
- Error strings: errors are a datatype, and `Message` gives each error's text. The start messages "User1 need positioning all ships before start" and "Computer need ..." are not checked against the test strings, because the solver runs out of resource comparing those concatenations.
- `Ships.FullPosition`: models only the overflow-free case. With a debug build Rust would panic on overflow, and a release build would wrap. The game never reaches either, because every stored ship has an origin in 1..10 (`Ships.OnBoardSpanInRange`).
- `Turns.Turn`: `round` is a `nat` rather than a `usize`. Nothing in the source increments it.
