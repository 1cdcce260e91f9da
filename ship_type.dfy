/** The kinds of ship a fleet is made of, with the names the game shows for them. */
module ShipTypes {

  /** The closed set of ship kinds, in declaration order. */
  datatype ShipType = Battleship | PatrolBoat | Submarine | Destroyer | AircraftCarrier

  /** Every variant, once each, in declaration order. */
  const AllShipTypes: seq<ShipType> := [Battleship, PatrolBoat, Submarine, Destroyer, AircraftCarrier]

  /** The derived `Debug` rendering: the variant's identifier. */
  function DebugName(t: ShipType): (s: string)
    ensures ' ' !in s
  {
    match t
    case Battleship => "Battleship"
    case PatrolBoat => "PatrolBoat"
    case Submarine => "Submarine"
    case Destroyer => "Destroyer"
    case AircraftCarrier => "AircraftCarrier"
  }

  /** The `Display` rendering, used in the duplicate-ship error message. */
  function DisplayName(t: ShipType): (s: string)
    ensures s == DebugName(t) <==> t !in {PatrolBoat, AircraftCarrier}
    ensures s != DebugName(t) ==> ' ' in s
  {
    match t
    case Battleship => "Battleship"
    case PatrolBoat => "Patrol Boat"
    case Submarine => "Submarine"
    case Destroyer => "Destroyer"
    case AircraftCarrier => "Aircraft Carrier"
  }

  /** There are exactly five ship kinds. */
  lemma ExactlyFiveVariants()
    ensures |AllShipTypes| == 5
    ensures forall t: ShipType :: t in AllShipTypes
    ensures forall i, j :: 0 <= i < j < |AllShipTypes| ==> AllShipTypes[i] != AllShipTypes[j]
  {
    forall t: ShipType ensures t in AllShipTypes {
      match t
      case Battleship => assert AllShipTypes[0] == t;
      case PatrolBoat => assert AllShipTypes[1] == t;
      case Submarine => assert AllShipTypes[2] == t;
      case Destroyer => assert AllShipTypes[3] == t;
      case AircraftCarrier => assert AllShipTypes[4] == t;
    }
  }

  /** Distinct kinds are shown under distinct names. */
  lemma DisplayNameInjective(a: ShipType, b: ShipType)
    ensures DisplayName(a) == DisplayName(b) <==> a == b
  {
  }

  /** The set of every ship kind. */
  function AllShipTypeSet(): set<ShipType>
  {
    set t | t in AllShipTypes
  }

  /** The set of every kind holds each kind, and removing one kind leaves four. */
  lemma {:induction false} AllButOne(t: ShipType)
    ensures t in AllShipTypeSet()
    ensures |AllShipTypeSet()| == 5
    ensures |AllShipTypeSet() - {t}| == 4
  {
    ExactlyFiveVariants();
    assert AllShipTypeSet() == {Battleship, PatrolBoat, Submarine, Destroyer, AircraftCarrier};
  }

  /** A set of ship kinds has at most five members, and five only when it holds every kind. */
  lemma {:induction false} AtMostFiveKinds(s: set<ShipType>)
    ensures |s| <= 5
    ensures |s| == 5 ==> forall t: ShipType :: t in s
  {
    forall t | t in s ensures t in AllShipTypeSet() {
      AllButOne(t);
    }
    AllButOne(Battleship);
    SubsetCardinality(s, AllShipTypeSet());
    if |s| == 5 {
      forall t: ShipType ensures t in s {
        if t !in s {
          AllButOne(t);
          SubsetCardinality(s, AllShipTypeSet() - {t});
        }
      }
    }
  }

  /** A subset is no larger than its superset. */
  lemma {:induction false} SubsetCardinality(a: set<ShipType>, b: set<ShipType>)
    requires a <= b
    ensures |a| <= |b|
    decreases a
  {
    if a != {} {
      var x :| x in a;
      SubsetCardinality(a - {x}, b - {x});
    }
  }
}
