/** Whose turn it is, and in which round. */
module Turns {

  datatype Option<T> = None | Some(value: T)

  /** The turn state: a round counter and the player (by name) to move, if any. */
  class Turn {
    var round: nat
    var player: Option<string>

    /** A fresh turn: round 0 and nobody to move yet. */
    constructor ()
      ensures round == 0 && player == None
    {
      round := 0;
      player := None;
    }

    /** The player to move; reading it changes nothing. */
    function Player(): (p: Option<string>)
      reads this
      ensures p == player
    {
      player
    }

    /** The round counter; reading it changes nothing. */
    function Round(): (n: nat)
      reads this
      ensures n == round
    {
      round
    }

    /** Hands the turn to `p`; the round is left as it was. */
    method Change(p: string)
      modifies this
      ensures player == Some(p)
      ensures round == old(round)
    {
      player := Some(p);
    }
  }

  /** Two changes in a row: the last one wins, and the round stays. */
  method ChangeTwice(t: Turn, p: string, q: string)
    modifies t
    ensures t.Player() == Some(q)
    ensures t.Round() == old(t.Round())
  {
    t.Change(p);
    t.Change(q);
  }

  /** Changing a turn twice to one player leaves it as changing an equal turn once. */
  method ChangeIdempotent(once: Turn, twice: Turn, p: string)
    requires once != twice
    requires once.round == twice.round && once.player == twice.player
    modifies once, twice
    ensures once.round == twice.round && once.player == twice.player
  {
    once.Change(p);
    twice.Change(p);
    twice.Change(p);
  }
}
