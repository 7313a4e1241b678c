/** A game: the rounds played so far, the last of which is being played. */
module Games {
  import opened Teams
  import opened Rounds

  class Game {
    var rounds: seq<Round>

    /** A game always has a current round, and no round object appears twice. */
    ghost predicate Valid()
      reads this
    {
      && |rounds| > 0
      && forall i, j :: 0 <= i < j < |rounds| ==> rounds[i] != rounds[j]
    }

    function CurrentRoundNumber(): (n: int)
      reads this
      ensures Valid() ==> n >= 1
    {
      |rounds|
    }

    /** The round being played: the last one, a different object from every earlier round. */
    function CurrentRound(): (r: Round)
      reads this
      requires Valid()
      ensures forall i :: 0 <= i < |rounds| - 1 ==> rounds[i] != r
    {
      rounds[|rounds| - 1]
    }

    constructor (startingTeam: Team := Red)
      ensures Valid() && CurrentRoundNumber() == 1
      ensures fresh(CurrentRound())
      ensures CurrentRound().startingTeam == startingTeam && CurrentRound().IsNew()
    {
      var first := new Round(startingTeam);
      rounds := [first];
    }
  }
}
