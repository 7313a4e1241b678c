/** A round: each team throws four bags, in turns. */
module Rounds {
  import opened Teams
  import opened Throws

  class Round {
    /** The team that throws first; fixed when the round is created. */
    const startingTeam: Team
    var redThrows: seq<Throw>
    var blueThrows: seq<Throw>

    constructor (startingTeam: Team)
      ensures this.startingTeam == startingTeam
      ensures redThrows == [] && blueThrows == []
      ensures IsNew()
    {
      this.startingTeam := startingTeam;
      redThrows := [];
      blueThrows := [];
    }

    /** No bag has been thrown yet in this round. */
    predicate IsNew()
      reads this
    {
      |redThrows| == 0 && |blueThrows| == 0
    }
  }
}
