/**
 * The scoring engine: derives round results, game scores, whose turn it is,
 * the game state and the winner from a game's rounds, and changes the game by
 * adding a throw, clearing the current round or starting a new round.
 */
module Scoring {
  import opened Options
  import opened Teams
  import opened Throws
  import opened Rounds
  import opened Games

  /** Bags each team throws in a round. */
  const ThrowsPerRound := 4
  /** A game ends once a team has at least this many points ... */
  const WinningScore := 21
  /** ... and leads by at least this many. */
  const WinningMargin := 2

  datatype GameState = RoundInProgress | RoundOver | GameOver

  /** A round is in progress, or over with its winner (none on a tie) and the winner's margin. */
  datatype RoundResult = InProgress | Over(winner: Option<Team>, pointDiff: int)

  function Abs(x: int): int
  {
    if x < 0 then -x else x
  }

  /** `score` has reached the winning score and leads `opponent` by the winning margin. */
  predicate Clinches(score: int, opponent: int)
  {
    score >= WinningScore && score >= opponent + WinningMargin
  }

  /** The game-over test on the two game scores. */
  function GameOverAt(redScore: int, blueScore: int): (over: bool)
    ensures over <==> Clinches(redScore, blueScore) || Clinches(blueScore, redScore)
  {
    (redScore >= WinningScore || blueScore >= WinningScore) && Abs(redScore - blueScore) >= WinningMargin
  }

  class GameScorer {
    const game: Game

    ghost predicate Valid()
      reads game
    {
      game.Valid()
    }

    constructor (game: Game)
      requires game.Valid()
      ensures this.game == game && Valid()
      ensures game.CurrentRoundNumber() == 1 && game.CurrentRound().IsNew() ==> WellPlayed()
    {
      this.game := game;
    }

    // -- Round queries

    static function ThrowsInRound(round: Round, team: Team): (ts: seq<Throw>)
      reads round
    {
      match team
      case Red => round.redThrows
      case Blue => round.blueThrows
    }

    /** Points a team has made in a round. */
    static function ScoreInRound(round: Round, team: Team): (s: int)
      reads round
      ensures 0 <= s <= 3 * NumberOfThrowsInRound(round, team)
    {
      TotalPoints(ThrowsInRound(round, team))
    }

    static function NumberOfThrowsInRound(round: Round, team: Team): (n: int)
      reads round
      ensures n >= 0
    {
      |ThrowsInRound(round, team)|
    }

    /** Both teams have thrown all their bags. */
    static predicate IsRoundOver(round: Round)
      reads round
    {
      |round.redThrows| == ThrowsPerRound && |round.blueThrows| == ThrowsPerRound
    }

    /**
     * A round is over when both teams have thrown four bags; the team with more
     * points wins it by the difference, and equal points make a tie.
     */
    static function Result(round: Round): (r: RoundResult)
      reads round
      ensures r.InProgress? <==> !IsRoundOver(round)
      ensures r.Over? ==> 0 <= r.pointDiff <= 3 * ThrowsPerRound
      ensures r.Over? && r.winner.None? ==>
        r.pointDiff == 0 && ScoreInRound(round, Red) == ScoreInRound(round, Blue)
      ensures r.Over? && r.winner.Some? ==>
        r.pointDiff > 0 &&
        ScoreInRound(round, r.winner.value) == ScoreInRound(round, r.winner.value.Other()) + r.pointDiff
    {
      if !IsRoundOver(round) then InProgress
      else
        var redTeamPoints := ScoreInRound(round, Red);
        var blueTeamPoints := ScoreInRound(round, Blue);
        if redTeamPoints == blueTeamPoints then Over(None, 0)
        else if redTeamPoints > blueTeamPoints then Over(Some(Red), redTeamPoints - blueTeamPoints)
        else Over(Some(Blue), blueTeamPoints - redTeamPoints)
    }

    /** What a round adds to a team's game score. */
    static function RoundPoints(round: Round, team: Team): (p: int)
      reads round
      ensures p == if IsRoundOver(round) && ScoreInRound(round, team) > ScoreInRound(round, team.Other())
                   then ScoreInRound(round, team) - ScoreInRound(round, team.Other())
                   else 0
    {
      match Result(round)
      case Over(winner, roundScore) => if winner == Some(team) then roundScore else 0
      case InProgress => 0
    }

    /** At most one team scores in a round. */
    static lemma OneTeamScoresPerRound(round: Round)
      ensures RoundPoints(round, Red) == 0 || RoundPoints(round, Blue) == 0
      ensures RoundPoints(round, Red) + RoundPoints(round, Blue) ==
              match Result(round) case Over(_, diff) => diff case InProgress => 0
    {
    }

    // -- Game score

    /** The game score of a team: the margins of the rounds it won. */
    static function GameScore(rounds: seq<Round>, team: Team): (s: int)
      reads rounds
      ensures s >= 0
      decreases |rounds|
    {
      if rounds == [] then 0
      else GameScore(rounds[..|rounds| - 1], team) + RoundPoints(rounds[|rounds| - 1], team)
    }

    /** The sum of the margins of all decided rounds. */
    static function TotalMargin(rounds: seq<Round>): (m: int)
      reads rounds
      decreases |rounds|
    {
      if rounds == [] then 0
      else TotalMargin(rounds[..|rounds| - 1]) +
           match Result(rounds[|rounds| - 1]) case Over(_, diff) => diff case InProgress => 0
    }

    /** Together the two teams have scored exactly the margins of the decided rounds. */
    static lemma {:induction false} GameScoresSplitMargins(rounds: seq<Round>)
      ensures GameScore(rounds, Red) + GameScore(rounds, Blue) == TotalMargin(rounds)
      decreases |rounds|
    {
      if rounds != [] {
        GameScoresSplitMargins(rounds[..|rounds| - 1]);
        OneTeamScoresPerRound(rounds[|rounds| - 1]);
      }
    }

    /** Playing on never lowers a team's game score. */
    static lemma {:induction false} GameScoreMonotone(rounds: seq<Round>, k: nat, team: Team)
      requires k <= |rounds|
      ensures GameScore(rounds[..k], team) <= GameScore(rounds, team)
      decreases |rounds|
    {
      if k < |rounds| {
        var init := rounds[..|rounds| - 1];
        assert init[..k] == rounds[..k];
        GameScoreMonotone(init, k, team);
      } else {
        assert rounds[..k] == rounds;
      }
    }

    static lemma GameScoreAppend(rounds: seq<Round>, round: Round, team: Team)
      ensures GameScore(rounds + [round], team) == GameScore(rounds, team) + RoundPoints(round, team)
    {
      assert (rounds + [round])[..|rounds|] == rounds;
    }

    /** Current score of a team. */
    method Score(team: Team) returns (gameScore: int)
      ensures gameScore == GameScore(game.rounds, team)
    {
      gameScore := 0;
      var rounds := game.rounds;
      for i := 0 to |rounds|
        invariant gameScore == GameScore(rounds[..i], team)
      {
        assert rounds[..i + 1][..i] == rounds[..i];
        match Result(rounds[i])
        case Over(winner, roundScore) =>
          if winner == Some(team) {
            gameScore := gameScore + roundScore;
          }
        case InProgress =>
      }
      assert rounds[..|rounds|] == rounds;
    }

    // -- Turn order

    /**
     * The current round follows the turn order: nobody has thrown more than four
     * bags, and the starting team has thrown as many bags as the other team or one more.
     */
    static predicate InTurnOrder(round: Round)
      reads round
    {
      var first := NumberOfThrowsInRound(round, round.startingTeam);
      var second := NumberOfThrowsInRound(round, round.startingTeam.Other());
      first <= ThrowsPerRound && second <= ThrowsPerRound && (first == second || first == second + 1)
    }

    /** A round in turn order is over exactly when eight bags have been thrown. */
    static lemma RoundOverAfterEightThrows(round: Round)
      requires InTurnOrder(round)
      ensures IsRoundOver(round) <==> |round.redThrows| + |round.blueThrows| == 2 * ThrowsPerRound
    {
    }

    /** Every earlier round was played out, and the current round is in turn order. */
    ghost predicate WellPlayed()
      reads game, game.rounds
      requires Valid()
    {
      && (forall i :: 0 <= i < |game.rounds| - 1 ==> IsRoundOver(game.rounds[i]))
      && InTurnOrder(game.CurrentRound())
    }

    /**
     * The team to throw next in the current round, none once the round is over.
     * In turn order, the starting team throws the odd-numbered bags of the round
     * and the other team the even-numbered ones.
     */
    function NextTeamToThrow(): (next: Option<Team>)
      reads game, game.rounds
      requires Valid()
      ensures next.None? <==> IsRoundOver(game.CurrentRound())
      ensures var round := game.CurrentRound();
        next.Some? ==>
          next.value == if NumberOfThrowsInRound(round, Red) == NumberOfThrowsInRound(round, Blue)
                        then round.startingTeam else round.startingTeam.Other()
      ensures var round := game.CurrentRound();
        next.Some? && InTurnOrder(round) ==>
          next.value == if (|round.redThrows| + |round.blueThrows|) % 2 == 0
                        then round.startingTeam else round.startingTeam.Other()
    {
      var round := game.CurrentRound();
      if IsRoundOver(round) then None
      else
        var secondTeam := if round.startingTeam == Red then Blue else Red;
        if |round.redThrows| == |round.blueThrows| then Some(round.startingTeam)
        else Some(secondTeam)
    }

    // -- Game state

    function IsGameOver(): (over: bool)
      reads game, game.rounds
      ensures over <==>
        (|| Clinches(GameScore(game.rounds, Red), GameScore(game.rounds, Blue))
         || Clinches(GameScore(game.rounds, Blue), GameScore(game.rounds, Red)))
    {
      GameOverAt(GameScore(game.rounds, Red), GameScore(game.rounds, Blue))
    }

    /** Game over takes precedence over the end of a round. */
    function CurrentGameState(): (state: GameState)
      reads game, game.rounds
      requires Valid()
      ensures state == GameOver <==> IsGameOver()
      ensures state == RoundOver <==> !IsGameOver() && Result(game.CurrentRound()).Over?
      ensures state == RoundInProgress <==> !IsGameOver() && NextTeamToThrow().Some?
    {
      if IsGameOver() then GameOver
      else if IsRoundOver(game.CurrentRound()) then RoundOver
      else RoundInProgress
    }

    /** The winner of the game, once it is over: a team that clinched it. */
    function GameWinner(): (winner: Option<Team>)
      reads game, game.rounds
      requires Valid()
      ensures winner.Some? <==> CurrentGameState() == GameOver
      ensures winner.Some? ==>
        Clinches(GameScore(game.rounds, winner.value), GameScore(game.rounds, winner.value.Other()))
    {
      if CurrentGameState() != GameOver then None
      else if GameScore(game.rounds, Red) > GameScore(game.rounds, Blue) then Some(Red)
      else Some(Blue)
    }

    // -- Scoring

    /** Adds a throw for the team whose turn it is; does nothing once the round is over. */
    method AddThrow(newThrow: Throw)
      requires Valid()
      modifies game.CurrentRound()
      ensures Valid() && game.rounds == old(game.rounds)
      ensures unchanged(game.rounds[..|game.rounds| - 1])
      ensures var round := game.CurrentRound();
        && round.redThrows ==
             old(round.redThrows) + (if old(NextTeamToThrow()) == Some(Red) then [newThrow] else [])
        && round.blueThrows ==
             old(round.blueThrows) + (if old(NextTeamToThrow()) == Some(Blue) then [newThrow] else [])
      ensures old(NextTeamToThrow()).Some? ==> !game.CurrentRound().IsNew()
      ensures old(NextTeamToThrow()).None? ==>
        forall team: Team :: GameScore(game.rounds, team) == old(GameScore(game.rounds, team))
      ensures old(NextTeamToThrow()).Some? ==>
        forall team: Team ::
          GameScore(game.rounds, team) == old(GameScore(game.rounds, team)) + RoundPoints(game.CurrentRound(), team)
      ensures old(WellPlayed()) ==> WellPlayed()
    {
      var next := NextTeamToThrow();
      if next.None? {
        return;
      }
      var round := game.CurrentRound();
      match next.value {
        case Red =>
          round.redThrows := round.redThrows + [newThrow];
        case Blue =>
          round.blueThrows := round.blueThrows + [newThrow];
      }
      CurrentRoundChanged();
    }

    /** Removes every throw of the current round. */
    method ClearCurrentRound()
      requires Valid()
      modifies game.CurrentRound()
      ensures Valid() && game.rounds == old(game.rounds)
      ensures unchanged(game.rounds[..|game.rounds| - 1])
      ensures game.CurrentRound().IsNew()
      ensures forall team: Team ::
        GameScore(game.rounds, team) == old(GameScore(game.rounds, team)) - old(RoundPoints(game.CurrentRound(), team))
      ensures old(WellPlayed()) ==> WellPlayed()
    {
      var round := game.CurrentRound();
      round.redThrows := [];
      round.blueThrows := [];
      CurrentRoundChanged();
    }

    /**
     * When only the current round has changed, each game score changes by what
     * the current round adds to it, and the earlier rounds are still played out.
     */
    twostate lemma CurrentRoundChanged()
      requires old(Valid()) && Valid() && game.rounds == old(game.rounds)
      requires unchanged(game.rounds[..|game.rounds| - 1])
      ensures forall team: Team ::
        GameScore(game.rounds, team) ==
          old(GameScore(game.rounds, team)) - old(RoundPoints(game.CurrentRound(), team))
          + RoundPoints(game.CurrentRound(), team)
      ensures old(WellPlayed()) && InTurnOrder(game.CurrentRound()) ==> WellPlayed()
    {
      var earlier, round := game.rounds[..|game.rounds| - 1], game.CurrentRound();
      assert game.rounds == earlier + [round];
      forall team: Team
        ensures GameScore(game.rounds, team) ==
          old(GameScore(game.rounds, team)) - old(RoundPoints(round, team)) + RoundPoints(round, team)
      {
        GameScoreAppend(earlier, round, team);
      }
      if old(WellPlayed()) && InTurnOrder(round) {
        forall i | 0 <= i < |game.rounds| - 1
          ensures IsRoundOver(game.rounds[i])
        {
          assert game.rounds[i] == earlier[i];
          assert old(IsRoundOver(game.rounds[i]));
        }
      }
    }

    /**
     * Appending a new round changes neither game score, so a game that was
     * between rounds is back in play, with every earlier round played out.
     */
    twostate lemma AppendedRoundFacts(new round: Round)
      requires old(Valid()) && Valid()
      requires game.rounds == old(game.rounds) + [round]
      requires unchanged(old(game.rounds))
      requires round.IsNew()
      ensures forall team: Team :: GameScore(game.rounds, team) == old(GameScore(game.rounds, team))
      ensures old(CurrentGameState()) == RoundOver ==> CurrentGameState() == RoundInProgress
      ensures old(WellPlayed()) && old(CurrentGameState()) == RoundOver ==> WellPlayed()
    {
      var before := old(game.rounds);
      forall team: Team
        ensures GameScore(game.rounds, team) == old(GameScore(game.rounds, team))
      {
        assert GameScore(before, team) == old(GameScore(before, team));
        GameScoreAppend(before, round, team);
      }
      if old(WellPlayed()) && old(CurrentGameState()) == RoundOver {
        forall i | 0 <= i < |game.rounds| - 1
          ensures IsRoundOver(game.rounds[i])
        {
          assert game.rounds[i] == before[i];
          if i < |before| - 1 {
            assert old(IsRoundOver(game.rounds[i]));
          }
        }
      }
    }

    /**
     * Once a round is over and the game is not, starts the next round, which the
     * winner of the last round starts (its starter again on a tie). Does nothing
     * in any other state.
     */
    method StartNewRound()
      requires Valid()
      modifies game
      ensures Valid()
      ensures old(CurrentGameState()) != RoundOver ==> game.rounds == old(game.rounds)
      ensures old(CurrentGameState()) == RoundOver ==>
        && game.rounds[..|game.rounds| - 1] == old(game.rounds)
        && fresh(game.CurrentRound())
        && game.CurrentRound().IsNew()
        && game.CurrentRound().startingTeam ==
             (match old(Result(game.CurrentRound()))
              case Over(Some(winner), _) => winner
              case _ => old(game.CurrentRound()).startingTeam)
        && CurrentGameState() == RoundInProgress
      ensures forall team: Team :: GameScore(game.rounds, team) == old(GameScore(game.rounds, team))
      ensures game.CurrentRoundNumber() >= old(game.CurrentRoundNumber())
      ensures old(WellPlayed()) ==> WellPlayed()
    {
      if CurrentGameState() != RoundOver {
        return;
      }
      var lastRound := game.CurrentRound();
      match Result(lastRound)
      case Over(winner, _) =>
        var nextRoundStarter := if winner.Some? then winner.value else lastRound.startingTeam;
        var round := new Round(nextRoundStarter);
        ghost var before := game.rounds;
        game.rounds := game.rounds + [round];
        assert game.Valid() by {
          forall i, j | 0 <= i < j < |game.rounds|
            ensures game.rounds[i] != game.rounds[j]
          {
            if j < |before| {
              assert before[i] != before[j];
            }
          }
        }
        AppendedRoundFacts(round);
      case InProgress =>
    }
  }
}
