/**
 * The scorer's unit-test scenarios, played through the model's operations.
 * Each test is split into the calls it makes, in methods that return the
 * scorer and describe the state it reaches, and the checks it makes, asserted
 * on that state from nothing but the operations' contracts.
 */
module GameScenarios {
  import opened Options
  import opened Teams
  import opened Throws
  import opened Rounds
  import opened Games
  import opened Scoring

  method NewGameHasCorrectState()
  {
    var game := new Game();
    var scorer := new GameScorer(game);
    assert game.CurrentRoundNumber() == 1;
    var blue := scorer.Score(Blue);
    var red := scorer.Score(Red);
    assert blue == 0 && red == 0;
    assert GameScorer.ScoreInRound(game.CurrentRound(), Blue) == 0;
    assert GameScorer.ScoreInRound(game.CurrentRound(), Red) == 0;
    assert game.CurrentRound().IsNew();
    assert scorer.CurrentGameState() == RoundInProgress;
    assert scorer.NextTeamToThrow() == Some(Red);
  }

  // -- Adding throws

  /** A new game in which red has put one bag on the board. */
  method OneBoard() returns (scorer: GameScorer)
    ensures fresh(scorer.game) && scorer.Valid() && fresh(scorer.game.CurrentRound())
    ensures scorer.game.CurrentRoundNumber() == 1
    ensures scorer.game.CurrentRound().startingTeam == Red
    ensures scorer.game.CurrentRound().redThrows == [Board]
    ensures scorer.game.CurrentRound().blueThrows == []
  {
    var game := new Game();
    scorer := new GameScorer(game);
    scorer.AddThrow(Board);
  }

  method AddThrowGeneratesCorrectRoundAndGameScore()
  {
    var scorer := OneBoard();
    var round := scorer.game.CurrentRound();
    assert scorer.game.rounds == [] + [round];
    GameScorer.GameScoreAppend([], round, Red);
    GameScorer.GameScoreAppend([], round, Blue);
    TotalPointsAppend([], Board);
    assert !GameScorer.IsRoundOver(round);
    assert scorer.game.CurrentRoundNumber() == 1;
    var blue := scorer.Score(Blue);
    var red := scorer.Score(Red);
    assert blue == 0 && red == 0;
    assert GameScorer.ScoreInRound(round, Blue) == 0;
    assert GameScorer.ScoreInRound(round, Red) == 1;
    assert !round.IsNew();
    assert scorer.CurrentGameState() == RoundInProgress;
    assert scorer.NextTeamToThrow() == Some(Blue);
  }

  /** Blue answers red's board with a bag in the hole. */
  method BoardThenHole() returns (scorer: GameScorer)
    ensures fresh(scorer.game) && scorer.Valid()
    ensures scorer.game.CurrentRoundNumber() == 1
    ensures scorer.game.CurrentRound().startingTeam == Red
    ensures scorer.game.CurrentRound().redThrows == [Board]
    ensures scorer.game.CurrentRound().blueThrows == [Hole]
  {
    scorer := OneBoard();
    scorer.AddThrow(Hole);
  }

  method SecondThrowGoesToTheOtherTeam()
  {
    var scorer := BoardThenHole();
    var round := scorer.game.CurrentRound();
    assert scorer.game.rounds == [] + [round];
    GameScorer.GameScoreAppend([], round, Red);
    GameScorer.GameScoreAppend([], round, Blue);
    TotalPointsAppend([], Board);
    TotalPointsAppend([], Hole);
    assert !GameScorer.IsRoundOver(round);
    assert scorer.game.CurrentRoundNumber() == 1;
    var blue := scorer.Score(Blue);
    var red := scorer.Score(Red);
    assert blue == 0 && red == 0;
    assert GameScorer.ScoreInRound(round, Blue) == 3;
    assert GameScorer.ScoreInRound(round, Red) == 1;
    assert !round.IsNew();
    assert scorer.CurrentGameState() == RoundInProgress;
    assert scorer.NextTeamToThrow() == Some(Red);
  }

  // -- Ending rounds

  /** Eight throws make a round: red's four boards against blue's four outs win red the round 4-0. */
  method RoundOverLogic() returns (scorer: GameScorer)
    ensures fresh(scorer.game) && scorer.Valid()
    ensures scorer.game.CurrentRoundNumber() == 1
    ensures GameScorer.GameScore(scorer.game.rounds, Blue) == 0
    ensures GameScorer.GameScore(scorer.game.rounds, Red) == 4
    ensures GameScorer.ScoreInRound(scorer.game.CurrentRound(), Blue) == 0
    ensures GameScorer.ScoreInRound(scorer.game.CurrentRound(), Red) == 4
    ensures scorer.CurrentGameState() == RoundOver
  {
    TotalPointsOfFour(Board, Board, Board, Board);
    TotalPointsOfFour(Out, Out, Out, Out);
    scorer := OpeningRound([Board, Board, Board, Board], [Out, Out, Out, Out]);
    var blue := scorer.Score(Blue);
    var red := scorer.Score(Red);
    assert blue == 0 && red == 4;
  }

  /** The round-over test's game after a new round is asked for. */
  method SecondRoundAfterBoards() returns (scorer: GameScorer)
    ensures fresh(scorer.game) && scorer.Valid() && fresh(scorer.game.CurrentRound())
    ensures AwaitingRound(scorer, 2, Red, 4, 0)
  {
    scorer := RoundOverLogic();
    scorer.StartNewRound();
  }

  method StartNewRoundScenario()
  {
    var scorer := SecondRoundAfterBoards();
    assert scorer.game.CurrentRoundNumber() == 2;
    var blue := scorer.Score(Blue);
    var red := scorer.Score(Red);
    assert blue == 0 && red == 4;
    assert GameScorer.ScoreInRound(scorer.game.CurrentRound(), Blue) == 0;
    assert GameScorer.ScoreInRound(scorer.game.CurrentRound(), Red) == 0;
    assert scorer.CurrentGameState() == RoundInProgress;
  }

  // -- Ending the game

  /** A game waiting for the first throw of round `number`, which `starter` opens, at `red`-`blue`. */
  ghost predicate AwaitingRound(scorer: GameScorer, number: int, starter: Team, red: int, blue: int)
    reads scorer.game, scorer.game.rounds
  {
    && scorer.Valid()
    && scorer.game.CurrentRoundNumber() == number
    && scorer.game.CurrentRound().IsNew()
    && scorer.game.CurrentRound().startingTeam == starter
    && GameScorer.GameScore(scorer.game.rounds, Red) == red
    && GameScorer.GameScore(scorer.game.rounds, Blue) == blue
  }

  /** The first round of the game-over test: red's four holes against blue's four outs, 12-0. */
  method TwelveNil() returns (scorer: GameScorer)
    ensures fresh(scorer.game) && scorer.Valid()
    ensures scorer.game.CurrentRoundNumber() == 1
    ensures scorer.game.CurrentRound().startingTeam == Red
    ensures GameScorer.Result(scorer.game.CurrentRound()) == Over(Some(Red), 12)
    ensures GameScorer.GameScore(scorer.game.rounds, Red) == 12
    ensures GameScorer.GameScore(scorer.game.rounds, Blue) == 0
    ensures scorer.CurrentGameState() == RoundOver
  {
    TotalPointsOfFour(Hole, Hole, Hole, Hole);
    TotalPointsOfFour(Out, Out, Out, Out);
    scorer := OpeningRound([Hole, Hole, Hole, Hole], [Out, Out, Out, Out]);
  }

  /** The winner of the first round, red, starts the second. */
  method TwelveNilThenNewRound() returns (scorer: GameScorer)
    ensures fresh(scorer.game) && scorer.Valid() && fresh(scorer.game.CurrentRound())
    ensures AwaitingRound(scorer, 2, Red, 12, 0)
  {
    scorer := TwelveNil();
    scorer.StartNewRound();
  }

  /** Three holes and an out against four outs in the second round: red reaches 21. */
  method TwentyOneNil() returns (scorer: GameScorer)
    ensures scorer.Valid()
    ensures scorer.game.CurrentRoundNumber() == 2
    ensures GameScorer.ScoreInRound(scorer.game.CurrentRound(), Red) == 9
    ensures GameScorer.ScoreInRound(scorer.game.CurrentRound(), Blue) == 0
    ensures GameScorer.GameScore(scorer.game.rounds, Red) == 21
    ensures GameScorer.GameScore(scorer.game.rounds, Blue) == 0
  {
    scorer := TwelveNilThenNewRound();
    var round := scorer.game.CurrentRound();
    PlayRound(scorer, [Hole, Hole, Hole, Out], [Out, Out, Out, Out]);
    TotalPointsOfFour(Hole, Hole, Hole, Out);
    TotalPointsOfFour(Out, Out, Out, Out);
    assert GameScorer.ScoreInRound(round, Red) == 9;
    assert GameScorer.ScoreInRound(round, Blue) == 0;
    assert GameScorer.RoundPoints(round, Red) == 9 && GameScorer.RoundPoints(round, Blue) == 0;
  }

  method GameOverLogic()
  {
    var scorer := TwentyOneNil();
    assert scorer.game.CurrentRoundNumber() == 2;
    var blue := scorer.Score(Blue);
    var red := scorer.Score(Red);
    assert blue == 0 && red == 21;
    assert GameScorer.ScoreInRound(scorer.game.CurrentRound(), Blue) == 0;
    assert GameScorer.ScoreInRound(scorer.game.CurrentRound(), Red) == 9;
    assert scorer.CurrentGameState() == GameOver;
    assert scorer.GameWinner() == Some(Red);
  }

  /** The two-point test after its second round: red opens with outs against holes, 12-12. */
  method AfterSecondRound() returns (scorer: GameScorer)
    ensures fresh(scorer.game) && scorer.Valid() && fresh(scorer.game.CurrentRound())
    ensures AwaitingRound(scorer, 3, Blue, 12, 12)
  {
    scorer := TwelveNilThenNewRound();
    TotalPointsOfFour(Out, Out, Out, Out);
    TotalPointsOfFour(Hole, Hole, Hole, Hole);
    PlayAndStartNext(scorer, [Out, Out, Out, Out], [Hole, Hole, Hole, Hole]);
  }

  /** The two-point test after its third round: blue opens with holes against boards, 12-20. */
  method AfterThirdRound() returns (scorer: GameScorer)
    ensures fresh(scorer.game) && scorer.Valid() && fresh(scorer.game.CurrentRound())
    ensures AwaitingRound(scorer, 4, Blue, 12, 20)
  {
    scorer := AfterSecondRound();
    TotalPointsOfFour(Hole, Hole, Hole, Hole);
    TotalPointsOfFour(Board, Board, Board, Board);
    PlayAndStartNext(scorer, [Hole, Hole, Hole, Hole], [Board, Board, Board, Board]);
  }

  /** The two-point test after its fourth round: blue opens with boards against holes, 20-20. */
  method AfterFourthRound() returns (scorer: GameScorer)
    ensures fresh(scorer.game) && scorer.Valid() && fresh(scorer.game.CurrentRound())
    ensures AwaitingRound(scorer, 5, Red, 20, 20)
  {
    scorer := AfterThirdRound();
    TotalPointsOfFour(Board, Board, Board, Board);
    TotalPointsOfFour(Hole, Hole, Hole, Hole);
    PlayAndStartNext(scorer, [Board, Board, Board, Board], [Hole, Hole, Hole, Hole]);
  }

  /** The two-point test after its fifth round: red opens and puts one bag on the board, 21-20. */
  method AfterFifthRound() returns (scorer: GameScorer)
    ensures fresh(scorer.game) && scorer.Valid() && fresh(scorer.game.CurrentRound())
    ensures AwaitingRound(scorer, 6, Red, 21, 20)
  {
    scorer := AfterFourthRound();
    TotalPointsOfFour(Board, Out, Out, Out);
    TotalPointsOfFour(Out, Out, Out, Out);
    PlayAndStartNext(scorer, [Board, Out, Out, Out], [Out, Out, Out, Out]);
  }

  /** Red 21, blue 20: a lead of one is not enough, the game plays on. */
  method TwentyOneTwentyPlaysOn()
  {
    var scorer := AfterFifthRound();
    var blue := scorer.Score(Blue);
    var red := scorer.Score(Red);
    assert blue == 20 && red == 21;
    assert scorer.CurrentGameState() == RoundInProgress;
  }

  /** One more board makes it 22-20; asking for a new round, twice, changes nothing. */
  method TwentyTwoTwenty() returns (scorer: GameScorer)
    ensures scorer.Valid()
    ensures GameScorer.GameScore(scorer.game.rounds, Red) == 22
    ensures GameScorer.GameScore(scorer.game.rounds, Blue) == 20
  {
    scorer := AfterFifthRound();
    TotalPointsOfFour(Board, Out, Out, Out);
    TotalPointsOfFour(Out, Out, Out, Out);
    PlayAndStartNext(scorer, [Board, Out, Out, Out], [Out, Out, Out, Out]);
    scorer.StartNewRound();
  }

  method TwoPointDifferenceRule()
  {
    var scorer := TwentyTwoTwenty();
    var blue := scorer.Score(Blue);
    var red := scorer.Score(Red);
    assert blue == 20 && red == 22;
    assert scorer.CurrentGameState() == GameOver;
  }

  // -- Helpers

  /**
   * A new game whose first round has been played out: red, the default starter,
   * throws `firsts` and blue `seconds`, alternately.
   */
  method OpeningRound(firsts: seq<Throw>, seconds: seq<Throw>) returns (scorer: GameScorer)
    requires |firsts| == ThrowsPerRound && |seconds| == ThrowsPerRound
    ensures fresh(scorer.game) && scorer.Valid()
    ensures scorer.game.CurrentRoundNumber() == 1
    ensures var round := scorer.game.CurrentRound();
      && round.startingTeam == Red
      && round.redThrows == firsts && round.blueThrows == seconds
      && GameScorer.IsRoundOver(round)
      && GameScorer.ScoreInRound(round, Red) == TotalPoints(firsts)
      && GameScorer.ScoreInRound(round, Blue) == TotalPoints(seconds)
    ensures forall team: Team ::
      GameScorer.GameScore(scorer.game.rounds, team) == GameScorer.RoundPoints(scorer.game.CurrentRound(), team)
  {
    var game := new Game();
    scorer := new GameScorer(game);
    var round := game.CurrentRound();
    assert game.rounds == [] + [round];
    GameScorer.GameScoreAppend([], round, Red);
    GameScorer.GameScoreAppend([], round, Blue);
    PlayRound(scorer, firsts, seconds);
  }

  /** One throw by each team, starting team first, in a round where both have thrown equally often. */
  method ThrowPair(scorer: GameScorer, first: Throw, second: Throw)
    requires scorer.Valid()
    requires var round := scorer.game.CurrentRound();
      && |GameScorer.ThrowsInRound(round, round.startingTeam)| < ThrowsPerRound
      && |GameScorer.ThrowsInRound(round, round.startingTeam)|
         == |GameScorer.ThrowsInRound(round, round.startingTeam.Other())|
    modifies scorer.game.CurrentRound()
    ensures scorer.Valid() && scorer.game.rounds == old(scorer.game.rounds)
    ensures var round := scorer.game.CurrentRound();
      && GameScorer.ThrowsInRound(round, round.startingTeam)
         == old(GameScorer.ThrowsInRound(round, round.startingTeam)) + [first]
      && GameScorer.ThrowsInRound(round, round.startingTeam.Other())
         == old(GameScorer.ThrowsInRound(round, round.startingTeam.Other())) + [second]
  {
    scorer.AddThrow(first);
    scorer.AddThrow(second);
  }

  /** Plays a whole round: the starting team throws `firsts`, the other team `seconds`, alternately. */
  method PlayRound(scorer: GameScorer, firsts: seq<Throw>, seconds: seq<Throw>)
    requires scorer.Valid() && scorer.game.CurrentRound().IsNew()
    requires |firsts| == ThrowsPerRound && |seconds| == ThrowsPerRound
    modifies scorer.game.CurrentRound()
    ensures scorer.Valid() && scorer.game.rounds == old(scorer.game.rounds)
    ensures var round := scorer.game.CurrentRound();
      && GameScorer.ThrowsInRound(round, round.startingTeam) == firsts
      && GameScorer.ThrowsInRound(round, round.startingTeam.Other()) == seconds
    ensures forall team: Team ::
      GameScorer.GameScore(scorer.game.rounds, team)
      == old(GameScorer.GameScore(scorer.game.rounds, team)) + GameScorer.RoundPoints(scorer.game.CurrentRound(), team)
  {
    var round := scorer.game.CurrentRound();
    for i := 0 to ThrowsPerRound
      invariant scorer.Valid() && scorer.game.rounds == old(scorer.game.rounds)
      invariant unchanged(scorer.game.rounds[..|scorer.game.rounds| - 1])
      invariant GameScorer.ThrowsInRound(round, round.startingTeam) == firsts[..i]
      invariant GameScorer.ThrowsInRound(round, round.startingTeam.Other()) == seconds[..i]
    {
      ThrowPair(scorer, firsts[i], seconds[i]);
      assert firsts[..i + 1] == firsts[..i] + [firsts[i]];
      assert seconds[..i + 1] == seconds[..i] + [seconds[i]];
    }
    assert firsts[..ThrowsPerRound] == firsts;
    assert seconds[..ThrowsPerRound] == seconds;
    scorer.CurrentRoundChanged();
  }

  /**
   * Plays a whole round and then asks for a new one, as the two-point test does
   * after every round: the round's winner gains the margin and starts the next
   * round, unless the game is over.
   */
  method PlayAndStartNext(scorer: GameScorer, firsts: seq<Throw>, seconds: seq<Throw>)
    requires scorer.Valid() && scorer.game.CurrentRound().IsNew()
    requires |firsts| == ThrowsPerRound && |seconds| == ThrowsPerRound
    modifies scorer.game, scorer.game.CurrentRound()
    ensures scorer.Valid()
    ensures var starter, a, b := old(scorer.game.CurrentRound().startingTeam), TotalPoints(firsts), TotalPoints(seconds);
      && GameScorer.GameScore(scorer.game.rounds, starter)
         == old(GameScorer.GameScore(scorer.game.rounds, starter)) + (if a > b then a - b else 0)
      && GameScorer.GameScore(scorer.game.rounds, starter.Other())
         == old(GameScorer.GameScore(scorer.game.rounds, starter.Other())) + (if b > a then b - a else 0)
    ensures !scorer.IsGameOver() ==>
      && scorer.game.CurrentRoundNumber() == old(scorer.game.CurrentRoundNumber()) + 1
      && fresh(scorer.game.CurrentRound())
      && scorer.game.CurrentRound().IsNew()
      && var starter := old(scorer.game.CurrentRound().startingTeam);
         scorer.game.CurrentRound().startingTeam
         == if TotalPoints(seconds) > TotalPoints(firsts) then starter.Other() else starter
  {
    var round := scorer.game.CurrentRound();
    var starter, a, b := round.startingTeam, TotalPoints(firsts), TotalPoints(seconds);
    PlayRound(scorer, firsts, seconds);
    assert GameScorer.ScoreInRound(round, starter) == a;
    assert GameScorer.ScoreInRound(round, starter.Other()) == b;
    assert GameScorer.RoundPoints(round, starter) == if a > b then a - b else 0;
    assert GameScorer.RoundPoints(round, starter.Other()) == if b > a then b - a else 0;
    scorer.StartNewRound();
  }
}
