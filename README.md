# gciosBags scoring engine in Dafny

gciosBags is an iOS scorekeeper for cornhole. Two teams, red and blue, take turns
throwing bags at a board. A bag is out (0 points), on the board (1 point) or in the
hole (3 points). Each team throws four bags per round, alternating, and the round's
starting team throws first. The team with more points in a round wins it and adds the
difference to its game score. A tied round adds nothing. The game ends once a team has
at least 21 points and leads by at least 2. The winner of a round starts the next one;
after a tie, the same team starts again.

This project models the scoring engine and proves its rules:

- `Teams` (teams.dfy) and `Throws` (throws.dfy) are the `Team` and `Throw`
  enumerations as datatypes, with team names, point values and the totals of throw
  lists.
- `Rounds` (round.dfy) is the `Round` class: a fixed starting team and two mutable
  throw lists.
- `Games` (game.dfy) is the `Game` class: a growing, never empty list of rounds whose
  last element is the current round.
- `Scoring` (game_scorer.dfy) is `GameScorer`, together with the `GameState` and
  `RoundResult` enumerations:
  - the pure queries are functions (`Result`, `NextTeamToThrow`, `CurrentGameState`,
    `GameWinner`, …);
  - the game score is both a specification function (`GameScore`) and the scorer's
    accumulating loop (`Score`), proved equal;
  - `AddThrow`, `ClearCurrentRound` and `StartNewRound` are methods that update the
    rounds in place.

  Every mutation keeps `WellPlayed`: every earlier round has been played out, and in
  the current round nobody has thrown more than four bags and the starting team is
  level with the other team or one bag ahead.
- `GameScenarios` (scenarios.dfy) plays the unit-test scenarios of
  gciosBagsTests/GameTests.swift through the model's methods. The expected scores and
  states are asserted from the operations' contracts alone.

The model follows the code wherever a comment says something else:

- The comment on `GameState` (gciosBags/GameScorer.swift:15) says "more than 21" and
  "more than 2". The code tests `>= 21` and `>= 2`, and so does `GameOverAt`.
- The comment on `nextTeamToThrow` (gciosBags/GameScorer.swift:68) says it returns
  nil when the game is over. The code returns nil when the current round is over,
  whatever the score. `NextTeamToThrow` states the latter.
- The comment in `testTwoPointDifferenceRule` (gciosBagsTests/GameTests.swift:117)
  announces a 23–21 game. The test itself, and `TwentyTwoTwenty`, reach 22–20.

## Model

| member | source | states |
|---|---|---|
| Teams.Team.Name | gciosBags/Team.swift:16-21 | a team's name is never empty |
| Teams.NameValues | gciosBags/Team.swift:16-21 | red is named "Red" and blue "Blue" |
| Teams.NameInjective | gciosBags/Team.swift:16-21 | two teams have the same name exactly when they are the same team |
| Teams.Team.Other | gciosBags/GameScorer.swift:74 | the scorer's "second team" is always the opponent, never the team itself |
| Teams.OtherIsInvolution | gciosBags/Team.swift:12-14 | there are exactly two teams, and taking the opponent twice gives back the team, with no fixed point |
| Throws.Throw.Points | gciosBags/Throw.swift:16-23 | a throw is worth between 0 and 3 points and never 2 |
| Throws.PointValues | gciosBags/Throw.swift:17-23 | out is worth 0, board 1 and hole 3 |
| Throws.PointsInjective | gciosBags/Throw.swift:16-19 | different throws are worth different points, and equal points mean the same throw |
| Throws.TotalPoints | gciosBags/GameScorer.swift:85 | the sum of a throw list's points lies between 0 and three times its length |
| Throws.TotalPointsAppend | gciosBags/GameScorer.swift:85 | appending a throw adds exactly that throw's points to the total |
| Throws.TotalPointsByKind | gciosBags/GameScorer.swift:85 | a total is three points per bag in the hole plus one per bag on the board |
| Throws.TotalPointsOrderFree | gciosBags/GameScorer.swift:85 | two lists holding the same throws in any order have the same total |
| Throws.TotalPointsOfFour | gciosBags/GameScorer.swift:85 | a team's four-bag round totals the points of its four throws |
| Rounds.Round.constructor | gciosBags/Round.swift:23-25 | a new round has the given starting team and two empty throw lists, so it is new |
| Games.Game.CurrentRoundNumber | gciosBags/Game.swift:15-17 | the round number counts the rounds and is at least 1 in a valid game |
| Games.Game.CurrentRound | gciosBags/Game.swift:19-21 | the current round is a different object from every earlier round, so changing it leaves the earlier rounds alone |
| Games.Game.constructor | gciosBags/Game.swift:23-25 | a new game holds exactly one fresh, new round, started by the given team (red by default) |
| Scoring.GameOverAt | gciosBags/GameScorer.swift:143-151 | the score test is game over exactly when one team has at least 21 points and leads by at least 2 |
| Scoring.GameScorer.constructor | gciosBags/GameScorer.swift:47-49 | the scorer works on the game it is given, and a game on its first, untouched round is well played |
| Scoring.GameScorer.ScoreInRound | gciosBags/GameScorer.swift:84-86 | a team's round score is between 0 and three points per bag it has thrown |
| Scoring.GameScorer.NumberOfThrowsInRound | gciosBags/GameScorer.swift:89-91 | a team's throw count in a round is never negative |
| Scoring.GameScorer.Result | gciosBags/GameScorer.swift:94-107 | a round is in progress exactly when it is not over; an over round with no winner is a tie with margin 0; otherwise the winner outscored the loser by exactly the positive margin, which is at most 12 |
| Scoring.GameScorer.RoundPoints | gciosBags/GameScorer.swift:57-63 | a round adds to a team's game score its lead over the opponent when the round is over and the team outscored the opponent, and nothing otherwise |
| Scoring.GameScorer.OneTeamScoresPerRound | gciosBags/GameScorer.swift:94-107 | at most one team gains points from a round, and the two gains add up to the round's margin |
| Scoring.GameScorer.GameScore | gciosBags/GameScorer.swift:54-66 | a game score is never negative |
| Scoring.GameScorer.GameScoresSplitMargins | gciosBags/GameScorer.swift:54-66 | the two game scores together equal the sum of the margins of all decided rounds |
| Scoring.GameScorer.GameScoreMonotone | gciosBags/GameScorer.swift:54-66 | a team's game score over a prefix of the rounds is never larger than over all rounds |
| Scoring.GameScorer.GameScoreAppend | gciosBags/GameScorer.swift:57-63 | one more round adds exactly that round's points to a team's game score |
| Scoring.GameScorer.Score | gciosBags/GameScorer.swift:54-66 | the scorer's loop over the rounds returns the team's game score |
| Scoring.GameScorer.RoundOverAfterEightThrows | gciosBags/GameScorer.swift:170-172 | in a round played in turn order, the round is over exactly when eight bags have been thrown |
| Scoring.GameScorer.NextTeamToThrow | gciosBags/GameScorer.swift:69-81 | nobody throws next exactly when the current round is over; otherwise the starting team throws when both counts are equal and the other team when they differ, so in turn order the starter throws the odd-numbered bags |
| Scoring.GameScorer.IsGameOver | gciosBags/GameScorer.swift:143-151 | the game is over exactly when one team's game score has reached 21 and leads the other's by at least 2 |
| Scoring.GameScorer.CurrentGameState | gciosBags/GameScorer.swift:160-168 | the state is game over exactly when the game is over; otherwise round over exactly when the current round has a result, and in progress exactly when some team is to throw |
| Scoring.GameScorer.GameWinner | gciosBags/GameScorer.swift:153-158 | there is a winner exactly when the state is game over, and the winner has clinched the game against the other team |
| Scoring.GameScorer.AddThrow | gciosBags/GameScorer.swift:112-120 | the throw is appended to exactly the list of the team whose turn it was, and otherwise nothing changes; the rounds and every earlier round stay as they were; the game scores move by what the current round now adds; the turn-order invariant is kept |
| Scoring.GameScorer.ClearCurrentRound | gciosBags/GameScorer.swift:123-126 | the current round is emptied, while the rounds and every earlier round stay as they were; each game score loses what the current round had added; the turn-order invariant is kept |
| Scoring.GameScorer.CurrentRoundChanged | gciosBags/GameScorer.swift:112-126 | when only the current round's lists change, each game score changes by the difference in what that round adds, and the earlier rounds stay played out |
| Scoring.GameScorer.AppendedRoundFacts | gciosBags/GameScorer.swift:129-139 | appending a new round changes no game score and turns a finished round into a round in progress, keeping the turn-order invariant |
| Scoring.GameScorer.StartNewRound | gciosBags/GameScorer.swift:129-139 | outside the round-over state nothing changes; in it, exactly one fresh, new round is appended, started by the last round's winner (its starter on a tie), and play resumes; game scores are unchanged, the round number never decreases, and the turn-order invariant is kept |
| GameScenarios.OneBoard | gciosBagsTests/GameTests.swift:31-32 | after red's first board in a new game, red's list is that board and blue's is empty |
| GameScenarios.BoardThenHole | gciosBagsTests/GameTests.swift:43 | blue's following throw goes to blue's list, not red's |
| GameScenarios.RoundOverLogic | gciosBagsTests/GameTests.swift:55-72 | four boards against four outs end the first round 4–0 to red, with the state round over |
| GameScenarios.SecondRoundAfterBoards | gciosBagsTests/GameTests.swift:74-88 | a new round after that makes round 2, new and started by red, with the game still 4–0 |
| GameScenarios.TwelveNil | gciosBagsTests/GameTests.swift:93-97 | four holes against four outs win red the first round by 12 |
| GameScenarios.TwelveNilThenNewRound | gciosBagsTests/GameTests.swift:98 | red, the round's winner, starts round 2 at 12–0 |
| GameScenarios.TwentyOneNil | gciosBagsTests/GameTests.swift:100-112 | three holes and an out against four outs bring red to 21–0 in round 2 |
| GameScenarios.AfterSecondRound | gciosBagsTests/GameTests.swift:126-131 | blue's four holes against red's outs level the game at 12–12, and blue starts round 3 |
| GameScenarios.AfterThirdRound | gciosBagsTests/GameTests.swift:133-138 | blue's holes against red's boards make it 12–20, and blue starts round 4 |
| GameScenarios.AfterFourthRound | gciosBagsTests/GameTests.swift:140-145 | red's holes against blue's boards make it 20–20, and red starts round 5 |
| GameScenarios.AfterFifthRound | gciosBagsTests/GameTests.swift:147-154 | one red board makes it 21–20, and red starts round 6 |
| GameScenarios.TwentyTwoTwenty | gciosBagsTests/GameTests.swift:160-171 | one more red board makes it 22–20, and the two further requests for a new round change no score |
| GameScenarios.OpeningRound | gciosBagsTests/GameTests.swift:55-64 | in a new game, red's four throws alternating with blue's four end the first round, with each team's round score the total of its throws and each game score what that round adds |
| GameScenarios.ThrowPair | gciosBagsTests/GameTests.swift:76-79 | two throws from a level round go one to the starting team and one to the other team |
| GameScenarios.PlayRound | gciosBagsTests/GameTests.swift:94-97 | eight alternating throws fill the starter's list with its four and the other's with its four, and each game score gains that round's points |
| GameScenarios.PlayAndStartNext | gciosBagsTests/GameTests.swift:120-124 | after a full round and a request for a new round, the round's winner gains its margin; unless the game is over, the next round is fresh and new and the winner (the starter on a tie) starts it |

`NewGameHasCorrectState`, `AddThrowGeneratesCorrectRoundAndGameScore`,
`SecondThrowGoesToTheOtherTeam`, `StartNewRoundScenario`, `GameOverLogic`,
`TwentyOneTwentyPlaysOn` and `TwoPointDifferenceRule` hold the tests' checks as
assertions. The following are definitions that the contracts above use:

- `Round.IsNew` (gciosBags/Round.swift:19-21): no bag has been thrown in the round.
- `GameScorer.IsRoundOver` (gciosBags/GameScorer.swift:170-172): both teams have
  thrown four bags.
- `GameScorer.ThrowsInRound` (gciosBags/GameScorer.swift:174-179): red's list for
  red and blue's list for blue.
- `Game.Valid`, `InTurnOrder`, `WellPlayed`, `TotalMargin`, `Abs` and `Clinches`
  have no counterpart of their own in the source. They name the invariants and
  sums that the contracts state.

## Left out

- The user interface: the UIKit view controller, with its alerts, labels, tap
  geometry, notifications and clear-and-replay rescoring. The bag views, with their
  random rotation and images. None of it is part of scoring. The replay uses only
  `ClearCurrentRound` and `AddThrow`, which are modelled.
- The default argument of the scorer's initializer. A caller writes
  `new GameScorer(new Game())`, and `Game`'s own default starting team (red) is kept.
- Scoring.GameScorer.constructor: requires a valid game, with at least one round and
  no round object listed twice. Swift would let a caller hand in a game built
  otherwise. The model excludes empty games, where `currentRound` would crash, and
  aliased rounds, where one throw would land in two rounds.
- The computed properties `gameState` and `winner` are the functions
  `CurrentGameState` and `GameWinner`, which they only forward to.
- Swift's 64-bit `Int`, which traps on overflow, is modelled as Dafny's unbounded
  `int`. Scores cannot come near that bound.
- Team names appear only as their literal values, `Name`.
- Scoring.GameScorer.NumberOfThrowsInRound: its contract states only that the count
  is never negative. That the count is the length of the team's list is its
  definition, not a proved property.
- Scoring.GameScorer.AddThrow: the turn-order invariant (`WellPlayed`) is stated as
  kept by each operation (`old(WellPlayed()) ==> WellPlayed()`) rather than required
  by `Valid`, because Swift callers may hand the scorer any game. The same holds for
  `ClearCurrentRound` and `StartNewRound`.
