# College football rankings engine, modelled in Dafny

This project models the ranking engine of `rankings_lambda.py`: the `Team`
class, its class-level registry `Team.teams`, game ingestion
(`record_game`), the two strength-of-schedule (SOS) phases, the per-game
score formula with its penalty and bonus curves, and `get_rankings`, which
sorts the FBS teams into numbered rankings.

The model has two layers.

- **Value layer.** A `TeamRec` is one team as a value. A `Table` is the
  registry: the name-to-team map plus the order in which names were first
  inserted, which is the iteration order of the Python dictionary.
  - Every operation is a function on these values: `Records.RecordGame`,
    `Schedule.Seed` / `Schedule.Solve` and `Scoring.RankScore`.
  - The ranking result is specified by the predicate `Rankings.Standings`.
  - Lemmas state what the source promises about each of these functions.
- **Object layer** (`engine.dfy`).
  - `Team` and `Registry` are classes whose fields their methods update in
    place, with the loops the source has.
  - Each method is proved against the value layer through
    `Registry.Snapshot()`. For example, the registry after `RecordGame` is
    `Records.RecordGame` applied to the registry before it. After
    `GetRankings`, the SOS values are `Solve(Seed(...))` of the old ones,
    and the result satisfies `Standings`.

Worth knowing when reading the model:

- **Phase B order.** Phase B updates SOS values in place, team after team, in
  registry order. So a team visited later in a pass sees values already
  written earlier in the same pass. `Schedule.Relax` / `Sweep` / `Solve`
  model exactly that order.
- **The home test.** It reads the sign of the spread the opponent recorded.
  Ingestion always writes opposite spreads on the two sides of a game
  (`Records.RecordGameMirrored`). So against any other team the home test
  holds exactly when the team won, and every game weighs 0.9
  (`Scoring.HomeMeansWon`).
- **Ties.** A tie is recorded as a win for the away team with spread 0
  (`Records.RecordGameSpreads`, `Records.RecordGameCounts`). `rank_score`
  then scores that game through its loss branch on both sides.
- **Comments that disagree with the code.** The source's comments say the
  margins are capped at 35 points. The code caps losses at 28 and wins at 7,
  and divides wins by 21. The model follows the code:
  - the penalty plateaus at 2 from 28 points on (`Curves.PenaltyPlateau`);
  - the bonus plateaus at 1 + 0.2/9 from 7 points on (`Curves.BonusPlateau`).
- **A worked season.** `season.dfy` follows three FBS teams: `a` beats `b`
  30-10, then `b` beats `c` 20-17.
  - After phase A every SOS is 1/2, and the refinement passes leave it there.
  - Any result of `get_rankings` lists `a`, `b`, `c` in that order.

## Model

| member | source | states |
|---|---|---|
| Curves.Penalty | rankings_lambda.py:62-67 | the loss penalty 1 + (min(\|m\|, 28)/28)^2 lies in [1, 2] |
| Curves.Bonus | rankings_lambda.py:69-74 | the win bonus is at least 1, and for a positive margin lies in (1, 1 + 0.2/9] |
| Curves.PenaltyMonotone | rankings_lambda.py:62-67 | a larger margin (in absolute value) never gets a smaller penalty |
| Curves.PenaltyStrict | rankings_lambda.py:62-67 | below the 28-point cap the penalty grows strictly with the margin |
| Curves.PenaltyPlateau | rankings_lambda.py:65-66 | the penalty is 2 exactly when the margin is at least 28 points |
| Curves.PenaltyEven | rankings_lambda.py:65 | the penalty only depends on the size of the margin |
| Curves.BonusMonotone | rankings_lambda.py:69-74 | the bonus never shrinks as a non-negative margin grows |
| Curves.BonusPlateau | rankings_lambda.py:72-73 | for a positive margin the bonus reaches its ceiling 1 + 0.2/9 exactly from 7 points on |
| Records.NewTeam | rankings_lambda.py:9-14 | a new team: no games, 0 wins, 0 losses, SOS 0, with the given name and FBS flag |
| Records.AddGame | rankings_lambda.py:17-22 | add_game: the opponent's spread is written (an opponent seen before keeps its place in the key order, a new one is appended), and the win counter grows on a win, the loss counter otherwise |
| Records.Register | rankings_lambda.py:8-15 | `Team(name, is_fbs)`: a fresh team is filed under its name, replacing any team of that name; a name not yet registered is appended to the iteration order |
| Records.Ensure | rankings_lambda.py:99-100 | `Team.teams.get(name) or Team(name, fbs)`: a registered name leaves the registry as it is; any other name is registered |
| Records.HomeSpread | rankings_lambda.py:103-107 | the home side's spread: the point difference when home scored more, its negation otherwise |
| Records.AwaySpread | rankings_lambda.py:103-108 | the away side's spread: the negated point difference when home scored more, the difference otherwise |
| Records.RecordGame | rankings_lambda.py:97-108 | record_game: home then away are looked up or created, home is credited with a win exactly when it scored more, then add_game runs on the home team and then on the away team |
| Records.AddGameEffect | rankings_lambda.py:17-22 | add_game overwrites the opponent's entry, leaves other entries alone, and increments exactly one counter |
| Records.AddGameWellFormed | rankings_lambda.py:17-18 | the insertion-ordered key list stays in step with the games dictionary |
| Records.EmptyValid | rankings_lambda.py:6 | the empty registry satisfies the registry invariant |
| Records.RegisterValid | rankings_lambda.py:8-15 | filing a new team under its name keeps the registry invariant (unique names in insertion order) |
| Records.AddGameToValid | rankings_lambda.py:17-22 | recording a game against a registered opponent keeps the registry invariant |
| Records.RecordGameValid | rankings_lambda.py:97-108 | record_game keeps the registry invariant: names unique and ordered, opponents registered, SOS in [0, 1] |
| Records.RecordGameRegisters | rankings_lambda.py:99-100 | afterwards both names are registered; an existing team keeps its FBS flag; new names are appended, home first |
| Records.RecordGameFrame | rankings_lambda.py:97-108 | teams not involved in the game are unchanged |
| Records.RecordGameSpreads | rankings_lambda.py:103-108 | the two spreads are negations of each other; their size is the point difference; the home spread is positive iff home scored more; a tie is spread 0 |
| Records.RecordGameCounts | rankings_lambda.py:103-108 | exactly one side gains a win and the other a loss; a tie is a win for the away team |
| Records.RecordGameSelf | rankings_lambda.py:97-108 | a team recorded against itself gets a win and a loss, and keeps the away-side spread |
| Records.RecordGameTwice | rankings_lambda.py:107-108 | replaying a pairing overwrites both spreads but counts both games |
| Records.EnsureMirrored | rankings_lambda.py:99-100 | creating a missing team keeps every pair of spreads opposite |
| Records.RecordGameGames | rankings_lambda.py:107-108 | record_game writes only the pairing's two entries, with opposite spreads |
| Records.MirroredUpdate | rankings_lambda.py:107-108 | writing opposite spreads on one pairing keeps all spreads opposite |
| Records.RecordGameMirrored | rankings_lambda.py:97-108 | ingestion keeps the two sides of every game mirrored |
| Schedule.OpponentWins | rankings_lambda.py:33-36 | the wins of the registered names among the opponents; unregistered names are skipped |
| Schedule.OpponentLosses | rankings_lambda.py:33-37 | the losses of the registered names among the opponents; unregistered names are skipped |
| Schedule.InitialSos | rankings_lambda.py:24-40 | the initial SOS lies in [0, 1] |
| Schedule.InitialSosShare | rankings_lambda.py:39-40 | with games and a positive opponent total, SOS times that total equals the opponents' wins |
| Schedule.InitialSosExtremes | rankings_lambda.py:26-40 | SOS is 0 iff there are no games or no opponent wins; 1 iff opponents have wins and no losses |
| Schedule.InitialSosSkipsUnknown | rankings_lambda.py:33-37 | a game against an unregistered name does not change the initial SOS |
| Schedule.OpponentTotalsFramed | rankings_lambda.py:33-37 | opponent win/loss totals do not depend on SOS values |
| Schedule.SosCountFramed | rankings_lambda.py:53-57 | the count of registered opponents only depends on which names are registered |
| Schedule.SeedOne | rankings_lambda.py:113-115 | one step of the first loop of get_rankings: an FBS team gets its initial SOS, computed from the registry as it stands; other names leave it unchanged |
| Schedule.Seed | rankings_lambda.py:112-115 | the first loop of get_rankings over the first k names of the iteration order, one step after another |
| Schedule.SeedOneEffect | rankings_lambda.py:113-115 | one phase-A step sets one FBS team's SOS from the original counters and changes nothing else |
| Schedule.SeedResult | rankings_lambda.py:112-115 | phase A changes only FBS SOS values, and each visited FBS team gets its initial SOS from the counters before the phase |
| Schedule.SeedBounded | rankings_lambda.py:112-115 | after phase A every SOS is in [0, 1] |
| Schedule.SosOnlyChangeValid | rankings_lambda.py:112-118 | changing only SOS values, within [0, 1], keeps the registry invariant |
| Schedule.SosSum | rankings_lambda.py:50-56 | the SOS total of the registered opponents |
| Schedule.SosCount | rankings_lambda.py:51-57 | the number of registered opponents |
| Schedule.Average | rankings_lambda.py:50-60 | the mean SOS of the registered opponents, 0 when there are none |
| Schedule.Relax | rankings_lambda.py:46-60 | one step of a pass: an FBS team takes the mean SOS of its opponents as the registry stands at that moment; a non-FBS team is skipped |
| Schedule.Sweep | rankings_lambda.py:46-60 | the first k steps of one pass in iteration order, each step seeing the values written by the steps before it |
| Schedule.Solve | rankings_lambda.py:42-60 | calculate_recursive_sos(iterations): that many complete passes, one after another |
| Schedule.SosSumBounded | rankings_lambda.py:53-57 | the opponents' SOS total lies between 0 and their count |
| Schedule.AverageBounded | rankings_lambda.py:60 | the mean opponent SOS (0 without opponents) lies in [0, 1] |
| Schedule.RelaxKeeps | rankings_lambda.py:46-60 | one phase-B step keeps SOS in [0, 1] and changes only the SOS of an FBS team |
| Schedule.SweepKeeps | rankings_lambda.py:46-60 | a pass keeps SOS in [0, 1] and changes only FBS SOS values |
| Schedule.SolveKeeps | rankings_lambda.py:42-60 | any number of passes keeps SOS in [0, 1] and never touches a non-FBS team |
| Schedule.SweepIsolated | rankings_lambda.py:46-60 | once visited in a pass, an FBS team without registered opponents has SOS 0 for the rest of the pass |
| Schedule.SweepFrame | rankings_lambda.py:46-60 | a pass changes only SOS values |
| Schedule.SolveFrame | rankings_lambda.py:42-60 | any number of passes changes only SOS values |
| Schedule.SolveIsolated | rankings_lambda.py:42-60 | after at least one pass, an FBS team with no registered opponent has SOS 0 |
| Schedule.RelaxBalanced | rankings_lambda.py:46-60 | when every FBS SOS equals its opponents' mean, a step changes nothing |
| Schedule.SweepBalanced | rankings_lambda.py:46-60 | such a balanced registry is a fixed point of a pass |
| Schedule.SolveBalanced | rankings_lambda.py:42-60 | ... and of any number of passes |
| Scoring.IsHome | rankings_lambda.py:82 | is_home: the opponent has an entry for this team and that entry is negative |
| Scoring.Weight | rankings_lambda.py:85-91 | a win weighs 0.9 at home and 1.1 away; a loss weighs 1.1 at home and 0.9 away |
| Scoring.GameTerm | rankings_lambda.py:79-92 | one game's term: for a positive spread, weight times (opponent wins + SOS) times the bonus; otherwise (a loss or a spread of 0) minus weight times (opponent losses + SOS) times the penalty |
| Scoring.TermSum | rankings_lambda.py:77-92 | the running total of the game loop, over the games in key order |
| Scoring.RankScore | rankings_lambda.py:76-95 | rank_score: 12 over the number of games times the total, and 0 for a team without games |
| Scoring.OpponentsPlayable | rankings_lambda.py:78-79 | every game of a well-formed team whose opponents are registered can be scored |
| Scoring.RankScoreScale | rankings_lambda.py:94-95 | 0 without games; otherwise score times game count is 12 times the game total |
| Scoring.GameTermBounds | rankings_lambda.py:85-92 | a win adds between 0.9 and 1.1(1 + 0.2/9) times (opponent wins + SOS); a loss subtracts between 0.9 and 2.2 times (losses + SOS) |
| Scoring.TermSumSign | rankings_lambda.py:76-92 | with non-negative SOS, all-won game totals are ≥ 0 and all-lost ones ≤ 0 |
| Scoring.RankScoreUnbeaten | rankings_lambda.py:76-95 | with non-negative SOS, a team that won every game has a non-negative score |
| Scoring.RankScoreWinless | rankings_lambda.py:76-95 | with non-negative SOS, a team that won no game has a non-positive score |
| Scoring.HomeMeansWon | rankings_lambda.py:81-82 | on mirrored spreads, is_home holds iff the team won, so every game weighs 0.9 |
| Ordering.StrLess | rankings_lambda.py:126 | Python's `<` on strings: the first differing code point decides, and a proper prefix comes first |
| Ordering.RatingLess | rankings_lambda.py:124-126 | Python's `<` on the lists [-score, -wins, losses, name]: the first differing element decides |
| Ordering.StrLessIrreflexive | rankings_lambda.py:126 | no name sorts before itself |
| Ordering.StrLessTransitive | rankings_lambda.py:126 | Python's string order is transitive |
| Ordering.StrLessTotal | rankings_lambda.py:126 | two different names are always ordered one way or the other |
| Ordering.StrLessAsymmetric | rankings_lambda.py:126 | two names are never ordered both ways |
| Ordering.RatingLessIrreflexive | rankings_lambda.py:124-126 | no rating list sorts before itself |
| Ordering.RatingLessTransitive | rankings_lambda.py:124-126 | the list order on [-score, -wins, losses, name] is transitive |
| Ordering.RatingLessTotal | rankings_lambda.py:124-126 | two ratings ordered neither way are equal |
| Ordering.NotLessTransitive | rankings_lambda.py:126 | "not above" is transitive |
| Ordering.Insert | rankings_lambda.py:126 | inserting adds exactly one element: the length grows by one and the multiset gains x |
| Ordering.InsertSorted | rankings_lambda.py:126 | inserting into a sorted list keeps it sorted |
| Ordering.SortRatings | rankings_lambda.py:126 | the result is sorted and a permutation of the ratings |
| Ordering.SortedUnique | rankings_lambda.py:126 | a multiset of ratings has only one sorted arrangement, so any sort gives the same list |
| Ordering.DistinctPermuted | rankings_lambda.py:126 | rearranging a list without repetition gives one without repetition |
| Ordering.SortedStrict | rankings_lambda.py:126 | in a sorted list without repetition, earlier ratings are strictly lower |
| Rankings.ScoreOf | rankings_lambda.py:124 | `team.rank_score()` of a registered team |
| Rankings.RatingOf | rankings_lambda.py:124 | a team's rating list carries its own name |
| Rankings.Ratings | rankings_lambda.py:121-124 | the ratings list after visiting the first k names of the iteration order: one rating per FBS team, in that order |
| Rankings.ToRanking | rankings_lambda.py:128-135 | the record {rank i+1, team, wins, losses, score} read back from the rating at position i |
| Rankings.Ranks | rankings_lambda.py:127-135 | one ranking per rating |
| Rankings.RatingsContents | rankings_lambda.py:121-124 | the ratings list holds exactly the ratings of the FBS teams, each once |
| Rankings.RatingLessPrecedes | rankings_lambda.py:126-135 | a lower rating list means a higher place: higher score, then more wins, fewer losses, smaller name |
| Rankings.SortedRatesFbs | rankings_lambda.py:121-126 | after sorting, every entry is an FBS team's own rating, with no repetition |
| Rankings.RanksFaithful | rankings_lambda.py:127-135 | each record is an FBS team with rank i+1, its own wins, losses and score |
| Rankings.RanksComplete | rankings_lambda.py:121-135 | every FBS team has a record |
| Rankings.RanksOrdered | rankings_lambda.py:126-135 | no team is listed twice, and records are strictly ordered by score, wins, losses, name |
| Rankings.Standings | rankings_lambda.py:121-136 | what get_rankings returns: every FBS team exactly once, numbered from 1, with its own wins, losses and score, strictly ordered by score, then wins, then losses, then name |
| Rankings.StandingsCorrect | rankings_lambda.py:121-136 | numbering any sorted permutation of the ratings gives the standings |
| Rankings.SortAndNumber | rankings_lambda.py:126-136 | sorting and numbering the ratings list of a registry gives that registry's standings |
| Rankings.AssignRanks | rankings_lambda.py:127-135 | the numbering loop builds the record list `Ranks(sorted)` |
| Engine.Team.constructor | rankings_lambda.py:8-15 | a new team has no games, 0 wins, 0 losses, SOS 0; it is filed under its name, replacing any earlier team |
| Engine.Team.AddGame | rankings_lambda.py:17-22 | the team's new state is add_game applied to its old state |
| Engine.Team.CalculateInitialSos | rankings_lambda.py:24-40 | only SOS changes, to the initial SOS computed from the registry |
| Engine.Team.RankScore | rankings_lambda.py:76-95 | returns the specified score of the team in the registry |
| Engine.Registry.constructor | rankings_lambda.py:6 | the registry starts empty and valid |
| Engine.Registry.GetOrCreate | rankings_lambda.py:99-100 | returns the existing team, or files a fresh one; existing teams keep their objects |
| Engine.Registry.Put | rankings_lambda.py:15 | `Team.teams[name] = self`: one entry set; a new name goes last in the order |
| Engine.Registry.AddGameFor | rankings_lambda.py:107-108 | add_game on a registered team changes only that team's entry |
| Engine.Registry.Play | rankings_lambda.py:97-108 | the registry after the body of record_game is `Records.RecordGame` of the registry before |
| Engine.Registry.RecordGame | rankings_lambda.py:97-108 | as Play, and the registry stays valid |
| Engine.Registry.SeedFor | rankings_lambda.py:113-115 | one phase-A step on an FBS team |
| Engine.Registry.SeedSos | rankings_lambda.py:112-115 | the first loop of get_rankings computes `Schedule.Seed` over the iteration order |
| Engine.Registry.MeanOpponentSos | rankings_lambda.py:50-60 | returns the mean SOS of the team's registered opponents, 0 when there are none |
| Engine.Registry.RelaxFor | rankings_lambda.py:46-60 | one in-place phase-B update of an FBS team |
| Engine.Registry.CalculateRecursiveSos | rankings_lambda.py:42-60 | the registry after `iterations` passes is `Schedule.Solve` of the registry before |
| Engine.Registry.CollectRatings | rankings_lambda.py:121-124 | returns the ratings list of the FBS teams in iteration order |
| Engine.Registry.RefreshSos | rankings_lambda.py:112-118 | both SOS phases: the registry stays valid, only SOS values change, and they equal `Solve(Seed(...), 1000)` |
| Engine.Registry.Rank | rankings_lambda.py:120-136 | the returned list is the standings of the registry |
| Engine.Registry.GetRankings | rankings_lambda.py:110-136 | get_rankings keeps the registry valid, changes only SOS values (as specified), and returns the standings |
| Season.FirstGame | rankings_lambda.py:97-108 | after the first game, both teams are registered home first with spreads +20 / -20 and one result each |
| Season.SecondGame | rankings_lambda.py:97-108 | the second game appends the third team and writes spreads +3 / -3 |
| Season.ThreeTeamsRecorded | rankings_lambda.py:97-108 | the registry after both games, written out |
| Season.PlayedSeeded | rankings_lambda.py:24-40 | phase A gives all three teams SOS 1/2 |
| Season.SeededBalanced | rankings_lambda.py:42-60 | after phase A every SOS equals the mean of its opponents' SOS |
| Season.ThreeTeamsSolved | rankings_lambda.py:110-118 | the 1000 refinement passes leave every SOS at 1/2 |
| Season.SettledTerms | rankings_lambda.py:81-92 | the four game terms, each weighted 0.9 |
| Season.SettledScores | rankings_lambda.py:76-95 | the three scores, computed exactly |
| Season.ThreeTeamsRanked | rankings_lambda.py:120-136 | the standings list `a`, `b`, `c` in that order, with records 1-0, 1-1, 0-1 |
| Season.SeasonRanking | rankings_lambda.py:110-136 | any result of get_rankings after the two games ranks `a`, `b`, `c` |

## Left out

- The HTTP fetch, environment loading, JSON handling and `lambda_handler`
  (rankings_lambda.py:1-3, 138-179) are I/O and are not modelled.
- Floating point: scores and SOS values are exact reals. Rounding in Python
  floats is not modelled.
- The class-level dictionary `Team.teams` is an explicit `Registry` object.
  `Engine.Team.constructor` receives it as a parameter.
- `ratings.sort()` (Timsort) is modelled by an insertion sort.
  `Ordering.SortedUnique` shows that every sort produces the same list here,
  because ratings of different teams never compare equal.
- `Team.teams.get(name) or Team(...)` and `if opponent:` rely on the
  truthiness of a `Team` object. Such an object is always true, so both are
  modelled as plain membership tests.
- `calculate_recursive_sos(iterations=1000)`: the default argument is the
  constant `Schedule.SosPasses`. The method itself takes any `iterations`.
- Engine.Team.RankScore: requires `Consistent` of the registry and that the
  registry files this object under its name. `Consistent` asks three things:
  every team is filed under its own name; every team's opponent list matches
  its games; every opponent of every team is registered. In the source,
  `Team.teams[opponent_name]` raises `KeyError` when an opponent is missing,
  and that error path is not modelled. No registry reached through
  record_game is excluded. `Records.RecordGameValid` proves that record_game
  keeps `Consistent`, and `Engine.Registry.Put` files every team under its
  own name.
- Engine.Registry.GetRankings: requires `Valid()`, the invariant established
  by `Engine.Registry.constructor` and kept by `Engine.Registry.RecordGame`.
  The source states no precondition.
- Engine.Registry.Rank: requires the opponents-registered invariant for the
  same reason as Engine.Team.RankScore.
- Engine.Registry.CollectRatings: requires the same invariant, for the same
  reason.
- Engine.Team.constructor: requires every team to be filed under its own
  name, an invariant every registry built through this model keeps.
- Concurrency and cross-run state leakage of the process-wide dictionary are
  not modelled. Each model run owns its registry.
