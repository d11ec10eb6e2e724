/** The `Team` class and its class-level registry `Team.teams`, as objects
    updated in place.  Every method is proved against the value-level
    specification: `Registry.State()` is the registry as a `Table` value, and
    each method's new state is the specification function applied to the
    old one. */
module Engine {
  import opened Curves
  import opened Records
  import opened Schedule
  import opened Scoring
  import opened Ordering
  import opened Rankings

  /** One team.  Its name and division never change after construction. */
  class Team {
    const name: string
    const isFbs: bool
    var wins: nat
    var losses: nat
    var games: map<string, int>
    var opponents: seq<string>
    var sos: real

    /** The team as a value. */
    ghost function Rec(): TeamRec
      reads this
    {
      TeamRec(name, isFbs, wins, losses, games, opponents, sos)
    }

    /** Team.__init__: a team without games, filed in the registry under its
        name (replacing any team of that name). */
    constructor (name: string, isFbs: bool, registry: Registry)
      requires registry.Named()
      modifies registry
      ensures Rec() == NewTeam(name, isFbs)
      ensures registry.teams == old(registry.teams)[name := this]
      ensures registry.State() == Register(old(registry.State()), name, isFbs)
      ensures registry.Named()
    {
      this.name := name;
      this.isFbs := isFbs;
      wins := 0;
      losses := 0;
      games := map[];
      opponents := [];
      sos := 0.0;
      new;
      ghost var before := registry.State();
      assert before == old(registry.State());
      registry.Put(this);
    }

    /** add_game: record the spread against `opponent` (a dictionary keeps an
        overwritten key where it was, a new key goes last) and count the game. */
    method AddGame(opponent: string, isWin: bool, spread: int)
      modifies this
      ensures Rec() == Records.AddGame(old(Rec()), opponent, isWin, spread)
    {
      if opponent !in games {
        opponents := opponents + [opponent];
      }
      games := games[opponent := spread];
      if isWin {
        wins := wins + 1;
      } else {
        losses := losses + 1;
      }
    }

    /** calculate_initial_sos: the share of wins among the games of the
        registered opponents, 0 without games or without such games. */
    method CalculateInitialSos(registry: Registry)
      modifies this
      ensures Rec() == old(Rec()).(sos := InitialSos(old(registry.Snapshot()), old(Rec())))
    {
      if |games| == 0 {
        sos := 0.0;
        return;
      }
      var totalOpponentWins := 0;
      var totalOpponentLosses := 0;
      var i := 0;
      while i < |opponents|
        invariant 0 <= i <= |opponents|
        invariant totalOpponentWins == OpponentWins(registry.Snapshot(), opponents[..i])
        invariant totalOpponentLosses == OpponentLosses(registry.Snapshot(), opponents[..i])
      {
        var opponentName := opponents[i];
        if opponentName in registry.teams {
          var opponent := registry.teams[opponentName];
          totalOpponentWins := totalOpponentWins + opponent.wins;
          totalOpponentLosses := totalOpponentLosses + opponent.losses;
        }
        assert opponents[..i + 1][..i] == opponents[..i];
        i := i + 1;
      }
      assert opponents[..i] == opponents;
      var totalGames := totalOpponentWins + totalOpponentLosses;
      sos := if totalGames > 0 then totalOpponentWins as real / totalGames as real else 0.0;
    }

    /** rank_score: the weighted game terms, scaled to a 12-game season. */
    method RankScore(registry: Registry) returns (score: real)
      requires Consistent(registry.Snapshot()) && name in registry.teams && registry.teams[name] == this
      ensures score == ScoreOf(registry.Snapshot(), name)
    {
      ghost var teams := registry.Snapshot();
      ghost var me := Rec();
      assert teams[name] == me;
      OpponentsPlayable(teams, me);
      score := 0.0;
      var i := 0;
      while i < |opponents|
        invariant 0 <= i <= |opponents|
        invariant Playable(teams, me, opponents[..i])
        invariant score == TermSum(teams, me, opponents[..i])
      {
        TermSumStep(teams, me, opponents, i);
        var opponentName := opponents[i];
        var pointSpread := games[opponentName];
        var opponentTeam := registry.teams[opponentName];
        var isHome := name in opponentTeam.games && opponentTeam.games[name] < 0;
        assert teams[opponentName] == opponentTeam.Rec();
        var change: real;
        if pointSpread > 0 {
          var weight := if isHome then 0.9 else 1.1;
          var base := opponentTeam.wins as real + opponentTeam.sos;
          var bonus := Bonus(pointSpread);
          GameTermWon(teams, me, opponentName, weight, base, bonus);
          change := weight * base * bonus;
        } else {
          var weight := if isHome then 1.1 else 0.9;
          var base := opponentTeam.losses as real + opponentTeam.sos;
          var penalty := Penalty(pointSpread);
          GameTermLost(teams, me, opponentName, weight, base, penalty);
          change := -(weight * base * penalty);
        }
        score := score + change;
        i := i + 1;
      }
      assert opponents[..i] == opponents;
      var count := |games|;
      RankScoreOf(teams, me, score, count);
      score := if count > 0 then (12.0 / count as real) * score else 0.0;
      assert score == ScoreOf(teams, name);
      assert registry.Snapshot() == teams;
    }
  }

  /** The class-level dictionary `Team.teams`: name to team, with the order
      in which names were first inserted. */
  class Registry {
    var teams: map<string, Team>
    var order: seq<string>

    ghost function Objects(): set<Team>
      reads this
    {
      teams.Values
    }

    /** The registry as a map of values. */
    ghost function Snapshot(): map<string, TeamRec>
      reads this, Objects()
    {
      map n | n in teams :: teams[n].Rec()
    }

    ghost function State(): Table
      reads this, Objects()
    {
      Table(Snapshot(), order)
    }

    /** Every team is filed under its own name, so different names hold different objects. */
    ghost predicate Named()
      reads this
    {
      forall n :: n in teams ==> teams[n].name == n
    }

    ghost predicate Valid()
      reads this, Objects()
    {
      Named() && ValidTable(State())
    }

    /** `Team.teams.get(name) or Team(name, isFbs)`: the team filed under
        `name`, created and filed first if there is none. */
    method GetOrCreate(name: string, isFbs: bool) returns (t: Team)
      requires Named()
      modifies this
      ensures Named() && name in teams && t == teams[name]
      ensures State() == Ensure(old(State()), name, isFbs)
      ensures forall n :: n in old(teams) ==> n in teams && teams[n] == old(teams[n])
      ensures if name in old(teams) then t == old(teams[name]) else fresh(t)
    {
      if name in teams {
        t := teams[name];
      } else {
        t := new Team(name, isFbs, this);
      }
    }

    /** record_game: look both teams up, creating a missing one (home first),
        then add the game to the home team and to the away team. */
    method RecordGame(homeName: string, homeFbs: bool, awayName: string, awayFbs: bool,
                      homePoints: int, awayPoints: int)
      requires Valid()
      modifies this, Objects()
      ensures Valid()
      ensures State() == Records.RecordGame(old(State()), homeName, homeFbs, awayName, awayFbs,
                                            homePoints, awayPoints)
    {
      Play(homeName, homeFbs, awayName, awayFbs, homePoints, awayPoints);
      RecordGameValid(old(State()), homeName, homeFbs, awayName, awayFbs, homePoints, awayPoints);
    }

    /** The body of record_game, with the registry only required to file
        each team under its own name. */
    method Play(homeName: string, homeFbs: bool, awayName: string, awayFbs: bool,
                homePoints: int, awayPoints: int)
      requires Named()
      modifies this, Objects()
      ensures Named()
      ensures State() == Records.RecordGame(old(State()), homeName, homeFbs, awayName, awayFbs,
                                            homePoints, awayPoints)
    {
      var home := GetOrCreate(homeName, homeFbs);
      var away := GetOrCreate(awayName, awayFbs);
      ghost var withBoth := State();
      var homeWin := homePoints > awayPoints;
      var margin: int := Abs(homePoints - awayPoints);
      var homeSpread := if homeWin then margin else -margin;
      var awaySpread := if !homeWin then margin else -margin;
      assert home.name == homeName && away.name == awayName;
      assert homeSpread == HomeSpread(homePoints, awayPoints) && awaySpread == AwaySpread(homePoints, awayPoints);
      AddGameFor(home, awayName, homeWin, homeSpread);
      ghost var afterHome := State();
      AddGameFor(away, homeName, !homeWin, awaySpread);
    }

    /** `Team.teams[self.name] = self`: file a new team without games under its
        name; a name seen before keeps its place in the iteration order. */
    method Put(t: Team)
      requires Named() && t.Rec() == NewTeam(t.name, t.isFbs)
      modifies this
      ensures Named() && teams == old(teams)[t.name := t]
      ensures State() == Register(old(State()), t.name, t.isFbs)
    {
      ghost var before := Snapshot();
      if t.name !in teams {
        order := order + [t.name];
      }
      teams := teams[t.name := t];
      ghost var after := Snapshot();
      forall n | n in after && n != t.name ensures n in before && after[n] == before[n] {
        assert teams[n] == old(teams[n]);
      }
      PointUpdate(before, after, t.name, NewTeam(t.name, t.isFbs));
    }

    /** team.add_game on a registered team, seen from the registry: only
        that team's entry changes. */
    method AddGameFor(t: Team, opponent: string, isWin: bool, spread: int)
      requires Named() && t.name in teams && teams[t.name] == t
      modifies t
      ensures State() == AddGameTo(old(State()), t.name, opponent, isWin, spread)
    {
      ghost var before := Snapshot();
      t.AddGame(opponent, isWin, spread);
      ghost var after := Snapshot();
      forall n | n in after && n != t.name ensures n in before && after[n] == before[n] {
        assert teams[n] != t;
      }
      PointUpdate(before, after, t.name, Records.AddGame(before[t.name], opponent, isWin, spread));
    }

    /** team.calculate_initial_sos() on a registered FBS team, seen from the
        registry: one step of the first phase of get_rankings. */
    method SeedFor(t: Team)
      requires Named() && t.name in teams && teams[t.name] == t && t.isFbs
      modifies t
      ensures Snapshot() == SeedOne(old(Snapshot()), t.name)
    {
      ghost var before := Snapshot();
      t.CalculateInitialSos(this);
      ghost var after := Snapshot();
      forall n | n in after && n != t.name ensures n in before && after[n] == before[n] {
        assert teams[n] != t;
      }
      PointUpdate(before, after, t.name, before[t.name].(sos := InitialSos(before, before[t.name])));
    }

    /** The first loop of get_rankings: the initial SOS of every FBS team, in
        iteration order. */
    method SeedSos()
      requires Named()
      modifies Objects()
      ensures Snapshot() == Seed(old(Snapshot()), order, |order|)
    {
      var i := 0;
      while i < |order|
        invariant 0 <= i <= |order|
        invariant Snapshot() == Seed(old(Snapshot()), order, i)
      {
        var n := order[i];
        if n in teams && teams[n].isFbs {
          SeedFor(teams[n]);
        }
        i := i + 1;
      }
    }

    /** The inner loop of calculate_recursive_sos for one team: the mean SOS
        of its registered opponents, 0 when there are none. */
    method MeanOpponentSos(t: Team) returns (mean: real)
      ensures mean == Average(Snapshot(), t.Rec())
    {
      var totalOpponentSos := 0.0;
      var count := 0;
      var i := 0;
      while i < |t.opponents|
        invariant 0 <= i <= |t.opponents|
        invariant totalOpponentSos == SosSum(Snapshot(), t.opponents[..i])
        invariant count == SosCount(Snapshot(), t.opponents[..i])
      {
        var opponentName := t.opponents[i];
        if opponentName in teams {
          totalOpponentSos := totalOpponentSos + teams[opponentName].sos;
          count := count + 1;
        }
        assert t.opponents[..i + 1][..i] == t.opponents[..i];
        i := i + 1;
      }
      assert t.opponents[..i] == t.opponents;
      mean := if count > 0 then totalOpponentSos / count as real else 0.0;
    }

    /** One step of a pass of calculate_recursive_sos: the registered FBS team
        `t` takes the current mean of its opponents. */
    method RelaxFor(t: Team)
      requires Named() && t.name in teams && teams[t.name] == t && t.isFbs
      modifies t
      ensures Snapshot() == Relax(old(Snapshot()), t.name)
    {
      ghost var before := Snapshot();
      ghost var me := t.Rec();
      assert before[t.name] == me;
      var mean := MeanOpponentSos(t);
      assert Snapshot() == before && t.Rec() == me;
      t.sos := mean;
      ghost var after := Snapshot();
      forall n | n in after && n != t.name ensures n in before && after[n] == before[n] {
        assert teams[n] != t;
      }
      PointUpdate(before, after, t.name, before[t.name].(sos := Average(before, before[t.name])));
    }

    /** calculate_recursive_sos(iterations): that many passes over the
        registry in iteration order, each FBS team updated in place. */
    method CalculateRecursiveSos(iterations: nat)
      requires Named()
      modifies Objects()
      ensures Snapshot() == Solve(old(Snapshot()), order, iterations)
    {
      var pass := 0;
      while pass < iterations
        invariant 0 <= pass <= iterations
        invariant Snapshot() == Solve(old(Snapshot()), order, pass)
      {
        ghost var start := Snapshot();
        var i := 0;
        while i < |order|
          invariant 0 <= i <= |order|
          invariant Snapshot() == Sweep(start, order, i)
        {
          var n := order[i];
          if n in teams && teams[n].isFbs {
            RelaxFor(teams[n]);
          }
          i := i + 1;
        }
        pass := pass + 1;
      }
    }

    /** The rating loop of get_rankings: [-score, -wins, losses, name] for
        every FBS team, in iteration order. */
    method CollectRatings() returns (ratings: seq<Rating>)
      requires Named() && Consistent(Snapshot()) && Listed(Snapshot(), order)
      ensures ratings == Ratings(Snapshot(), order, |order|)
    {
      ghost var snapshot := Snapshot();
      ratings := [];
      var i := 0;
      while i < |order|
        invariant 0 <= i <= |order|
        invariant ratings == Ratings(snapshot, order, i)
        invariant Snapshot() == snapshot
      {
        var n := order[i];
        var team := teams[n];
        assert snapshot[n] == team.Rec();
        if team.isFbs {
          var score := team.RankScore(this);
          assert Snapshot() == snapshot && team.name == n;
          assert score == ScoreOf(snapshot, n);
          ghost var rating := Rating(-score, -(team.wins as int), team.losses, team.name);
          assert rating == RatingOf(snapshot, n);
          ratings := ratings + [Rating(-score, -(team.wins as int), team.losses, team.name)];
        }
        i := i + 1;
      }
    }

    /** get_rankings: both SOS phases, then the ratings sorted and numbered.
        The registry stays valid, only SOS values change, and the result is
        the standings of the registry as the SOS phases leave it. */
    method GetRankings() returns (rankings: seq<Ranking>)
      requires Valid()
      modifies Objects()
      ensures Valid()
      ensures Snapshot() == Solve(Seed(old(Snapshot()), order, |order|), order, SosPasses)
      ensures SosOnlyChange(old(Snapshot()), Snapshot())
      ensures Standings(Snapshot(), rankings)
    {
      RefreshSos();
      assert ValidTable(State());
      rankings := Rank();
    }

    /** The two SOS phases of get_rankings: the registry stays valid and only
        SOS values change. */
    method RefreshSos()
      requires Valid()
      modifies Objects()
      ensures Valid()
      ensures Snapshot() == Solve(Seed(old(Snapshot()), order, |order|), order, SosPasses)
      ensures SosOnlyChange(old(Snapshot()), Snapshot())
    {
      ghost var initial := Snapshot();
      SeedSos();
      ghost var seeded := Snapshot();
      SeedResult(initial, order, |order|);
      SeedBounded(initial, order);
      SosOnlyChangeValid(initial, seeded, order);
      CalculateRecursiveSos(SosPasses);
      ghost var solved := Snapshot();
      SolveKeeps(seeded, order, SosPasses);
      SosOnlyChangeValid(seeded, solved, order);
      SosOnlyChangeTrans(initial, seeded, solved);
    }

    /** The rating, sorting and numbering steps of get_rankings. */
    method Rank() returns (rankings: seq<Ranking>)
      requires Named() && Consistent(Snapshot()) && Registered(Snapshot(), order)
      ensures Standings(Snapshot(), rankings)
    {
      ghost var snapshot := Snapshot();
      assert Listed(snapshot, order);
      var ratings := CollectRatings();
      assert Snapshot() == snapshot;
      rankings := SortAndNumber(snapshot, order, ratings);
      assert Snapshot() == snapshot;
    }

    /** `teams = {}`. */
    constructor ()
      ensures Valid() && teams == map[] && order == []
    {
      teams := map[];
      order := [];
      new;
      EmptyValid();
    }
  }

  /** A map that agrees with `before` except at `n`, where it holds `v`. */
  lemma PointUpdate(before: map<string, TeamRec>, after: map<string, TeamRec>, n: string, v: TeamRec)
    requires n in after && after[n] == v && after.Keys == before.Keys + {n}
    requires forall m :: m in after && m != n ==> m in before && after[m] == before[m]
    ensures after == before[n := v]
  {
  }
}
