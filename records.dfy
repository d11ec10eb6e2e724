/** Value-level view of the team registry and of game ingestion.

    A `TeamRec` is the state of one `Team` object; a `Table` is the whole
    registry: the name-to-team map together with the order in which names
    were first inserted (the iteration order of the registry's dictionary). */
module Records {
  import opened Curves
  import opened Sequences

  datatype TeamRec = TeamRec(
    name: string,
    isFbs: bool,
    wins: nat,
    losses: nat,
    games: map<string, int>,   // opponent name -> signed point spread
    opponents: seq<string>,    // the keys of `games` in insertion order
    sos: real)

  datatype Table = Table(teams: map<string, TeamRec>, order: seq<string>)

  /** `opponents` lists every key of `games` exactly once (a list as long as
      the set of its elements has no repetition). */
  ghost predicate WellFormed(t: TeamRec)
  {
    (forall o :: o in t.games <==> o in t.opponents) && |t.opponents| == |t.games|
  }

  /** The order lists every registered name exactly once. */
  ghost predicate Registered(teams: map<string, TeamRec>, order: seq<string>)
  {
    Distinct(order) && (forall n :: n in teams <==> n in order)
  }

  /** Every team is filed under its own name and every opponent it has played
      is itself registered. */
  ghost predicate Consistent(teams: map<string, TeamRec>)
  {
    (forall n :: n in teams ==> teams[n].name == n && WellFormed(teams[n])) &&
    (forall n, o :: n in teams && o in teams[n].games ==> o in teams)
  }

  ghost predicate SosBounded(teams: map<string, TeamRec>)
  {
    forall n :: n in teams ==> 0.0 <= teams[n].sos <= 1.0
  }

  ghost predicate ValidTable(tb: Table)
  {
    Registered(tb.teams, tb.order) && Consistent(tb.teams) && SosBounded(tb.teams)
  }

  /** The state of a freshly constructed team. */
  function NewTeam(name: string, isFbs: bool): TeamRec
  {
    TeamRec(name, isFbs, 0, 0, map[], [], 0.0)
  }

  /** add_game: the spread overwrites any earlier entry for the opponent (a
      dictionary keeps an overwritten key in its original position), while the
      win or loss counter always grows. */
  function AddGame(t: TeamRec, opponent: string, isWin: bool, spread: int): TeamRec
  {
    t.(games := t.games[opponent := spread],
       opponents := if opponent in t.games then t.opponents else t.opponents + [opponent],
       wins := if isWin then t.wins + 1 else t.wins,
       losses := if isWin then t.losses else t.losses + 1)
  }

  /** Team.__init__: the new team is filed under its name, replacing any team
      of that name; a new name goes to the end of the iteration order. */
  function Register(tb: Table, name: string, isFbs: bool): Table
  {
    Table(tb.teams[name := NewTeam(name, isFbs)],
          if name in tb.teams then tb.order else tb.order + [name])
  }

  /** `Team.teams.get(name) or Team(name, is_fbs)`. */
  function Ensure(tb: Table, name: string, isFbs: bool): Table
  {
    if name in tb.teams then tb else Register(tb, name, isFbs)
  }

  /** add_game applied to the registered team `name`. */
  function AddGameTo(tb: Table, name: string, opponent: string, isWin: bool, spread: int): Table
    requires name in tb.teams
  {
    Table(tb.teams[name := AddGame(tb.teams[name], opponent, isWin, spread)], tb.order)
  }

  /** The spread recorded on the home team. */
  function HomeSpread(homePoints: int, awayPoints: int): int
  {
    var margin: int := Abs(homePoints - awayPoints);
    if homePoints > awayPoints then margin else -margin
  }

  /** The spread recorded on the away team. */
  function AwaySpread(homePoints: int, awayPoints: int): int
  {
    var margin: int := Abs(homePoints - awayPoints);
    if homePoints > awayPoints then -margin else margin
  }

  /** record_game. */
  function RecordGame(tb: Table, home: string, homeFbs: bool, away: string, awayFbs: bool,
                      homePoints: int, awayPoints: int): Table
  {
    var withHome := Ensure(tb, home, homeFbs);
    var withBoth := Ensure(withHome, away, awayFbs);
    var homeWin := homePoints > awayPoints;
    var afterHome := AddGameTo(withBoth, home, away, homeWin, HomeSpread(homePoints, awayPoints));
    AddGameTo(afterHome, away, home, !homeWin, AwaySpread(homePoints, awayPoints))
  }

  /** The wins (resp. losses) a name has before a game; 0 for a team not yet created. */
  function WinsOf(tb: Table, name: string): nat
  {
    if name in tb.teams then tb.teams[name].wins else 0
  }

  function LossesOf(tb: Table, name: string): nat
  {
    if name in tb.teams then tb.teams[name].losses else 0
  }

  // ---------------------------------------------------------------------------
  // add_game

  /** add_game overwrites the entry for `opponent`, leaves every other entry
      alone, and increments exactly one of the two counters. */
  lemma AddGameEffect(t: TeamRec, opponent: string, isWin: bool, spread: int)
    ensures var r := AddGame(t, opponent, isWin, spread);
      && opponent in r.games && r.games[opponent] == spread
      && r.games.Keys == t.games.Keys + {opponent}
      && (forall o :: o in t.games && o != opponent ==> r.games[o] == t.games[o])
      && r.wins + r.losses == t.wins + t.losses + 1
      && (isWin ==> r.wins == t.wins + 1 && r.losses == t.losses)
      && (!isWin ==> r.losses == t.losses + 1 && r.wins == t.wins)
      && r.name == t.name && r.isFbs == t.isFbs && r.sos == t.sos
  {
  }

  /** add_game keeps the insertion-ordered key list in step with the map. */
  lemma AddGameWellFormed(t: TeamRec, opponent: string, isWin: bool, spread: int)
    requires WellFormed(t)
    ensures WellFormed(AddGame(t, opponent, isWin, spread))
  {
  }

  // ---------------------------------------------------------------------------
  // Registry invariants kept by ingestion

  lemma EmptyValid()
    ensures ValidTable(Table(map[], []))
  {
  }

  lemma RegisterValid(tb: Table, name: string, isFbs: bool)
    requires ValidTable(tb)
    ensures ValidTable(Register(tb, name, isFbs))
  {
    var r := Register(tb, name, isFbs);
    if name !in tb.teams {
      forall i, j | 0 <= i < j < |r.order| ensures r.order[i] != r.order[j] {
        if j == |tb.order| {
          assert r.order[i] in tb.order;
        }
      }
    }
  }

  lemma AddGameToValid(tb: Table, name: string, opponent: string, isWin: bool, spread: int)
    requires ValidTable(tb) && name in tb.teams && opponent in tb.teams
    ensures ValidTable(AddGameTo(tb, name, opponent, isWin, spread))
  {
    AddGameWellFormed(tb.teams[name], opponent, isWin, spread);
  }

  /** Ingestion keeps the registry valid: names are unique and in insertion
      order, every opponent is registered, every SOS stays in [0, 1]. */
  lemma {:induction false} RecordGameValid(tb: Table, home: string, homeFbs: bool, away: string,
                                           awayFbs: bool, homePoints: int, awayPoints: int)
    requires ValidTable(tb)
    ensures ValidTable(RecordGame(tb, home, homeFbs, away, awayFbs, homePoints, awayPoints))
  {
    var withHome := Ensure(tb, home, homeFbs);
    if home !in tb.teams { RegisterValid(tb, home, homeFbs); }
    var withBoth := Ensure(withHome, away, awayFbs);
    if away !in withHome.teams { RegisterValid(withHome, away, awayFbs); }
    var homeWin := homePoints > awayPoints;
    AddGameToValid(withBoth, home, away, homeWin, HomeSpread(homePoints, awayPoints));
    var afterHome := AddGameTo(withBoth, home, away, homeWin, HomeSpread(homePoints, awayPoints));
    AddGameToValid(afterHome, away, home, !homeWin, AwaySpread(homePoints, awayPoints));
  }

  /** After a game both names are registered; a team that already existed keeps
      its division flag, a new one takes the flag passed in for it, and new
      names are appended to the iteration order, home first. */
  lemma RecordGameRegisters(tb: Table, home: string, homeFbs: bool, away: string, awayFbs: bool,
                            homePoints: int, awayPoints: int)
    ensures var r := RecordGame(tb, home, homeFbs, away, awayFbs, homePoints, awayPoints);
      && home in r.teams && away in r.teams
      && r.teams.Keys == tb.teams.Keys + {home, away}
      && (forall n :: n in tb.teams ==> r.teams[n].isFbs == tb.teams[n].isFbs)
      && (home !in tb.teams ==> r.teams[home].isFbs == homeFbs)
      && (away !in tb.teams && away != home ==> r.teams[away].isFbs == awayFbs)
      && r.order == tb.order + (if home in tb.teams then [] else [home])
                             + (if away in tb.teams || away == home then [] else [away])
  {
  }

  /** Teams not involved in the game are left untouched. */
  lemma RecordGameFrame(tb: Table, home: string, homeFbs: bool, away: string, awayFbs: bool,
                        homePoints: int, awayPoints: int, n: string)
    requires n in tb.teams && n != home && n != away
    ensures RecordGame(tb, home, homeFbs, away, awayFbs, homePoints, awayPoints).teams[n] == tb.teams[n]
  {
  }

  /** Between two different teams: the spread recorded on the home team is the
      negation of the one recorded on the away team, its size is the point
      difference, and its sign says who won; a tie is recorded as spread 0. */
  lemma RecordGameSpreads(tb: Table, home: string, homeFbs: bool, away: string, awayFbs: bool,
                          homePoints: int, awayPoints: int)
    requires home != away
    ensures var r := RecordGame(tb, home, homeFbs, away, awayFbs, homePoints, awayPoints);
      && away in r.teams[home].games && home in r.teams[away].games
      && r.teams[home].games[away] == -r.teams[away].games[home]
      && Abs(r.teams[home].games[away]) == Abs(homePoints - awayPoints)
      && (r.teams[home].games[away] > 0 <==> homePoints > awayPoints)
      && (homePoints == awayPoints ==> r.teams[home].games[away] == 0)
  {
  }

  /** Between two different teams exactly one side gets a win and the other a
      loss; the home team wins only with strictly more points, so a tie counts
      as a win for the away team. */
  lemma RecordGameCounts(tb: Table, home: string, homeFbs: bool, away: string, awayFbs: bool,
                         homePoints: int, awayPoints: int)
    requires home != away
    ensures var r := RecordGame(tb, home, homeFbs, away, awayFbs, homePoints, awayPoints);
      && (homePoints > awayPoints ==>
            r.teams[home].wins == WinsOf(tb, home) + 1 && r.teams[home].losses == LossesOf(tb, home)
            && r.teams[away].losses == LossesOf(tb, away) + 1 && r.teams[away].wins == WinsOf(tb, away))
      && (homePoints <= awayPoints ==>
            r.teams[away].wins == WinsOf(tb, away) + 1 && r.teams[away].losses == LossesOf(tb, away)
            && r.teams[home].losses == LossesOf(tb, home) + 1 && r.teams[home].wins == WinsOf(tb, home))
  {
  }

  /** A team recorded against itself gets both a win and a loss, and its own
      entry holds the spread of the away side, written last. */
  lemma RecordGameSelf(tb: Table, name: string, homeFbs: bool, awayFbs: bool,
                       homePoints: int, awayPoints: int)
    ensures var r := RecordGame(tb, name, homeFbs, name, awayFbs, homePoints, awayPoints);
      && r.teams[name].wins == WinsOf(tb, name) + 1
      && r.teams[name].losses == LossesOf(tb, name) + 1
      && r.teams[name].games[name] == AwaySpread(homePoints, awayPoints)
  {
  }

  /** Recording the same pairing twice: the second game's spreads overwrite the
      first game's in both maps, while both games are counted. */
  lemma {:induction false} RecordGameTwice(tb: Table, home: string, homeFbs: bool, away: string,
                                           awayFbs: bool, p1: int, q1: int, p2: int, q2: int)
    requires home != away
    ensures var once := RecordGame(tb, home, homeFbs, away, awayFbs, p1, q1);
      var twice := RecordGame(once, home, homeFbs, away, awayFbs, p2, q2);
      && twice.teams[home].games[away] == HomeSpread(p2, q2)
      && twice.teams[away].games[home] == AwaySpread(p2, q2)
      && twice.teams[home].wins + twice.teams[home].losses
           == WinsOf(tb, home) + LossesOf(tb, home) + 2
      && twice.teams[away].wins + twice.teams[away].losses
           == WinsOf(tb, away) + LossesOf(tb, away) + 2
      && twice.teams[home].opponents == once.teams[home].opponents
      && twice.order == once.order
  {
    var once := RecordGame(tb, home, homeFbs, away, awayFbs, p1, q1);
    RecordGameSpreads(once, home, homeFbs, away, awayFbs, p2, q2);
    RecordGameCounts(tb, home, homeFbs, away, awayFbs, p1, q1);
    RecordGameCounts(once, home, homeFbs, away, awayFbs, p2, q2);
    RecordGameSpreads(tb, home, homeFbs, away, awayFbs, p1, q1);
  }

  // ---------------------------------------------------------------------------
  // Spreads are mirrored

  /** Between two different teams the two recorded spreads are opposite. */
  ghost predicate Mirrored(teams: map<string, TeamRec>)
  {
    forall n, o :: n in teams && o in teams[n].games && o != n ==>
      o in teams && n in teams[o].games && teams[o].games[n] == -teams[n].games[o]
  }

  lemma EnsureMirrored(tb: Table, name: string, isFbs: bool)
    requires Mirrored(tb.teams)
    ensures Mirrored(Ensure(tb, name, isFbs).teams)
  {
    var r := Ensure(tb, name, isFbs).teams;
    forall n, o | n in r && o in r[n].games && o != n
      ensures o in r && n in r[o].games && r[o].games[n] == -r[n].games[o]
    {
      assert n in tb.teams && r[n] == tb.teams[n];
      assert o in tb.teams && r[o] == tb.teams[o];
    }
  }

  /** The game maps after record_game, in terms of those before it. */
  lemma RecordGameGames(tb: Table, home: string, homeFbs: bool, away: string, awayFbs: bool,
                        homePoints: int, awayPoints: int)
    ensures PairingWritten(Ensure(Ensure(tb, home, homeFbs), away, awayFbs).teams,
                           RecordGame(tb, home, homeFbs, away, awayFbs, homePoints, awayPoints).teams,
                           home, away, HomeSpread(homePoints, awayPoints), AwaySpread(homePoints, awayPoints))
  {
  }

  /** What record_game does to the game maps, abstracted: only the entries
      of the pairing `home`/`away` are written, with opposite spreads. */
  ghost predicate PairingWritten(before: map<string, TeamRec>, r: map<string, TeamRec>, home: string,
                                 away: string, homeSpread: int, awaySpread: int)
  {
    && home in before && away in before && r.Keys == before.Keys
    && (forall n :: n in before && n != home && n != away ==> r[n] == before[n])
    && (home != away ==>
          && r[home].games == before[home].games[away := homeSpread]
          && r[away].games == before[away].games[home := awaySpread]
          && awaySpread == -homeSpread)
    && (home == away ==> r[home].games == before[home].games[home := awaySpread])
  }

  /** Outside the pairing, every recorded spread is the one recorded before. */
  lemma UnwrittenEntry(before: map<string, TeamRec>, r: map<string, TeamRec>, home: string,
                       away: string, homeSpread: int, awaySpread: int, n: string, o: string)
    requires PairingWritten(before, r, home, away, homeSpread, awaySpread)
    requires n in r && o != n && !(n == home && o == away) && !(n == away && o == home)
    ensures o in r[n].games <==> o in before[n].games
    ensures o in r[n].games ==> r[n].games[o] == before[n].games[o]
  {
  }

  /** Writing opposite spreads on both sides of one pairing keeps the maps mirrored. */
  lemma MirroredUpdate(before: map<string, TeamRec>, r: map<string, TeamRec>, home: string,
                       away: string, homeSpread: int, awaySpread: int)
    requires Mirrored(before) && PairingWritten(before, r, home, away, homeSpread, awaySpread)
    ensures Mirrored(r)
  {
    forall n, o | n in r && o in r[n].games && o != n
      ensures o in r && n in r[o].games && r[o].games[n] == -r[n].games[o]
    {
      if !((n == home && o == away) || (n == away && o == home)) {
        UnwrittenEntry(before, r, home, away, homeSpread, awaySpread, n, o);
        assert o in before;
        UnwrittenEntry(before, r, home, away, homeSpread, awaySpread, o, n);
      }
    }
  }

  /** Ingestion keeps the two sides of every game mirrored. */
  lemma {:induction false} RecordGameMirrored(tb: Table, home: string, homeFbs: bool, away: string,
                                              awayFbs: bool, homePoints: int, awayPoints: int)
    requires Mirrored(tb.teams)
    ensures Mirrored(RecordGame(tb, home, homeFbs, away, awayFbs, homePoints, awayPoints).teams)
  {
    var withHome := Ensure(tb, home, homeFbs);
    EnsureMirrored(tb, home, homeFbs);
    EnsureMirrored(withHome, away, awayFbs);
    RecordGameGames(tb, home, homeFbs, away, awayFbs, homePoints, awayPoints);
    MirroredUpdate(Ensure(withHome, away, awayFbs).teams,
                   RecordGame(tb, home, homeFbs, away, awayFbs, homePoints, awayPoints).teams,
                   home, away, HomeSpread(homePoints, awayPoints), AwaySpread(homePoints, awayPoints));
  }
}
