/** A three-team season worked through the specification: `a` beats `b` 30-10
    at home, then `b` beats `c` 20-17 at home; all three are FBS teams. */
module Season {
  import opened Records
  import opened Schedule
  import opened Curves
  import opened Scoring
  import opened Ordering
  import opened Rankings

  function ThreeTeams(a: string, b: string, c: string): Table
  {
    var one := RecordGame(Table(map[], []), a, true, b, true, 30, 10);
    RecordGame(one, b, true, c, true, 20, 17)
  }

  /** The registry after the two games, written out, with every SOS equal
      to `sos`. */
  function Played(a: string, b: string, c: string, sos: real): Table
  {
    Table(map[a := TeamRec(a, true, 1, 0, map[b := 20], [b], sos),
              b := TeamRec(b, true, 1, 1, map[a := -20, c := 3], [a, c], sos),
              c := TeamRec(c, true, 0, 1, map[b := -3], [b], sos)],
          [a, b, c])
  }

  /** The registry after the first game, written out. */
  function OneGame(a: string, b: string): Table
  {
    Table(map[a := TeamRec(a, true, 1, 0, map[b := 20], [b], 0.0),
              b := TeamRec(b, true, 0, 1, map[a := -20], [a], 0.0)],
          [a, b])
  }

  /** The first game: both teams are created, home first, with opposite
      spreads of 20 and one result each. */
  lemma FirstGame(a: string, b: string)
    requires a != b
    ensures RecordGame(Table(map[], []), a, true, b, true, 30, 10) == OneGame(a, b)
  {
    var r := RecordGame(Table(map[], []), a, true, b, true, 30, 10);
    var p := OneGame(a, b).teams;
    assert r.teams.Keys == p.Keys;
    assert r.teams[a] == p[a];
    assert r.teams[b] == p[b];
  }

  /** The registry once the second game's away team exists. */
  function Joined(a: string, b: string, c: string): Table
  {
    Table(OneGame(a, b).teams[c := NewTeam(c, true)], [a, b, c])
  }

  /** The second game, home side: `b` gets its second opponent and a win. */
  lemma SecondGameHome(a: string, b: string, c: string)
    requires a != b && b != c && a != c
    ensures AddGameTo(Joined(a, b, c), b, c, true, 3)
      == Table(Joined(a, b, c).teams[b := Played(a, b, c, 0.0).teams[b]], [a, b, c])
  {
    assert [a] + [c] == [a, c];
  }

  /** The second game, away side: `c` gets its loss and the spread -3. */
  lemma SecondGameAway(a: string, b: string, c: string)
    requires a != b && b != c && a != c
    ensures AddGameTo(Table(Joined(a, b, c).teams[b := Played(a, b, c, 0.0).teams[b]], [a, b, c]),
                      c, b, false, -3) == Played(a, b, c, 0.0)
  {
    var r := AddGameTo(Table(Joined(a, b, c).teams[b := Played(a, b, c, 0.0).teams[b]], [a, b, c]),
                       c, b, false, -3);
    var p := Played(a, b, c, 0.0).teams;
    assert r.teams.Keys == p.Keys;
    assert r.teams[a] == p[a];
    assert r.teams[b] == p[b];
    assert r.teams[c] == p[c];
  }

  /** The second game: `c` is created and appended, `b` gets its second
      opponent and a win, and the spreads are 3 and -3. */
  lemma SecondGame(a: string, b: string, c: string)
    requires a != b && b != c && a != c
    ensures RecordGame(OneGame(a, b), b, true, c, true, 20, 17) == Played(a, b, c, 0.0)
  {
    assert Ensure(Ensure(OneGame(a, b), b, true), c, true) == Joined(a, b, c);
    SecondGameHome(a, b, c);
    SecondGameAway(a, b, c);
  }

  /** Both games are recorded with mirrored spreads, each team gets one
      result per game, and the teams are listed in order of first appearance. */
  lemma ThreeTeamsRecorded(a: string, b: string, c: string)
    requires a != b && b != c && a != c
    ensures ThreeTeams(a, b, c) == Played(a, b, c, 0.0)
  {
    FirstGame(a, b);
    SecondGame(a, b, c);
  }

  lemma OpponentSingle(t: map<string, TeamRec>, x: string)
    requires x in t
    ensures OpponentWins(t, [x]) == t[x].wins && OpponentLosses(t, [x]) == t[x].losses
  {
    assert [x][..0] == [];
  }

  lemma OpponentPair(t: map<string, TeamRec>, x: string, y: string)
    requires x in t && y in t
    ensures OpponentWins(t, [x, y]) == t[x].wins + t[y].wins
    ensures OpponentLosses(t, [x, y]) == t[x].losses + t[y].losses
  {
    assert [x, y][..1] == [x];
    OpponentSingle(t, x);
  }

  /** A team whose opponents won once and lost once between them gets an
      initial SOS of one half. */
  lemma SeedOneHalf(t: map<string, TeamRec>, n: string)
    requires n in t && t[n].isFbs && |t[n].games| > 0
    requires OpponentWins(t, t[n].opponents) == 1 && OpponentLosses(t, t[n].opponents) == 1
    ensures SeedOne(t, n) == t[n := t[n].(sos := 0.5)]
  {
  }

  /** Phase A: every team's opponents have as many wins as losses between
      them, so every initial SOS is one half. */
  lemma PlayedSeeded(a: string, b: string, c: string)
    requires a != b && b != c && a != c
    ensures Seed(Played(a, b, c, 0.0).teams, [a, b, c], 3) == Played(a, b, c, 0.5).teams
  {
    var t := Played(a, b, c, 0.0).teams;
    SeedSteps(t, a, b, c);
    var s3 := t[a := t[a].(sos := 0.5)][b := t[b].(sos := 0.5)][c := t[c].(sos := 0.5)];
    var p := Played(a, b, c, 0.5).teams;
    assert s3.Keys == p.Keys;
    assert s3[a] == p[a];
    assert s3[b] == p[b];
    assert s3[c] == p[c];
  }

  /** The three seeding steps of phase A, one team at a time. */
  lemma SeedSteps(t: map<string, TeamRec>, a: string, b: string, c: string)
    requires a != b && b != c && a != c
    requires t == Played(a, b, c, 0.0).teams
    ensures Seed(t, [a, b, c], 3)
      == t[a := t[a].(sos := 0.5)][b := t[b].(sos := 0.5)][c := t[c].(sos := 0.5)]
  {
    var order := [a, b, c];
    OpponentPair(t, a, c);
    OpponentSingle(t, b);
    var s1 := SeedOne(t, a);
    SeedOneHalf(t, a);
    assert Seed(t, order, 1) == s1;
    OpponentTotalsFramed(t, s1, [a, c]);
    assert s1[b] == t[b];
    var s2 := SeedOne(s1, b);
    SeedOneHalf(s1, b);
    assert Seed(t, order, 2) == s2;
    SosOnlyChangeTrans(t, s1, s2);
    OpponentTotalsFramed(t, s2, [b]);
    assert s2[c] == t[c];
    SeedOneHalf(s2, c);
    assert Seed(t, order, 3) == SeedOne(s2, c);
  }

  /** After phase A every team's SOS is the mean of its opponents' ... */
  lemma SeededBalanced(a: string, b: string, c: string)
    requires a != b && b != c && a != c
    ensures Balanced(Played(a, b, c, 0.5).teams)
  {
    var t := Played(a, b, c, 0.5).teams;
    MeanPair(t, a, c);
    MeanSingle(t, b);
  }

  /** ... so the refinement passes of get_rankings leave every SOS at one half. */
  lemma ThreeTeamsSolved(a: string, b: string, c: string)
    requires a != b && b != c && a != c
    ensures var tb := ThreeTeams(a, b, c);
      Solve(Seed(tb.teams, tb.order, |tb.order|), tb.order, SosPasses) == Played(a, b, c, 0.5).teams
  {
    ThreeTeamsRecorded(a, b, c);
    PlayedSeeded(a, b, c);
    SeededBalanced(a, b, c);
    SolveBalanced(Played(a, b, c, 0.5).teams, [a, b, c], SosPasses);
  }

  lemma MeanSingle(t: map<string, TeamRec>, x: string)
    requires x in t
    ensures SosSum(t, [x]) == t[x].sos && SosCount(t, [x]) == 1
  {
    assert [x][..0] == [];
  }

  lemma MeanPair(t: map<string, TeamRec>, x: string, y: string)
    requires x in t && y in t
    ensures SosSum(t, [x, y]) == t[x].sos + t[y].sos && SosCount(t, [x, y]) == 2
  {
    assert [x, y][..1] == [x];
    MeanSingle(t, x);
  }

  lemma SettledConsistent(a: string, b: string, c: string)
    requires a != b && b != c && a != c
    ensures Consistent(Played(a, b, c, 0.5).teams)
  {
    var t := Played(a, b, c, 0.5).teams;
    forall n | n in t ensures t[n].name == n && WellFormed(t[n]) {
      if n == b {
        assert t[b].games.Keys == {a, c};
      }
    }
  }

  /** The four game terms once the SOS has settled at one half.  Every game
      weighs 0.9: the home test sees the winner's side. */
  lemma SettledTerms(a: string, b: string, c: string)
    requires a != b && b != c && a != c
    ensures var t := Played(a, b, c, 0.5).teams;
      && GameTerm(t, t[a], b) == 0.9 * 1.5 * (1.0 + 0.2 / 9.0)
      && GameTerm(t, t[b], a) == -(0.9 * 0.5 * (1.0 + 400.0 / 784.0))
      && GameTerm(t, t[b], c) == 0.9 * 0.5 * (1.0 + 0.2 / 49.0)
      && GameTerm(t, t[c], b) == -(0.9 * 1.5 * (1.0 + 9.0 / 784.0))
  {
  }

  /** A team with a single game scores 12 times that game's term. */
  lemma SingleGameScore(t: map<string, TeamRec>, n: string, o: string)
    requires Consistent(t) && n in t && t[n].opponents == [o] && o in t[n].games
    ensures ScoreOf(t, n) == 12.0 * GameTerm(t, t[n], o)
  {
    OpponentsPlayable(t, t[n]);
    assert [o][..0] == [];
    assert TermSum(t, t[n], [o]) == GameTerm(t, t[n], o);
    assert |t[n].games| == 1 by { assert t[n].games.Keys == {o}; }
    RankScoreOf(t, t[n], GameTerm(t, t[n], o), 1);
  }

  /** A team with two games scores 6 times the sum of the two terms. */
  lemma PairGameScore(t: map<string, TeamRec>, n: string, o: string, p: string)
    requires Consistent(t) && n in t && t[n].opponents == [o, p] && o in t[n].games && p in t[n].games
    ensures ScoreOf(t, n) == 6.0 * (GameTerm(t, t[n], o) + GameTerm(t, t[n], p))
  {
    OpponentsPlayable(t, t[n]);
    assert [o, p][..1] == [o] && [o][..0] == [];
    var total := GameTerm(t, t[n], o) + GameTerm(t, t[n], p);
    assert TermSum(t, t[n], [o]) == GameTerm(t, t[n], o);
    assert TermSum(t, t[n], [o, p]) == total;
    RankScoreOf(t, t[n], total, 2);
  }

  /** The scores once the SOS has settled: `a` beat a 1-1 team by 20, `b`
      lost to `a` by 20 and beat `c` by 3, `c` lost to a 1-1 team by 3. */
  lemma SettledScores(a: string, b: string, c: string)
    requires a != b && b != c && a != c
    ensures var t := Played(a, b, c, 0.5).teams;
      && Consistent(t)
      && ScoreOf(t, a) == 12.0 * (0.9 * 1.5 * (1.0 + 0.2 / 9.0))
      && ScoreOf(t, b) == 6.0 * (0.9 * 0.5 * (1.0 + 0.2 / 49.0) - 0.9 * 0.5 * (1.0 + 400.0 / 784.0))
      && ScoreOf(t, c) == -12.0 * (0.9 * 1.5 * (1.0 + 9.0 / 784.0))
  {
    var t := Played(a, b, c, 0.5).teams;
    SettledConsistent(a, b, c);
    SettledTerms(a, b, c);
    SingleGameScore(t, a, b);
    PairGameScore(t, b, a, c);
    SingleGameScore(t, c, b);
  }

  /** A strictly ordered list of three distinct teams, each listed, each
      entry carrying its team's score, is ordered by those scores. */
  lemma ThreeOrdered(r: seq<Ranking>, a: string, b: string, c: string, sa: real, sb: real, sc: real)
    requires a != b && b != c && a != c && sa > sb > sc
    requires forall i :: 0 <= i < |r| ==>
      (r[i].team == a && r[i].score == sa) || (r[i].team == b && r[i].score == sb) ||
      (r[i].team == c && r[i].score == sc)
    requires StrictlyOrdered(r)
    requires exists i :: 0 <= i < |r| && r[i].team == a
    requires exists i :: 0 <= i < |r| && r[i].team == b
    requires exists i :: 0 <= i < |r| && r[i].team == c
    ensures |r| == 3 && r[0].team == a && r[1].team == b && r[2].team == c
  {
    var ia :| 0 <= ia < |r| && r[ia].team == a;
    var ib :| 0 <= ib < |r| && r[ib].team == b;
    var ic :| 0 <= ic < |r| && r[ic].team == c;
    OneOfThree(r, 0, ia, ib, ic);
    OneOfThree(r, 1, ia, ib, ic);
    OneOfThree(r, 2, ia, ib, ic);
    OneOfThree(r, |r| - 1, ia, ib, ic);
  }

  /** In a list without repeated teams, an entry for one of three listed
      teams sits at that team's index. */
  lemma OneOfThree(r: seq<Ranking>, j: nat, ia: nat, ib: nat, ic: nat)
    requires StrictlyOrdered(r) && j < |r| && ia < |r| && ib < |r| && ic < |r|
    requires r[j].team == r[ia].team || r[j].team == r[ib].team || r[j].team == r[ic].team
    ensures j == ia || j == ib || j == ic
  {
  }

  /** Every entry of a faithful list over the teams `a`, `b`, `c` is one of
      them, with its score. */
  lemma EntriesOfThree(t: map<string, TeamRec>, r: seq<Ranking>, a: string, b: string, c: string)
    requires Consistent(t) && t.Keys == {a, b, c} && EntriesFaithful(t, r)
    ensures forall i :: 0 <= i < |r| ==>
      (r[i].team == a && r[i].score == ScoreOf(t, a)) || (r[i].team == b && r[i].score == ScoreOf(t, b)) ||
      (r[i].team == c && r[i].score == ScoreOf(t, c))
  {
  }

  /** get_rankings on the season lists `a`, `b`, `c` in that order: `a`
      scores above 0, `b` a little below, `c` far below. */
  lemma ThreeTeamsRanked(a: string, b: string, c: string, r: seq<Ranking>)
    requires a != b && b != c && a != c
    requires Consistent(Played(a, b, c, 0.5).teams) && Standings(Played(a, b, c, 0.5).teams, r)
    ensures |r| == 3 && r[0].team == a && r[1].team == b && r[2].team == c
    ensures r[0].wins == 1 && r[0].losses == 0 && r[1].wins == 1 && r[1].losses == 1
    ensures r[2].wins == 0 && r[2].losses == 1
  {
    var t := Played(a, b, c, 0.5).teams;
    SettledScores(a, b, c);
    var sa, sb, sc := ScoreOf(t, a), ScoreOf(t, b), ScoreOf(t, c);
    assert sa > sb > sc;
    assert t.Keys == {a, b, c};
    EntriesOfThree(t, r, a, b, c);
    ThreeOrdered(r, a, b, c, sa, sb, sc);
  }

  /** End to end: whatever list get_rankings returns after these two games
      (Engine.Registry.GetRankings ensures it has the standings of the
      registry its SOS phases leave) ranks `a` first, `b` second, `c` third. */
  lemma SeasonRanking(a: string, b: string, c: string, r: seq<Ranking>)
    requires a != b && b != c && a != c
    requires var tb := ThreeTeams(a, b, c);
      var settled := Solve(Seed(tb.teams, tb.order, |tb.order|), tb.order, SosPasses);
      Consistent(settled) && Standings(settled, r)
    ensures |r| == 3 && r[0].team == a && r[1].team == b && r[2].team == c
  {
    ThreeTeamsSolved(a, b, c);
    ThreeTeamsRanked(a, b, c, r);
  }
}
