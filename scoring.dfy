/** The rank score of a team (rank_score), as a value-level specification. */
module Scoring {
  import opened Curves
  import opened Records

  /** is_home: the opponent's own map holds an entry for this team with a
      negative spread. */
  predicate IsHome(name: string, opp: TeamRec)
  {
    name in opp.games && opp.games[name] < 0
  }

  /** A win weighs 0.9 at home and 1.1 away; a loss weighs 1.1 at home and 0.9 away. */
  function Weight(won: bool, home: bool): real
  {
    if won then (if home then 0.9 else 1.1) else (if home then 1.1 else 0.9)
  }

  /** The contribution of the game against `o`: a win adds the weighted
      opponent wins plus SOS times the bonus, anything else (a loss, or a
      spread of 0) subtracts the weighted opponent losses plus SOS times the
      penalty. */
  function GameTerm(teams: map<string, TeamRec>, t: TeamRec, o: string): real
    requires o in t.games && o in teams
  {
    var opp := teams[o];
    var spread := t.games[o];
    var home := IsHome(t.name, opp);
    if spread > 0 then Weight(true, home) * (opp.wins as real + opp.sos) * Bonus(spread)
    else -(Weight(false, home) * (opp.losses as real + opp.sos) * Penalty(spread))
  }

  /** A won game's term, for a weight, base and bonus computed elsewhere. */
  lemma GameTermWon(teams: map<string, TeamRec>, t: TeamRec, o: string, w: real, base: real, c: real)
    requires o in t.games && o in teams && t.games[o] > 0
    requires w == Weight(true, IsHome(t.name, teams[o]))
    requires base == teams[o].wins as real + teams[o].sos && c == Bonus(t.games[o])
    ensures GameTerm(teams, t, o) == w * base * c
  {
  }

  /** A lost or tied game's term, for a weight, base and penalty computed elsewhere. */
  lemma GameTermLost(teams: map<string, TeamRec>, t: TeamRec, o: string, w: real, base: real, c: real)
    requires o in t.games && o in teams && t.games[o] <= 0
    requires w == Weight(false, IsHome(t.name, teams[o]))
    requires base == teams[o].losses as real + teams[o].sos && c == Penalty(t.games[o])
    ensures GameTerm(teams, t, o) == -(w * base * c)
  {
  }

  /** Every name in `opps` is an opponent of `t` and is registered. */
  ghost predicate Playable(teams: map<string, TeamRec>, t: TeamRec, opps: seq<string>)
  {
    forall i :: 0 <= i < |opps| ==> opps[i] in t.games && opps[i] in teams
  }

  /** The running total of the loop over the games, in the order of `opps`. */
  function TermSum(teams: map<string, TeamRec>, t: TeamRec, opps: seq<string>): real
    requires Playable(teams, t, opps)
  {
    if opps == [] then 0.0
    else TermSum(teams, t, opps[..|opps| - 1]) + GameTerm(teams, t, opps[|opps| - 1])
  }

  /** One more game of the loop: the running total grows by that game's term. */
  lemma TermSumStep(teams: map<string, TeamRec>, t: TeamRec, opps: seq<string>, i: nat)
    requires i < |opps| && Playable(teams, t, opps)
    ensures Playable(teams, t, opps[..i]) && Playable(teams, t, opps[..i + 1])
    ensures opps[i] in t.games && opps[i] in teams
    ensures TermSum(teams, t, opps[..i + 1]) == TermSum(teams, t, opps[..i]) + GameTerm(teams, t, opps[i])
  {
    assert opps[..i + 1][..i] == opps[..i];
  }

  /** rank_score: the total scaled to a 12-game season, 0 for a team without games.
      rank_score looks every opponent up with `Team.teams[opponent_name]`, which
      fails on a missing one, so every opponent must be registered. */
  function RankScore(teams: map<string, TeamRec>, t: TeamRec): real
    requires Playable(teams, t, t.opponents)
  {
    if |t.games| > 0 then (12.0 / |t.games| as real) * TermSum(teams, t, t.opponents) else 0.0
  }

  /** rank_score in terms of a game total and a game count computed elsewhere. */
  lemma RankScoreOf(teams: map<string, TeamRec>, t: TeamRec, total: real, n: nat)
    requires Playable(teams, t, t.opponents)
    requires total == TermSum(teams, t, t.opponents) && n == |t.games|
    ensures RankScore(teams, t) == if n > 0 then (12.0 / n as real) * total else 0.0
  {
  }

  // ---------------------------------------------------------------------------
  // Real arithmetic used by the proofs below.  Each helper takes the values it
  // relates as parameters, so that callers pass function results as atoms.

  /** Scaling a total to 12 games and multiplying back by the count gives 12 times the total. */
  lemma ScaleByCount(r: real, n: real, s: real)
    requires n > 0.0 && r == (12.0 / n) * s
    ensures r * n == 12.0 * s
  {
    var q := 12.0 / n;
    assert q * n == 12.0;
    assert q * s * n == q * n * s;
  }

  /** Scaling to 12 games keeps the sign of a total. */
  lemma ScaleSign(r: real, n: nat, s: real)
    requires n > 0 && r == (12.0 / n as real) * s
    ensures s >= 0.0 ==> r >= 0.0
    ensures s <= 0.0 ==> r <= 0.0
  {
    var q := 12.0 / n as real;
    assert q * n as real == 12.0;
    assert q > 0.0;
  }

  /** Multiplying on the right by a non-negative factor keeps the order. */
  lemma MulMono(lo: real, y: real, x: real)
    requires 0.0 <= x && lo <= y
    ensures lo * x <= y * x
  {
    assert (y - lo) * x >= 0.0;
  }

  /** The same, multiplying on the left. */
  lemma MulMonoLeft(lo: real, y: real, x: real)
    requires 0.0 <= x && lo <= y
    ensures x * lo <= x * y
  {
    assert x * (y - lo) >= 0.0;
  }

  /** A value in [lo, hi] times a factor in [1, cmax]. */
  lemma ScaledBounds(g: real, x: real, c: real, cmax: real, lo: real, hi: real)
    requires 0.0 <= x && lo <= x <= hi && 1.0 <= c <= cmax
    requires g == x * c
    ensures lo <= g <= hi * cmax
  {
    MulMonoLeft(1.0, c, x);
    MulMonoLeft(c, cmax, x);
    MulMono(x, hi, cmax);
  }

  /** A weight in [0.9, 1.1] times a base times a curve value in [1, cmax]. */
  lemma ProductBounds(g: real, w: real, base: real, c: real, cmax: real)
    requires 0.9 <= w <= 1.1 && 0.0 <= base && 1.0 <= c <= cmax
    requires g == w * base * c
    ensures 0.9 * base <= g <= 1.1 * base * cmax
  {
    MulMono(0.9, w, base);
    MulMono(w, 1.1, base);
    assert 0.9 * base <= w * base;
    assert w * base <= 1.1 * base;
    ScaledBounds(g, w * base, c, cmax, 0.9 * base, 1.1 * base);
  }

  // ---------------------------------------------------------------------------

  /** The games of a well-formed team can all be scored. */
  lemma OpponentsPlayable(teams: map<string, TeamRec>, t: TeamRec)
    requires WellFormed(t) && forall o :: o in t.games ==> o in teams
    ensures Playable(teams, t, t.opponents)
  {
    forall i | 0 <= i < |t.opponents| ensures t.opponents[i] in t.games && t.opponents[i] in teams {
      assert t.opponents[i] in t.opponents;
    }
  }

  /** A team without games scores 0; otherwise the score is the game total
      times 12 over the number of games, so it is the mean game term times 12. */
  lemma RankScoreScale(teams: map<string, TeamRec>, t: TeamRec)
    requires Playable(teams, t, t.opponents)
    ensures |t.games| == 0 ==> RankScore(teams, t) == 0.0
    ensures |t.games| > 0 ==>
      RankScore(teams, t) * |t.games| as real == 12.0 * TermSum(teams, t, t.opponents)
  {
    if |t.games| > 0 {
      ScaleByCount(RankScore(teams, t), |t.games| as real, TermSum(teams, t, t.opponents));
    }
  }

  /** Bounds of one game term, with a non-negative opponent SOS: a win adds
      between 0.9 and 1.1 * (1 + 0.2 / 9) times the opponent's wins plus SOS; a
      loss subtracts between 0.9 and 2.2 times its losses plus SOS. */
  lemma GameTermBounds(teams: map<string, TeamRec>, t: TeamRec, o: string)
    requires o in t.games && o in teams && teams[o].sos >= 0.0
    ensures t.games[o] > 0 ==>
      0.9 * (teams[o].wins as real + teams[o].sos) <= GameTerm(teams, t, o)
      <= 1.1 * (teams[o].wins as real + teams[o].sos) * BonusCeiling
    ensures t.games[o] <= 0 ==>
      -2.2 * (teams[o].losses as real + teams[o].sos) <= GameTerm(teams, t, o)
      <= -0.9 * (teams[o].losses as real + teams[o].sos)
  {
    var home := IsHome(t.name, teams[o]);
    if t.games[o] > 0 {
      ProductBounds(GameTerm(teams, t, o), Weight(true, home),
        teams[o].wins as real + teams[o].sos, Bonus(t.games[o]), BonusCeiling);
    } else {
      ProductBounds(-GameTerm(teams, t, o), Weight(false, home),
        teams[o].losses as real + teams[o].sos, Penalty(t.games[o]), 2.0);
    }
  }

  /** With non-negative SOS everywhere, a team that won every game has a
      non-negative score, and one that won none has a non-positive score. */
  lemma {:induction false} TermSumSign(teams: map<string, TeamRec>, t: TeamRec, opps: seq<string>)
    requires Playable(teams, t, opps)
    requires forall n :: n in teams ==> teams[n].sos >= 0.0
    ensures (forall i :: 0 <= i < |opps| ==> t.games[opps[i]] > 0) ==> TermSum(teams, t, opps) >= 0.0
    ensures (forall i :: 0 <= i < |opps| ==> t.games[opps[i]] <= 0) ==> TermSum(teams, t, opps) <= 0.0
  {
    if opps != [] {
      var init := opps[..|opps| - 1];
      assert forall i :: 0 <= i < |init| ==> init[i] == opps[i];
      TermSumSign(teams, t, init);
      GameTermBounds(teams, t, opps[|opps| - 1]);
    }
  }

  /** With non-negative SOS everywhere, a team that won every game has a
      non-negative score. */
  lemma RankScoreUnbeaten(teams: map<string, TeamRec>, t: TeamRec)
    requires Playable(teams, t, t.opponents)
    requires forall n :: n in teams ==> teams[n].sos >= 0.0
    requires forall o :: o in t.games ==> t.games[o] > 0
    ensures RankScore(teams, t) >= 0.0
  {
    assert forall i :: 0 <= i < |t.opponents| ==> t.games[t.opponents[i]] > 0;
    TermSumSign(teams, t, t.opponents);
    if |t.games| > 0 {
      ScaleSign(RankScore(teams, t), |t.games|, TermSum(teams, t, t.opponents));
    }
  }

  /** With non-negative SOS everywhere, a team that won no game has a
      non-positive score. */
  lemma RankScoreWinless(teams: map<string, TeamRec>, t: TeamRec)
    requires Playable(teams, t, t.opponents)
    requires forall n :: n in teams ==> teams[n].sos >= 0.0
    requires forall o :: o in t.games ==> t.games[o] <= 0
    ensures RankScore(teams, t) <= 0.0
  {
    assert forall i :: 0 <= i < |t.opponents| ==> t.games[t.opponents[i]] <= 0;
    TermSumSign(teams, t, t.opponents);
    if |t.games| > 0 {
      ScaleSign(RankScore(teams, t), |t.games|, TermSum(teams, t, t.opponents));
    }
  }

  /** The home test looks at the sign of the spread the opponent recorded.
      Ingestion always records opposite spreads on the two sides of a game
      (Records.RecordGameMirrored), so against any other team the test holds
      exactly when this team won, and every such game is weighted 0.9 whatever
      the venue. */
  lemma HomeMeansWon(teams: map<string, TeamRec>, n: string, o: string)
    requires Mirrored(teams) && Consistent(teams)
    requires n in teams && o in teams[n].games && o != n
    ensures o in teams
    ensures IsHome(n, teams[o]) <==> teams[n].games[o] > 0
    ensures Weight(teams[n].games[o] > 0, IsHome(n, teams[o])) == 0.9
  {
  }
}
