/** Strength of schedule (SOS), as value-level specifications.

    Phase A (calculate_initial_sos) gives each FBS team the share of wins among
    all games of its registered opponents.  Phase B (calculate_recursive_sos)
    then runs a number of passes over the registry in its iteration order; each
    pass replaces, team after team, an FBS team's SOS by the mean SOS of its
    registered opponents.  The update is in place: a team visited later in a
    pass sees the values already written earlier in the same pass. */
module Schedule {
  import opened Records
  import opened Sequences

  /** The number of passes get_rankings asks calculate_recursive_sos for. */
  const SosPasses: nat := 1000

  /** A share of a positive total lies in [0, 1]. */
  lemma DivBounded(r: real, s: real, c: real)
    requires 0.0 < c && 0.0 <= s <= c && r == s / c
    ensures r * c == s
    ensures 0.0 <= r <= 1.0
    ensures r == 0.0 <==> s == 0.0
    ensures r == 1.0 <==> s == c
  {
    assert r * c == s;
  }

  // ---------------------------------------------------------------------------
  // Phase A

  /** Total wins of the registered names in `opps`; other names are skipped. */
  function OpponentWins(teams: map<string, TeamRec>, opps: seq<string>): nat
  {
    if opps == [] then 0
    else
      var o := opps[|opps| - 1];
      OpponentWins(teams, opps[..|opps| - 1]) + (if o in teams then teams[o].wins else 0)
  }

  /** Total losses of the registered names in `opps`; other names are skipped. */
  function OpponentLosses(teams: map<string, TeamRec>, opps: seq<string>): nat
  {
    if opps == [] then 0
    else
      var o := opps[|opps| - 1];
      OpponentLosses(teams, opps[..|opps| - 1]) + (if o in teams then teams[o].losses else 0)
  }

  /** calculate_initial_sos: the opponents' wins over their wins plus losses,
      0 for a team without games or when that total is 0. */
  function InitialSos(teams: map<string, TeamRec>, t: TeamRec): (r: real)
    ensures 0.0 <= r <= 1.0
  {
    if |t.games| == 0 then 0.0
    else
      var wins := OpponentWins(teams, t.opponents);
      var total := wins + OpponentLosses(teams, t.opponents);
      if total > 0 then
        DivBounded(wins as real / total as real, wins as real, total as real);
        wins as real / total as real
      else 0.0
  }

  /** Phase A for one name of the iteration order. */
  function SeedOne(teams: map<string, TeamRec>, n: string): map<string, TeamRec>
  {
    if n in teams && teams[n].isFbs then teams[n := teams[n].(sos := InitialSos(teams, teams[n]))]
    else teams
  }

  /** Phase A over the first `k` names of the iteration order. */
  function Seed(teams: map<string, TeamRec>, order: seq<string>, k: nat): map<string, TeamRec>
    requires k <= |order|
  {
    if k == 0 then teams else SeedOne(Seed(teams, order, k - 1), order[k - 1])
  }

  // ---------------------------------------------------------------------------
  // Phase B

  /** Sum of the SOS of the registered names in `opps`. */
  function SosSum(teams: map<string, TeamRec>, opps: seq<string>): real
  {
    if opps == [] then 0.0
    else
      var o := opps[|opps| - 1];
      SosSum(teams, opps[..|opps| - 1]) + (if o in teams then teams[o].sos else 0.0)
  }

  /** Number of registered names in `opps`. */
  function SosCount(teams: map<string, TeamRec>, opps: seq<string>): nat
  {
    if opps == [] then 0
    else
      var o := opps[|opps| - 1];
      SosCount(teams, opps[..|opps| - 1]) + (if o in teams then 1 else 0)
  }

  /** The mean SOS of a team's registered opponents, 0 when it has none. */
  function Average(teams: map<string, TeamRec>, t: TeamRec): real
  {
    var count := SosCount(teams, t.opponents);
    if count > 0 then SosSum(teams, t.opponents) / count as real else 0.0
  }

  /** One step of a pass: the FBS team `n` takes the current mean of its opponents. */
  function Relax(teams: map<string, TeamRec>, n: string): map<string, TeamRec>
  {
    if n in teams && teams[n].isFbs then teams[n := teams[n].(sos := Average(teams, teams[n]))]
    else teams
  }

  /** The first `k` steps of one pass, in iteration order. */
  function Sweep(teams: map<string, TeamRec>, order: seq<string>, k: nat): map<string, TeamRec>
    requires k <= |order|
  {
    if k == 0 then teams else Relax(Sweep(teams, order, k - 1), order[k - 1])
  }

  /** calculate_recursive_sos(iterations): that many complete passes. */
  function Solve(teams: map<string, TeamRec>, order: seq<string>, iterations: nat): map<string, TeamRec>
  {
    if iterations == 0 then teams else Sweep(Solve(teams, order, iterations - 1), order, |order|)
  }

  // ---------------------------------------------------------------------------
  // What the two phases may change

  /** `b` differs from `a` at most in the SOS of FBS teams. */
  ghost predicate SosOnlyChange(a: map<string, TeamRec>, b: map<string, TeamRec>)
  {
    a.Keys == b.Keys &&
    forall n :: n in a ==> b[n] == a[n].(sos := b[n].sos) && (!a[n].isFbs ==> b[n].sos == a[n].sos)
  }

  lemma SosOnlyChangeTrans(a: map<string, TeamRec>, b: map<string, TeamRec>, c: map<string, TeamRec>)
    requires SosOnlyChange(a, b) && SosOnlyChange(b, c)
    ensures SosOnlyChange(a, c)
  {
    forall n | n in a ensures c[n] == a[n].(sos := c[n].sos) && (!a[n].isFbs ==> c[n].sos == a[n].sos) {
      assert b[n] == a[n].(sos := b[n].sos);
    }
  }

  /** Changing only SOS values, keeping them in [0, 1], keeps a registry valid. */
  lemma SosOnlyChangeValid(a: map<string, TeamRec>, b: map<string, TeamRec>, order: seq<string>)
    requires ValidTable(Table(a, order)) && SosOnlyChange(a, b) && SosBounded(b)
    ensures ValidTable(Table(b, order))
  {
    forall n | n in b ensures b[n].name == n && WellFormed(b[n]) && b[n].games == a[n].games {
      assert b[n] == a[n].(sos := b[n].sos);
    }
  }

  /** Opponent win and loss totals only depend on counters, which neither phase touches. */
  lemma {:induction false} OpponentTotalsFramed(a: map<string, TeamRec>, b: map<string, TeamRec>, opps: seq<string>)
    requires SosOnlyChange(a, b)
    ensures OpponentWins(a, opps) == OpponentWins(b, opps)
    ensures OpponentLosses(a, opps) == OpponentLosses(b, opps)
  {
    if opps != [] {
      OpponentTotalsFramed(a, b, opps[..|opps| - 1]);
      var o := opps[|opps| - 1];
      if o in a { assert b[o] == a[o].(sos := b[o].sos); }
    }
  }

  /** The number of registered opponents only depends on which names are registered. */
  lemma {:induction false} SosCountFramed(a: map<string, TeamRec>, b: map<string, TeamRec>, opps: seq<string>)
    requires a.Keys == b.Keys
    ensures SosCount(a, opps) == SosCount(b, opps)
  {
    if opps != [] {
      SosCountFramed(a, b, opps[..|opps| - 1]);
    }
  }

  // ---------------------------------------------------------------------------
  // Phase A

  /** For a team with games whose opponents have played, the initial SOS is
      the share of wins among the opponents' games. */
  lemma InitialSosShare(teams: map<string, TeamRec>, t: TeamRec)
    requires |t.games| > 0
    requires OpponentWins(teams, t.opponents) + OpponentLosses(teams, t.opponents) > 0
    ensures InitialSos(teams, t) * (OpponentWins(teams, t.opponents) + OpponentLosses(teams, t.opponents)) as real
      == OpponentWins(teams, t.opponents) as real
  {
    var w := OpponentWins(teams, t.opponents);
    var l := OpponentLosses(teams, t.opponents);
    DivBounded(InitialSos(teams, t), w as real, (w + l) as real);
  }

  /** The initial SOS is 0 exactly when the team has no games or its opponents
      have no wins, and 1 exactly when its opponents have wins but no losses. */
  lemma InitialSosExtremes(teams: map<string, TeamRec>, t: TeamRec)
    ensures InitialSos(teams, t) == 0.0 <==> |t.games| == 0 || OpponentWins(teams, t.opponents) == 0
    ensures InitialSos(teams, t) == 1.0 <==>
      |t.games| > 0 && OpponentWins(teams, t.opponents) > 0 && OpponentLosses(teams, t.opponents) == 0
  {
    var w := OpponentWins(teams, t.opponents);
    var l := OpponentLosses(teams, t.opponents);
    if |t.games| > 0 && w + l > 0 {
      DivBounded(InitialSos(teams, t), w as real, (w + l) as real);
    }
  }

  /** A game against a name that is not registered leaves the initial SOS as it was. */
  lemma InitialSosSkipsUnknown(teams: map<string, TeamRec>, t: TeamRec, o: string, isWin: bool, spread: int)
    requires WellFormed(t) && o !in teams && o !in t.games
    ensures InitialSos(teams, AddGame(t, o, isWin, spread)) == InitialSos(teams, t)
  {
    var r := AddGame(t, o, isWin, spread);
    assert r.opponents[..|r.opponents| - 1] == t.opponents;
  }

  /** One step of phase A, after earlier steps that changed only SOS values:
      the visited FBS team gets the initial SOS computed from the original
      counters, and nothing else changes. */
  lemma SeedOneEffect(teams: map<string, TeamRec>, prev: map<string, TeamRec>, n: string)
    requires SosOnlyChange(teams, prev)
    ensures SosOnlyChange(prev, SeedOne(prev, n))
    ensures n in teams && teams[n].isFbs ==> SeedOne(prev, n)[n].sos == InitialSos(teams, teams[n])
    ensures forall m :: m in prev && m != n ==> SeedOne(prev, n)[m] == prev[m]
  {
    if n in prev && prev[n].isFbs {
      OpponentTotalsFramed(teams, prev, prev[n].opponents);
      assert prev[n].opponents == teams[n].opponents;
    }
  }

  /** Phase A changes only the SOS of FBS teams, and the result does not depend
      on the iteration order: every FBS team gets the initial SOS computed from
      the counters as they were before the phase. */
  lemma {:induction false} SeedResult(teams: map<string, TeamRec>, order: seq<string>, k: nat)
    requires k <= |order| && Distinct(order)
    ensures SosOnlyChange(teams, Seed(teams, order, k))
    ensures forall n :: n in teams && teams[n].isFbs && n in order[..k] ==>
      Seed(teams, order, k)[n].sos == InitialSos(teams, teams[n])
    ensures forall n :: n in teams && n !in order[..k] ==> Seed(teams, order, k)[n] == teams[n]
  {
    if k > 0 {
      SeedResult(teams, order, k - 1);
      var prev := Seed(teams, order, k - 1);
      var n := order[k - 1];
      SeedOneEffect(teams, prev, n);
      assert order[..k] == order[..k - 1] + [n];
      assert forall i :: 0 <= i < k - 1 ==> order[i] != n;
      assert n !in order[..k - 1];
      SosOnlyChangeTrans(teams, prev, Seed(teams, order, k));
    }
  }

  /** After phase A every SOS is in [0, 1] if it was before. */
  lemma SeedBounded(teams: map<string, TeamRec>, order: seq<string>)
    requires Distinct(order) && SosBounded(teams)
    requires forall n :: n in teams ==> n in order
    ensures SosBounded(Seed(teams, order, |order|))
  {
    SeedResult(teams, order, |order|);
    assert order[..|order|] == order;
  }

  // ---------------------------------------------------------------------------
  // Phase B

  /** With every SOS in [0, 1], the opponents' SOS total lies between 0 and
      their number. */
  lemma {:induction false} SosSumBounded(teams: map<string, TeamRec>, opps: seq<string>)
    requires SosBounded(teams)
    ensures 0.0 <= SosSum(teams, opps) <= SosCount(teams, opps) as real
  {
    if opps != [] {
      SosSumBounded(teams, opps[..|opps| - 1]);
    }
  }

  /** A mean of values in [0, 1] is in [0, 1]. */
  lemma AverageBounded(teams: map<string, TeamRec>, t: TeamRec)
    requires SosBounded(teams)
    ensures 0.0 <= Average(teams, t) <= 1.0
  {
    SosSumBounded(teams, t.opponents);
    if SosCount(teams, t.opponents) > 0 {
      DivBounded(Average(teams, t), SosSum(teams, t.opponents), SosCount(teams, t.opponents) as real);
    }
  }

  lemma RelaxKeeps(teams: map<string, TeamRec>, n: string)
    requires SosBounded(teams)
    ensures SosOnlyChange(teams, Relax(teams, n))
    ensures SosBounded(Relax(teams, n))
  {
    if n in teams {
      AverageBounded(teams, teams[n]);
    }
  }

  /** A pass keeps every SOS in [0, 1] and changes only the SOS of FBS teams. */
  lemma {:induction false} SweepKeeps(teams: map<string, TeamRec>, order: seq<string>, k: nat)
    requires k <= |order| && SosBounded(teams)
    ensures SosOnlyChange(teams, Sweep(teams, order, k))
    ensures SosBounded(Sweep(teams, order, k))
  {
    if k > 0 {
      SweepKeeps(teams, order, k - 1);
      RelaxKeeps(Sweep(teams, order, k - 1), order[k - 1]);
      SosOnlyChangeTrans(teams, Sweep(teams, order, k - 1), Sweep(teams, order, k));
    } else {
      assert Sweep(teams, order, 0) == teams;
    }
  }

  /** Any number of passes keeps every SOS in [0, 1], leaves every non-FBS
      team's SOS alone and changes nothing but SOS values. */
  lemma {:induction false} SolveKeeps(teams: map<string, TeamRec>, order: seq<string>, iterations: nat)
    requires SosBounded(teams)
    ensures SosOnlyChange(teams, Solve(teams, order, iterations))
    ensures SosBounded(Solve(teams, order, iterations))
  {
    if iterations > 0 {
      SolveKeeps(teams, order, iterations - 1);
      var prev := Solve(teams, order, iterations - 1);
      SweepKeeps(prev, order, |order|);
      SosOnlyChangeTrans(teams, prev, Solve(teams, order, iterations));
    } else {
      assert Solve(teams, order, 0) == teams;
    }
  }

  /** Within a pass, once an FBS team without registered opponents has been
      visited its SOS is 0, and later steps of the pass leave it alone. */
  lemma {:induction false} SweepIsolated(teams: map<string, TeamRec>, order: seq<string>, k: nat, i: nat)
    requires k <= |order| && Distinct(order) && i < k
    requires order[i] in teams && teams[order[i]].isFbs
    requires SosCount(teams, teams[order[i]].opponents) == 0
    ensures order[i] in Sweep(teams, order, k)
    ensures Sweep(teams, order, k)[order[i]].sos == 0.0
  {
    var n := order[i];
    var prev := Sweep(teams, order, k - 1);
    SweepFrame(teams, order, k - 1);
    assert prev.Keys == teams.Keys;
    assert prev[n].isFbs && prev[n].opponents == teams[n].opponents;
    if i == k - 1 {
      SosCountFramed(teams, prev, teams[n].opponents);
    } else {
      SweepIsolated(teams, order, k - 1, i);
    }
  }

  /** A pass changes only SOS values (no bound on them is needed for this). */
  lemma {:induction false} SweepFrame(teams: map<string, TeamRec>, order: seq<string>, k: nat)
    requires k <= |order|
    ensures SosOnlyChange(teams, Sweep(teams, order, k))
  {
    if k > 0 {
      SweepFrame(teams, order, k - 1);
      SosOnlyChangeTrans(teams, Sweep(teams, order, k - 1), Sweep(teams, order, k));
    } else {
      assert Sweep(teams, order, 0) == teams;
    }
  }

  lemma {:induction false} SolveFrame(teams: map<string, TeamRec>, order: seq<string>, iterations: nat)
    ensures SosOnlyChange(teams, Solve(teams, order, iterations))
  {
    if iterations > 0 {
      SolveFrame(teams, order, iterations - 1);
      SweepFrame(Solve(teams, order, iterations - 1), order, |order|);
      SosOnlyChangeTrans(teams, Solve(teams, order, iterations - 1), Solve(teams, order, iterations));
    } else {
      assert Solve(teams, order, 0) == teams;
    }
  }

  /** After at least one pass, an FBS team with no registered opponent has SOS 0. */
  lemma SolveIsolated(teams: map<string, TeamRec>, order: seq<string>, iterations: nat, n: string)
    requires Registered(teams, order) && iterations > 0
    requires n in teams && teams[n].isFbs && SosCount(teams, teams[n].opponents) == 0
    ensures n in Solve(teams, order, iterations) && Solve(teams, order, iterations)[n].sos == 0.0
  {
    var prev := Solve(teams, order, iterations - 1);
    SolveFrame(teams, order, iterations - 1);
    SosCountFramed(teams, prev, teams[n].opponents);
    var i :| 0 <= i < |order| && order[i] == n;
    SweepIsolated(prev, order, |order|, i);
  }

  /** Every FBS team's SOS already equals the mean SOS of its opponents. */
  ghost predicate Balanced(teams: map<string, TeamRec>)
  {
    forall n :: n in teams && teams[n].isFbs ==> teams[n].sos == Average(teams, teams[n])
  }

  lemma RelaxBalanced(teams: map<string, TeamRec>, n: string)
    requires Balanced(teams)
    ensures Relax(teams, n) == teams
  {
  }

  /** A balanced registry is a fixed point of a pass ... */
  lemma {:induction false} SweepBalanced(teams: map<string, TeamRec>, order: seq<string>, k: nat)
    requires k <= |order| && Balanced(teams)
    ensures Sweep(teams, order, k) == teams
  {
    if k > 0 {
      SweepBalanced(teams, order, k - 1);
      RelaxBalanced(teams, order[k - 1]);
    }
  }

  /** ... and so of any number of passes: the refinement stops moving once
      every FBS team's SOS is the mean of its opponents'. */
  lemma {:induction false} SolveBalanced(teams: map<string, TeamRec>, order: seq<string>, iterations: nat)
    requires Balanced(teams)
    ensures Solve(teams, order, iterations) == teams
  {
    if iterations > 0 {
      SolveBalanced(teams, order, iterations - 1);
      SweepBalanced(teams, order, |order|);
    }
  }
}
