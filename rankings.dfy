/** What get_rankings returns, as a value-level specification: the rating
    list of every FBS team in iteration order, sorted, and turned into rank
    records numbered from 1. */
module Rankings {
  import opened Records
  import opened Sequences
  import opened Scoring
  import opened Ordering

  /** One entry of the result: {'rank', 'team', 'wins', 'losses', 'score'}. */
  datatype Ranking = Ranking(rank: int, team: string, wins: int, losses: int, score: real)

  /** team.rank_score() for the registered team `n`. */
  function ScoreOf(teams: map<string, TeamRec>, n: string): real
    requires Consistent(teams) && n in teams
  {
    OpponentsPlayable(teams, teams[n]);
    RankScore(teams, teams[n])
  }

  /** [-team.rank_score(), -team.wins, team.losses, team.name]. */
  function RatingOf(teams: map<string, TeamRec>, n: string): (x: Rating)
    requires Consistent(teams) && n in teams
    ensures x.name == n
  {
    Rating(-ScoreOf(teams, n), -(teams[n].wins as int), teams[n].losses, teams[n].name)
  }

  /** Every name of the iteration order is registered. */
  ghost predicate Listed(teams: map<string, TeamRec>, order: seq<string>)
  {
    forall i :: 0 <= i < |order| ==> order[i] in teams
  }

  /** The ratings list after visiting the first `k` names of the iteration
      order: one rating per FBS team, in that order. */
  function Ratings(teams: map<string, TeamRec>, order: seq<string>, k: nat): seq<Rating>
    requires Consistent(teams) && Listed(teams, order) && k <= |order|
  {
    if k == 0 then []
    else
      var n := order[k - 1];
      Ratings(teams, order, k - 1) + (if teams[n].isFbs then [RatingOf(teams, n)] else [])
  }

  /** The record made from the rating at position `i` of the sorted list. */
  function ToRanking(i: nat, x: Rating): Ranking
  {
    Ranking(i + 1, x.name, -x.negWins, x.losses, -x.negScore)
  }

  /** The result list built from the sorted ratings. */
  function Ranks(sorted: seq<Rating>): (r: seq<Ranking>)
    ensures |r| == |sorted|
  {
    seq(|sorted|, i requires 0 <= i < |sorted| => ToRanking(i, sorted[i]))
  }

  /** `x` is listed above `y`: a higher score, then more wins, then fewer
      losses, then the name that comes first. */
  predicate Precedes(x: Ranking, y: Ranking)
  {
    x.score > y.score ||
    (x.score == y.score &&
      (x.wins > y.wins ||
      (x.wins == y.wins &&
        (x.losses < y.losses ||
        (x.losses == y.losses && StrLess(x.team, y.team))))))
  }

  /** Every entry is an FBS team, numbered from 1, with its own counters and score. */
  ghost predicate EntriesFaithful(teams: map<string, TeamRec>, rankings: seq<Ranking>)
    requires Consistent(teams)
  {
    forall i :: 0 <= i < |rankings| ==>
      && rankings[i].team in teams && teams[rankings[i].team].isFbs
      && rankings[i].rank == i + 1
      && rankings[i].wins == teams[rankings[i].team].wins
      && rankings[i].losses == teams[rankings[i].team].losses
      && rankings[i].score == ScoreOf(teams, rankings[i].team)
  }

  /** Every FBS team has an entry. */
  ghost predicate EveryFbsListed(teams: map<string, TeamRec>, rankings: seq<Ranking>)
  {
    forall n :: n in teams && teams[n].isFbs ==> exists i :: 0 <= i < |rankings| && rankings[i].team == n
  }

  /** No team is listed twice and the list is strictly ordered. */
  ghost predicate StrictlyOrdered(rankings: seq<Ranking>)
  {
    forall i, j :: 0 <= i < j < |rankings| ==>
      rankings[i].team != rankings[j].team && Precedes(rankings[i], rankings[j])
  }

  /** The promise of get_rankings: each FBS team exactly once, ranked 1, 2, …
      from the top, with its own counters and score, the list strictly
      ordered by score, wins, losses and name. */
  ghost predicate Standings(teams: map<string, TeamRec>, rankings: seq<Ranking>)
    requires Consistent(teams)
  {
    EntriesFaithful(teams, rankings) && EveryFbsListed(teams, rankings) && StrictlyOrdered(rankings)
  }

  /** The ratings list holds the rating of every FBS team among the first `k`
      names and nothing else, each team once. */
  lemma {:induction false} RatingsContents(teams: map<string, TeamRec>, order: seq<string>, k: nat)
    requires Consistent(teams) && Listed(teams, order) && k <= |order| && Distinct(order)
    ensures forall x :: x in Ratings(teams, order, k) ==>
      x.name in order[..k] && x.name in teams && teams[x.name].isFbs && x == RatingOf(teams, x.name)
    ensures forall i :: 0 <= i < k && teams[order[i]].isFbs ==> RatingOf(teams, order[i]) in Ratings(teams, order, k)
    ensures Distinct(Ratings(teams, order, k))
  {
    if k > 0 {
      RatingsContents(teams, order, k - 1);
      var prev := Ratings(teams, order, k - 1);
      var n := order[k - 1];
      assert order[..k] == order[..k - 1] + [n];
      assert forall i :: 0 <= i < k - 1 ==> order[i] != n;
      assert n !in order[..k - 1];
      var r := Ratings(teams, order, k);
      if teams[n].isFbs {
        assert r == prev + [RatingOf(teams, n)];
        forall i, j | 0 <= i < j < |r| ensures r[i] != r[j] {
          if j == |prev| {
            assert r[i] in prev;
          }
        }
      } else {
        assert r == prev;
      }
    }
  }

  /** A lower rating means a higher place. */
  lemma RatingLessPrecedes(x: Rating, y: Rating, i: nat, j: nat)
    requires RatingLess(x, y)
    ensures Precedes(ToRanking(i, x), ToRanking(j, y))
  {
  }

  /** Every rating in the sorted list is the rating of an FBS team. */
  ghost predicate RatesFbs(teams: map<string, TeamRec>, sorted: seq<Rating>)
    requires Consistent(teams)
  {
    forall i :: 0 <= i < |sorted| ==>
      sorted[i].name in teams && teams[sorted[i].name].isFbs && sorted[i] == RatingOf(teams, sorted[i].name)
  }

  lemma SortedRatesFbs(teams: map<string, TeamRec>, order: seq<string>, sorted: seq<Rating>)
    requires Consistent(teams) && Registered(teams, order)
    requires multiset(sorted) == multiset(Ratings(teams, order, |order|))
    ensures RatesFbs(teams, sorted)
    ensures Distinct(sorted)
  {
    var all := Ratings(teams, order, |order|);
    RatingsContents(teams, order, |order|);
    DistinctPermuted(all, sorted);
    forall i | 0 <= i < |sorted|
      ensures sorted[i].name in teams && teams[sorted[i].name].isFbs && sorted[i] == RatingOf(teams, sorted[i].name)
    {
      assert sorted[i] in multiset(all);
    }
  }

  lemma RanksFaithful(teams: map<string, TeamRec>, sorted: seq<Rating>)
    requires Consistent(teams) && RatesFbs(teams, sorted)
    ensures EntriesFaithful(teams, Ranks(sorted))
  {
  }

  lemma RanksComplete(teams: map<string, TeamRec>, order: seq<string>, sorted: seq<Rating>)
    requires Consistent(teams) && Registered(teams, order)
    requires multiset(sorted) == multiset(Ratings(teams, order, |order|))
    ensures EveryFbsListed(teams, Ranks(sorted))
  {
    RatingsContents(teams, order, |order|);
    var r := Ranks(sorted);
    forall n | n in teams && teams[n].isFbs
      ensures exists i :: 0 <= i < |r| && r[i].team == n
    {
      var k :| 0 <= k < |order| && order[k] == n;
      assert RatingOf(teams, n) in multiset(sorted);
      var i :| 0 <= i < |sorted| && sorted[i] == RatingOf(teams, n);
      assert r[i].team == n;
    }
  }

  lemma RanksOrdered(teams: map<string, TeamRec>, sorted: seq<Rating>)
    requires Consistent(teams) && RatesFbs(teams, sorted)
    requires Sorted(sorted) && Distinct(sorted)
    ensures StrictlyOrdered(Ranks(sorted))
  {
    SortedStrict(sorted);
    var r := Ranks(sorted);
    forall i, j | 0 <= i < j < |r|
      ensures r[i].team != r[j].team && Precedes(r[i], r[j])
    {
      RatingLessPrecedes(sorted[i], sorted[j], i, j);
    }
  }

  /** Sorting the ratings list, by any sort, and numbering the result gives
      the standings. */
  lemma StandingsCorrect(teams: map<string, TeamRec>, order: seq<string>, sorted: seq<Rating>)
    requires Consistent(teams) && Registered(teams, order)
    requires Sorted(sorted) && multiset(sorted) == multiset(Ratings(teams, order, |order|))
    ensures Standings(teams, Ranks(sorted))
  {
    SortedRatesFbs(teams, order, sorted);
    RanksFaithful(teams, sorted);
    RanksComplete(teams, order, sorted);
    RanksOrdered(teams, sorted);
  }

  /** ratings.sort() followed by the numbering loop: from the ratings list
      of a registry, the standings of that registry. */
  method SortAndNumber(ghost teams: map<string, TeamRec>, ghost order: seq<string>, ratings: seq<Rating>)
    returns (rankings: seq<Ranking>)
    requires Consistent(teams) && Registered(teams, order) && Listed(teams, order)
    requires ratings == Ratings(teams, order, |order|)
    ensures Standings(teams, rankings)
  {
    var sorted := SortRatings(ratings);
    rankings := AssignRanks(sorted);
    StandingsCorrect(teams, order, sorted);
  }

  /** The numbering loop of get_rankings. */
  method AssignRanks(sorted: seq<Rating>) returns (rankings: seq<Ranking>)
    ensures rankings == Ranks(sorted)
  {
    rankings := [];
    var i := 0;
    while i < |sorted|
      invariant 0 <= i <= |sorted|
      invariant rankings == Ranks(sorted[..i])
    {
      rankings := rankings + [ToRanking(i, sorted[i])];
      i := i + 1;
    }
    assert sorted[..i] == sorted;
  }
}
