/** The order `ratings.sort()` puts the rating lists in.

    Each FBS team is rated by the list [-score, -wins, losses, name]; Python
    compares lists element by element, numbers by value and strings by code
    point, a proper prefix coming first.  A `Rating` is that list as a tuple. */
module Ordering {
  import opened Sequences

  /** Python's `<` on strings: code point by code point, a proper prefix first. */
  predicate StrLess(a: string, b: string)
  {
    if |a| == 0 then |b| > 0
    else if |b| == 0 then false
    else if a[0] != b[0] then a[0] < b[0]
    else StrLess(a[1..], b[1..])
  }

  lemma {:induction false} StrLessIrreflexive(a: string)
    ensures !StrLess(a, a)
  {
    if |a| > 0 {
      StrLessIrreflexive(a[1..]);
    }
  }

  lemma {:induction false} StrLessTransitive(a: string, b: string, c: string)
    requires StrLess(a, b) && StrLess(b, c)
    ensures StrLess(a, c)
  {
    if |a| > 0 && a[0] == b[0] && b[0] == c[0] {
      StrLessTransitive(a[1..], b[1..], c[1..]);
    }
  }

  /** Two different strings are always ordered one way or the other. */
  lemma {:induction false} StrLessTotal(a: string, b: string)
    requires a != b
    ensures StrLess(a, b) || StrLess(b, a)
  {
    if |a| > 0 && |b| > 0 && a[0] == b[0] {
      assert a == [a[0]] + a[1..] && b == [b[0]] + b[1..];
      StrLessTotal(a[1..], b[1..]);
    }
  }

  lemma {:induction false} StrLessAsymmetric(a: string, b: string)
    requires StrLess(a, b)
    ensures !StrLess(b, a)
  {
    if |a| > 0 && |b| > 0 && a[0] == b[0] {
      StrLessAsymmetric(a[1..], b[1..]);
    }
  }

  /** The list [-score, -wins, losses, name] of one FBS team. */
  datatype Rating = Rating(negScore: real, negWins: int, losses: int, name: string)

  /** Python's `<` on two such lists: the first differing element decides. */
  predicate RatingLess(x: Rating, y: Rating)
  {
    x.negScore < y.negScore ||
    (x.negScore == y.negScore &&
      (x.negWins < y.negWins ||
      (x.negWins == y.negWins &&
        (x.losses < y.losses ||
        (x.losses == y.losses && StrLess(x.name, y.name))))))
  }

  lemma RatingLessIrreflexive(x: Rating)
    ensures !RatingLess(x, x)
  {
    StrLessIrreflexive(x.name);
  }

  lemma RatingLessTransitive(x: Rating, y: Rating, z: Rating)
    requires RatingLess(x, y) && RatingLess(y, z)
    ensures RatingLess(x, z)
  {
    if x.negScore == y.negScore == z.negScore && x.negWins == y.negWins == z.negWins
       && x.losses == y.losses == z.losses {
      StrLessTransitive(x.name, y.name, z.name);
    }
  }

  /** Two ratings that are not ordered either way are the same rating. */
  lemma RatingLessTotal(x: Rating, y: Rating)
    requires !RatingLess(x, y) && !RatingLess(y, x)
    ensures x == y
  {
    if x.name != y.name {
      StrLessTotal(x.name, y.name);
    }
  }

  /** "Not above" is transitive: x <= y <= z gives x <= z. */
  lemma NotLessTransitive(x: Rating, y: Rating, z: Rating)
    requires !RatingLess(y, x) && !RatingLess(z, y)
    ensures !RatingLess(z, x)
  {
    if RatingLess(z, x) {
      if x == y {
      } else if y == z {
      } else {
        if !RatingLess(x, y) { RatingLessTotal(x, y); }
        if !RatingLess(y, z) { RatingLessTotal(y, z); }
        RatingLessTransitive(x, y, z);
        RatingLessTransitive(x, z, x);
        RatingLessIrreflexive(x);
      }
    }
  }

  /** No rating is followed by a smaller one. */
  predicate Sorted(s: seq<Rating>)
  {
    forall i, j :: 0 <= i < j < |s| ==> !RatingLess(s[j], s[i])
  }

  /** `x` placed before the first element of the sorted `s` that is not smaller. */
  function Insert(s: seq<Rating>, x: Rating): (r: seq<Rating>)
    ensures |r| == |s| + 1
    ensures multiset(r) == multiset(s) + multiset{x}
  {
    if s == [] then [x]
    else if !RatingLess(s[0], x) then [x] + s
    else
      assert s == [s[0]] + s[1..];
      [s[0]] + Insert(s[1..], x)
  }

  /** Inserting into a sorted list keeps it sorted. */
  lemma {:induction false} InsertSorted(s: seq<Rating>, x: Rating)
    requires Sorted(s)
    ensures Sorted(Insert(s, x))
  {
    if s != [] {
      var r := Insert(s, x);
      if !RatingLess(s[0], x) {
        assert r == [x] + s;
        forall j | 1 <= j < |r| ensures !RatingLess(r[j], x) {
          if j > 1 {
            NotLessTransitive(x, s[0], s[j - 1]);
          }
        }
      } else {
        InsertSorted(s[1..], x);
        var tail := Insert(s[1..], x);
        assert r == [s[0]] + tail;
        forall j | 1 <= j < |r| ensures !RatingLess(r[j], s[0]) {
          assert r[j] in multiset(tail);
          assert r[j] in multiset(s[1..]) + multiset{x};
          if r[j] != x {
            assert r[j] in s[1..];
            var k :| 0 <= k < |s[1..]| && s[1..][k] == r[j];
            assert s[k + 1] == r[j];
          } else {
            RatingLessIrreflexive(x);
            if RatingLess(x, s[0]) {
              RatingLessTransitive(x, s[0], x);
            }
          }
        }
      }
    }
  }

  /** ratings.sort(): insertion sort over a value list.  The ratings of
      different teams never compare equal (names differ), so any sort, stable
      or not, produces the same list (SortedUnique). */
  method SortRatings(ratings: seq<Rating>) returns (sorted: seq<Rating>)
    ensures Sorted(sorted)
    ensures multiset(sorted) == multiset(ratings)
  {
    sorted := [];
    var i := 0;
    while i < |ratings|
      invariant 0 <= i <= |ratings|
      invariant Sorted(sorted)
      invariant multiset(sorted) == multiset(ratings[..i])
    {
      InsertSorted(sorted, ratings[i]);
      sorted := Insert(sorted, ratings[i]);
      assert ratings[..i + 1] == ratings[..i] + [ratings[i]];
      i := i + 1;
    }
    assert ratings[..i] == ratings;
  }

  /** The first element of a sorted list is not above anything in it. */
  lemma SortedHead(s: seq<Rating>, x: Rating)
    requires Sorted(s) && s != [] && x in multiset(s)
    ensures !RatingLess(x, s[0])
  {
    var k :| 0 <= k < |s| && s[k] == x;
    if k == 0 {
      RatingLessIrreflexive(x);
    }
  }

  /** There is only one sorted arrangement of a multiset of ratings. */
  lemma {:induction false} SortedUnique(a: seq<Rating>, b: seq<Rating>)
    requires Sorted(a) && Sorted(b) && multiset(a) == multiset(b)
    ensures a == b
  {
    assert |a| == |multiset(a)| == |multiset(b)| == |b|;
    if a != [] {
      assert a[0] in multiset(b) && b[0] in multiset(a) by {
        assert a[0] in a && b[0] in b;
      }
      SortedHead(a, b[0]);
      SortedHead(b, a[0]);
      RatingLessTotal(a[0], b[0]);
      assert a == [a[0]] + a[1..];
      assert b == [b[0]] + b[1..];
      assert multiset(a) == multiset{a[0]} + multiset(a[1..]);
      assert multiset(b) == multiset{a[0]} + multiset(b[1..]);
      forall x ensures multiset(a[1..])[x] == multiset(b[1..])[x] {
        assert multiset(a)[x] == multiset{a[0]}[x] + multiset(a[1..])[x];
        assert multiset(b)[x] == multiset{a[0]}[x] + multiset(b[1..])[x];
      }
      assert multiset(a[1..]) == multiset(b[1..]);
      SortedUnique(a[1..], b[1..]);
    }
  }

  /** A list without repetition holds each rating at most once. */
  lemma {:induction false} DistinctCount(s: seq<Rating>)
    requires Distinct(s)
    ensures forall x :: multiset(s)[x] <= 1
  {
    if s != [] {
      var init := s[..|s| - 1];
      assert forall i, j :: 0 <= i < j < |init| ==> init[i] == s[i] && init[j] == s[j];
      DistinctCount(init);
      assert s == init + [s[|s| - 1]];
      assert s[|s| - 1] !in init;
    }
  }

  /** A rating at two positions occurs at least twice. */
  lemma RepeatCount(s: seq<Rating>, i: nat, j: nat)
    requires i < j < |s| && s[i] == s[j]
    ensures multiset(s)[s[i]] >= 2
  {
    assert s == s[..j] + s[j..];
    assert s[i] in s[..j] && s[j] in s[j..];
  }

  /** Rearranging a list without repetition gives a list without repetition. */
  lemma DistinctPermuted(a: seq<Rating>, b: seq<Rating>)
    requires Distinct(a) && multiset(a) == multiset(b)
    ensures Distinct(b)
  {
    DistinctCount(a);
    forall i, j | 0 <= i < j < |b| ensures b[i] != b[j] {
      if b[i] == b[j] {
        RepeatCount(b, i, j);
      }
    }
  }

  /** In a sorted list without repetition every rating is strictly below the later ones. */
  lemma SortedStrict(s: seq<Rating>)
    requires Sorted(s) && Distinct(s)
    ensures forall i, j :: 0 <= i < j < |s| ==> RatingLess(s[i], s[j])
  {
    forall i, j | 0 <= i < j < |s| ensures RatingLess(s[i], s[j]) {
      if !RatingLess(s[i], s[j]) {
        RatingLessTotal(s[i], s[j]);
      }
    }
  }
}
