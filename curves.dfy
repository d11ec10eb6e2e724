/** The two margin curves of the rank score: a penalty applied to losses and a
    bonus applied to wins.  Both are capped quadratic curves; Python floats are
    modelled by exact reals. */
module Curves {

  function Abs(x: int): (r: nat)
    ensures r == x || r == -x
  {
    if x < 0 then -x else x
  }

  function Min(a: int, b: int): int
  {
    if a <= b then a else b
  }

  /** Losing margins are capped at this many points. */
  const LossCap: int := 28
  /** Winning margins are capped at this many points ... */
  const WinCap: int := 7
  /** ... but divided by this one, so the bonus never exceeds 1 + 0.2 / 9. */
  const WinScale: real := 21.0

  /** The largest value the bonus takes for a positive margin. */
  const BonusCeiling: real := 1.0 + 0.2 / 9.0

  /** calculate_penalty: 1 + 1.0 * (min(|margin|, 28) / 28)^2. */
  function Penalty(margin: int): (p: real)
    ensures 1.0 <= p <= 2.0
  {
    var c := Min(Abs(margin), LossCap) as real / LossCap as real;
    assert 0.0 <= c <= 1.0;
    assert c * c <= c;
    1.0 + 1.0 * (c * c)
  }

  /** calculate_bonus: 1 + 0.2 * (min(margin, 7) / 21)^2.  rank_score only calls
      it with a positive margin; for those the bonus lies in (1, 1 + 0.2 / 9]. */
  function Bonus(margin: int): (b: real)
    ensures 1.0 <= b
    ensures margin > 0 ==> 1.0 < b <= BonusCeiling
  {
    var c := Min(margin, WinCap) as real / WinScale;
    assert margin > 0 ==> 0.0 < c <= 1.0 / 3.0;
    assert margin > 0 ==> c * c <= c / 3.0;
    1.0 + 0.2 * (c * c)
  }

  lemma SquareMonotone(x: real, y: real)
    requires 0.0 <= x <= y
    ensures x * x <= y * y
  {
    assert x * x <= x * y;
    assert x * y <= y * y;
  }

  lemma SquareStrict(x: real, y: real)
    requires 0.0 <= x < y
    ensures x * x < y * y
  {
    calc {
      x * x;
    <= { assert x * (y - x) >= 0.0; }
      x * y;
    < { assert (y - x) * y > 0.0; }
      y * y;
    }
  }

  /** The penalty grows with the size of the margin, whatever its sign. */
  lemma PenaltyMonotone(a: int, b: int)
    requires Abs(a) <= Abs(b)
    ensures Penalty(a) <= Penalty(b)
  {
    SquareMonotone(Min(Abs(a), LossCap) as real / 28.0, Min(Abs(b), LossCap) as real / 28.0);
  }

  /** Below the cap the penalty grows strictly. */
  lemma PenaltyStrict(a: int, b: int)
    requires Abs(a) < Abs(b) <= LossCap
    ensures Penalty(a) < Penalty(b)
  {
    SquareStrict(Abs(a) as real / 28.0, Abs(b) as real / 28.0);
  }

  /** The penalty reaches its plateau of 2 exactly at margins of 28 points or more. */
  lemma PenaltyPlateau(m: int)
    ensures Penalty(m) == 2.0 <==> Abs(m) >= LossCap
  {
    if Abs(m) < LossCap {
      PenaltyStrict(m, LossCap);
    }
  }

  /** The penalty only looks at the size of the margin. */
  lemma PenaltyEven(m: int)
    ensures Penalty(-m) == Penalty(m)
  {
  }

  /** The bonus grows with a positive margin. */
  lemma BonusMonotone(a: int, b: int)
    requires 0 <= a <= b
    ensures Bonus(a) <= Bonus(b)
  {
    SquareMonotone(Min(a, WinCap) as real / WinScale, Min(b, WinCap) as real / WinScale);
  }

  /** For a positive margin the bonus reaches its plateau exactly at 7 points:
      the cap is 7 but the divisor is 21, so the plateau is 1 + 0.2 / 9. */
  lemma BonusPlateau(m: int)
    requires m > 0
    ensures Bonus(m) == BonusCeiling <==> m >= WinCap
  {
    if m < WinCap {
      SquareStrict(m as real / WinScale, WinCap as real / WinScale);
    }
  }
}
