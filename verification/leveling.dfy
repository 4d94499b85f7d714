/** The exponential levelling curve of the gamification store: the XP cost
    of each level and the level a total amount of XP reaches. */
module Leveling {

  function Pow(b: nat, e: nat): (r: nat)
    ensures b >= 1 ==> r >= 1
  {
    if e == 0 then 1 else b * Pow(b, e - 1)
  }

  lemma {:induction false} PowThreeAtLeastPowTwo(k: nat)
    ensures Pow(3, k) >= Pow(2, k)
  {
    if k > 0 {
      PowThreeAtLeastPowTwo(k - 1);
    }
  }

  lemma QuotientAtLeast(q: int, d: int, c: int)
    requires d > 0 && q >= c * d
    ensures q / d >= c
  {
    var m, rest := q / d, q % d;
    assert q == d * m + rest && rest < d;
    assert d * (m - c + 1) > 0;
  }

  /** `calculateXpForLevel(L) = floor(100 * 1.5^(L-1))`, the cost of going
      from level L to L+1, computed exactly as `100 * 3^(L-1) / 2^(L-1)`.
      It is never below 100. */
  function XpForLevel(level: int): (r: int)
    requires level >= 1
    ensures r >= 100
  {
    var k := level - 1;
    PowThreeAtLeastPowTwo(k);
    QuotientAtLeast(100 * Pow(3, k), Pow(2, k), 100);
    100 * Pow(3, k) / Pow(2, k)
  }

  /** The first costs of the curve: 100, 150, 225, 337. */
  lemma XpForLevelFirstValues()
    ensures XpForLevel(1) == 100 && XpForLevel(2) == 150
    ensures XpForLevel(3) == 225 && XpForLevel(4) == 337
  {
    assert Pow(3, 3) == 27 && Pow(2, 3) == 8;
  }

  /** The XP needed in total to reach level n + 1 from level 1. */
  function Cumulative(n: nat): (r: int)
    ensures r >= 100 * n
  {
    if n == 0 then 0 else Cumulative(n - 1) + XpForLevel(n)
  }

  lemma {:induction false} CumulativeMonotone(a: nat, b: nat)
    requires a <= b
    ensures Cumulative(a) <= Cumulative(b)
    decreases b
  {
    if a < b {
      CumulativeMonotone(a, b - 1);
    }
  }

  /** `L` is the level of `totalXp`: at least 1, the XP for level L has been
      reached (or L is the first level) and that for level L + 1 has not. */
  ghost predicate IsLevelFor(totalXp: int, L: int)
  {
    && L >= 1
    && totalXp < Cumulative(L)
    && (L == 1 || Cumulative(L - 1) <= totalXp)
  }

  /** Climbs from level L while the next threshold is reached. */
  function LevelFrom(totalXp: int, L: nat): (r: int)
    requires L >= 1 && (L == 1 || Cumulative(L - 1) <= totalXp)
    ensures r >= L && IsLevelFor(totalXp, r)
    decreases totalXp - Cumulative(L)
  {
    if Cumulative(L) <= totalXp then LevelFrom(totalXp, L + 1) else L
  }

  /** The level `calculateLevelFromXp` returns, defined by the curve. */
  function LevelOf(totalXp: int): (r: int)
    ensures IsLevelFor(totalXp, r)
  {
    LevelFrom(totalXp, 1)
  }

  /** At most one level fits a given amount of XP. */
  lemma LevelUnique(x: int, a: int, b: int)
    requires IsLevelFor(x, a) && IsLevelFor(x, b)
    ensures a == b
  {
    if a < b {
      CumulativeMonotone(a, b - 1);
    } else if b < a {
      CumulativeMonotone(b, a - 1);
    }
  }

  /** More XP never means a lower level. */
  lemma LevelMonotone(x: int, y: int)
    requires x <= y
    ensures LevelOf(x) <= LevelOf(y)
  {
    var a, b := LevelOf(x), LevelOf(y);
    if a > b {
      CumulativeMonotone(b, a - 1);
    }
  }

  /** 0 and 99 XP are level 1, 100 and 249 level 2, 250 level 3. */
  lemma LevelExamples()
    ensures LevelOf(0) == 1 && LevelOf(99) == 1
    ensures LevelOf(100) == 2 && LevelOf(249) == 2 && LevelOf(250) == 3
  {
    XpForLevelFirstValues();
    assert Cumulative(1) == 100 && Cumulative(2) == 250 && Cumulative(3) == 475;
    LevelUnique(0, 1, LevelOf(0));
    LevelUnique(99, 1, LevelOf(99));
    LevelUnique(100, 2, LevelOf(100));
    LevelUnique(249, 2, LevelOf(249));
    LevelUnique(250, 3, LevelOf(250));
  }

  /** `calculateLevelFromXp`: the loop adds level costs while the running
      total stays within `totalXp`. */
  method CalculateLevelFromXp(totalXp: int) returns (level: int)
    ensures level == LevelOf(totalXp)
  {
    level := 1;
    var xpNeeded := 0;
    while xpNeeded <= totalXp
      invariant level >= 1
      invariant level == 1 || Cumulative(level - 1) <= totalXp
      invariant xpNeeded == Cumulative(level - 1) || (xpNeeded == Cumulative(level) && totalXp < xpNeeded)
      decreases totalXp - xpNeeded
    {
      xpNeeded := xpNeeded + XpForLevel(level);
      if xpNeeded <= totalXp {
        level := level + 1;
      }
    }
    CumulativeMonotone(level - 1, level);
    LevelUnique(totalXp, level, LevelOf(totalXp));
  }
}
