/**
 * The quest table and the progress percentage shown for a quest.
 */
module Quests {
  import RealArith

  datatype QuestType = Daily | Weekly | Progress | ChallengeQuest | MilestoneQuest

  datatype Quest = Quest(id: int, title: string, target: int, rewardPoints: int, rewardGems: int, kind: QuestType)

  const QUESTS: seq<Quest> := [
    Quest(1, "Daily Streak", 3, 20, 0, Daily),
    Quest(2, "Problem Solver", 10, 50, 5, Progress),
    Quest(3, "Perfect Score", 1, 30, 3, ChallengeQuest),
    Quest(4, "Array Master", 1, 100, 10, MilestoneQuest),
    Quest(5, "Weekly Warrior", 20, 150, 15, Weekly),
    Quest(6, "Speed Demon", 5, 40, 5, Daily),
    Quest(7, "Points Collector", 1000, 0, 20, MilestoneQuest),
    Quest(8, "Social Coder", 10, 200, 25, MilestoneQuest)
  ]

  /** `Math.round`: halves round up, toward positive infinity. */
  function Round(x: real): (r: int)
    ensures (r as real) - 0.5 <= x < (r as real) + 0.5
  {
    (x + 0.5).Floor
  }

  /** `calculateProgress`: the percentage `current / target`, rounded and
      capped at 100. */
  function CalculateProgress(current: int, target: int): (r: int)
    requires target > 0
    ensures r <= 100
    ensures current >= target ==> r == 100
    ensures current == 0 ==> r == 0
    ensures current >= 0 ==> r >= 0
    ensures r < 100 ==>
              (r as real) - 0.5 <= (current as real) * 100.0 / (target as real) < (r as real) + 0.5
  {
    var x := (current as real) * 100.0 / (target as real);
    var rounded := Round(x);
    assert current >= target ==> x >= 100.0;
    if rounded < 100 then rounded else 100
  }

  /** The same percentage in integer arithmetic: the rounded value is the
      quotient of `200 * current + target` by `2 * target`. */
  lemma ProgressAsIntegerDivision(current: int, target: int)
    requires target > 0
    ensures var q := (200 * current + target) / (2 * target);
            CalculateProgress(current, target) == if q < 100 then q else 100
  {
    RoundAsIntegerDivision(current, target);
  }

  lemma RoundAsIntegerDivision(current: int, target: int)
    requires target > 0
    ensures Round((current as real) * 100.0 / (target as real)) == (200 * current + target) / (2 * target)
  {
    var d := 2 * target;
    var n := 200 * current + target;
    DivBounds(n, d);
    var v := (current as real) * 100.0 / (target as real) + 0.5;
    ScaledValue(current as real, target as real);
    FloorFromScaledBounds(v, n, d);
  }

  lemma ScaledValue(c: real, t: real)
    requires t > 0.0
    ensures (c * 100.0 / t + 0.5) * (2.0 * t) == 200.0 * c + t
  {
    var x := c * 100.0 / t;
    assert x * t == c * 100.0;
  }

  lemma DivBounds(n: int, d: int)
    requires d > 0
    ensures (n / d) * d <= n < (n / d + 1) * d
  {
  }

  /** From `v * d == n` and `q * d <= n < (q + 1) * d`: `v` rounds down to `q`. */
  lemma FloorFromScaledBounds(v: real, n: int, d: int)
    requires d > 0
    requires v * (d as real) == n as real
    requires (n / d) * d <= n < (n / d + 1) * d
    ensures v.Floor == n / d
  {
    var q := n / d;
    var k := d as real;
    CastMul(q, d);
    CastMul(q + 1, d);
    var lo := (q as real) * k;
    var hi := (q as real + 1.0) * k;
    assert lo <= v * k < hi;
    if v < q as real {
      MulStrict(v, q as real, k);
      assert false;
    }
    if v >= q as real + 1.0 {
      RealArith.MulWeak(q as real + 1.0, v, k);
      assert false;
    }
  }

  lemma CastMul(a: int, b: int)
    ensures (a * b) as real == (a as real) * (b as real)
  {
  }

  lemma MulStrict(a: real, b: real, k: real)
    requires k > 0.0 && a < b
    ensures a * k < b * k
  {
  }

  /** Every quest has a positive target, so its progress is defined, and
      with a non-negative count lies between 0 and 100. */
  lemma QuestTargetsArePositive()
    ensures forall i :: 0 <= i < |QUESTS| ==> QUESTS[i].target >= 1
  {
  }

  lemma QuestProgressInRange(i: nat, current: int)
    requires i < |QUESTS| && current >= 0
    ensures 0 <= CalculateProgress(current, QUESTS[i].target) <= 100
  {
    QuestTargetsArePositive();
  }
}
