/**
 * The player levels: a milestone table sorted by the points it takes to
 * reach each level, and the lookup of the level a point total has reached.
 */
module Levels {
  datatype Milestone = Milestone(level: nat, title: string, minPoints: int)

  const LEVEL_MILESTONES: seq<Milestone> := [
    Milestone(0, "Newbie", 0),
    Milestone(1, "Beginner", 100),
    Milestone(2, "Apprentice", 250),
    Milestone(3, "Explorer", 500),
    Milestone(4, "Adept", 1000),
    Milestone(5, "Expert", 1750),
    Milestone(6, "Master", 3000),
    Milestone(7, "Grandmaster", 5000),
    Milestone(8, "Legend", 10000)
  ]

  /** Strictly increasing thresholds, each milestone's level its index. */
  predicate WellFormed(ms: seq<Milestone>) {
    && |ms| >= 1
    && (forall i, j :: 0 <= i < j < |ms| ==> ms[i].minPoints < ms[j].minPoints)
    && (forall i :: 0 <= i < |ms| ==> ms[i].level == i)
  }

  lemma TableIsWellFormed()
    ensures WellFormed(LEVEL_MILESTONES)
    ensures LEVEL_MILESTONES[0].minPoints == 0
  {
  }

  /** How many milestones from the start of the table the points reach. */
  function Leading(ms: seq<Milestone>, points: int): (n: nat)
    ensures n <= |ms|
    ensures forall j :: 0 <= j < n ==> ms[j].minPoints <= points
    ensures n < |ms| ==> ms[n].minPoints > points
  {
    if ms == [] || ms[0].minPoints > points then 0
    else
      var n := 1 + Leading(ms[1..], points);
      assert forall j :: 1 <= j < |ms| ==> ms[j] == ms[1..][j - 1];
      n
  }

  /** The two properties of `Leading` pin it down. */
  lemma {:induction false} LeadingUnique(ms: seq<Milestone>, points: int, n: nat)
    requires n <= |ms|
    requires forall j :: 0 <= j < n ==> ms[j].minPoints <= points
    requires n < |ms| ==> ms[n].minPoints > points
    ensures Leading(ms, points) == n
  {
    if n > 0 {
      assert forall j :: 1 <= j < |ms| ==> ms[j] == ms[1..][j - 1];
      LeadingUnique(ms[1..], points, n - 1);
    }
  }

  /** The index of the milestone `getLevelFromPoints` returns: the last one
      reached, or the first when none is. */
  function LevelIndex(ms: seq<Milestone>, points: int): (k: nat)
    requires |ms| >= 1
    ensures k < |ms|
  {
    var n := Leading(ms, points);
    if n == 0 then 0 else n - 1
  }

  /** `getLevelFromPoints`: walks the table, keeping the last milestone
      reached and stopping at the first one not reached. */
  method GetLevelFromPoints(points: int) returns (m: Milestone)
    ensures m == LEVEL_MILESTONES[LevelIndex(LEVEL_MILESTONES, points)]
  {
    var ms := LEVEL_MILESTONES;
    m := ms[0];
    var i := 0;
    while i < |ms|
      invariant 0 <= i <= |ms|
      invariant forall j :: 0 <= j < i ==> ms[j].minPoints <= points
      invariant m == if i == 0 then ms[0] else ms[i - 1]
    {
      if points >= ms[i].minPoints {
        m := ms[i];
      } else {
        break;
      }
      i := i + 1;
    }
    LeadingUnique(ms, points, i);
  }

  /** The milestone returned is reached (for points not below the first
      threshold) and the next one is not. */
  lemma LevelIsLastReached(ms: seq<Milestone>, points: int)
    requires WellFormed(ms)
    ensures var k := LevelIndex(ms, points);
            && ms[k].level == k
            && (points >= ms[0].minPoints ==> ms[k].minPoints <= points)
            && (points < ms[0].minPoints ==> k == 0)
            && (k + 1 < |ms| ==> ms[k + 1].minPoints > points)
  {
  }

  /** Exactly a milestone's threshold reaches that milestone. */
  lemma ThresholdReachesItsMilestone(ms: seq<Milestone>, k: nat)
    requires WellFormed(ms) && k < |ms|
    ensures LevelIndex(ms, ms[k].minPoints) == k
  {
    LeadingUnique(ms, ms[k].minPoints, k + 1);
  }

  /** The level never drops as points grow. */
  lemma {:induction false} LeadingMonotone(ms: seq<Milestone>, p: int, q: int)
    requires p <= q
    ensures Leading(ms, p) <= Leading(ms, q)
  {
    if ms != [] && ms[0].minPoints <= p {
      LeadingMonotone(ms[1..], p, q);
    }
  }

  lemma LevelMonotone(ms: seq<Milestone>, p: int, q: int)
    requires |ms| >= 1 && p <= q
    ensures LevelIndex(ms, p) <= LevelIndex(ms, q)
  {
    LeadingMonotone(ms, p, q);
  }

  /** In the game's table: negative points are level 0 and 10000 points or
      more are level 8, "Legend". */
  lemma TableEnds(points: int)
    ensures points < 0 ==> LevelIndex(LEVEL_MILESTONES, points) == 0
    ensures points >= 10000 ==> LEVEL_MILESTONES[LevelIndex(LEVEL_MILESTONES, points)] == Milestone(8, "Legend", 10000)
  {
    if points >= 10000 {
      LeadingUnique(LEVEL_MILESTONES, points, 9);
    }
  }
}
