/**
 * The XP/level engine: cumulative level thresholds, the level reached by an XP total, the
 * award for a finished quiz and the milestone rewards every fifth level unlocks.
 *
 * Loops of the original become methods proved equal to closed-form specification functions;
 * the pure functions (GetLevelInfo, CalculateQuizXp) use the specification functions.
 */
module Xp {
  import opened Text

  const MaxLevel := 100
  /** Cost of the first level-up, and the growth of the cost per level. */
  const FirstStepXp := 350
  const StepGrowthXp := 50
  /** Milestones are the multiples of MilestoneSpacing up to LastRegularMilestone, then MaxLevel. */
  const MilestoneSpacing := 5
  const LastRegularMilestone := 95
  const QuizzesPerMilestone := 3
  const XpPerMilestone := 200
  const MasterBonusQuizzes := 1000

  function Min(a: int, b: int): int {
    if a <= b then a else b
  }

  // ---------------------------------------------------------------------------------------
  // Level thresholds

  /** getXpForLevel: the cumulative XP needed to reach `level`, the floor of
      (n / 2) * (2 * 350 + (n - 1) * 50) with n = level - 1 (0 for levels up to 1). */
  function XpForLevel(level: int): (r: nat)
  {
    if level <= 1 then 0
    else
      var n := level - 1;
      assert n * (2 * FirstStepXp + (n - 1) * StepGrowthXp) >= 0 by {
        assert (n - 1) * StepGrowthXp >= 0;
      }
      (n * (2 * FirstStepXp + (n - 1) * StepGrowthXp)) / 2
  }

  /** The product inside the floor is always even, so the floor is exact and the threshold
      has the closed form 25 * (level - 1) * (level + 12). */
  lemma XpForLevelClosedForm(level: int)
    requires level >= 1
    ensures var n := level - 1; (n * (2 * FirstStepXp + (n - 1) * StepGrowthXp)) % 2 == 0
    ensures XpForLevel(level) == 25 * (level - 1) * (level + 12)
  {
    var n := level - 1;
    var p := n * (2 * FirstStepXp + (n - 1) * StepGrowthXp);
    assert p == 2 * (25 * n * (n + 13)) by {
      assert 2 * FirstStepXp + (n - 1) * StepGrowthXp == 50 * (n + 13);
      assert p == n * (50 * (n + 13));
    }
    assert n * (n + 13) == (level - 1) * (level + 12);
  }

  /** Advancing from `level` to `level + 1` costs 350 + 50 * (level - 1). */
  lemma XpStep(level: int)
    requires level >= 1
    ensures XpForLevel(level + 1) - XpForLevel(level) == FirstStepXp + StepGrowthXp * (level - 1)
  {
    XpForLevelClosedForm(level);
    XpForLevelClosedForm(level + 1);
    assert (level + 1 - 1) * (level + 1 + 12) - (level - 1) * (level + 12) == 2 * level + 12;
  }

  /** Thresholds never decrease, and from level 1 on they strictly increase. */
  lemma {:induction false} XpForLevelMonotone(a: int, b: int)
    requires a <= b
    ensures XpForLevel(a) <= XpForLevel(b)
    ensures 1 <= a < b ==> XpForLevel(a) < XpForLevel(b)
    decreases b - a
  {
    if a < b {
      XpForLevelMonotone(a, b - 1);
      if b - 1 >= 1 {
        XpStep(b - 1);
      }
    }
  }

  // ---------------------------------------------------------------------------------------
  // Level from XP

  /** The level the search of getLevelFromXp reaches when it stands at `level`. */
  function Climb(level: int, totalXp: int): (r: int)
    requires 1 <= level <= MaxLevel
    ensures level <= r <= MaxLevel
    decreases MaxLevel - level
  {
    if XpForLevel(level + 1) <= totalXp && level < MaxLevel then Climb(level + 1, totalXp) else level
  }

  /** The level of an XP total: the search from level 1, capped at MaxLevel. */
  function LevelFor(totalXp: int): (level: int)
    ensures 1 <= level <= MaxLevel
  {
    Climb(1, totalXp)
  }

  lemma {:induction false} ClimbReaches(level: int, totalXp: int)
    requires 1 <= level <= MaxLevel
    requires XpForLevel(level) <= totalXp
    ensures XpForLevel(Climb(level, totalXp)) <= totalXp
    ensures Climb(level, totalXp) == MaxLevel || totalXp < XpForLevel(Climb(level, totalXp) + 1)
    decreases MaxLevel - level
  {
    if XpForLevel(level + 1) <= totalXp && level < MaxLevel {
      ClimbReaches(level + 1, totalXp);
    }
  }

  /** The level is the highest one (at most MaxLevel) whose threshold the XP total reaches. */
  lemma LevelForCharacterized(totalXp: int)
    ensures totalXp >= 0 ==> XpForLevel(LevelFor(totalXp)) <= totalXp
    ensures LevelFor(totalXp) == MaxLevel || totalXp < XpForLevel(LevelFor(totalXp) + 1)
  {
    if totalXp >= 0 {
      ClimbReaches(1, totalXp);
    } else {
      assert LevelFor(totalXp) == 1;
    }
  }

  /** Those two facts determine the level uniquely. */
  lemma LevelForUnique(totalXp: int, level: int)
    requires 1 <= level <= MaxLevel
    requires XpForLevel(level) <= totalXp
    requires level == MaxLevel || totalXp < XpForLevel(level + 1)
    ensures LevelFor(totalXp) == level
  {
    var m := LevelFor(totalXp);
    LevelForCharacterized(totalXp);
    if m < level {
      XpForLevelMonotone(m + 1, level);
    } else if m > level {
      XpForLevelMonotone(level + 1, m);
    }
  }

  /** Every threshold is exactly attainable: the XP of level L puts one at level L. */
  lemma LevelForThreshold(level: int)
    requires 1 <= level <= MaxLevel
    ensures LevelFor(XpForLevel(level)) == level
  {
    if level < MaxLevel {
      XpForLevelMonotone(level, level + 1);
    }
    LevelForUnique(XpForLevel(level), level);
  }

  /** More XP never means a lower level. */
  lemma LevelForMonotone(x: int, y: int)
    requires x <= y
    ensures LevelFor(x) <= LevelFor(y)
  {
    var a, b := LevelFor(x), LevelFor(y);
    LevelForCharacterized(x);
    LevelForCharacterized(y);
    if x < 0 {
      assert a == 1;
    } else if b < a {
      XpForLevelMonotone(b + 1, a);
    }
  }

  /** getLevelFromXp: the linear search from level 1. */
  method GetLevelFromXp(totalXp: int) returns (level: int)
    ensures level == LevelFor(totalXp)
    ensures 1 <= level <= MaxLevel
    ensures totalXp >= 0 ==> XpForLevel(level) <= totalXp
    ensures level == MaxLevel || totalXp < XpForLevel(level + 1)
  {
    level := 1;
    while XpForLevel(level + 1) <= totalXp && level < MaxLevel
      invariant 1 <= level <= MaxLevel
      invariant Climb(level, totalXp) == LevelFor(totalXp)
      decreases MaxLevel - level
    {
      level := level + 1;
    }
    LevelForCharacterized(totalXp);
  }

  // ---------------------------------------------------------------------------------------
  // Level info

  datatype LevelInfo = LevelInfo(
    level: int,
    currentXp: int,
    xpForCurrentLevel: int,
    xpForNextLevel: int,
    progress: real,
    totalXpRequired: int)

  function RealMin(a: real, b: real): real {
    if a <= b then a else b
  }

  /** getLevelInfo: the level of `totalXp`, the thresholds around it and the progress (a
      percentage) towards the next one. */
  function GetLevelInfo(totalXp: int): (info: LevelInfo)
    ensures info.level == LevelFor(totalXp) && info.currentXp == totalXp
    ensures info.xpForCurrentLevel == XpForLevel(info.level)
    ensures info.totalXpRequired == info.xpForNextLevel
    ensures info.level == MaxLevel ==> info.xpForNextLevel == info.xpForCurrentLevel && info.progress == 100.0
    ensures info.level < MaxLevel ==> info.xpForNextLevel == XpForLevel(info.level + 1)
    ensures totalXp >= 0 ==> info.xpForCurrentLevel <= totalXp && 0.0 <= info.progress <= 100.0
    ensures totalXp >= 0 && info.level < MaxLevel ==> totalXp < info.xpForNextLevel && info.progress < 100.0
  {
    var level := LevelFor(totalXp);
    LevelForCharacterized(totalXp);
    var current := XpForLevel(level);
    var next := if level < MaxLevel then XpForLevel(level + 1) else current;
    var inLevel := totalXp - current;
    var needed := next - current;
    if level >= MaxLevel then
      LevelInfo(level, totalXp, current, next, 100.0, next)
    else
      XpForLevelMonotone(level, level + 1);
      var fraction := inLevel as real / needed as real;
      assert totalXp >= 0 ==> 0.0 <= fraction < 1.0 by {
        if totalXp >= 0 {
          FractionBounds(inLevel, needed);
        }
      }
      LevelInfo(level, totalXp, current, next, RealMin(100.0, fraction * 100.0), next)
  }

  lemma FractionBounds(a: int, b: int)
    requires 0 <= a < b
    ensures 0.0 <= a as real / b as real < 1.0
  {
    var q := a as real / b as real;
    assert q * b as real == a as real;
  }

  // ---------------------------------------------------------------------------------------
  // Quiz XP

  /** `percentage >= threshold` for percentage = (correct / total) * 100 as JavaScript computes it:
      a zero total gives +Infinity for a positive count (every threshold passes), NaN for zero
      and -Infinity for a negative count (no threshold passes). */
  predicate PercentAtLeast(correct: int, total: int, threshold: int) {
    if total == 0 then correct > 0
    else (correct as real / total as real) * 100.0 >= threshold as real
  }

  /** For a positive total the comparison is the exact integer test 100 * correct >= threshold * total. */
  lemma PercentAtLeastExact(correct: int, total: int, threshold: int)
    requires total > 0
    ensures PercentAtLeast(correct, total, threshold) <==> 100 * correct >= threshold * total
  {
    var q := correct as real / total as real;
    assert q * total as real == correct as real;
    if q * 100.0 >= threshold as real {
      assert q * 100.0 * total as real >= threshold as real * total as real;
    } else {
      assert q * 100.0 * total as real < threshold as real * total as real;
    }
  }

  /** The base award of calculateQuizXp: the first threshold of the descending table that the
      percentage reaches. */
  function BaseQuizXp(correct: int, total: int): (base: nat)
    ensures base in {0, 10, 20, 40, 55, 70, 100, 150}
  {
    if PercentAtLeast(correct, total, 100) then 150
    else if PercentAtLeast(correct, total, 60) then 100
    else if PercentAtLeast(correct, total, 50) then 70
    else if PercentAtLeast(correct, total, 40) then 55
    else if PercentAtLeast(correct, total, 30) then 40
    else if PercentAtLeast(correct, total, 20) then 20
    else if PercentAtLeast(correct, total, 10) then 10
    else 0
  }

  /** calculateQuizXp: the base award plus the milestone bonus of the player's level. */
  function CalculateQuizXp(correct: int, total: int, userLevel: int): (xp: nat)
    ensures MilestoneXpBonusFor(userLevel) <= xp <= 150 + MilestoneXpBonusFor(userLevel)
  {
    BaseQuizXp(correct, total) + MilestoneXpBonusFor(userLevel)
  }

  /** For a positive total the base award follows the table on exact integer comparisons. */
  lemma BaseQuizXpTable(correct: int, total: int)
    requires total > 0
    ensures BaseQuizXp(correct, total) ==
      if 100 * correct >= 100 * total then 150
      else if 100 * correct >= 60 * total then 100
      else if 100 * correct >= 50 * total then 70
      else if 100 * correct >= 40 * total then 55
      else if 100 * correct >= 30 * total then 40
      else if 100 * correct >= 20 * total then 20
      else if 100 * correct >= 10 * total then 10
      else 0
  {
    PercentAtLeastExact(correct, total, 100);
    PercentAtLeastExact(correct, total, 60);
    PercentAtLeastExact(correct, total, 50);
    PercentAtLeastExact(correct, total, 40);
    PercentAtLeastExact(correct, total, 30);
    PercentAtLeastExact(correct, total, 20);
    PercentAtLeastExact(correct, total, 10);
  }

  /** More correct answers never earn less XP. */
  lemma CalculateQuizXpMonotone(c1: int, c2: int, total: int, userLevel: int)
    requires total > 0 && c1 <= c2
    ensures CalculateQuizXp(c1, total, userLevel) <= CalculateQuizXp(c2, total, userLevel)
  {
    BaseQuizXpTable(c1, total);
    BaseQuizXpTable(c2, total);
  }

  /** A perfect score at level 1 earns 150, 6 of 10 earns 100, none earns 0, and at level 5
      the first milestone adds 200. */
  lemma CalculateQuizXpExamples()
    ensures CalculateQuizXp(10, 10, 1) == 150
    ensures CalculateQuizXp(6, 10, 1) == 100
    ensures CalculateQuizXp(0, 10, 1) == 0
    ensures CalculateQuizXp(10, 10, 5) == 350
  {
    BaseQuizXpTable(10, 10);
    BaseQuizXpTable(6, 10);
    BaseQuizXpTable(0, 10);
  }

  // ---------------------------------------------------------------------------------------
  // Milestones

  /** isMilestoneLevel */
  predicate IsMilestoneLevel(level: int) {
    level == MaxLevel || (MilestoneSpacing <= level <= LastRegularMilestone && level % MilestoneSpacing == 0)
  }

  /** The milestone levels from `i` on, as the loop of getMilestoneLevels pushes them. */
  function LevelsFrom(i: int): seq<int>
    decreases LastRegularMilestone + MilestoneSpacing - i
  {
    if i > LastRegularMilestone then [MaxLevel] else [i] + LevelsFrom(i + MilestoneSpacing)
  }

  function MilestoneLevels(): seq<int> {
    LevelsFrom(MilestoneSpacing)
  }

  lemma {:induction false} LevelsFromShape(i: int)
    requires MilestoneSpacing <= i <= MaxLevel && i % MilestoneSpacing == 0
    ensures |LevelsFrom(i)| == (MaxLevel - i) / MilestoneSpacing + 1
    ensures forall k :: 0 <= k < |LevelsFrom(i)| ==> LevelsFrom(i)[k] == i + MilestoneSpacing * k
    decreases MaxLevel - i
  {
    if i <= LastRegularMilestone {
      LevelsFromShape(i + MilestoneSpacing);
      var rest := LevelsFrom(i + MilestoneSpacing);
      assert LevelsFrom(i) == [i] + rest;
      forall k | 0 < k < |LevelsFrom(i)| ensures LevelsFrom(i)[k] == i + MilestoneSpacing * k {
        assert LevelsFrom(i)[k] == rest[k - 1];
      }
    }
  }

  /** The milestone levels are the 20 values 5, 10, ..., 95, 100 in increasing order, and a level
      is a milestone exactly when it is listed. */
  lemma MilestoneLevelsSpec()
    ensures |MilestoneLevels()| == 20
    ensures forall k :: 0 <= k < 20 ==> MilestoneLevels()[k] == MilestoneSpacing * (k + 1)
    ensures forall j, k :: 0 <= j < k < 20 ==> MilestoneLevels()[j] < MilestoneLevels()[k]
    ensures forall level :: IsMilestoneLevel(level) <==> level in MilestoneLevels()
  {
    LevelsFromShape(MilestoneSpacing);
    var ms := MilestoneLevels();
    forall level ensures IsMilestoneLevel(level) <==> level in ms {
      if IsMilestoneLevel(level) {
        assert ms[level / MilestoneSpacing - 1] == level;
      }
    }
  }

  /** getMilestoneLevels */
  method GetMilestoneLevels() returns (milestones: seq<int>)
    ensures milestones == MilestoneLevels()
    ensures |milestones| == 20 && milestones[0] == MilestoneSpacing && milestones[19] == MaxLevel
  {
    milestones := [];
    var i := MilestoneSpacing;
    while i <= LastRegularMilestone
      invariant MilestoneSpacing <= i <= MaxLevel
      invariant milestones + LevelsFrom(i) == MilestoneLevels()
      decreases MaxLevel - i
    {
      assert LevelsFrom(i) == [i] + LevelsFrom(i + MilestoneSpacing);
      milestones := milestones + [i];
      i := i + MilestoneSpacing;
    }
    milestones := milestones + [MaxLevel];
    MilestoneLevelsSpec();
  }

  datatype MilestoneReward = MilestoneReward(level: int, bonusQuizzes: int, bonusXpPerQuiz: int, description: string)

  /** The reward of the milestone at regular level `i` (a multiple of 5 up to 95). */
  function RegularReward(i: int): MilestoneReward
    requires i >= 0
  {
    MilestoneReward(i, QuizzesPerMilestone, XpPerMilestone,
      "+3 free quizzes & +200 XP per quiz (total: +" + NatToString((i / MilestoneSpacing) * XpPerMilestone) + " XP/quiz)")
  }

  const MasterReward := MilestoneReward(MaxLevel, MasterBonusQuizzes, 0, "+1000 free quizzes - Master status!")

  /** The milestone rewards from level `i` on, as the loop of getAllMilestones pushes them. */
  function RewardsFrom(i: int): seq<MilestoneReward>
    requires i >= 0
    decreases LastRegularMilestone + MilestoneSpacing - i
  {
    if i > LastRegularMilestone then [MasterReward] else [RegularReward(i)] + RewardsFrom(i + MilestoneSpacing)
  }

  function Milestones(): seq<MilestoneReward> {
    RewardsFrom(MilestoneSpacing)
  }

  /** getAllMilestones */
  method GetAllMilestones() returns (milestones: seq<MilestoneReward>)
    ensures milestones == Milestones()
    ensures |milestones| == |MilestoneLevels()| == 20
    ensures forall k :: 0 <= k < 20 ==> milestones[k].level == MilestoneLevels()[k]
  {
    milestones := [];
    var i := MilestoneSpacing;
    while i <= LastRegularMilestone
      invariant MilestoneSpacing <= i <= MaxLevel
      invariant milestones + RewardsFrom(i) == Milestones()
      decreases MaxLevel - i
    {
      assert RewardsFrom(i) == [RegularReward(i)] + RewardsFrom(i + MilestoneSpacing);
      assert milestones + RewardsFrom(i) == (milestones + [RegularReward(i)]) + RewardsFrom(i + MilestoneSpacing);
      milestones := milestones + [RegularReward(i)];
      i := i + MilestoneSpacing;
    }
    assert RewardsFrom(i) == [MasterReward];
    milestones := milestones + [MasterReward];
    MilestoneTableLevels();
  }

  lemma {:induction false} RewardsFromLevels(i: int)
    requires MilestoneSpacing <= i <= MaxLevel && i % MilestoneSpacing == 0
    ensures |RewardsFrom(i)| == |LevelsFrom(i)|
    ensures forall k :: 0 <= k < |RewardsFrom(i)| ==> RewardsFrom(i)[k].level == LevelsFrom(i)[k]
    decreases MaxLevel - i
  {
    if i <= LastRegularMilestone {
      RewardsFromLevels(i + MilestoneSpacing);
      assert RewardsFrom(i) == [RegularReward(i)] + RewardsFrom(i + MilestoneSpacing);
      assert LevelsFrom(i) == [i] + LevelsFrom(i + MilestoneSpacing);
    }
  }

  /** The levels of the milestone table are exactly the milestone levels. */
  lemma MilestoneTableLevels()
    ensures |Milestones()| == |MilestoneLevels()| == 20
    ensures forall k :: 0 <= k < 20 ==> Milestones()[k].level == MilestoneLevels()[k]
  {
    RewardsFromLevels(MilestoneSpacing);
    MilestoneLevelsSpec();
  }

  // ---------------------------------------------------------------------------------------
  // Milestone accumulators

  /** The bonus quizzes accumulated at `level`: 3 per milestone 5..95 reached, and the level-100
      total once the final milestone is reached. */
  function BonusQuizzesFor(level: int): nat {
    if level >= MaxLevel then 19 * QuizzesPerMilestone + MasterBonusQuizzes
    else if level < MilestoneSpacing then 0
    else QuizzesPerMilestone * (Min(level, LastRegularMilestone) / MilestoneSpacing)
  }

  /** The XP added to every quiz at `level`: 200 per milestone 5..95 reached. */
  function MilestoneXpBonusFor(level: int): nat {
    if level < MilestoneSpacing then 0
    else XpPerMilestone * (Min(level, LastRegularMilestone) / MilestoneSpacing)
  }

  /** getBonusQuizzesForLevel */
  method GetBonusQuizzesForLevel(level: int) returns (bonusQuizzes: int)
    ensures bonusQuizzes == BonusQuizzesFor(level)
  {
    if level >= MaxLevel {
      return 19 * QuizzesPerMilestone + MasterBonusQuizzes;
    }
    bonusQuizzes := 0;
    var i := MilestoneSpacing;
    while i <= Min(level, LastRegularMilestone)
      invariant MilestoneSpacing <= i && i % MilestoneSpacing == 0
      invariant i == MilestoneSpacing || i <= Min(level, LastRegularMilestone) + MilestoneSpacing
      invariant bonusQuizzes == QuizzesPerMilestone * ((i - MilestoneSpacing) / MilestoneSpacing)
    {
      if i <= level {
        bonusQuizzes := bonusQuizzes + QuizzesPerMilestone;
      }
      i := i + MilestoneSpacing;
    }
  }

  /** getMilestoneXpBonus */
  method GetMilestoneXpBonus(level: int) returns (bonusXp: int)
    ensures bonusXp == MilestoneXpBonusFor(level)
  {
    bonusXp := 0;
    var i := MilestoneSpacing;
    while i <= Min(level, LastRegularMilestone)
      invariant MilestoneSpacing <= i && i % MilestoneSpacing == 0
      invariant i == MilestoneSpacing || i <= Min(level, LastRegularMilestone) + MilestoneSpacing
      invariant bonusXp == XpPerMilestone * ((i - MilestoneSpacing) / MilestoneSpacing)
    {
      if i <= level {
        bonusXp := bonusXp + XpPerMilestone;
      }
      i := i + MilestoneSpacing;
    }
  }

  /** Both accumulators never decrease with the level; the XP bonus is capped at 3800 and the
      bonus quizzes reach 1057 at level 100. */
  lemma MilestoneBonusesMonotone(a: int, b: int)
    requires a <= b
    ensures BonusQuizzesFor(a) <= BonusQuizzesFor(b)
    ensures MilestoneXpBonusFor(a) <= MilestoneXpBonusFor(b)
    ensures MilestoneXpBonusFor(b) <= 19 * XpPerMilestone
    ensures BonusQuizzesFor(b) <= 19 * QuizzesPerMilestone + MasterBonusQuizzes
  {
    assert Min(a, LastRegularMilestone) / MilestoneSpacing <= Min(b, LastRegularMilestone) / MilestoneSpacing;
  }

  /** Sum of the bonus quizzes (resp. bonus XP per quiz) of the rewards in `ms` whose level is reached. */
  function QuizzesReached(ms: seq<MilestoneReward>, level: int): int {
    if ms == [] then 0
    else (if ms[0].level <= level then ms[0].bonusQuizzes else 0) + QuizzesReached(ms[1..], level)
  }

  function XpReached(ms: seq<MilestoneReward>, level: int): int {
    if ms == [] then 0
    else (if ms[0].level <= level then ms[0].bonusXpPerQuiz else 0) + XpReached(ms[1..], level)
  }

  /** Number of regular milestones i, i + 5, ... that `level` reaches. */
  function RegularReached(i: int, level: int): nat {
    var m := Min(level, LastRegularMilestone);
    if m < i then 0 else (m - i) / MilestoneSpacing + 1
  }

  lemma {:induction false} ReachedFrom(i: int, level: int)
    requires MilestoneSpacing <= i <= MaxLevel && i % MilestoneSpacing == 0
    ensures QuizzesReached(RewardsFrom(i), level) ==
      QuizzesPerMilestone * RegularReached(i, level) + (if level >= MaxLevel then MasterBonusQuizzes else 0)
    ensures XpReached(RewardsFrom(i), level) == XpPerMilestone * RegularReached(i, level)
    decreases MaxLevel - i
  {
    if i <= LastRegularMilestone {
      ReachedFrom(i + MilestoneSpacing, level);
      var rs := RewardsFrom(i);
      assert rs[1..] == RewardsFrom(i + MilestoneSpacing);
      assert RegularReached(i, level) == (if i <= level then 1 else 0) + RegularReached(i + MilestoneSpacing, level);
    } else {
      assert RewardsFrom(i)[1..] == [];
    }
  }

  /** The accumulators are the sums over the milestone table of the rewards reached. */
  lemma MilestoneSums(level: int)
    ensures QuizzesReached(Milestones(), level) == BonusQuizzesFor(level)
    ensures XpReached(Milestones(), level) == MilestoneXpBonusFor(level)
  {
    ReachedFrom(MilestoneSpacing, level);
  }

  /** Spot values: 3 bonus quizzes at level 5, 6 at level 10, over 1000 at level 100. */
  lemma BonusQuizzesExamples()
    ensures BonusQuizzesFor(5) == 3 && BonusQuizzesFor(10) == 6 && BonusQuizzesFor(100) >= 1000
  {
  }

  // ---------------------------------------------------------------------------------------
  // Timer display

  /** JavaScript's `%`: the remainder takes the sign of the dividend. */
  function JsRemainder(a: int, b: int): (r: int)
    requires b > 0
    ensures a >= 0 ==> 0 <= r < b
    ensures a < 0 ==> -b < r <= 0
  {
    if a >= 0 then a % b else -((-a) % b)
  }

  /** formatTime: the floor of the minutes, a colon and the remainder seconds padded to two digits. */
  function FormatTime(seconds: int): string {
    IntToString(seconds / 60) + ":" + PadStart(IntToString(JsRemainder(seconds, 60)), 2, '0')
  }

  /** A seconds value below 60 pads to exactly two digits denoting it. */
  lemma PadSeconds(secs: nat)
    requires secs < 60
    ensures var ss := PadStart(NatToString(secs), 2, '0');
            |ss| == 2 && AllDigits(ss) && ParseDigits(ss) == secs
  {
    var digits := NatToString(secs);
    ParseNatToString(secs);
    if secs < 10 {
      var ss := PadStart(digits, 2, '0');
      assert digits == [DigitChar(secs)];
      assert ss == ['0', DigitChar(secs)];
      assert ss[..1] == "0";
    } else {
      assert digits == NatToString(secs / 10) + [DigitChar(secs % 10)];
      assert NatToString(secs / 10) == [DigitChar(secs / 10)];
    }
  }

  /** For a non-negative duration the display reads `m:ss`, with `ss` exactly two digits worth
      less than 60 and m * 60 + ss the duration. */
  lemma FormatTimeShape(seconds: nat)
    ensures var mins := NatToString(seconds / 60);
            var text := FormatTime(seconds);
            var ss := text[|mins| + 1..];
            |text| == |mins| + 3 && text[..|mins| + 1] == mins + ":" && AllDigits(ss)
            && ParseDigits(mins) == seconds / 60 && ParseDigits(ss) < 60
            && ParseDigits(mins) * 60 + ParseDigits(ss) == seconds
  {
    var mins := NatToString(seconds / 60);
    var secs := seconds % 60;
    assert JsRemainder(seconds, 60) == secs;
    var ss := PadStart(NatToString(secs), 2, '0');
    PadSeconds(secs);
    var text := FormatTime(seconds);
    assert text == mins + ":" + ss;
    assert text[|mins| + 1..] == ss;
    assert text[..|mins| + 1] == mins + ":";
    ParseNatToString(seconds / 60);
  }
}
