/** Carly's level curve (apps/preferences/rewards.py, level_state). */
module Levels {

  datatype LevelState = LevelState(level: nat, levelXp: nat, threshold: nat)

  /** Cost of completing level `level`: 100, 125, 150, ... */
  function Threshold(level: nat): nat
    requires level >= 1
  {
    100 + (level - 1) * 25
  }

  /** Total XP at which level `level` begins, in closed form. */
  function LevelStart(level: nat): int
    requires level >= 1
  {
    100 * (level - 1) + 25 * ((level - 1) * (level - 2) / 2)
  }

  /** `state` splits `total` into completed levels and a remainder that does
      not complete the current one. */
  predicate Splits(total: nat, state: LevelState) {
    && state.level >= 1
    && state.threshold == Threshold(state.level)
    && state.levelXp < state.threshold
    && total == LevelStart(state.level) + state.levelXp
  }

  lemma LevelStartStep(level: nat)
    requires level >= 1
    ensures LevelStart(level + 1) == LevelStart(level) + Threshold(level)
  {
    var k: int := level - 1;
    assert (k + 1) * k == k * (k - 1) + 2 * k;
    assert (k * (k - 1) + 2 * k) / 2 == k * (k - 1) / 2 + k;
  }

  lemma {:induction false} LevelStartMonotone(a: nat, b: nat)
    requires 1 <= a <= b
    ensures LevelStart(a) + (b - a) * 100 <= LevelStart(b)
    decreases b - a
  {
    if a < b {
      LevelStartMonotone(a, b - 1);
      LevelStartStep(b - 1);
    }
  }

  /** The split is unique, so the curve has exactly one reading of a total. */
  lemma SplitUnique(total: nat, s: LevelState, t: LevelState)
    requires Splits(total, s) && Splits(total, t)
    ensures s == t
  {
    if s.level < t.level {
      LevelStartStep(s.level);
      LevelStartMonotone(s.level + 1, t.level);
    } else if t.level < s.level {
      LevelStartStep(t.level);
      LevelStartMonotone(t.level + 1, s.level);
    }
  }

  /** More XP never lowers the level, nor the progress within the same level. */
  lemma SplitMonotone(x: nat, y: nat, s: LevelState, t: LevelState)
    requires x <= y && Splits(x, s) && Splits(y, t)
    ensures s.level <= t.level
    ensures s.level == t.level ==> s.levelXp <= t.levelXp
  {
    if t.level < s.level {
      LevelStartStep(t.level);
      LevelStartMonotone(t.level + 1, s.level);
    }
  }

  // The loop of level_state from a given position.
  function Climb(remaining: nat, level: nat): (s: LevelState)
    requires level >= 1
    ensures s.level >= level && s.threshold == Threshold(s.level) && s.levelXp < s.threshold
    ensures LevelStart(s.level) + s.levelXp == LevelStart(level) + remaining
    decreases remaining
  {
    if remaining >= Threshold(level) then
      LevelStartStep(level);
      Climb(remaining - Threshold(level), level + 1)
    else LevelState(level, remaining, Threshold(level))
  }

  /** The level of a total, as a function for other specifications. */
  function LevelOf(total: nat): (s: LevelState)
    ensures Splits(total, s)
  {
    Climb(total, 1)
  }

  /** level_state: negative totals count as zero. */
  method ComputeLevelState(total: int) returns (s: LevelState)
    ensures Splits(if total < 0 then 0 else total, s)
    ensures s == LevelOf(if total < 0 then 0 else total)
  {
    var remaining: nat := if total < 0 then 0 else total;
    var level, threshold := 1, 100;
    while remaining >= threshold
      invariant level >= 1 && threshold == Threshold(level)
      invariant LevelStart(level) + remaining == if total < 0 then 0 else total
      decreases remaining
    {
      LevelStartStep(level);
      remaining := remaining - threshold;
      level := level + 1;
      threshold := 100 + (level - 1) * 25;
    }
    s := LevelState(level, remaining, threshold);
    SplitUnique(if total < 0 then 0 else total, s, LevelOf(if total < 0 then 0 else total));
  }

  /** Level and progress determine the total: the closed form inverts the loop. */
  lemma LevelInverse(level: nat, levelXp: nat)
    requires level >= 1 && levelXp < Threshold(level)
    ensures LevelStart(level) >= 0
    ensures LevelOf(LevelStart(level) + levelXp) == LevelState(level, levelXp, Threshold(level))
  {
    LevelStartMonotone(1, level);
    SplitUnique(LevelStart(level) + levelXp, LevelOf(LevelStart(level) + levelXp),
                LevelState(level, levelXp, Threshold(level)));
  }
}
