/**
 * The reward values the agent hands to the trainer: the fixed rewards for
 * holding course and for surviving the episode, the bonus for not being
 * tracked and the penalty for being tracked.
 */
module Rewards {

  import opened Numeric

  const HOLD_REWARD: real := 0.01
  const SUCCESS_REWARD: real := 10.0

  const BONUS_RATE: real := 0.01
  const BONUS_MIN: real := 0.01
  const BONUS_MAX: real := 0.04

  const PENALTY_RATE: real := -0.03
  const PENALTY_MIN: real := -0.03
  const PENALTY_MAX: real := -0.01

  /** The bonus for an untracked poll, growing with the time since the agent was last tracked. */
  function UntrackedBonus(timeSinceLastTracked: real): (r: real)
    ensures BONUS_MIN <= r <= BONUS_MAX
    ensures 1.0 <= timeSinceLastTracked <= 4.0 ==> r == BONUS_RATE * timeSinceLastTracked
  {
    Clamp(BONUS_RATE * timeSinceLastTracked, BONUS_MIN, BONUS_MAX)
  }

  /**
   * The penalty for a tracked poll, harsher the nearer the missile was and
   * the longer it has been tracked. In single precision a squared distance
   * of zero makes `1 / d` infinite and the product minus infinity, which the
   * clamp turns into the harshest penalty; the model states that case
   * outright.
   */
  function TrackedPenalty(distanceSqr: real, timeTracking: real): (r: real)
    requires distanceSqr >= 0.0 && timeTracking > 0.0
    ensures PENALTY_MIN <= r <= PENALTY_MAX
    ensures distanceSqr == 0.0 ==> r == PENALTY_MIN
  {
    if distanceSqr == 0.0 then PENALTY_MIN
    else Clamp(PENALTY_RATE * (1.0 / distanceSqr) * timeTracking, PENALTY_MIN, PENALTY_MAX)
  }

  /** The bonus never shrinks as the untracked time grows. */
  lemma UntrackedBonusMonotone(t1: real, t2: real)
    requires t1 <= t2
    ensures UntrackedBonus(t1) <= UntrackedBonus(t2)
  {
  }

  lemma ClampMonotone(v1: real, v2: real, min: real, max: real)
    requires v1 <= v2 && min <= max
    ensures Clamp(v1, min, max) <= Clamp(v2, min, max)
  {
  }

  /**
   * A nearer missile, or a longer tracking time, never gives a milder
   * penalty.
   */
  lemma {:induction false} TrackedPenaltyMonotone(d1: real, t1: real, d2: real, t2: real)
    requires 0.0 <= d1 <= d2 && t1 >= t2 > 0.0
    ensures TrackedPenalty(d1, t1) <= TrackedPenalty(d2, t2)
  {
    if d1 > 0.0 {
      RatioMonotone(d1, t1, d2, t2);
      ClampMonotone(PENALTY_RATE * (1.0 / d1) * t1, PENALTY_RATE * (1.0 / d2) * t2, PENALTY_MIN, PENALTY_MAX);
    }
  }

  lemma RatioMonotone(d1: real, t1: real, d2: real, t2: real)
    requires 0.0 < d1 <= d2 && t1 >= t2 > 0.0
    ensures PENALTY_RATE * (1.0 / d1) * t1 <= PENALTY_RATE * (1.0 / d2) * t2
  {
    assert 1.0 / d1 >= 1.0 / d2 > 0.0 by {
      assert (1.0 / d1) * d1 == 1.0;
      assert (1.0 / d2) * d2 == 1.0;
      assert (1.0 / d2) * d1 <= (1.0 / d2) * d2;
    }
    assert (1.0 / d1) * t1 >= (1.0 / d2) * t1 >= (1.0 / d2) * t2;
  }
}
