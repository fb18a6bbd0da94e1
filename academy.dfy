/**
 * The curriculum holder: four difficulty values that the academy copies from
 * the training framework's reset parameters at the start of every episode and
 * that the agent reads.
 */
module Academy {

  import opened Wrappers

  const GOAL_TIME_KEY: string := "GoalTime"
  const MISSILE_AMOUNT_KEY: string := "MissileAmount"
  const MISSILE_FUEL_AMOUNT_KEY: string := "MissileFuelAmount"
  const MISSILE_SPEED_KEY: string := "MissileSpeed"

  /** The four keys, in the order the reset reads them. */
  const READ_ORDER: seq<string> :=
    [GOAL_TIME_KEY, MISSILE_AMOUNT_KEY, MISSILE_FUEL_AMOUNT_KEY, MISSILE_SPEED_KEY]

  /** One snapshot of the curriculum: episode length, missile count, speed and fuel. */
  datatype Curriculum = Curriculum(
    goalTime: real,
    missileAmount: real,
    missileFuelAmount: real,
    missileSpeed: real)

  predicate HasAllKeys(resetParameters: map<string, real>) {
    forall k :: k in READ_ORDER ==> k in resetParameters
  }

  /**
   * The curriculum the parameters describe, or nothing when one of the four
   * keys is absent (there is no default).
   */
  function Sample(resetParameters: map<string, real>): (c: Option<Curriculum>)
    ensures c.Some? <==> HasAllKeys(resetParameters)
    ensures c.Some? ==>
      && c.value.goalTime == resetParameters[GOAL_TIME_KEY]
      && c.value.missileAmount == resetParameters[MISSILE_AMOUNT_KEY]
      && c.value.missileFuelAmount == resetParameters[MISSILE_FUEL_AMOUNT_KEY]
      && c.value.missileSpeed == resetParameters[MISSILE_SPEED_KEY]
  {
    if HasAllKeys(resetParameters) then
      Some(Curriculum(
        resetParameters[GOAL_TIME_KEY],
        resetParameters[MISSILE_AMOUNT_KEY],
        resetParameters[MISSILE_FUEL_AMOUNT_KEY],
        resetParameters[MISSILE_SPEED_KEY]))
    else
      None
  }

  /** The first key, in read order, that the parameters lack. */
  function FirstMissingKey(resetParameters: map<string, real>): (k: Option<string>)
    ensures k.None? <==> HasAllKeys(resetParameters)
    ensures k.Some? ==> k.value in READ_ORDER && k.value !in resetParameters
    ensures k.Some? ==> forall i, j :: 0 <= i < j < |READ_ORDER| && READ_ORDER[j] == k.value
                          ==> READ_ORDER[i] in resetParameters
  {
    if GOAL_TIME_KEY !in resetParameters then Some(GOAL_TIME_KEY)
    else if MISSILE_AMOUNT_KEY !in resetParameters then Some(MISSILE_AMOUNT_KEY)
    else if MISSILE_FUEL_AMOUNT_KEY !in resetParameters then Some(MISSILE_FUEL_AMOUNT_KEY)
    else if MISSILE_SPEED_KEY !in resetParameters then Some(MISSILE_SPEED_KEY)
    else None
  }

  /**
   * The four fields after a reset that started from `c`: each assignment runs
   * in turn until a lookup fails, so the fields read before the missing key
   * hold the new values and the others keep the old ones.
   */
  function AfterReset(c: Curriculum, resetParameters: map<string, real>): (r: Curriculum)
    ensures HasAllKeys(resetParameters) ==> r == Sample(resetParameters).value
    ensures GOAL_TIME_KEY !in resetParameters ==> r == c
  {
    var p := resetParameters;
    var goalTime := if GOAL_TIME_KEY in p then p[GOAL_TIME_KEY] else c.goalTime;
    var ok1 := GOAL_TIME_KEY in p && MISSILE_AMOUNT_KEY in p;
    var missileAmount := if ok1 then p[MISSILE_AMOUNT_KEY] else c.missileAmount;
    var ok2 := ok1 && MISSILE_FUEL_AMOUNT_KEY in p;
    var missileFuelAmount := if ok2 then p[MISSILE_FUEL_AMOUNT_KEY] else c.missileFuelAmount;
    var ok3 := ok2 && MISSILE_SPEED_KEY in p;
    var missileSpeed := if ok3 then p[MISSILE_SPEED_KEY] else c.missileSpeed;
    Curriculum(goalTime, missileAmount, missileFuelAmount, missileSpeed)
  }

  /** Resetting twice with the same parameters leaves what resetting once leaves. */
  lemma AfterResetIdempotent(c: Curriculum, resetParameters: map<string, real>)
    ensures AfterReset(AfterReset(c, resetParameters), resetParameters)
         == AfterReset(c, resetParameters)
  {
  }

  /** With every key present the outcome depends on the parameters alone. */
  lemma AfterResetIgnoresOldValues(c1: Curriculum, c2: Curriculum, resetParameters: map<string, real>)
    requires HasAllKeys(resetParameters)
    ensures AfterReset(c1, resetParameters) == AfterReset(c2, resetParameters)
  {
  }

  class MissileDodgerAcademy {
    var GoalTime: real
    var MissileAmount: real
    var MissileFuelAmount: real
    var MissileSpeed: real

    /** The four fields as one value. */
    function Values(): Curriculum
      reads this
    {
      Curriculum(GoalTime, MissileAmount, MissileFuelAmount, MissileSpeed)
    }

    constructor (initial: Curriculum)
      ensures Values() == initial
    {
      GoalTime := initial.goalTime;
      MissileAmount := initial.missileAmount;
      MissileFuelAmount := initial.missileFuelAmount;
      MissileSpeed := initial.missileSpeed;
    }

    /**
     * Copies the four curriculum values out of the reset parameters. A lookup
     * of an absent key aborts the reset; `missing` names that key.
     */
    method AcademyReset(resetParameters: map<string, real>) returns (missing: Option<string>)
      modifies this
      ensures missing == FirstMissingKey(resetParameters)
      ensures missing.None? ==> Values() == Sample(resetParameters).value
      ensures Values() == AfterReset(old(Values()), resetParameters)
    {
      missing := None;
      if GOAL_TIME_KEY !in resetParameters {
        missing := Some(GOAL_TIME_KEY);
        return;
      }
      GoalTime := resetParameters[GOAL_TIME_KEY];
      if MISSILE_AMOUNT_KEY !in resetParameters {
        missing := Some(MISSILE_AMOUNT_KEY);
        return;
      }
      MissileAmount := resetParameters[MISSILE_AMOUNT_KEY];
      if MISSILE_FUEL_AMOUNT_KEY !in resetParameters {
        missing := Some(MISSILE_FUEL_AMOUNT_KEY);
        return;
      }
      MissileFuelAmount := resetParameters[MISSILE_FUEL_AMOUNT_KEY];
      if MISSILE_SPEED_KEY !in resetParameters {
        missing := Some(MISSILE_SPEED_KEY);
        return;
      }
      MissileSpeed := resetParameters[MISSILE_SPEED_KEY];
    }

    /** The per-step hook does nothing. */
    method AcademyStep()
      ensures unchanged(this)
    {
    }
  }
}
