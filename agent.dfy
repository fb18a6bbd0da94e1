/**
 * The missile-dodging agent: each fixed step it applies the chosen turn,
 * counts the episode clock down, and now and then polls for the nearest
 * enemy missile, shaping its reward from what the poll finds. The engine is
 * abstracted away: the clock and step length are parameters, the enemy
 * missiles are a sequence handed to each step, and the ship's transform is a
 * position and a heading.
 */
module Agent {

  import opened Wrappers
  import opened Numeric
  import opened Geometry
  import opened Rewards
  import opened Targeting
  import Academy

  /** Seconds between two searches for a missile to track. */
  const SEARCH_TARGET_INTERVAL: real := 0.02

  /** The agent never stops searching, so the search guard is always on. */
  const SEARCHING_FOR_TRACKER: bool := true

  /** Length of the observation vector. */
  const STATE_SIZE: nat := 9

  /** Action codes: hold course, turn left, turn right. */
  const ACTION_HOLD: int := 0
  const ACTION_LEFT: int := 1
  const ACTION_RIGHT: int := 2

  /** What the agent writes into the missile launcher at the start of an episode. */
  datatype LaunchOptions = LaunchOptions(
    missileSpeed: real,
    fuelAmount: real,
    launcherNodeCount: int,
    autoFireInterval: real)

  /** A search is due once strictly more than one interval has passed since the last one. */
  predicate PollDue(lastSearchTime: real, currentTime: real)
    ensures PollDue(lastSearchTime, currentTime) <==> currentTime - lastSearchTime > SEARCH_TARGET_INTERVAL
    ensures PollDue(lastSearchTime, currentTime) ==> currentTime > lastSearchTime
  {
    SEARCHING_FOR_TRACKER && currentTime > lastSearchTime + SEARCH_TARGET_INTERVAL
  }

  /** A heading in degrees, [0, 360), mapped onto [-1, 1). */
  function NormalizedHeading(degrees: real): (r: real)
    ensures 0.0 <= degrees < 360.0 ==> -1.0 <= r < 1.0
    ensures degrees == 180.0 ==> r == 0.0
  {
    degrees / 180.0 - 1.0
  }

  /** The tracked missile's own heading feature: its child's heading, or 0 without a child. */
  function ChildHeadingFeature(m: Missile): (r: real)
    ensures ValidMissile(m) ==> -1.0 <= r < 1.0
    ensures m.childHeading.None? ==> r == 0.0
  {
    if m.childHeading.Some? then NormalizedHeading(m.childHeading.value) else 0.0
  }

  class MissileDodgerAgent {
    const academy: Academy.MissileDodgerAcademy

    /** The missile being tracked, as seen at the last search. */
    var tracker: Option<Missile>
    /** The ship's transform: position and heading in degrees. */
    var position: Point
    var heading: real
    var startPosition: Point
    /** Turn sign for the motion step: 0, +1 or -1. */
    var rotation: real
    /** Squared distance to the tracked missile, as measured at the last tracked search. */
    var distanceFromTargetSqr: real
    /** Seconds left before the episode counts as survived. */
    var goalTime: real
    var lastSearchTime: real
    var timeSinceLastTracked: real
    var timeTracking: real
    var wins: int
    var losses: int
    var launch: LaunchOptions
    /** What the trainer reads after each step. */
    var reward: real
    var done: bool

    ghost predicate Valid()
      reads this
    {
      && 0.0 <= heading < 360.0
      && (tracker.Some? ==> ValidMissile(tracker.value))
      && timeSinceLastTracked >= 0.0
      && timeTracking >= 0.0
      && distanceFromTargetSqr >= 0.0
    }

    /** The per-episode state is as a reset leaves it. */
    ghost predicate IsFreshlyReset()
      reads this, academy
    {
      && tracker.None?
      && timeSinceLastTracked == 0.0
      && timeTracking == 0.0
      && position == startPosition
      && goalTime == academy.GoalTime
      && launch == LaunchOptions(
           academy.MissileSpeed,
           academy.MissileFuelAmount,
           TruncateToInt(academy.MissileAmount),
           academy.MissileFuelAmount - 2.0)
    }

    /**
     * Agent initialisation: remembers the academy and the starting position,
     * takes the episode length from the curriculum and resets the episode.
     */
    constructor (academy: Academy.MissileDodgerAcademy, position: Point, heading: real)
      requires 0.0 <= heading < 360.0
      ensures Valid() && IsFreshlyReset()
      ensures this.academy == academy && startPosition == position && this.heading == heading
      ensures rotation == 0.0 && distanceFromTargetSqr == 0.0 && lastSearchTime == 0.0
      ensures wins == 0 && losses == 0 && reward == 0.0 && !done
    {
      this.academy := academy;
      tracker := None;
      this.position := position;
      this.heading := heading;
      rotation := 0.0;
      distanceFromTargetSqr := 0.0;
      lastSearchTime := 0.0;
      timeSinceLastTracked := 0.0;
      timeTracking := 0.0;
      wins := 0;
      losses := 0;
      launch := LaunchOptions(0.0, 0.0, 0, 0.0);
      reward := 0.0;
      done := false;
      goalTime := academy.GoalTime;
      startPosition := position;
      new;
      AgentReset();
    }

    /**
     * The observation handed to the policy: own heading, whether a missile is
     * tracked, the tracked missile's heading and its offset scaled by the
     * search radius, then the four curriculum values, each scaled.
     */
    function CollectState(): (state: seq<real>)
      reads this, academy
      ensures |state| == STATE_SIZE
      ensures state[0] == NormalizedHeading(heading)
      ensures state[1] == 1.0 <==> tracker.Some?
      ensures tracker.None? ==> state[1..5] == [0.0, 0.0, 0.0, 0.0]
      ensures tracker.Some? ==>
        && state[2] == ChildHeadingFeature(tracker.value)
        && state[3] == (tracker.value.position.x - position.x) / SEARCH_RADIUS
        && state[4] == (tracker.value.position.y - position.y) / SEARCH_RADIUS
      ensures state[5..] == [academy.GoalTime / 60.0, academy.MissileAmount / 12.0,
                             academy.MissileSpeed, academy.MissileFuelAmount / 20.0]
      ensures Valid() ==> -1.0 <= state[0] < 1.0 && -1.0 <= state[2] < 1.0
    {
      var agentData := [NormalizedHeading(heading)];
      var trackerData :=
        if tracker.Some? then
          [1.0,
           ChildHeadingFeature(tracker.value),
           (tracker.value.position.x - position.x) / SEARCH_RADIUS,
           (tracker.value.position.y - position.y) / SEARCH_RADIUS]
        else
          [0.0, 0.0, 0.0, 0.0];
      var curriculumData :=
        [academy.GoalTime / 60.0, academy.MissileAmount / 12.0,
         academy.MissileSpeed, academy.MissileFuelAmount / 20.0];
      agentData + trackerData + curriculumData
    }

    /**
     * One fixed step. `action` is the policy's first output, cast to an
     * integer action code; `fixedDeltaTime` is the step length and `fixedTime`
     * the clock; `missiles` are the enemy missiles alive at this step.
     */
    method AgentStep(action: real, fixedDeltaTime: real, fixedTime: real, missiles: seq<Missile>)
      requires Valid()
      requires forall m :: m in missiles ==> ValidMissile(m)
      modifies this`rotation, this`reward, this`goalTime, this`done, this`wins, this`tracker,
               this`timeSinceLastTracked, this`timeTracking, this`distanceFromTargetSqr, this`lastSearchTime
      ensures Valid()
      // the action
      ensures TruncateToInt(action) == ACTION_HOLD ==> rotation == 0.0
      ensures TruncateToInt(action) == ACTION_LEFT ==> rotation == 1.0
      ensures TruncateToInt(action) == ACTION_RIGHT ==> rotation == -1.0
      ensures TruncateToInt(action) !in {ACTION_HOLD, ACTION_LEFT, ACTION_RIGHT} ==> rotation == old(rotation)
      // the episode clock
      ensures goalTime == old(goalTime) - fixedDeltaTime
      ensures done == (old(done) || goalTime < 0.0)
      ensures wins == if goalTime < 0.0 then old(wins) + 1 else old(wins)
      // a step without a search keeps the reward set by the action and the clock
      ensures !PollDue(old(lastSearchTime), fixedTime) ==>
        && reward == (if goalTime < 0.0 then SUCCESS_REWARD
                      else if TruncateToInt(action) == ACTION_HOLD then HOLD_REWARD
                      else old(reward))
        && tracker == old(tracker)
        && timeSinceLastTracked == old(timeSinceLastTracked)
        && timeTracking == old(timeTracking)
        && distanceFromTargetSqr == old(distanceFromTargetSqr)
        && lastSearchTime == old(lastSearchTime)
      // a search picks the nearest missile in range and overwrites the reward
      ensures PollDue(old(lastSearchTime), fixedTime) ==>
        && lastSearchTime == fixedTime
        && tracker == SearchForTarget(position, missiles)
      ensures PollDue(old(lastSearchTime), fixedTime) && tracker.None? ==>
        && timeSinceLastTracked == old(timeSinceLastTracked) + SEARCH_TARGET_INTERVAL
        && timeTracking == old(timeTracking)
        && distanceFromTargetSqr == old(distanceFromTargetSqr)
        && reward == UntrackedBonus(timeSinceLastTracked)
        && BONUS_MIN <= reward <= BONUS_MAX
      ensures PollDue(old(lastSearchTime), fixedTime) && tracker.Some? ==>
        && timeTracking == old(timeTracking) + SEARCH_TARGET_INTERVAL
        && timeSinceLastTracked == 0.0
        && reward == TrackedPenalty(old(distanceFromTargetSqr), timeTracking)
        && PENALTY_MIN <= reward <= PENALTY_MAX
        && (old(distanceFromTargetSqr) == 0.0 ==> reward == PENALTY_MIN)
        && distanceFromTargetSqr == DistanceSqr(position, tracker.value)
        && InRange(position, tracker.value)
    {
      var code := TruncateToInt(action);
      if code == ACTION_HOLD {
        rotation := 0.0;
        reward := HOLD_REWARD;
      } else if code == ACTION_LEFT {
        rotation := 1.0;
      } else if code == ACTION_RIGHT {
        rotation := -1.0;
      }

      goalTime := goalTime - fixedDeltaTime;
      if goalTime < 0.0 {
        done := true;
        reward := SUCCESS_REWARD;
        wins := wins + 1;
      }

      Search(fixedTime, missiles);
    }

    /**
     * The throttled search at the end of a step: when due, re-select the
     * tracked missile, update the tracking timers and overwrite the reward.
     */
    method Search(fixedTime: real, missiles: seq<Missile>)
      requires Valid()
      requires forall m :: m in missiles ==> ValidMissile(m)
      modifies this`reward, this`tracker, this`timeSinceLastTracked, this`timeTracking,
               this`distanceFromTargetSqr, this`lastSearchTime
      ensures Valid()
      ensures !PollDue(old(lastSearchTime), fixedTime) ==> unchanged(this)
      ensures PollDue(old(lastSearchTime), fixedTime) ==>
        && lastSearchTime == fixedTime
        && tracker == SearchForTarget(position, missiles)
      ensures PollDue(old(lastSearchTime), fixedTime) && tracker.None? ==>
        && timeSinceLastTracked == old(timeSinceLastTracked) + SEARCH_TARGET_INTERVAL
        && timeTracking == old(timeTracking)
        && distanceFromTargetSqr == old(distanceFromTargetSqr)
        && reward == UntrackedBonus(timeSinceLastTracked)
      ensures PollDue(old(lastSearchTime), fixedTime) && tracker.Some? ==>
        && timeTracking == old(timeTracking) + SEARCH_TARGET_INTERVAL
        && timeSinceLastTracked == 0.0
        && reward == TrackedPenalty(old(distanceFromTargetSqr), timeTracking)
        && distanceFromTargetSqr == DistanceSqr(position, tracker.value)
        && InRange(position, tracker.value)
    {
      if SEARCHING_FOR_TRACKER {
        var currentTime := fixedTime;
        if currentTime > lastSearchTime + SEARCH_TARGET_INTERVAL {
          var found := SearchForTarget(position, missiles);
          assert found.Some? ==> found.value in missiles && InRange(position, found.value);
          tracker := found;
          timeSinceLastTracked := timeSinceLastTracked + SEARCH_TARGET_INTERVAL;
          reward := UntrackedBonus(timeSinceLastTracked);
          if tracker.Some? {
            timeTracking := timeTracking + SEARCH_TARGET_INTERVAL;
            timeSinceLastTracked := 0.0;
            reward := TrackedPenalty(distanceFromTargetSqr, timeTracking);
            distanceFromTargetSqr := DistanceSqr(position, tracker.value);
            if distanceFromTargetSqr > SEARCH_RADIUS * SEARCH_RADIUS {
              // The lost-target branch, which would zero the tracking time and
              // drop the tracker, cannot run: the search has just returned a
              // missile strictly inside the radius, and its distance is
              // measured again from the same two positions.
              assert false;
            }
          }
          lastSearchTime := currentTime;
        }
      }
    }

    /**
     * Starts a new episode: forgets the tracked missile, returns the ship to
     * its starting position, zeroes the tracking timers, rereads the episode
     * length and configures the missile launcher from the curriculum.
     */
    method AgentReset()
      requires Valid()
      modifies this`tracker, this`position, this`timeSinceLastTracked, this`timeTracking,
               this`goalTime, this`launch
      ensures Valid() && IsFreshlyReset()
      ensures tracker.None? && timeSinceLastTracked == 0.0 && timeTracking == 0.0
      ensures position == startPosition
      ensures goalTime == academy.GoalTime
      ensures launch.missileSpeed == academy.MissileSpeed
      ensures launch.fuelAmount == academy.MissileFuelAmount
      ensures launch.launcherNodeCount == TruncateToInt(academy.MissileAmount)
      ensures launch.autoFireInterval == academy.MissileFuelAmount - 2.0
      ensures old(IsFreshlyReset()) ==> unchanged(this)
    {
      tracker := None;
      position := startPosition;
      timeSinceLastTracked := 0.0;
      timeTracking := 0.0;
      goalTime := academy.GoalTime;
      launch := LaunchOptions(
        academy.MissileSpeed,
        academy.MissileFuelAmount,
        TruncateToInt(academy.MissileAmount),
        academy.MissileFuelAmount - 2.0);
    }
  }

  /**
   * While the tracked missile is inside the search radius, the two offset
   * features of the observation lie strictly between -1 and 1.
   */
  lemma {:induction false} TrackerOffsetsNormalized(agent: MissileDodgerAgent)
    requires agent.tracker.Some? && InRange(agent.position, agent.tracker.value)
    ensures -1.0 < agent.CollectState()[3] < 1.0
    ensures -1.0 < agent.CollectState()[4] < 1.0
  {
  }
}
