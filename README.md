# Missile dodger agent: a Dafny model of its per-step decision logic

The system is a reinforcement-learning spaceship that learns to dodge homing
missiles. An academy holds four curriculum values (episode length, missile
count, missile fuel and missile speed), which it copies from the trainer's
reset parameters at the start of each episode. The agent runs one fixed step
at a time. Each step it applies a discrete action (hold, turn left, turn
right) and counts the episode clock down; surviving the clock wins the
episode. Every so often it searches for the nearest enemy missile inside a
radius of 6. It then shapes its reward from that search: a growing bonus
while untracked, and a penalty while tracked that is harsher the closer the
missile was and the longer it has been tracked.

The model works over `real` numbers, with the game engine abstracted away:

- positions are points in the plane;
- the enemy missiles are a sequence handed to each step;
- the fixed clock and the step length are parameters.

Files:

- `wrappers.dfy`: `Option`, which stands in for a nullable object reference.
- `numeric.dfy`: Unity's `Mathf.Clamp` and the C# `(int)` cast, which truncates toward zero.
- `geometry.dfy`: points and squared distance.
- `academy.dfy`: the class `MissileDodgerAcademy` and its reset.
- `targeting.dfy`: the target search, written as the source writes it. It is a
  stable sort by squared distance followed by "first element in range".
  `NearestIndex` is an independent definition of the intended choice (the
  earliest missile at minimal distance), and `SearchForTarget` is proved to agree with it.
- `rewards.dfy`: the hold and success rewards, the untracked bonus and the tracked penalty.
- `agent.dfy`: the class `MissileDodgerAgent`, with its step, its reset and its observation vector.

Behaviour of the code that the contracts prove:

- The observation vector has 9 entries.
- A search runs after the hold reward and the success reward are set. On a
  step where a search is due, it overwrites both, including the reward of 10
  for winning the episode.
- The tracked penalty uses the squared distance stored by the previous
  tracked search. That value starts at 0 and a reset does not clear it.
  Because 1/0 is infinite in single precision, a stored 0 gives the harshest
  penalty, -0.03.
- The tracker is chosen afresh on every search, whether or not a missile is
  already tracked.
- The lost-target branch at `MissileDodgerAgent.cs:147-151` can never run.
  The search has just returned a missile strictly inside the radius, and
  line 146 measures that same distance again. So after every search the
  tracker equals the search result. `_timeTracking` is reset only by
  `AgentReset`, and a search that finds nothing leaves it as it was.
- An action code other than 0, 1 or 2 leaves the turn sign and the reward as
  they were.
- A missing reset parameter aborts the academy reset. The fields read before
  the missing key keep their new values, and the rest keep their old ones.

## Model

| member | source | states |
|---|---|---|
| `Numeric.Clamp` | MissileDodgerAgent.cs:136 | the result lies in [min, max] whenever min ≤ max; a value already in range is returned unchanged; a value below min gives min, and a value above max (and not below min) gives max |
| `Numeric.TruncateToInt` | MissileDodgerAgent.cs:181 | the C# cast drops the fractional part toward zero: for x ≥ 0 the result is the largest integer ≤ x, for x < 0 it is non-positive and less than one above x |
| `Geometry.SqrDistance` | MissileDodgerAgent.cs:200 | a squared distance is never negative and is 0 from a point to itself |
| `Academy.Sample` | MissileDodgerAcademy.cs:11-16 | the curriculum is present exactly when all four keys are, and then each field is the value stored under its own key |
| `Academy.FirstMissingKey` | MissileDodgerAcademy.cs:11-16 | no key is reported exactly when all four keys are present; a reported key is one of the four, is absent, and every key read before it is present |
| `Academy.AfterReset` | MissileDodgerAcademy.cs:11-16 | with all keys present the fields become the map's values; when the first key read is absent, nothing changes |
| `Academy.AfterResetIdempotent` | MissileDodgerAcademy.cs:11-16 | resetting twice with the same parameters leaves the same four fields as resetting once |
| `Academy.AfterResetIgnoresOldValues` | MissileDodgerAcademy.cs:11-16 | with all keys present, the outcome does not depend on the previous field values |
| `Academy.MissileDodgerAcademy.constructor` | MissileDodgerAcademy.cs:1-5 | the four public curriculum fields start with the given values |
| `Academy.MissileDodgerAcademy.AcademyReset` | MissileDodgerAcademy.cs:11-16 | reports the first missing key, if any; with none missing, the fields equal the sampled curriculum; in every case the new fields are `AfterReset` of the old ones |
| `Academy.MissileDodgerAcademy.AcademyStep` | MissileDodgerAcademy.cs:18-19 | the per-step hook changes nothing |
| `Targeting.DistanceSqr` | MissileDodgerAgent.cs:199-201 | the squared distance from the agent to a missile is never negative, and is 0 when they coincide |
| `Targeting.InsertByDistance` | MissileDodgerAgent.cs:206 | inserting adds exactly one element and keeps every other one (multiset equality) |
| `Targeting.OrderByDistance` | MissileDodgerAgent.cs:206 | the ordering is a permutation of the missiles |
| `Targeting.OrderByDistanceSorted` | MissileDodgerAgent.cs:206 | the ordering is ascending in squared distance |
| `Targeting.OrderByDistanceHead` | MissileDodgerAgent.cs:206 | the first element of the ordering is the earliest missile at minimal distance, which is the stable sort's tie-break |
| `Targeting.FirstInRange` | MissileDodgerAgent.cs:207 | nothing is returned exactly when no element is strictly inside the radius; what is returned is an element of the sequence and is in range |
| `Targeting.FirstInRangeIsFirst` | MissileDodgerAgent.cs:207 | the element returned is at some index before which no element is in range |
| `Targeting.NearestIndex` | MissileDodgerAgent.cs:203-208 | reference choice: an index whose distance is minimal over all missiles and strictly smaller than every earlier one |
| `Targeting.InRange` | MissileDodgerAgent.cs:207 | a missile in range (squared distance strictly below the squared radius) is less than the radius away from the agent on each axis |
| `Targeting.SearchForTarget` | MissileDodgerAgent.cs:203-208 | returns nothing iff no missile is strictly inside the search radius; otherwise returns the earliest missile at minimal distance, which is in range |
| `Rewards.UntrackedBonus` | MissileDodgerAgent.cs:136 | the bonus lies in [0.01, 0.04] and equals 0.01 × the untracked time between 1 and 4 seconds |
| `Rewards.UntrackedBonusMonotone` | MissileDodgerAgent.cs:136 | a longer untracked time never gives a smaller bonus |
| `Rewards.TrackedPenalty` | MissileDodgerAgent.cs:144 | the penalty lies in [-0.03, -0.01]; a stored squared distance of 0 gives -0.03, matching the clamp of minus infinity |
| `Rewards.TrackedPenaltyMonotone` | MissileDodgerAgent.cs:144 | a nearer missile or a longer tracking time never gives a milder penalty |
| `Agent.PollDue` | MissileDodgerAgent.cs:128-131 | a search is due exactly when strictly more than the 0.02-second interval has passed since the last search (the search flag is always on), so a due search always lies strictly after the last one |
| `Agent.NormalizedHeading` | MissileDodgerAgent.cs:57 | a heading in [0, 360) degrees maps into [-1, 1), and 180 maps to 0 |
| `Agent.ChildHeadingFeature` | MissileDodgerAgent.cs:66 | the tracked missile's heading feature lies in [-1, 1), and is 0 when the missile has no child |
| `Agent.MissileDodgerAgent.constructor` | MissileDodgerAgent.cs:44-51 | initialisation leaves the agent valid and freshly reset, at its starting position, with counters, reward and timers at their defaults |
| `Agent.MissileDodgerAgent.CollectState` | MissileDodgerAgent.cs:53-94 | always 9 values (numbered from 0); entry 1 is 1 iff a missile is tracked; with no tracker entries 1-4 are 0; with one, entries 3-4 are the x/y offsets divided by the search radius; the last four are GoalTime/60, MissileAmount/12, MissileSpeed and MissileFuelAmount/20 in that order; both heading entries lie in [-1, 1) |
| `Agent.MissileDodgerAgent.AgentStep` | MissileDodgerAgent.cs:96-156 | action 0/1/2 sets the turn to 0/+1/-1 (any other code leaves it unchanged); the clock drops by exactly the step length; below 0, done is set and wins grows by exactly 1, else both are untouched; a step without a due search keeps the tracker and timers and leaves the reward at 10, 0.01 or its old value, in that priority; a due search re-selects the nearest in-range missile and leaves a reward in [0.01, 0.04] (untracked) or [-0.03, -0.01] (tracked); the validity invariant is preserved |
| `Agent.MissileDodgerAgent.Search` | MissileDodgerAgent.cs:128-156 | runs only when the clock is strictly past the last search plus 0.02, and otherwise changes nothing; after a search, the last search time is the current time and the tracker is the search result. Untracked: the untracked time grows by 0.02 and the reward is the clamped bonus. Tracked: the tracking time grows by 0.02, the untracked time becomes 0, the reward is the penalty from the previously stored distance, and the stored distance is refreshed to one strictly inside the radius |
| `Agent.MissileDodgerAgent.AgentReset` | MissileDodgerAgent.cs:166-194 | clears the tracker and both tracking timers, restores the starting position, rereads the goal time, and sets launcher count = truncated MissileAmount, auto-fire interval = fuel − 2, and speed and fuel from the curriculum; nothing else changes (wins, losses, stored distance, last search time); resetting a freshly reset agent changes nothing |
| `Agent.TrackerOffsetsNormalized` | MissileDodgerAgent.cs:71-72 | while the tracked missile is inside the search radius, both offset entries of the observation lie strictly between -1 and 1 |

## Left out

- Motion (`RotationOnlyFlight`, `FlyStraight`, `Update`, MissileDodgerAgent.cs:210-230) rotates and moves the engine transform with trigonometric float arithmetic. The model has no step that moves the ship. The turn for one frame would be `_rotation × MaxTurnAngle × deltaTime`. The NaN guard at line 220 only exists for floats.
- `Start` (lines 39-42) and the `Acceleration` speed model belong to the engine-side movement code.
- Headings come from `eulerAngles.z`. They are given as reals in [0, 360) and are not derived from a rotation.
- Between two steps the engine moves both the ship and the missiles. The model's tracker is the missile as it was seen at the last search, so `CollectState` reports that snapshot and not the missile's current position. Unity's rule that a destroyed object compares equal to null is not modelled.
- `GameObject.Find` and `FindGameObjectsWithTag` (lines 45, 185, 205) are replaced by an injected academy object and an injected sequence of missiles.
- `AgentReset`'s loop that destroys the remaining missiles (lines 185-190), `RestartAutoFire` (line 193) and `TrailRenderer.Clear` (line 171) are calls into engine objects. Their effects are not modelled. The launcher settings are kept as a `LaunchOptions` value.
- `Monitor.Log` telemetry (lines 159-163) and `Monitor.verticalOffset` (MissileDodgerAcademy.cs:8) are output only.
- `AgentOnDone` (lines 196-197) is empty.
- The ML-Agents base classes are not modelled. This includes how the trainer clears `done` between episodes, and the collision code that raises `Losses`.
- Single-precision rounding is not modelled: times, distances and rewards are exact reals. The one float effect that is kept is that a stored squared distance of 0 gives the harshest penalty.
- `Numeric.TruncateToInt`: does not model the out-of-range result of casting a float beyond the `int` range.
- `Rewards.TrackedPenalty`: requires a positive tracking time. That always holds where the step uses it, because the time has just grown by 0.02. The NaN that a zero time would produce in single precision is not modelled.
