# RewardTester reward core in Dafny

RewardTester watches a live car-soccer match and computes a reinforcement-learning reward
for every car on every eighth active tick. This project models the reward core of that tool
and proves properties about it. The core has four parts:

- **Reward components.** These are the stateful `EventReward`, `FlipResetReward` and
  `AerialDistanceReward`, and the stateless `HoldInputReward`, `PositiveRollReward` and
  `DistanceToBallReward`. Each stateful component keeps its memory in per-car maps keyed
  by `car_id`.
- **The weighted registry.** `calculate_reward` copies a car's cached controller inputs into
  its record. It then sums `get_reward(...) * weight` over every registered component.
- **The driver's bookkeeping.** This covers the tick-skip counter, the per-player statistics
  dictionary (current, average and total reward) and the global step totals.
- **`PlayerData` and `global_player_data`.** `PlayerData` is the per-car record with eight
  controller inputs. `global_player_data` is the process-wide cache of the latest inputs,
  and reading a missing key inserts a fresh record.

Each stateful source object is a Dafny `class` whose fields are the dictionaries the source
mutates. Every method is proved against a pure `Step` or fold function, and the lemmas
state what the source promises about those functions. Vector norms (`np.linalg.norm`) are
a function parameter `norm`. A property that needs non-negative lengths assumes only that
(`IsNorm`). The arena constants are `BALL_RADIUS = 92.75`, `CEILING_Z = 2044`,
`SIDE_WALL_X = 4096` and `BACK_WALL_Y = 5120`. `Utils/common_values.py` is not part of this
model.

Python exceptions that the core can raise are modelled as `Result` errors rather than
excluded by preconditions:

- `IndexError`: a `team_num` that does not index the score line.
- `KeyError`: a `HoldInputReward` weight that is missing.
- `TypeError`: an airborne car that has no anchor position (`None`).
- `ZeroDivisionError`: a processed step with no players (see below for when Python raises it).

Files:

| file | models |
|---|---|
| common.dfy | vectors, physics objects, arena constants, Python list indexing |
| player_data.dfy | `PlayerData` and `global_player_data` (Utils/player_data.py) |
| event_reward.dfy | `EventReward` |
| flip_reset_reward.dfy | `FlipResetReward` |
| aerial_distance_reward.dfy | `AerialDistanceReward` |
| simple_rewards.dfy | `HoldInputReward`, `PositiveRollReward`, `DistanceToBallReward` |
| aggregation.dfy | the registry loop of `calculate_reward` as a fold, and its reference sum |
| statistics.dfy | tick skip, per-player statistics and global totals as values |
| reward_tester.dfy | the `RewardTester` driver class: registry, input handler, one processed step |

Some behaviour is kept as the code has it:

- `FlipResetReward` pays its hold reward only while the car is OUTSIDE the reset zone and
  the latch is still set (reward_functions.py:189-194). It pays nothing while the car stays
  inside the zone.
- Statistics divide by the player count without a guard (RewardTester.py:190). A processed
  step with no players raises `ZeroDivisionError` when no player has statistics yet, that
  is on the first processed step ever: the sum of the empty dictionary is the Python
  integer 0. This happens after the global totals have advanced and before the averages
  are updated. Once the dictionary holds numpy totals, Python does not raise there (see
  "Left out").
- Each player's average is its total divided by the GLOBAL step count (RewardTester.py:193).
- `HoldInputReward` reads its weights with `weights[key]`, so a missing key raises
  `KeyError`, but only when that input is held. `EventReward` reads its configuration with
  `.get(key, 0.0)`.
- The driver has no statistics reset.

## Model

| member | source | states |
|---|---|---|
| Common.PyIndex | reward_functions.py:24-25 | Python list indexing succeeds exactly for `-len <= i < len`; negative indices count from the end; otherwise `IndexError` |
| PlayerDataModel.PlayerData.constructor | Utils/player_data.py:5-31 | a fresh record has `car_id` and `team_num` at -1, counters and boost at -1, flags false, and all eight inputs at 0.0/False |
| PlayerDataModel.PlayerData.SetSteerInput | Utils/player_data.py:33-39 | the steer getter afterwards returns the value assigned; every other field is unchanged |
| PlayerDataModel.PlayerData.SetThrottleInput | Utils/player_data.py:41-47 | the throttle getter afterwards returns the value assigned; every other field is unchanged |
| PlayerDataModel.PlayerData.SetPitchInput | Utils/player_data.py:49-55 | the pitch getter afterwards returns the value assigned; every other field is unchanged |
| PlayerDataModel.PlayerData.SetRollInput | Utils/player_data.py:57-63 | the roll getter afterwards returns the value assigned; every other field is unchanged |
| PlayerDataModel.PlayerData.SetJumpInput | Utils/player_data.py:65-71 | the jump getter afterwards returns the value assigned; every other field is unchanged |
| PlayerDataModel.PlayerData.SetBoostInput | Utils/player_data.py:73-79 | the boost getter afterwards returns the value assigned; every other field is unchanged |
| PlayerDataModel.PlayerData.SetHandbrakeInput | Utils/player_data.py:81-87 | the handbrake getter afterwards returns the value assigned; every other field is unchanged |
| PlayerDataModel.PlayerData.SetUseItemInput | Utils/player_data.py:89-95 | the use-item getter afterwards returns the value assigned; every other field is unchanged |
| PlayerDataModel.PlayerData.GetItem | Utils/player_data.py:97-98 | indexing a record yields the record itself, for any index |
| PlayerDataModel.PlayerData.SetItem | Utils/player_data.py:100-109 | `car_id` becomes the index and the eight inputs are copied from `value`, even when `value` is the record itself; its frame leaves every other field untouched |
| PlayerDataModel.WithDefault | Utils/player_data.py:112 | reading a key of the default dictionary leaves a present key's record as it was, inserts a fresh record for an absent key, and keeps every other entry |
| PlayerDataModel.InputCache.constructor | Utils/player_data.py:112 | the cache starts empty |
| PlayerDataModel.InputCache.Read | Utils/player_data.py:112 | a read returns the stored record, or inserts and returns a fresh one (car id -1, neutral inputs) |
| PlayerDataModel.InputCache.Store | RewardTester.py:131-139 | writing a car's record replaces that entry only |
| EventRewards.EventReward.constructor | reward_functions.py:9-21 | every sub-weight is read from its configuration key, with 0.0 for a missing key; no car has a baseline yet |
| EventRewards.EventReward.GetReward | reward_functions.py:23-66 | the reward and the new baselines are those of `Step`; a score line that the team cannot index raises `IndexError` and leaves the baselines alone |
| EventRewards.Observe | reward_functions.py:24-25 | reading the own and the opposing goal counter succeeds exactly when both `team_num` and `1 - team_num` index the score line; otherwise `IndexError` |
| EventRewards.EdgeScore | reward_functions.py:43-52 | an observation equal to the previous one pays 0 |
| EventRewards.Step | reward_functions.py:23-66 | the call fails exactly when observing fails, and then with `IndexError`; a success stores the current observation as the car's baseline; a car's first call pays 0 |
| EventRewards.ObserveTwoTeams | reward_functions.py:24-25 | with two score entries, observing succeeds exactly for teams 0 and 1 and reads the own and the opposing entry |
| EventRewards.FirstCallIsBaseline | reward_functions.py:28-41 | the first call for a car returns 0 and stores the current values as its baseline |
| EventRewards.StepRecordsBaseline | reward_functions.py:54-64 | after a call the car's baseline equals the current observation, and the other cars' baselines are unchanged |
| EventRewards.NoRiseNoReward | reward_functions.py:44-52 | values that stayed the same or went down pay nothing, because every test is a strict rise or a false-to-true edge |
| EventRewards.UnchangedValuesNoReward | reward_functions.py:42-64 | if nothing tracked changed since the car's previous call, the reward is 0 and the baselines are unchanged |
| EventRewards.TeamGoalOnly | reward_functions.py:11 | when only the own team's goals rose, the reward is exactly the `teamGoal` weight, and 0 when that key is not configured |
| EventRewards.TouchPaysOnRisingEdge | reward_functions.py:46 | a touch pays its weight only on false-to-true; a held or released touch pays 0 |
| EventRewards.DemoedPaysOnRisingEdge | reward_functions.py:50 | being demolished pays its weight only on false-to-true |
| FlipResetRewards.FlipResetReward.constructor | reward_functions.py:150-155 | keeps both reward amounts; all three per-car maps start empty |
| FlipResetRewards.FlipResetReward.Reset | reward_functions.py:157-160 | empties `prevhas_jump`, `prevhas_flip` and `has_reset` |
| FlipResetRewards.FlipResetReward.GetReward | reward_functions.py:162-198 | the reward and the three maps afterwards are those of `Step` on the zone tests computed from the car and ball physics |
| FlipResetRewards.ZoneOf | reward_functions.py:172-179 | the height test holds exactly below 200 or above 2044 - 300; the wall test exactly beyond ±(4096 - 700) in x or ±(5120 - 700) in y; wheels-under needs a non-zero direction to the ball |
| FlipResetRewards.Step | reward_functions.py:162-198 | the reward is 0, `flip_reset_r` or `hold_flip_reset_r`, and the previous-flag maps afterwards hold this call's `has_jump` and `has_flip` |
| FlipResetRewards.InZoneAward | reward_functions.py:184-192 | in the zone: pays `flip_reset_r` exactly when there is a rising jump/flip edge and the latch is unset after the clear, which then sets it; otherwise pays 0 and the latch keeps its cleared value |
| FlipResetRewards.OutsideZoneHold | reward_functions.py:186-194 | outside the zone: pays `hold_flip_reset_r` exactly when the latch survives the clear; a wall-zone position or a flip clears it, so those calls pay 0 |
| FlipResetRewards.StepRecordsFlags | reward_functions.py:196-197 | after every call `prevhas_jump`/`prevhas_flip` equal the current flags, and other cars' entries are unchanged |
| FlipResetRewards.AwardedOnce | reward_functions.py:189-192 | repeating an awarded call in the zone without a new edge pays nothing more |
| FlipResetRewards.ReentryRetriggers | reward_functions.py:184-192 | after a flip clears the latch outside the zone, re-entering with a rising jump edge pays `flip_reset_r` again |
| AerialDistanceRewards.AerialDistanceReward.constructor | reward_functions.py:231-239 | keeps the three scales; all five per-car maps start empty |
| AerialDistanceRewards.AerialDistanceReward.Accumulate | reward_functions.py:262-275 | the airborne no-touch branch, including its cash-out test, matches `Airborne`; a missing anchor raises `TypeError` |
| AerialDistanceRewards.AerialDistanceReward.GetReward | reward_functions.py:241-277 | the reward and the maps afterwards are those of `Step`: three branches, then division by 2·5120 |
| AerialDistanceRewards.Airborne | reward_functions.py:262-275 | the airborne no-touch branch raises `TypeError` exactly when an anchor is missing; without a touch it pays 0 and keeps both anchors |
| AerialDistanceRewards.Branches | reward_functions.py:246-275 | a failure is a `TypeError` of an airborne car without a touch; a non-zero payment needs an airborne touch |
| AerialDistanceRewards.Step | reward_functions.py:241-277 | the same after the division by 2·5120: only an airborne car without a touch can fail, only an airborne touch pays |
| AerialDistanceRewards.GroundedResets | reward_functions.py:246-255 | below height 250 the three accumulators become 0, the anchors exist afterwards, and the reward is 0 |
| AerialDistanceRewards.AirborneTouchBonus | reward_functions.py:257-260 | an airborne touch returns `height_scale * max(car_z + ball_z - 500, 0) / 10240` and moves both anchors to the current positions |
| AerialDistanceRewards.AirborneAccumulates | reward_functions.py:262-266 | with non-negative norms and `ang_vel_w`, the airborne no-touch branch only grows the accumulators, pays 0, and fails exactly when an anchor is missing |
| AerialDistanceRewards.AccumulatorsNeverPaid | reward_functions.py:257-275 | the cash-out block is unreachable: two states that differ only in their accumulators always pay the same |
| AerialDistanceRewards.OnlyTouchesPay | reward_functions.py:246-277 | a non-zero reward comes only from an airborne touch |
| SimpleRewards.HoldInputIsSumOfHeld | reward_functions.py:300-343 | the reward is the sum of the weights of exactly the held inputs (an axis strictly positive or negative, a button pressed), or `KeyError` for the first held input that has no weight |
| SimpleRewards.HoldInputFailsIffMissing | reward_functions.py:300-343 | the reward fails exactly when some held input has no configured weight |
| SimpleRewards.NeutralHoldsNothing | reward_functions.py:300-343 | inputs at exactly 0 or False add nothing, even with an empty configuration |
| SimpleRewards.HoldInput | reward_functions.py:300-343 | a failure is always the `KeyError` of a key the configuration lacks; neutral inputs give exactly 0 |
| SimpleRewards.DefaultHoldIsRollSign | RewardTester.py:67-80 | under the driver's configuration the hold reward is the sign of the roll input |
| SimpleRewards.PositiveRollIndicator | reward_functions.py:288-294 | the reward is 1.0 exactly when height, distance and positive-roll thresholds all hold, and 0.0 otherwise |
| SimpleRewards.PositiveRoll | reward_functions.py:288-294 | the reward is 0.0 or 1.0, and 0.0 whenever the roll is not positive |
| SimpleRewards.DistanceToBall | reward_functions.py:122-124 | the reward is never negative, and at most 1 for a non-negative distance |
| SimpleRewards.DistanceToBallShape | reward_functions.py:122-124 | for distance ≥ 0 the reward is in [0,1]: 1 at distance 0, `1 - d/(2·radius)` up to twice the radius, 0 beyond |
| SimpleRewards.DistanceToBallNonIncreasing | reward_functions.py:122-124 | moving farther from the ball never raises the reward |
| Aggregation.AggregateIsWeightedSum | RewardTester.py:120-123 | the registry loop computes the sum of `score * weight` over all components, or the first exception |
| Aggregation.AggregateAdvancesAll | RewardTester.py:120-123 | when the call succeeds, every component was called and its state advanced, whatever its weight |
| Aggregation.AggregateStopsAtError | RewardTester.py:120-123 | an exception from component k ends the call: components before k advanced, the rest keep their state |
| Aggregation.ZeroWeightAddsNothing | RewardTester.py:120-123 | a weight-0 component that does not fail leaves the sum unchanged |
| Aggregation.SingleWeightedComponent | RewardTester.py:120-123 | when only one component has a non-zero weight, the reward is exactly its weighted score |
| Aggregation.Score | RewardTester.py:122 | only `EventReward`, `HoldInputReward` and `AerialDistanceReward` can raise; a stateless component keeps its state after a successful call |
| Aggregation.Aggregate | RewardTester.py:120-123 | the fold over the registry yields one state per registered component |
| Aggregation.WeightedSumOkIff | RewardTester.py:120-123 | the reference weighted sum fails exactly when some component fails |
| RewardTesterModel.RewardTester.constructor | RewardTester.py:34-107 | tick skip 8, counters and statistics at zero, the default registry of fifteen weighted components |
| RewardTesterModel.RewardTester.OnPacket | RewardTester.py:154-161 | an inactive packet is skipped without counting; an active one counts and is processed when the count reaches the skip, which resets it to 0 |
| RewardTesterModel.RewardTester.HandleInputChange | RewardTester.py:127-139 | the cache entry for the player index becomes that index plus exactly the eight values of the event |
| RewardTesterModel.RewardTester.Synchronize | RewardTester.py:111-118 | the record's eight inputs become the cached ones of its car (a miss inserting a fresh record), and nothing else in the record changes |
| RewardTesterModel.RewardTester.RunRegistry | RewardTester.py:120-123 | the loop's result and the advanced registry are those of the fold `Aggregate` |
| RewardTesterModel.RewardTester.CalculateReward | RewardTester.py:109-123 | synchronise the inputs, then score the synchronised record on the registry |
| RewardTesterModel.RewardTester.ScoreOne | RewardTester.py:169-178 | one car: its reward is computed and added; its statistics record it, an unseen car starting from zero |
| RewardTesterModel.RewardTester.ScorePlayers | RewardTester.py:167-178 | the loop over the cars gives the step reward of the fold `Players`, and the statistics have every reward recorded in order |
| RewardTesterModel.RewardTester.Conclude | RewardTester.py:187-193 | `num_steps` grows by 1 and the running average is total/steps; the cumulative reward is the sum of all known totals over the player count (no players raises `ZeroDivisionError`); every known player's average is its total over the global step count |
| RewardTesterModel.RewardTester.ProcessStep | RewardTester.py:163-193 | one processed step: score every car, then conclude the statistics; an exception from a car leaves the global totals unchanged |
| RewardTesterModel.PlayersSum | RewardTester.py:167-172 | the step reward is the sum of that step's per-player rewards |
| RewardTesterModel.PlayersRewardOrder | RewardTester.py:169-172 | the recorded rewards belong to the step's cars, in order |
| RewardTesterModel.PlayersCounts | RewardTester.py:169-172 | a loop with no exception reaches every car and records one reward per car; a failing loop stops at the failing car |
| RewardTesterModel.PlayersCacheKeys | RewardTester.py:111-118 | a step adds a cache record for each car it reaches and for no other |
| RewardTesterModel.PlayersCache | RewardTester.py:111-118 | a step only adds fresh records to the cache and never changes an existing one |
| RewardTesterModel.HandledInputsAreUsed | RewardTester.py:127-139 | after the handler runs for a car, that car's next reward sees exactly the event's controls |
| RewardTesterModel.UnseenCarHasNeutralInputs | RewardTester.py:111-118 | a car whose inputs never arrived is scored with neutral inputs |
| RewardTesterModel.DefaultRewardIsEventsPlusRoll | RewardTester.py:54-123 | with the default registry and no exception, a car's reward is its event reward plus the sign of its cached roll input |
| Statistics.TickRunCounts | RewardTester.py:154-161 | over any run of packets, the processed count and the final counter are the quotient and remainder of the active packets by 8 |
| Statistics.InactiveSkipped | RewardTester.py:154-156 | any number of inactive packets is skipped and leaves the counter as it was |
| Statistics.TickStep | RewardTester.py:154-161 | a packet is processed exactly when the round is active and the incremented counter reaches the skip, which resets the counter; an inactive packet leaves it; the counter stays in [0, skip) |
| Statistics.Record | RewardTester.py:174-178 | a car's current reward becomes this reward and its total grows by it; an unseen car starts at zero; other cars are unchanged |
| Statistics.RecordAllKeys | RewardTester.py:174-178 | recording a step keeps every known player and adds exactly the cars of that step |
| Statistics.RecordAllTotals | RewardTester.py:174-178 | after a step every known player's total grew by exactly its rewards in that step |
| Statistics.RecordAllAbsent | RewardTester.py:174-178 | a player absent from the step keeps its whole entry |
| Statistics.RecordAllAddsStep | RewardTester.py:178 | recording a step adds the step reward to the sum of all known totals |
| Statistics.SumOfTotals | RewardTester.py:190 | the loop returns the sum of every known player's total, in any key order |
| Statistics.AverageAll | RewardTester.py:192-193 | every known player's average becomes its total over the global step count, present this step or not |
| Statistics.Averaged | RewardTester.py:192-193 | the averaged statistics have the same players, each with its average set to its total over the global step count and nothing else changed |
| Statistics.AveragedKeepsTotals | RewardTester.py:192-193 | updating the averages changes no total |
| Statistics.AdvanceAverages | RewardTester.py:187-189 | after a step, running average × step count = total step reward |
| Statistics.Advance | RewardTester.py:187-189 | a processed step adds one to the step count and the step reward to the total |
| Statistics.ConstantRewardTotal | RewardTester.py:187-188 | N steps of constant reward R from the start give step count N and total N·R |
| Statistics.ConstantRewardAverage | RewardTester.py:189 | after N ≥ 1 steps of constant reward R, the running average is R |

## Left out

- The numpy-only scorers `VelocityReward`, `SaveBoostReward`, `VelocityBallToGoalReward`, `VelocityPlayerToBallReward`, `FaceBallReward`, `TouchBallReward`, `DribbleReward`, `LiuDistanceBallToGoalReward` and `LiuDistancePlayerToBallReward` are floating-point vector work. The registry keeps them with their constructor arguments, and their values are an opaque function parameter `external`.
- `np.linalg.norm` and `PhysicsObject.up()` are inputs: the norm is a function parameter, and the car's up vector is a field of the physics record. NaN is modelled only where it decides a branch: a zero-length direction to the ball makes the wheels-under test false.
- Floating-point rounding and Python's int/float distinction are not modelled: all quantities are `real`.
- `GameState.decode`, `reset_game_state`, `wait_game_tick_packet`, the SocketRelay thread, `BaseScript` and the endless `while True` loop are I/O and concurrency. One packet is the method `OnPacket`, and one processed step is `ProcessStep`.
- RewardTesterModel.RewardTester.Conclude: a step with no players is always modelled as `ZeroDivisionError`. Python raises it only while no player has statistics. Later, the totals are numpy floats, and numpy's division by zero yields `inf` or `nan` with a warning instead of raising; lines 192-193 then still update every average. Non-raising floating-point division is not modelled.
- All printing and the print-selection settings (RewardTester.py:48-51, 163, 180-199) are left out.
- The cache writes in `handle_input_change` are modelled as one sequential map update. Their atomicity across threads is not modelled.
- The cache keeps only the car id and the eight inputs of each `PlayerData`. Its other fields keep their fresh values and are never read.
- AerialDistanceRewards.AerialDistanceReward.GetReward: on a `TypeError`, the model leaves the accumulators as they were. Python may already have inserted default entries before raising. The two are the same under the default-dictionary reading, and the exception ends the driver anyway.
- `Utils/common_values.py`, `Utils/game_state.py` and `Utils/physics_object.py` are not part of this model. Their constants and records are stated in common.dfy.
