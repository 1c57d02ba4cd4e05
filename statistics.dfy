/** The bookkeeping of the driver loop as values: the tick-skip counter, the per-player
    statistics dictionary and the global step totals. */
module Statistics {

  // ---- Tick skip ----

  const TICK_SKIP: int := 8

  datatype Tick = Tick(process: bool, ticks: int)

  /** One packet: an inactive round is skipped without counting; an active one counts, and
      is processed when the count reaches `tickSkip`, which restarts the count at 0. */
  function TickStep(ticks: int, tickSkip: int, roundActive: bool): (t: Tick)
    ensures t.process <==> roundActive && ticks + 1 >= tickSkip
    ensures t.process ==> t.ticks == 0
    ensures !roundActive ==> t.ticks == ticks
    ensures 0 <= ticks < tickSkip ==> 0 <= t.ticks < tickSkip
  {
    if !roundActive then Tick(false, ticks)
    else if ticks + 1 < tickSkip then Tick(false, ticks + 1)
    else Tick(true, 0)
  }

  /** The number of processed packets in a run of packets, and the final count. */
  datatype Run = Run(processed: nat, ticks: int)

  function TickRun(ticks: int, tickSkip: int, packets: seq<bool>): Run
    decreases |packets|
  {
    if packets == [] then Run(0, ticks)
    else
      var t := TickStep(ticks, tickSkip, packets[0]);
      var rest := TickRun(t.ticks, tickSkip, packets[1..]);
      Run(rest.processed + (if t.process then 1 else 0), rest.ticks)
  }

  /** The number of active-round packets. */
  function Actives(packets: seq<bool>): (n: nat)
    ensures n <= |packets|
  {
    if packets == [] then 0 else (if packets[0] then 1 else 0) + Actives(packets[1..])
  }

  /** From any count below the skip, exactly every `TICK_SKIP`-th active packet is processed
      and inactive packets change nothing: after a run the processed packets and the count
      are the quotient and remainder of the counted active packets. */
  lemma {:induction false} TickRunCounts(ticks: int, packets: seq<bool>)
    requires 0 <= ticks < TICK_SKIP
    ensures TickRun(ticks, TICK_SKIP, packets).processed == (ticks + Actives(packets)) / TICK_SKIP
    ensures TickRun(ticks, TICK_SKIP, packets).ticks == (ticks + Actives(packets)) % TICK_SKIP
    decreases |packets|
  {
    if packets != [] {
      var t := TickStep(ticks, TICK_SKIP, packets[0]);
      TickRunCounts(t.ticks, packets[1..]);
      var n := Actives(packets[1..]);
      if packets[0] && ticks + 1 == TICK_SKIP {
        assert (ticks + 1 + n) / TICK_SKIP == 1 + n / TICK_SKIP;
        assert (ticks + 1 + n) % TICK_SKIP == n % TICK_SKIP;
      }
    }
  }

  /** Any number of inactive packets is skipped and leaves the count as it was. */
  lemma InactiveSkipped(ticks: int, tickSkip: int, packets: seq<bool>)
    requires forall i :: 0 <= i < |packets| ==> !packets[i]
    ensures TickRun(ticks, tickSkip, packets) == Run(0, ticks)
    decreases |packets|
  {
    if packets != [] {
      InactiveSkipped(ticks, tickSkip, packets[1..]);
    }
  }

  // ---- Per-player statistics ----

  /** The three entries of one player's statistics dictionary. */
  datatype PlayerStats = PlayerStats(currentReward: real, averageStepReward: real, totalReward: real)

  const ZeroStats := PlayerStats(0.0, 0.0, 0.0)

  /** One player's reward at one step, after `calculate_reward`. */
  datatype PlayerReward = PlayerReward(carId: int, reward: real)

  /** Recording a reward: an unseen car starts at all-zero statistics; its current reward
      becomes this reward and its total grows by it. */
  function Record(m: map<int, PlayerStats>, carId: int, reward: real): (r: map<int, PlayerStats>)
    ensures r.Keys == m.Keys + {carId}
    ensures r[carId].currentReward == reward
    ensures r[carId].totalReward == (if carId in m then m[carId].totalReward else 0.0) + reward
    ensures r[carId].averageStepReward == (if carId in m then m[carId].averageStepReward else 0.0)
    ensures forall id :: id in m && id != carId ==> r[id] == m[id]
  {
    var s := if carId in m then m[carId] else ZeroStats;
    m[carId := s.(currentReward := reward, totalReward := s.totalReward + reward)]
  }

  /** Recording the rewards of one step in order. */
  function RecordAll(m: map<int, PlayerStats>, rewards: seq<PlayerReward>): map<int, PlayerStats>
    decreases |rewards|
  {
    if rewards == [] then m
    else Record(RecordAll(m, rewards[..|rewards| - 1]), rewards[|rewards| - 1].carId, rewards[|rewards| - 1].reward)
  }

  /** Recording one more reward. */
  lemma RecordAllNext(m: map<int, PlayerStats>, rewards: seq<PlayerReward>, next: PlayerReward)
    ensures RecordAll(m, rewards + [next]) == Record(RecordAll(m, rewards), next.carId, next.reward)
  {
    assert (rewards + [next])[..|rewards|] == rewards;
  }

  /** `step_reward`: the sum of one step's rewards. */
  function SumRewards(rewards: seq<PlayerReward>): real
    decreases |rewards|
  {
    if rewards == [] then 0.0 else SumRewards(rewards[..|rewards| - 1]) + rewards[|rewards| - 1].reward
  }

  function RewardOf(rewards: seq<PlayerReward>, carId: int): real
    decreases |rewards|
  {
    if rewards == [] then 0.0
    else RewardOf(rewards[..|rewards| - 1], carId)
         + (if rewards[|rewards| - 1].carId == carId then rewards[|rewards| - 1].reward else 0.0)
  }

  /** The cars of one step. */
  function CarIds(rewards: seq<PlayerReward>): set<int>
    decreases |rewards|
  {
    if rewards == [] then {} else CarIds(rewards[..|rewards| - 1]) + {rewards[|rewards| - 1].carId}
  }

  /** After a step the known players are the earlier ones and those of the step. */
  lemma {:induction false} RecordAllKeys(m: map<int, PlayerStats>, rewards: seq<PlayerReward>)
    ensures RecordAll(m, rewards).Keys == m.Keys + CarIds(rewards)
    decreases |rewards|
  {
    if rewards != [] {
      RecordAllKeys(m, rewards[..|rewards| - 1]);
    }
  }

  /** After a step every known player's total grew by exactly its rewards of the step (all
      of them, should a car appear twice). */
  lemma {:induction false} RecordAllTotals(m: map<int, PlayerStats>, rewards: seq<PlayerReward>, id: int)
    requires id in m || id in CarIds(rewards)
    ensures id in RecordAll(m, rewards)
    ensures RecordAll(m, rewards)[id].totalReward
      == (if id in m then m[id].totalReward else 0.0) + RewardOf(rewards, id)
    decreases |rewards|
  {
    RecordAllKeys(m, rewards);
    if rewards != [] {
      var init := rewards[..|rewards| - 1];
      RecordAllKeys(m, init);
      if id in m || id in CarIds(init) {
        RecordAllTotals(m, init, id);
      } else {
        RewardOfAbsent(init, id);
      }
    }
  }

  lemma {:induction false} RewardOfAbsent(rewards: seq<PlayerReward>, id: int)
    requires id !in CarIds(rewards)
    ensures RewardOf(rewards, id) == 0.0
    decreases |rewards|
  {
    if rewards != [] {
      RewardOfAbsent(rewards[..|rewards| - 1], id);
    }
  }

  /** A player absent from the step keeps its whole entry, its average included. */
  lemma {:induction false} RecordAllAbsent(m: map<int, PlayerStats>, rewards: seq<PlayerReward>, id: int)
    requires id in m && id !in CarIds(rewards)
    ensures id in RecordAll(m, rewards) && RecordAll(m, rewards)[id] == m[id]
    decreases |rewards|
  {
    RecordAllKeys(m, rewards);
    if rewards != [] {
      RecordAllKeys(m, rewards[..|rewards| - 1]);
      RecordAllAbsent(m, rewards[..|rewards| - 1], id);
    }
  }

  /** Some known player of a non-empty dictionary. */
  ghost function AnyCar(m: map<int, PlayerStats>): (k: int)
    requires m != map[]
    ensures k in m
  {
    assert exists k :: k in m by {
      if forall k :: k !in m {
        assert false;
      }
    }
    var k :| k in m; k
  }

  /** The sum of all known players' totals. */
  ghost function SumTotals(m: map<int, PlayerStats>): real
    decreases |m|
  {
    if m == map[] then 0.0
    else
      var k := AnyCar(m);
      m[k].totalReward + SumTotals(m - {k})
  }

  /** The sum does not depend on which key is taken first. */
  lemma {:induction false} SumTotalsRemove(m: map<int, PlayerStats>, k: int)
    requires k in m
    ensures SumTotals(m) == m[k].totalReward + SumTotals(m - {k})
    decreases |m|
  {
    var j :| j in m && SumTotals(m) == m[j].totalReward + SumTotals(m - {j});
    if j != k {
      var mj := m - {j};
      var mk := m - {k};
      assert k in mj && j in mk;
      SumTotalsRemove(mj, k);
      SumTotalsRemove(mk, j);
      assert mj - {k} == mk - {j};
    }
  }

  /** Recording one reward adds it to the sum of the known totals. */
  lemma RecordAddsToSum(m: map<int, PlayerStats>, carId: int, reward: real)
    ensures SumTotals(Record(m, carId, reward)) == SumTotals(m) + reward
  {
    var r := Record(m, carId, reward);
    SumTotalsRemove(r, carId);
    if carId in m {
      SumTotalsRemove(m, carId);
      assert r - {carId} == m - {carId};
    } else {
      assert r - {carId} == m;
    }
  }

  /** Recording one step adds its step reward to the sum of the known totals, whether or
      not its cars were known and even when a car appears twice. */
  lemma {:induction false} RecordAllAddsStep(m: map<int, PlayerStats>, rewards: seq<PlayerReward>)
    ensures SumTotals(RecordAll(m, rewards)) == SumTotals(m) + SumRewards(rewards)
    decreases |rewards|
  {
    if rewards != [] {
      var init := rewards[..|rewards| - 1];
      var last := rewards[|rewards| - 1];
      RecordAllAddsStep(m, init);
      RecordAddsToSum(RecordAll(m, init), last.carId, last.reward);
    }
  }

  /** `sum(p['total_reward'] for p in player_rewards.values())`, in any order of the keys. */
  method SumOfTotals(m: map<int, PlayerStats>) returns (s: real)
    ensures s == SumTotals(m)
  {
    s := 0.0;
    var rest := m;
    while rest != map[]
      invariant s + SumTotals(rest) == SumTotals(m)
      decreases |rest|
    {
      assert exists k :: k in rest by {
        if forall k :: k !in rest {
          assert false;
        }
      }
      var k :| k in rest;
      SumTotalsRemove(rest, k);
      s := s + rest[k].totalReward;
      rest := rest - {k};
    }
  }

  /** Every player's average is its total divided by the global step count. */
  function Averaged(m: map<int, PlayerStats>, numSteps: int): (r: map<int, PlayerStats>)
    requires numSteps != 0
    ensures r.Keys == m.Keys
    ensures forall id :: id in m ==>
      r[id] == m[id].(averageStepReward := m[id].totalReward / numSteps as real)
  {
    map id | id in m :: m[id].(averageStepReward := m[id].totalReward / numSteps as real)
  }

  /** The loop that sets every player's `average_step_reward`. */
  method AverageAll(m: map<int, PlayerStats>, numSteps: int) returns (r: map<int, PlayerStats>)
    requires numSteps != 0
    ensures r == Averaged(m, numSteps)
  {
    r := m;
    var todo := m.Keys;
    while todo != {}
      invariant todo <= m.Keys && r.Keys == m.Keys
      invariant forall id :: id in m && id !in todo ==> r[id] == Averaged(m, numSteps)[id]
      invariant forall id :: id in todo ==> r[id] == m[id]
      decreases todo
    {
      assert exists id :: id in todo by {
        if forall id :: id !in todo {
          assert false;
        }
      }
      var id :| id in todo;
      r := r[id := r[id].(averageStepReward := r[id].totalReward / numSteps as real)];
      todo := todo - {id};
    }
    assert forall id :: id in r ==> r[id] == Averaged(m, numSteps)[id];
    assert r.Keys == Averaged(m, numSteps).Keys;
  }

  /** Averaging changes neither the totals nor, so, their sum. */
  lemma {:induction false} AveragedKeepsTotals(m: map<int, PlayerStats>, numSteps: int)
    requires numSteps != 0
    ensures SumTotals(Averaged(m, numSteps)) == SumTotals(m)
    decreases |m|
  {
    var a := Averaged(m, numSteps);
    if m != map[] {
      var k := AnyCar(m);
      SumTotalsRemove(m, k);
      SumTotalsRemove(a, k);
      assert a - {k} == Averaged(m - {k}, numSteps);
      AveragedKeepsTotals(m - {k}, numSteps);
    }
  }

  // ---- Global totals ----

  /** The global step totals of the driver. */
  datatype Totals = Totals(totalStepReward: real, numSteps: int, totalAverageStepReward: real)

  const ZeroTotals := Totals(0.0, 0, 0.0)

  /** One processed step: the step reward is added, the step count grows by one and the
      average is the total over the new count. */
  function Advance(t: Totals, stepReward: real): (r: Totals)
    requires t.numSteps >= 0
    ensures r.numSteps == t.numSteps + 1
    ensures r.totalStepReward == t.totalStepReward + stepReward
  {
    var total := t.totalStepReward + stepReward;
    var n := t.numSteps + 1;
    Totals(total, n, total / n as real)
  }

  /** After a step the average times the step count is the total. */
  lemma AdvanceAverages(t: Totals, stepReward: real)
    requires t.numSteps >= 0
    ensures var r := Advance(t, stepReward); r.totalAverageStepReward * (r.numSteps as real) == r.totalStepReward
  {
  }

  /** `n` steps that each earn `reward`. */
  function Repeat(t: Totals, reward: real, n: nat): (r: Totals)
    requires t.numSteps >= 0
    ensures r.numSteps >= 0
  {
    if n == 0 then t else Advance(Repeat(t, reward, n - 1), reward)
  }

  lemma OneMore(total: real, k: real, reward: real)
    requires total == (k - 1.0) * reward
    ensures total + reward == k * reward
  {
  }

  lemma CancelFactor(k: real, a: real, b: real)
    requires k != 0.0 && a * k == b * k
    ensures a == b
  {
    assert (a - b) * k == 0.0;
  }

  /** With a constant step reward R over N steps from the start, the step count is N and
      the total is N * R. */
  lemma {:induction false} ConstantRewardTotal(reward: real, n: nat)
    ensures Repeat(ZeroTotals, reward, n).numSteps == n
    ensures Repeat(ZeroTotals, reward, n).totalStepReward == n as real * reward
  {
    if n > 0 {
      ConstantRewardTotal(reward, n - 1);
      OneMore(Repeat(ZeroTotals, reward, n - 1).totalStepReward, n as real, reward);
    }
  }

  /** ... and once a step was taken, the average is R. */
  lemma ConstantRewardAverage(reward: real, n: nat)
    requires n > 0
    ensures Repeat(ZeroTotals, reward, n).totalAverageStepReward == reward
  {
    var prev := Repeat(ZeroTotals, reward, n - 1);
    ConstantRewardTotal(reward, n);
    AdvanceAverages(prev, reward);
    CancelFactor(n as real, Repeat(ZeroTotals, reward, n).totalAverageStepReward, reward);
  }
}
