/** The driver: the registry of weighted reward components, the reward of one car, the
    input-change handler, the tick-skip counter and the statistics of one processed step. */
module RewardTesterModel {
  import opened Common
  import opened PlayerDataModel
  import opened Aggregation
  import opened Statistics
  import EventRewards
  import FlipResetRewards
  import AerialDistanceRewards
  import SimpleRewards

  /** The configuration of the EventReward of the default registry. */
  const DefaultEventScales: map<string, real> := map[
    "teamGoal" := 50.0, "concede" := -50.0, "touch" := 0.0, "shot" := 0.0, "save" := 0.0,
    "demo" := 0.0, "demoed" := -0.0, "boostPickup" := 0.0, "assist" := 0.0]

  /** The default registry, in insertion order, with fresh per-car state. */
  const DefaultEntries: seq<Entry> := [
    Entry(Event(EventRewards.WeightsFrom(DefaultEventScales), map[]), 1.0),
    Entry(HoldInputScorer(SimpleRewards.DefaultHoldWeights), 1.0),
    Entry(External(FaceBall), 0.0),
    Entry(External(VelocityBallToGoal(false)), 0.0),
    Entry(External(TouchBall(0.5)), 0.0),
    Entry(External(Velocity(false)), 0.0),
    Entry(External(SaveBoost(0.5)), 0.0),
    Entry(External(VelocityPlayerToBall), 0.0),
    Entry(FlipReset(1.0, 0.01, FlipResetRewards.NoLatches), 0.0),
    Entry(External(Dribble), 0.0),
    Entry(External(LiuDistanceBallToGoal(false)), 0.0),
    Entry(External(LiuDistancePlayerToBall), 0.0),
    Entry(DistanceToBallScorer, 0.0),
    Entry(Aerial(10.0, 10.0, 0.0, AerialDistanceRewards.NoAccumulators), 0.0),
    Entry(PositiveRollScorer(300.0, 300.0), 0.0)]

  /** A car's record after the synchronisation at the top of `calculate_reward`: its inputs
      are those the input cache keeps for its car. */
  function Synced(view: PlayerView, records: map<int, ControlRecord>): PlayerView {
    view.(inputs := WithDefault(records, view.carId)[view.carId].inputs)
  }

  /** What the components see when the reward of `view` is computed. */
  function CarContext(view: PlayerView, records: map<int, ControlRecord>, game: GameState, norm: Norm,
                      external: (ExternalScorer, PlayerView, GameState) -> real): Context
  {
    Context(Synced(view, records), WithDefault(records, view.carId)[view.carId].inputs, game, norm, external)
  }

  /** `r` is `r0` with default records inserted for some cars: what reading the
      `defaultdict` leaves behind. */
  ghost predicate Grows(r0: map<int, ControlRecord>, r: map<int, ControlRecord>) {
    && (forall c :: c in r0 ==> c in r && r[c] == r0[c])
    && (forall c :: c in r && c !in r0 ==> r[c] == MissRecord)
  }

  /** What `calculate_reward` returns for one car, and the registry it leaves behind. */
  datatype CarResult = CarResult(reward: Result<real>, entries: seq<Entry>)

  /** The registry run on one car: every component advances as far as the loop got, and no
      weight changes. */
  function ScoreCar(es: seq<Entry>, ctx: Context): (c: CarResult)
    ensures |c.entries| == |es| && forall i :: 0 <= i < |es| ==> c.entries[i].weight == es[i].weight
  {
    var t := Aggregate(es, ctx);
    CarResult(t.sum, Advanced(es, t.states))
  }

  /** The state the loop over the cars of one step leaves behind: the step reward or the
      exception that ended the loop, how many cars had their inputs synchronised, the
      rewards in order, the registry and the input cache. */
  datatype Pass = Pass(failure: Option<Error>, sum: real, seen: nat, rewards: seq<PlayerReward>,
                       entries: seq<Entry>, records: map<int, ControlRecord>)
  {
    /** What the loop hands back: the exception, or the step reward. */
    function Returned(): Result<real> {
      if failure.Some? then Err(failure.value) else Ok(sum)
    }
  }

  /** One more car `v`, whose reward came out as `c`: its cache record now exists, and its
      reward is added and recorded unless it raised. */
  function Visit(p: Pass, v: PlayerView, c: CarResult): Pass
    requires p.failure.None?
  {
    var after := Pass(None, p.sum, p.seen + 1, p.rewards, c.entries, WithDefault(p.records, v.carId));
    if c.reward.Err? then after.(failure := Some(c.reward.error))
    else after.(sum := p.sum + c.reward.value,
                rewards := p.rewards + [PlayerReward(v.carId, c.reward.value)])
  }

  /** The loop over the cars `views` of one step, as a fold over its prefixes, for any
      per-car scoring `score`: each car is synchronised against the cache and scored on the
      registry its predecessors left behind; the first exception ends the loop. */
  function Players(score: (seq<Entry>, Context) -> CarResult, es: seq<Entry>,
                   records: map<int, ControlRecord>, views: seq<PlayerView>,
                   game: GameState, norm: Norm, external: (ExternalScorer, PlayerView, GameState) -> real): (p: Pass)
    decreases |views|
  {
    if views == [] then Pass(None, 0.0, 0, [], es, records)
    else
      var p := Players(score, es, records, views[..|views| - 1], game, norm, external);
      var v := views[|views| - 1];
      if p.failure.Some? then p
      else Visit(p, v, score(p.entries, CarContext(v, p.records, game, norm, external)))
  }

  /** The records of a sequence of cars. */
  ghost function Views(ps: seq<PlayerData>): (vs: seq<PlayerView>)
    reads ps
    ensures |vs| == |ps| && forall i :: 0 <= i < |ps| ==> vs[i] == ps[i].View()
  {
    seq(|ps|, i reads ps requires 0 <= i < |ps| => ps[i].View())
  }

  /** No car record appears twice in the decoded player list. */
  ghost predicate Distinct(ps: seq<PlayerData>) {
    forall i, j :: 0 <= i < j < |ps| ==> ps[i] != ps[j]
  }

  class RewardTester {
    const tickSkip: int
    /** The process-wide `global_player_data`. */
    const cache: InputCache
    /** `reward_functions`: the components with their state, and their weights. */
    var registry: seq<Entry>
    /** The per-car scoring of the registry: `Scores()` says it is `ScoreCar`. The method
        contracts name this opaque function value instead of `ScoreCar` itself, so that the
        fold `Players` over the cars of a step is reasoned about without unfolding the fold
        over the registry inside every car. */
    ghost const scoring: (seq<Entry>, Context) -> CarResult
    var ticks: int
    var totalStepReward: real
    var totalAverageStepReward: real
    var totalCumulativeReward: real
    var numSteps: int
    var playerRewards: map<int, PlayerStats>

    /** `scoring` is `ScoreCar`. */
    ghost predicate Scores() {
      forall es, ctx {:trigger ScoreCar(es, ctx)} :: scoring(es, ctx) == ScoreCar(es, ctx)
    }

    /** The step count is never negative and the tick counter stays below the skip. */
    ghost predicate Valid()
      reads this
    {
      numSteps >= 0 && 0 <= ticks < tickSkip
    }

    constructor (cache: InputCache)
      ensures this.cache == cache && tickSkip == TICK_SKIP && ticks == 0
      ensures totalStepReward == 0.0 && totalAverageStepReward == 0.0 && totalCumulativeReward == 0.0
      ensures numSteps == 0 && playerRewards == map[] && registry == DefaultEntries
      ensures Valid() && Scores()
    {
      tickSkip := TICK_SKIP;
      this.cache := cache;
      ticks := 0;
      totalStepReward, totalAverageStepReward, totalCumulativeReward := 0.0, 0.0, 0.0;
      numSteps := 0;
      playerRewards := map[];
      registry := DefaultEntries;
      scoring := ScoreCar;
    }

    /** One packet of the main loop: whether the packet is processed. */
    method OnPacket(roundActive: bool) returns (process: bool)
      requires Valid()
      modifies this`ticks
      ensures Valid()
      ensures Tick(process, ticks) == TickStep(old(ticks), tickSkip, roundActive)
    {
      if !roundActive {
        return false;
      }
      ticks := ticks + 1;
      if ticks < tickSkip {
        return false;
      }
      ticks := 0;
      return true;
    }

    /** `handle_input_change`: the record of the car becomes its id and the eight values of
        the event. */
    method HandleInputChange(playerIndex: int, controls: Controls)
      modifies cache
      ensures cache.records == old(cache.records)[playerIndex := ControlRecord(playerIndex, controls)]
    {
      var rec := cache.Read(playerIndex);
      cache.Store(playerIndex, rec.(carId := playerIndex, inputs := controls));
    }

    /** The first eight lines of `calculate_reward`: the record's inputs become the cached
        ones of its car, a cache miss inserting a fresh record. */
    method Synchronize(player: PlayerData) returns (rec: ControlRecord)
      modifies player
      modifies cache
      ensures cache.records == WithDefault(old(cache.records), player.carId)
      ensures rec == cache.records[player.carId]
      ensures player.View() == Synced(old(player.View()), old(cache.records))
    {
      rec := cache.Read(player.carId);
      player.SetSteerInput(rec.inputs.steer);
      player.SetThrottleInput(rec.inputs.throttle);
      player.SetPitchInput(rec.inputs.pitch);
      player.SetRollInput(rec.inputs.roll);
      player.SetJumpInput(rec.inputs.jump);
      player.SetBoostInput(rec.inputs.boost);
      player.SetHandbrakeInput(rec.inputs.handbrake);
      player.SetUseItemInput(rec.inputs.useItem);
    }

    /** The loop of `calculate_reward`: every registered component is called in order and
        the weighted scores are summed; the first exception ends the call. */
    method RunRegistry(ctx: Context) returns (r: Result<real>)
      modifies this`registry
      ensures var t := Aggregate(old(registry), ctx);
        r == t.sum && registry == Advanced(old(registry), t.states)
    {
      ghost var es := registry;
      var reward := 0.0;
      var i := 0;
      LoopStart(es, ctx);
      while i < |registry|
        invariant LoopState(es, ctx, i, reward, registry)
      {
        LoopStep(es, ctx, i, reward, registry);
        var e := registry[i];
        var sc := Score(e.scorer, ctx);
        if sc.Err? {
          return Err(sc.error);
        }
        registry := registry[i := Entry(sc.value.next, e.weight)];
        reward := reward + Weighted(sc.value.value, e.weight);
        i := i + 1;
      }
      LoopDone(es, ctx, reward, registry);
      r := Ok(reward);
    }

    /** `calculate_reward`: the record's inputs are replaced by the cached ones, then the
        registry is run on the record. */
    method CalculateReward(player: PlayerData, game: GameState, norm: Norm,
                           external: (ExternalScorer, PlayerView, GameState) -> real)
      returns (r: Result<real>)
      modifies player
      modifies cache, this`registry
      ensures cache.records == WithDefault(old(cache.records), player.carId)
      ensures player.View() == Synced(old(player.View()), old(cache.records))
      requires Scores()
      ensures CarResult(r, registry)
        == scoring(old(registry), CarContext(old(player.View()), old(cache.records), game, norm, external))
    {
      ghost var view := player.View();
      ghost var records := cache.records;
      var rec := Synchronize(player);
      var synced := player.View();
      assert Context(synced, rec.inputs, game, norm, external) == CarContext(view, records, game, norm, external);
      r := RunRegistry(Context(synced, rec.inputs, game, norm, external));
      assert CarResult(r, registry) == ScoreCar(old(registry), CarContext(view, records, game, norm, external));
    }

    /** One pass of the loop over the cars of a step: car `i` is synchronised and its reward
        computed and, unless it raised, recorded in its statistics, an unseen car starting
        from zero. `views`, `stepReward` and `rewards` say where in the loop the pass is: the
        cars before `i` are synchronised, the others as the step found them. */
    method ScoreOne(players: seq<PlayerData>, i: int, game: GameState, norm: Norm,
                    external: (ExternalScorer, PlayerView, GameState) -> real,
                    ghost es: seq<Entry>, ghost records: map<int, ControlRecord>, ghost views: seq<PlayerView>,
                    ghost stepReward: real, ghost rewards: seq<PlayerReward>)
      returns (reward: Result<real>)
      requires Scores() && Distinct(players) && |views| == |players| && 0 <= i < |players|
      requires forall j :: 0 <= j < |players| ==>
        players[j].View() == if j < i then Synced(views[j], records) else views[j]
      requires Players(scoring, es, records, views[..i], game, norm, external)
        == Pass(None, stepReward, i, rewards, registry, cache.records)
      modifies players[i], cache, this`registry, this`playerRewards
      ensures forall j :: 0 <= j < |players| ==>
        players[j].View() == if j <= i then Synced(views[j], records) else views[j]
      ensures reward.Ok? ==>
        && Players(scoring, es, records, views[..i + 1], game, norm, external)
           == Pass(None, stepReward + reward.value, i + 1, rewards + [PlayerReward(views[i].carId, reward.value)],
                   registry, cache.records)
        && playerRewards == Record(old(playerRewards), views[i].carId, reward.value)
      ensures reward.Err? ==>
        && Players(scoring, es, records, views, game, norm, external)
           == Pass(Some(reward.error), stepReward, i + 1, rewards, registry, cache.records)
        && playerRewards == old(playerRewards)
    {
      var player := players[i];
      var carId := player.carId;
      ghost var entries0, records0 := registry, cache.records;
      PlayersSynced(scoring, es, records, views, i, game, norm, external);
      reward := CalculateReward(player, game, norm, external);
      forall j | 0 <= j < |players| && j != i
        ensures players[j].View() == old(players[j].View())
      {
        assert players[j] != player;
      }
      assert cache.records == WithDefault(records0, carId);
      if reward.Err? {
        PlayersFail(scoring, es, records, views, i, game, norm, external, stepReward, rewards,
                    entries0, records0, CarResult(reward, registry));
        return;
      }
      PlayersOk(scoring, es, records, views, i, game, norm, external, stepReward, rewards,
                entries0, records0, CarResult(reward, registry));
      playerRewards := Record(playerRewards, carId, reward.value);
    }

    /** The loop over the cars of one step: each car's reward is computed, added to the
        step reward and recorded in its statistics; the first exception ends the loop. */
    method ScorePlayers(players: seq<PlayerData>, game: GameState, norm: Norm,
                        external: (ExternalScorer, PlayerView, GameState) -> real)
      returns (r: Result<real>)
      requires Scores() && Distinct(players)
      modifies players
      modifies cache, this`registry, this`playerRewards
      ensures var views := old(Views(players));
        var p := Players(scoring, old(registry), old(cache.records), views, game, norm, external);
        && r == p.Returned() && registry == p.entries && cache.records == p.records
        && playerRewards == RecordAll(old(playerRewards), p.rewards)
        && (forall i :: 0 <= i < |players| ==>
              players[i].View() == if i < p.seen then Synced(views[i], old(cache.records)) else views[i])
    {
      ghost var views := Views(players);
      ghost var es := registry;
      ghost var records := cache.records;
      ghost var stats := playerRewards;
      ghost var rewards: seq<PlayerReward> := [];
      var stepReward := 0.0;
      var i := 0;
      while i < |players|
        invariant 0 <= i <= |players| == |views|
        invariant forall j :: 0 <= j < |players| ==>
          players[j].View() == if j < i then Synced(views[j], records) else views[j]
        invariant Players(scoring, es, records, views[..i], game, norm, external)
          == Pass(None, stepReward, i, rewards, registry, cache.records)
        invariant playerRewards == RecordAll(stats, rewards)
      {
        var reward := ScoreOne(players, i, game, norm, external, es, records, views, stepReward, rewards);
        if reward.Err? {
          return reward;
        }
        RecordAllNext(stats, rewards, PlayerReward(views[i].carId, reward.value));
        stepReward := stepReward + reward.value;
        rewards := rewards + [PlayerReward(views[i].carId, reward.value)];
        i := i + 1;
      }
      assert views[..|players|] == views;
      r := Ok(stepReward);
    }

    /** The statistics after a loop over `count` cars that earned `stepReward`: the global
        totals advance, the cumulative reward is the sum of all known totals over the number
        of cars, an empty step raising ZeroDivisionError after the totals have advanced, and
        every known player's average becomes its total over the global step count. */
    method Conclude(stepReward: real, count: nat) returns (r: Result<real>)
      requires numSteps >= 0
      modifies this`totalStepReward, this`numSteps, this`totalAverageStepReward
      modifies this`totalCumulativeReward, this`playerRewards
      ensures var t := Advance(old(Totals(totalStepReward, numSteps, totalAverageStepReward)), stepReward);
        && totalStepReward == t.totalStepReward && numSteps == t.numSteps
        && totalAverageStepReward == t.totalAverageStepReward
        && (count == 0 ==>
             r == Err(ZeroDivisionError) && playerRewards == old(playerRewards)
             && totalCumulativeReward == old(totalCumulativeReward))
        && (count != 0 ==>
             r.Ok? && r.value == stepReward && playerRewards == Averaged(old(playerRewards), t.numSteps)
             && totalCumulativeReward == SumTotals(old(playerRewards)) / count as real)
    {
      totalStepReward := totalStepReward + stepReward;
      numSteps := numSteps + 1;
      totalAverageStepReward := totalStepReward / numSteps as real;
      if count == 0 {
        return Err(ZeroDivisionError);
      }
      var sum := SumOfTotals(playerRewards);
      totalCumulativeReward := sum / count as real;
      playerRewards := AverageAll(playerRewards, numSteps);
      r := Ok(stepReward);
    }

    /** One processed step of the main loop: the cars are scored, then the statistics are
        concluded; an exception from a car leaves the statistics as they were. */
    method ProcessStep(players: seq<PlayerData>, game: GameState, norm: Norm,
                       external: (ExternalScorer, PlayerView, GameState) -> real)
      returns (r: Result<real>)
      requires Valid() && Scores() && Distinct(players)
      modifies players
      modifies cache, this`registry, this`playerRewards
      modifies this`totalStepReward, this`numSteps, this`totalAverageStepReward, this`totalCumulativeReward
      ensures Valid()
      ensures var p := Players(scoring, old(registry), old(cache.records), old(Views(players)), game, norm, external);
        && registry == p.entries && cache.records == p.records
        && (forall i :: 0 <= i < |players| ==>
             players[i].View() == if i < p.seen then Synced(old(players[i].View()), old(cache.records)) else old(players[i].View()))
        && (p.failure.Some? ==>
             && r == p.Returned() && playerRewards == RecordAll(old(playerRewards), p.rewards)
             && totalStepReward == old(totalStepReward) && numSteps == old(numSteps)
             && totalAverageStepReward == old(totalAverageStepReward)
             && totalCumulativeReward == old(totalCumulativeReward))
        && (p.failure.None? ==>
             var t := Advance(Totals(old(totalStepReward), old(numSteps), old(totalAverageStepReward)), p.sum);
             var stats := RecordAll(old(playerRewards), p.rewards);
             && totalStepReward == t.totalStepReward && numSteps == t.numSteps
             && totalAverageStepReward == t.totalAverageStepReward
             && (|players| == 0 ==>
                  r == Err(ZeroDivisionError) && playerRewards == stats
                  && totalCumulativeReward == old(totalCumulativeReward))
             && (|players| != 0 ==>
                  r == Ok(p.sum) && playerRewards == Averaged(stats, t.numSteps)
                  && totalCumulativeReward == SumTotals(stats) / |players| as real))
    {
      ghost var views := Views(players);
      ghost var p := Players(scoring, registry, cache.records, views, game, norm, external);
      ghost var recorded := RecordAll(playerRewards, p.rewards);
      var stepReward := ScorePlayers(players, game, norm, external);
      assert stepReward == p.Returned() && playerRewards == recorded;
      if stepReward.Err? {
        return stepReward;
      }
      assert p.failure.None? && stepReward.value == p.sum;
      r := Conclude(stepReward.value, |players|);
    }
  }

  /** A car whose reward is computed: the loop goes on with its reward added and recorded. */
  lemma PlayersOk(score: (seq<Entry>, Context) -> CarResult, es: seq<Entry>,
                  records: map<int, ControlRecord>, views: seq<PlayerView>, i: int,
                  game: GameState, norm: Norm, external: (ExternalScorer, PlayerView, GameState) -> real,
                  stepReward: real, rewards: seq<PlayerReward>, entries: seq<Entry>,
                  cached: map<int, ControlRecord>, c: CarResult)
    requires 0 <= i < |views|
    requires Players(score, es, records, views[..i], game, norm, external) == Pass(None, stepReward, i, rewards, entries, cached)
    requires score(entries, CarContext(views[i], cached, game, norm, external)) == c && c.reward.Ok?
    ensures Players(score, es, records, views[..i + 1], game, norm, external)
      == Pass(None, stepReward + c.reward.value, i + 1, rewards + [PlayerReward(views[i].carId, c.reward.value)],
              c.entries, WithDefault(cached, views[i].carId))
  {
    assert views[..i + 1][..i] == views[..i];
  }

  /** A car whose reward raises: the loop ends there, its cache record and the registry
      as the failed call left them. */
  lemma PlayersFail(score: (seq<Entry>, Context) -> CarResult, es: seq<Entry>,
                    records: map<int, ControlRecord>, views: seq<PlayerView>, i: int,
                    game: GameState, norm: Norm, external: (ExternalScorer, PlayerView, GameState) -> real,
                    stepReward: real, rewards: seq<PlayerReward>, entries: seq<Entry>,
                    cached: map<int, ControlRecord>, c: CarResult)
    requires 0 <= i < |views|
    requires Players(score, es, records, views[..i], game, norm, external) == Pass(None, stepReward, i, rewards, entries, cached)
    requires score(entries, CarContext(views[i], cached, game, norm, external)) == c && c.reward.Err?
    ensures Players(score, es, records, views, game, norm, external)
      == Pass(Some(c.reward.error), stepReward, i + 1, rewards, c.entries, WithDefault(cached, views[i].carId))
  {
    assert views[..i + 1][..i] == views[..i];
    PlayersAfterError(score, es, records, views, i + 1, game, norm, external);
  }

  /** Car `i` of a step is synchronised against the inputs the cache held when the step
      began. */
  lemma PlayersSynced(score: (seq<Entry>, Context) -> CarResult, es: seq<Entry>,
                      records: map<int, ControlRecord>, views: seq<PlayerView>, i: int,
                      game: GameState, norm: Norm, external: (ExternalScorer, PlayerView, GameState) -> real)
    requires 0 <= i < |views|
    ensures var p := Players(score, es, records, views[..i], game, norm, external);
      Synced(views[i], p.records) == Synced(views[i], records)
  {
    PlayersCache(score, es, records, views[..i], game, norm, external);
  }

  /** A loop that does not fail reaches every car and records a reward for each; a failing
      one stops at the car after the last recorded reward. */
  lemma {:induction false} PlayersCounts(score: (seq<Entry>, Context) -> CarResult, es: seq<Entry>,
                                         records: map<int, ControlRecord>, views: seq<PlayerView>,
                                         game: GameState, norm: Norm,
                                         external: (ExternalScorer, PlayerView, GameState) -> real)
    ensures var p := Players(score, es, records, views, game, norm, external);
      && p.seen <= |views|
      && (p.failure.None? ==> p.seen == |views| == |p.rewards|)
      && (p.failure.Some? ==> 0 < p.seen && |p.rewards| == p.seen - 1)
    decreases |views|
  {
    if views != [] {
      PlayersCounts(score, es, records, views[..|views| - 1], game, norm, external);
    }
  }

  /** The cache of one step only gains default records. */
  lemma {:induction false} PlayersCache(score: (seq<Entry>, Context) -> CarResult, es: seq<Entry>,
                                        records: map<int, ControlRecord>, views: seq<PlayerView>,
                                        game: GameState, norm: Norm,
                                        external: (ExternalScorer, PlayerView, GameState) -> real)
    ensures Grows(records, Players(score, es, records, views, game, norm, external).records)
    decreases |views|
  {
    if views != [] {
      PlayersCache(score, es, records, views[..|views| - 1], game, norm, external);
    }
  }

  /** The cars of `views` before `n`. */
  function SeenIds(views: seq<PlayerView>, n: nat): set<int>
    requires n <= |views|
  {
    if n == 0 then {} else SeenIds(views, n - 1) + {views[n - 1].carId}
  }

  /** The cars before `n` are the same in every extension of a sequence. */
  lemma {:induction false} SeenIdsPrefix(views: seq<PlayerView>, more: seq<PlayerView>, n: nat)
    requires n <= |views| <= |more| && views == more[..|views|]
    ensures SeenIds(views, n) == SeenIds(more, n)
  {
    if n > 0 {
      SeenIdsPrefix(views, more, n - 1);
    }
  }

  /** The cache gains one record for each car reached and no other. */
  lemma {:induction false} PlayersCacheKeys(score: (seq<Entry>, Context) -> CarResult, es: seq<Entry>,
                                            records: map<int, ControlRecord>, views: seq<PlayerView>,
                                            game: GameState, norm: Norm,
                                            external: (ExternalScorer, PlayerView, GameState) -> real)
    ensures var p := Players(score, es, records, views, game, norm, external);
      p.seen <= |views| && p.records.Keys == records.Keys + SeenIds(views, p.seen)
    decreases |views|
  {
    PlayersCounts(score, es, records, views, game, norm, external);
    if views != [] {
      var init := views[..|views| - 1];
      PlayersCacheKeys(score, es, records, init, game, norm, external);
      PlayersCounts(score, es, records, init, game, norm, external);
      var p := Players(score, es, records, init, game, norm, external);
      SeenIdsPrefix(init, views, p.seen);
    }
  }

  /** The rewards of a step are those of its cars, in order. */
  lemma {:induction false} PlayersRewardOrder(score: (seq<Entry>, Context) -> CarResult, es: seq<Entry>,
                                              records: map<int, ControlRecord>, views: seq<PlayerView>,
                                              game: GameState, norm: Norm,
                                              external: (ExternalScorer, PlayerView, GameState) -> real)
    ensures var p := Players(score, es, records, views, game, norm, external);
      && |p.rewards| <= |views|
      && (forall i :: 0 <= i < |p.rewards| ==> p.rewards[i].carId == views[i].carId)
    decreases |views|
  {
    if views != [] {
      var init := views[..|views| - 1];
      PlayersRewardOrder(score, es, records, init, game, norm, external);
      PlayersCounts(score, es, records, init, game, norm, external);
      var p := Players(score, es, records, init, game, norm, external);
      assert forall i :: 0 <= i < |init| ==> init[i] == views[i];
    }
  }

  /** The step reward is the sum of the recorded rewards, also when the loop failed. */
  lemma {:induction false} PlayersSum(score: (seq<Entry>, Context) -> CarResult, es: seq<Entry>,
                                      records: map<int, ControlRecord>, views: seq<PlayerView>,
                                      game: GameState, norm: Norm,
                                      external: (ExternalScorer, PlayerView, GameState) -> real)
    ensures var p := Players(score, es, records, views, game, norm, external);
      p.sum == SumRewards(p.rewards)
    decreases |views|
  {
    if views != [] {
      var init := views[..|views| - 1];
      PlayersSum(score, es, records, init, game, norm, external);
      var p := Players(score, es, records, init, game, norm, external);
      var q := Players(score, es, records, views, game, norm, external);
      if p.failure.None? && q.failure.None? && q.rewards != p.rewards {
        assert q.rewards[..|q.rewards| - 1] == p.rewards;
      }
    }
  }

  /** After the first exception the remaining cars are not visited. */
  lemma {:induction false} PlayersAfterError(score: (seq<Entry>, Context) -> CarResult, es: seq<Entry>,
                                             records: map<int, ControlRecord>, views: seq<PlayerView>,
                                             k: int, game: GameState, norm: Norm,
                                             external: (ExternalScorer, PlayerView, GameState) -> real)
    requires 0 <= k <= |views| && Players(score, es, records, views[..k], game, norm, external).failure.Some?
    ensures Players(score, es, records, views, game, norm, external)
      == Players(score, es, records, views[..k], game, norm, external)
    decreases |views|
  {
    if k < |views| {
      var init := views[..|views| - 1];
      assert init[..k] == views[..k];
      PlayersAfterError(score, es, records, init, k, game, norm, external);
    } else {
      assert views[..k] == views;
    }
  }

  /** After the handler ran for a car, its next reward sees exactly the controls of the
      event. */
  lemma HandledInputsAreUsed(records: map<int, ControlRecord>, playerIndex: int, controls: Controls)
    ensures var after := records[playerIndex := ControlRecord(playerIndex, controls)];
      WithDefault(after, playerIndex) == after
      && after[playerIndex].inputs == controls && after[playerIndex].carId == playerIndex
  {
  }

  /** A car whose inputs never arrived scores with neutral inputs. */
  lemma UnseenCarHasNeutralInputs(records: map<int, ControlRecord>, carId: int)
    requires carId !in records
    ensures WithDefault(records, carId)[carId].inputs == NeutralControls
  {
  }

  /** The shape of the default registry: EventReward and HoldInputReward with the default
      weights at weight 1, every other component at weight 0. */
  lemma DefaultEntriesShape()
    ensures |DefaultEntries| == 15 && DefaultEntries[0].weight == 1.0
    ensures DefaultEntries[1] == Entry(HoldInputScorer(SimpleRewards.DefaultHoldWeights), 1.0)
    ensures forall i :: 2 <= i < |DefaultEntries| ==> DefaultEntries[i].weight == 0.0
  {
  }

  /** A registry of that shape in which no component fails earns the first component's
      score plus the sign of the cached roll input. */
  lemma EventsPlusRoll(es: seq<Entry>, ctx: Context)
    requires |es| >= 2 && es[0].weight == 1.0 && es[1] == Entry(HoldInputScorer(SimpleRewards.DefaultHoldWeights), 1.0)
    requires forall i :: 2 <= i < |es| ==> es[i].weight == 0.0
    requires NoErrorBefore(es, ctx, |es|)
    ensures var sum := Aggregate(es, ctx).sum;
      && sum.Ok?
      && sum.value == Score(es[0].scorer, ctx).value.value
                      + (if ctx.cached.roll > 0.0 then 1.0 else if ctx.cached.roll < 0.0 then -1.0 else 0.0)
  {
    AggregateIsWeightedSum(es, ctx);
    SimpleRewards.DefaultHoldIsRollSign(ctx.cached);
    var sign := if ctx.cached.roll > 0.0 then 1.0 else if ctx.cached.roll < 0.0 then -1.0 else 0.0;
    var rest := es[2..];
    assert forall i :: 0 <= i < |rest| ==> rest[i] == es[i + 2];
    AllZero(rest, ctx);
    assert es[1..][1..] == rest;
    assert Score(es[1].scorer, ctx) == Ok(Scored(sign, es[1].scorer));
    assert WeightedSum(es[1..], ctx) == Ok(Weighted(sign, 1.0) + 0.0);
  }

  /** With the default registry only EventReward and HoldInputReward carry weight, so when no
      component fails the reward of a car is its event reward plus the sign of its cached roll
      input. */
  lemma DefaultRewardIsEventsPlusRoll(ctx: Context)
    requires NoErrorBefore(DefaultEntries, ctx, |DefaultEntries|)
    ensures var sum := Aggregate(DefaultEntries, ctx).sum;
      && sum.Ok?
      && sum.value == Score(DefaultEntries[0].scorer, ctx).value.value
                      + (if ctx.cached.roll > 0.0 then 1.0 else if ctx.cached.roll < 0.0 then -1.0 else 0.0)
  {
    DefaultEntriesShape();
    EventsPlusRoll(DefaultEntries, ctx);
  }
}
