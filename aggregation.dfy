/** `calculate_reward` as values: each registry entry is a scorer with its per-car state and
    a weight, and the reward of a car is the weighted sum of the scores, taken in registry
    order with every scorer's state advanced on the way. */
module Aggregation {
  import opened Common
  import opened PlayerDataModel
  import EventRewards
  import FlipResetRewards
  import AerialDistanceRewards
  import SimpleRewards

  /** The scorers whose value is floating-point work on numpy vectors; the model takes their
      value as given. Their constructor arguments are kept. */
  datatype ExternalScorer =
    | FaceBall
    | VelocityBallToGoal(ownGoal: bool)
    | TouchBall(aerialWeight: real)
    | Velocity(isNegative: bool)
    | SaveBoost(exponent: real)
    | VelocityPlayerToBall
    | Dribble
    | LiuDistanceBallToGoal(ownGoal: bool)
    | LiuDistancePlayerToBall

  /** A reward component with its state. */
  datatype Scorer =
    | Event(weights: EventRewards.EventWeights, prevValues: map<int, EventRewards.EventValues>)
    | HoldInputScorer(holdWeights: map<string, real>)
    | FlipReset(flipResetR: real, holdFlipResetR: real, latches: FlipResetRewards.Latches)
    | Aerial(heightScale: real, distanceScale: real, angVelW: real, acc: AerialDistanceRewards.Accumulators)
    | DistanceToBallScorer
    | PositiveRollScorer(heightThreshold: real, distanceThreshold: real)
    | External(kind: ExternalScorer)

  /** What one call of `calculate_reward` hands to every component: the car's record after
      its inputs were synchronised, the inputs read from the input cache (which the input
      scorers read directly), the decoded game state, the vector norm, and the values of the
      numpy scorers. */
  datatype Context = Context(
    player: PlayerView, cached: Controls, game: GameState, norm: Norm,
    external: (ExternalScorer, PlayerView, GameState) -> real)

  /** A score with the scorer's state after the call. */
  datatype Scored = Scored(value: real, next: Scorer)

  /** The distance between the car and the ball. */
  function BallDistance(ctx: Context): real {
    ctx.norm(Sub(ctx.player.carData.position, ctx.game.ball.position))
  }

  /** `reward_function.get_reward(player_data, game_state, None)`. */
  function Score(s: Scorer, ctx: Context): (r: Result<Scored>)
    ensures r.Err? ==> s.Event? || s.HoldInputScorer? || s.Aerial?
    ensures r.Ok? && (s.HoldInputScorer? || s.DistanceToBallScorer? || s.PositiveRollScorer? || s.External?) ==>
      r.value.next == s
  {
    match s
    case Event(w, prev) =>
      (match EventRewards.Step(w, prev, ctx.player, ctx.game)
       case Err(e) => Err(e)
       case Ok(o) => Ok(Scored(o.reward, Event(w, o.prevValues))))
    case HoldInputScorer(weights) =>
      (match SimpleRewards.HoldInput(weights, ctx.cached)
       case Err(e) => Err(e)
       case Ok(v) => Ok(Scored(v, s)))
    case FlipReset(r, hold, l) =>
      var o := FlipResetRewards.Step(r, hold, l, ctx.player.carId,
                                     FlipResetRewards.ZoneOf(ctx.player.carData, ctx.game.ball, ctx.norm),
                                     ctx.player.hasJump, ctx.player.hasFlip, ctx.player.hasFlipped);
      Ok(Scored(o.reward, FlipReset(r, hold, o.latches)))
    case Aerial(h, d, w, a) =>
      (match AerialDistanceRewards.Step(h, d, w, a, ctx.player.carId, ctx.player.carData, ctx.game.ball,
                                        ctx.player.ballTouched, ctx.player.onGround, ctx.norm)
       case Err(e) => Err(e)
       case Ok(o) => Ok(Scored(o.rew, Aerial(h, d, w, o.acc))))
    case DistanceToBallScorer =>
      Ok(Scored(SimpleRewards.DistanceToBall(BallDistance(ctx)), s))
    case PositiveRollScorer(h, d) =>
      Ok(Scored(SimpleRewards.PositiveRoll(h, d, ctx.player.carData.position.z, BallDistance(ctx), ctx.cached.roll), s))
    case External(kind) =>
      Ok(Scored(ctx.external(kind, ctx.player, ctx.game), s))
  }

  /** `get_reward(...) * weight`. */
  function Weighted(score: real, weight: real): real {
    score * weight
  }

  /** One registry entry: a component and its weight. */
  datatype Entry = Entry(scorer: Scorer, weight: real)

  /** The running sum and the components after the calls so far. */
  datatype Total = Total(sum: Result<real>, states: seq<Scorer>)

  function Scorers(es: seq<Entry>): (r: seq<Scorer>)
    ensures |r| == |es| && forall i :: 0 <= i < |es| ==> r[i] == es[i].scorer
  {
    if es == [] then [] else [es[0].scorer] + Scorers(es[1..])
  }

  /** The loop of `calculate_reward` over the registry, as a fold over its prefixes: the sum
      starts at 0 and adds `score * weight` per component. The first exception ends the
      call; the components from that one on keep their state. */
  function Aggregate(es: seq<Entry>, ctx: Context): (t: Total)
    ensures |t.states| == |es|
    decreases |es|
  {
    if es == [] then Total(Ok(0.0), [])
    else
      var t := Aggregate(es[..|es| - 1], ctx);
      var e := es[|es| - 1];
      if t.sum.Err? then Total(t.sum, t.states + [e.scorer])
      else
        match Score(e.scorer, ctx)
        case Err(err) => Total(Err(err), t.states + [e.scorer])
        case Ok(sc) => Total(Ok(t.sum.value + Weighted(sc.value, e.weight)), t.states + [sc.next])
  }

  /** One more component of the loop, when the calls so far succeeded. */
  lemma AggregateNext(es: seq<Entry>, ctx: Context, i: int)
    requires 0 <= i < |es| && Aggregate(es[..i], ctx).sum.Ok?
    ensures var t := Aggregate(es[..i], ctx);
      var t' := Aggregate(es[..i + 1], ctx);
      match Score(es[i].scorer, ctx)
      case Err(err) => t'.sum == Err(err) && t'.states == t.states + [es[i].scorer]
      case Ok(sc) =>
        t'.sum.Ok? && t'.sum.value == t.sum.value + Weighted(sc.value, es[i].weight) && t'.states == t.states + [sc.next]
  {
    assert es[..i + 1][..i] == es[..i];
  }

  /** Once a component has failed, the rest of the registry is not called. */
  lemma {:induction false} AggregateAfterError(es: seq<Entry>, ctx: Context, n: int)
    requires 0 <= n <= |es| && Aggregate(es[..n], ctx).sum.Err?
    ensures Aggregate(es, ctx).sum == Aggregate(es[..n], ctx).sum
    ensures Aggregate(es, ctx).states == Aggregate(es[..n], ctx).states + Scorers(es[n..])
    decreases |es|
  {
    if n == |es| {
      assert es[..n] == es;
      assert es[n..] == [];
    } else {
      var init := es[..|es| - 1];
      assert init[..n] == es[..n];
      AggregateAfterError(init, ctx, n);
      var last := es[|es| - 1];
      var t := Aggregate(init, ctx);
      assert Aggregate(es, ctx) == Total(t.sum, t.states + [last.scorer]);
      assert es[n..] == init[n..] + [last];
      ScorersAppend(init[n..], last);
    }
  }

  /** The entries of `es` with their scorers replaced by `states`, the weights kept. */
  function Advanced(es: seq<Entry>, states: seq<Scorer>): (r: seq<Entry>)
    requires |states| == |es|
    ensures |r| == |es| && forall i :: 0 <= i < |es| ==> r[i] == Entry(states[i], es[i].weight)
  {
    seq(|es|, i requires 0 <= i < |es| => Entry(states[i], es[i].weight))
  }

  /** The loop of `calculate_reward` after `i` components: the sum so far, and the registry,
      advanced before `i` and untouched from `i` on. */
  ghost predicate LoopState(es: seq<Entry>, ctx: Context, i: int, reward: real, cur: seq<Entry>) {
    && 0 <= i <= |es| && |cur| == |es|
    && Aggregate(es[..i], ctx).sum.Ok? && Aggregate(es[..i], ctx).sum.value == reward
    && (forall j :: 0 <= j < i ==> cur[j] == Entry(Aggregate(es[..i], ctx).states[j], es[j].weight))
    && (forall j :: i <= j < |es| ==> cur[j] == es[j])
  }

  /** The loop state before the first component. */
  lemma LoopStart(es: seq<Entry>, ctx: Context)
    ensures LoopState(es, ctx, 0, 0.0, es)
  {
    assert es[..0] == [];
  }

  /** After the last component the loop state is the fold over the whole registry. */
  lemma LoopDone(es: seq<Entry>, ctx: Context, reward: real, cur: seq<Entry>)
    requires LoopState(es, ctx, |es|, reward, cur)
    ensures Aggregate(es, ctx).sum == Ok(reward)
    ensures cur == Advanced(es, Aggregate(es, ctx).states)
  {
    assert es[..|es|] == es;
  }

  /** One iteration of the loop: an exception ends the loop with the result of the whole
      fold, a score advances the loop state. */
  lemma LoopStep(es: seq<Entry>, ctx: Context, i: int, reward: real, cur: seq<Entry>)
    requires i < |es| && LoopState(es, ctx, i, reward, cur)
    ensures Score(es[i].scorer, ctx).Err? ==>
      Aggregate(es, ctx).sum == Err(Score(es[i].scorer, ctx).error)
      && cur == Advanced(es, Aggregate(es, ctx).states)
    ensures Score(es[i].scorer, ctx).Ok? ==>
      var sc := Score(es[i].scorer, ctx).value;
      LoopState(es, ctx, i + 1, reward + Weighted(sc.value, es[i].weight), cur[i := Entry(sc.next, es[i].weight)])
  {
    AggregateNext(es, ctx, i);
    if Score(es[i].scorer, ctx).Err? {
      AggregateAfterError(es, ctx, i + 1);
      var pre := Aggregate(es[..i + 1], ctx).states;
      assert pre == Aggregate(es[..i], ctx).states + [es[i].scorer];
      SplitStates(cur, pre, es, i + 1);
    }
  }

  /** A registry that agrees with `pre` on the scorers before `n`, and is `es` from `n` on,
      is `es` advanced to `pre` followed by the untouched scorers. */
  lemma SplitStates(cur: seq<Entry>, pre: seq<Scorer>, es: seq<Entry>, n: int)
    requires 0 <= n <= |es| && |pre| == n && |cur| == |es|
    requires forall j :: 0 <= j < n ==> cur[j] == Entry(pre[j], es[j].weight)
    requires forall j :: n <= j < |es| ==> cur[j] == es[j]
    ensures cur == Advanced(es, pre + Scorers(es[n..]))
  {
    var all := Advanced(es, pre + Scorers(es[n..]));
    forall j | 0 <= j < |es|
      ensures cur[j] == all[j]
    {
      if j >= n {
        assert es[n..][j - n] == es[j];
      }
    }
  }

  lemma ScorersAppend(es: seq<Entry>, e: Entry)
    ensures Scorers(es + [e]) == Scorers(es) + [e.scorer]
  {
    var a, b := Scorers(es + [e]), Scorers(es) + [e.scorer];
    assert |a| == |b|;
    forall i | 0 <= i < |a|
      ensures a[i] == b[i]
    {
      if i < |es| {
        assert (es + [e])[i] == es[i];
      }
    }
  }

  // ---- The reference definition ----

  /** The weighted sum of the scores as the source's documentation states it: the first
      component's weighted score plus the weighted sum of the rest, or the first exception. */
  function WeightedSum(es: seq<Entry>, ctx: Context): Result<real>
    decreases |es|
  {
    if es == [] then Ok(0.0)
    else
      match Score(es[0].scorer, ctx)
      case Err(err) => Err(err)
      case Ok(sc) =>
        match WeightedSum(es[1..], ctx)
        case Err(err) => Err(err)
        case Ok(rest) => Ok(Weighted(sc.value, es[0].weight) + rest)
  }

  /** Appending one entry to the reference sum. */
  lemma {:induction false} WeightedSumAppend(es: seq<Entry>, e: Entry, ctx: Context)
    ensures WeightedSum(es + [e], ctx)
      == match WeightedSum(es, ctx)
         case Err(err) => Err(err)
         case Ok(s) =>
           match Score(e.scorer, ctx)
           case Err(err) => Err(err)
           case Ok(sc) => Ok(s + Weighted(sc.value, e.weight))
    decreases |es|
  {
    if es == [] {
      assert [] + [e] == [e];
      assert [e][1..] == [];
    } else {
      assert (es + [e])[0] == es[0];
      assert (es + [e])[1..] == es[1..] + [e];
      WeightedSumAppend(es[1..], e, ctx);
    }
  }

  /** The loop computes the reference sum, the same exception included. */
  lemma {:induction false} AggregateIsWeightedSum(es: seq<Entry>, ctx: Context)
    ensures Aggregate(es, ctx).sum == WeightedSum(es, ctx)
    decreases |es|
  {
    if es != [] {
      var init := es[..|es| - 1];
      AggregateIsWeightedSum(init, ctx);
      assert init + [es[|es| - 1]] == es;
      WeightedSumAppend(init, es[|es| - 1], ctx);
    }
  }

  /** The prefix of the registry before the first exception. */
  predicate NoErrorBefore(es: seq<Entry>, ctx: Context, k: int)
    requires 0 <= k <= |es|
  {
    forall i :: 0 <= i < k ==> Score(es[i].scorer, ctx).Ok?
  }

  /** The reference sum fails exactly when some component fails. */
  lemma {:induction false} WeightedSumOkIff(es: seq<Entry>, ctx: Context)
    ensures WeightedSum(es, ctx).Ok? <==> NoErrorBefore(es, ctx, |es|)
    decreases |es|
  {
    if es != [] {
      WeightedSumOkIff(es[1..], ctx);
      assert forall i :: 1 <= i < |es| ==> es[1..][i - 1] == es[i];
    }
  }

  /** When the call succeeds every component was scored and its state advanced, whatever
      its weight: a weight-0 component adds nothing to the sum but still moves on. */
  lemma {:induction false} AggregateAdvancesAll(es: seq<Entry>, ctx: Context)
    requires Aggregate(es, ctx).sum.Ok?
    ensures NoErrorBefore(es, ctx, |es|)
    ensures forall i :: 0 <= i < |es| ==> Aggregate(es, ctx).states[i] == Score(es[i].scorer, ctx).value.next
    decreases |es|
  {
    if es != [] {
      var init := es[..|es| - 1];
      AggregateAdvancesAll(init, ctx);
      assert forall i :: 0 <= i < |init| ==> init[i] == es[i];
    }
  }

  /** An exception from component k ends the call with that exception: the components before
      it have advanced, it and the ones after it keep their state. */
  lemma {:induction false} AggregateStopsAtError(es: seq<Entry>, ctx: Context, k: int)
    requires 0 <= k < |es| && NoErrorBefore(es, ctx, k) && Score(es[k].scorer, ctx).Err?
    ensures Aggregate(es, ctx).sum == Err(Score(es[k].scorer, ctx).error)
    ensures forall i :: 0 <= i < k ==> Aggregate(es, ctx).states[i] == Score(es[i].scorer, ctx).value.next
    ensures forall i :: k <= i < |es| ==> Aggregate(es, ctx).states[i] == es[i].scorer
    decreases |es|
  {
    var init := es[..|es| - 1];
    assert forall i :: 0 <= i < |init| ==> init[i] == es[i];
    if k == |es| - 1 {
      AggregateAdvancesAllPrefix(init, ctx);
    } else {
      AggregateStopsAtError(init, ctx, k);
    }
  }

  /** A prefix in which no component fails sums successfully. */
  lemma {:induction false} AggregateAdvancesAllPrefix(es: seq<Entry>, ctx: Context)
    requires NoErrorBefore(es, ctx, |es|)
    ensures Aggregate(es, ctx).sum.Ok?
    ensures forall i :: 0 <= i < |es| ==> Aggregate(es, ctx).states[i] == Score(es[i].scorer, ctx).value.next
    decreases |es|
  {
    if es != [] {
      var init := es[..|es| - 1];
      assert forall i :: 0 <= i < |init| ==> init[i] == es[i];
      AggregateAdvancesAllPrefix(init, ctx);
    }
  }

  /** Dropping a weight-0 component that does not fail leaves the sum as it is. */
  lemma {:induction false} ZeroWeightAddsNothing(es: seq<Entry>, ctx: Context, k: int)
    requires 0 <= k < |es| && es[k].weight == 0.0 && Score(es[k].scorer, ctx).Ok?
    ensures Aggregate(es, ctx).sum == Aggregate(es[..k] + es[k + 1..], ctx).sum
    decreases |es|
  {
    AggregateIsWeightedSum(es, ctx);
    AggregateIsWeightedSum(es[..k] + es[k + 1..], ctx);
    WeightedSumDrop(es, ctx, k);
  }

  lemma {:induction false} WeightedSumDrop(es: seq<Entry>, ctx: Context, k: int)
    requires 0 <= k < |es| && es[k].weight == 0.0 && Score(es[k].scorer, ctx).Ok?
    ensures WeightedSum(es, ctx) == WeightedSum(es[..k] + es[k + 1..], ctx)
    decreases |es|
  {
    if k == 0 {
      assert es[..0] + es[1..] == es[1..];
    } else {
      var rest := es[1..];
      WeightedSumDrop(rest, ctx, k - 1);
      var dropped := es[..k] + es[k + 1..];
      assert dropped[0] == es[0];
      assert dropped[1..] == rest[..k - 1] + rest[k..];
    }
  }

  /** A registry in which only component k carries a non-zero weight earns exactly that
      component's weighted score, provided no component fails. */
  lemma {:induction false} SingleWeightedComponent(es: seq<Entry>, ctx: Context, k: int)
    requires 0 <= k < |es| && NoErrorBefore(es, ctx, |es|)
    requires forall i :: 0 <= i < |es| && i != k ==> es[i].weight == 0.0
    ensures Aggregate(es, ctx).sum == Ok(Weighted(Score(es[k].scorer, ctx).value.value, es[k].weight))
    decreases |es|
  {
    AggregateIsWeightedSum(es, ctx);
    OnlyOneTerm(es, ctx, k);
  }

  lemma {:induction false} OnlyOneTerm(es: seq<Entry>, ctx: Context, k: int)
    requires 0 <= k < |es| && NoErrorBefore(es, ctx, |es|)
    requires forall i :: 0 <= i < |es| && i != k ==> es[i].weight == 0.0
    ensures WeightedSum(es, ctx) == Ok(Weighted(Score(es[k].scorer, ctx).value.value, es[k].weight))
    decreases |es|
  {
    var rest := es[1..];
    assert forall i :: 0 <= i < |rest| ==> rest[i] == es[i + 1];
    if k == 0 {
      AllZero(rest, ctx);
    } else {
      OnlyOneTerm(rest, ctx, k - 1);
    }
  }

  lemma {:induction false} AllZero(es: seq<Entry>, ctx: Context)
    requires NoErrorBefore(es, ctx, |es|)
    requires forall i :: 0 <= i < |es| ==> es[i].weight == 0.0
    ensures WeightedSum(es, ctx) == Ok(0.0)
    decreases |es|
  {
    if es != [] {
      var rest := es[1..];
      assert forall i :: 0 <= i < |rest| ==> rest[i] == es[i + 1];
      AllZero(rest, ctx);
    }
  }
}
