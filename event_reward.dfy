/** EventReward: pays a configured weight for each match event that happened since the
    previous call for the same car, detected by comparing with the values seen then. */
module EventRewards {
  import opened Common
  import opened PlayerDataModel

  /** The nine sub-weights after reading the configuration. */
  datatype EventWeights = EventWeights(
    teamGoals: real, opponentGoals: real, touch: real, shots: real, saves: real,
    demos: real, demoed: real, boostFraction: real, assists: real)

  /** `scales.get(key, 0.0)` */
  function Get0(scales: map<string, real>, key: string): real {
    if key in scales then scales[key] else 0.0
  }

  /** The weights the constructor reads, each under its configuration key. */
  function WeightsFrom(scales: map<string, real>): EventWeights {
    EventWeights(
      Get0(scales, "teamGoal"), Get0(scales, "concede"), Get0(scales, "touch"),
      Get0(scales, "shot"), Get0(scales, "save"), Get0(scales, "demo"),
      Get0(scales, "demoed"), Get0(scales, "boostPickup"), Get0(scales, "assist"))
  }

  /** The tracked values of one car at one call. */
  datatype EventValues = EventValues(
    teamGoals: int, opponentGoals: int, touch: bool, shots: int, saves: int,
    demos: int, demoed: bool, boostFraction: real, assists: int)

  /** Reads the tracked values; the two goal counters index the score line by the car's
      team and by `1 - team`, which raises IndexError unless both are valid indices. */
  function Observe(p: PlayerView, g: GameState): (r: Result<EventValues>)
    ensures r.Ok? <==> -|g.scoreLine| <= p.teamNum < |g.scoreLine| && -|g.scoreLine| <= 1 - p.teamNum < |g.scoreLine|
    ensures r.Err? ==> r.error == IndexError
  {
    match PyIndex(g.scoreLine, p.teamNum)
    case Err(e) => Err(e)
    case Ok(team) =>
      match PyIndex(g.scoreLine, 1 - p.teamNum)
      case Err(e) => Err(e)
      case Ok(opponent) =>
        Ok(EventValues(team, opponent, p.ballTouched, p.matchShots, p.matchSaves,
                       p.matchDemolishes, p.isDemoed, p.boostAmount, p.matchAssists))
  }

  /** `weight * condition`, a bool counting as 0 or 1. */
  function Pay(weight: real, condition: bool): real {
    if condition then weight else 0.0
  }

  /** The reward between two consecutive observations of one car: every counter pays on a
      strict increase, `touch` and `demoed` pay on a change from false to true. */
  function EdgeScore(w: EventWeights, prev: EventValues, cur: EventValues): (r: real)
    ensures cur == prev ==> r == 0.0
  {
    Pay(w.teamGoals, cur.teamGoals > prev.teamGoals)
    + Pay(w.opponentGoals, cur.opponentGoals > prev.opponentGoals)
    + Pay(w.touch, cur.touch && !prev.touch)
    + Pay(w.shots, cur.shots > prev.shots)
    + Pay(w.saves, cur.saves > prev.saves)
    + Pay(w.demos, cur.demos > prev.demos)
    + Pay(w.demoed, cur.demoed && !prev.demoed)
    + Pay(w.boostFraction, cur.boostFraction > prev.boostFraction)
    + Pay(w.assists, cur.assists > prev.assists)
  }

  datatype EventOutcome = EventOutcome(reward: real, prevValues: map<int, EventValues>)

  /** One call of `get_reward`: the first call for a car only records a baseline; later
      calls pay the edges and record the new values. */
  function Step(w: EventWeights, prevValues: map<int, EventValues>, p: PlayerView, g: GameState): (r: Result<EventOutcome>)
    ensures r.Ok? <==> Observe(p, g).Ok?
    ensures r.Err? ==> r.error == IndexError
    ensures r.Ok? ==> r.value.prevValues == prevValues[p.carId := Observe(p, g).value]
    ensures r.Ok? && p.carId !in prevValues ==> r.value.reward == 0.0
  {
    match Observe(p, g)
    case Err(e) => Err(e)
    case Ok(cur) =>
      var reward := if p.carId in prevValues then EdgeScore(w, prevValues[p.carId], cur) else 0.0;
      Ok(EventOutcome(reward, prevValues[p.carId := cur]))
  }

  class EventReward {
    const weights: EventWeights
    var prevValues: map<int, EventValues>

    constructor (weightScales: map<string, real>)
      ensures weights == WeightsFrom(weightScales) && prevValues == map[]
    {
      weights := WeightsFrom(weightScales);
      prevValues := map[];
    }

    method GetReward(p: PlayerView, g: GameState) returns (r: Result<real>)
      modifies this
      ensures var s := Step(weights, old(prevValues), p, g);
        && (s.Ok? ==> r == Ok(s.value.reward) && prevValues == s.value.prevValues)
        && (s.Err? ==> r == Err(s.error) && prevValues == old(prevValues))
    {
      var obs := Observe(p, g);
      if obs.Err? {
        return Err(obs.error);
      }
      var cur := obs.value;
      var reward := 0.0;
      if p.carId !in prevValues {
        prevValues := prevValues[p.carId := cur];
      } else {
        var prev := prevValues[p.carId];
        reward := reward + Pay(weights.teamGoals, cur.teamGoals > prev.teamGoals);
        reward := reward + Pay(weights.opponentGoals, cur.opponentGoals > prev.opponentGoals);
        reward := reward + Pay(weights.touch, cur.touch && !prev.touch);
        reward := reward + Pay(weights.shots, cur.shots > prev.shots);
        reward := reward + Pay(weights.saves, cur.saves > prev.saves);
        reward := reward + Pay(weights.demos, cur.demos > prev.demos);
        reward := reward + Pay(weights.demoed, cur.demoed && !prev.demoed);
        reward := reward + Pay(weights.boostFraction, cur.boostFraction > prev.boostFraction);
        reward := reward + Pay(weights.assists, cur.assists > prev.assists);
        prevValues := prevValues[p.carId := cur];
      }
      r := Ok(reward);
    }
  }

  // ---- Properties ----

  /** With a two-entry score line, observing succeeds exactly for teams 0 and 1, and the goal
      counters are the own team's and the other team's entries. */
  lemma ObserveTwoTeams(p: PlayerView, g: GameState)
    requires |g.scoreLine| == 2
    ensures Observe(p, g).Ok? <==> p.teamNum == 0 || p.teamNum == 1
    ensures Observe(p, g).Ok? ==>
      Observe(p, g).value.teamGoals == g.scoreLine[p.teamNum]
      && Observe(p, g).value.opponentGoals == g.scoreLine[1 - p.teamNum]
  {
  }

  /** The first call for a car pays nothing and stores the current values as baseline. */
  lemma FirstCallIsBaseline(w: EventWeights, prevValues: map<int, EventValues>, p: PlayerView, g: GameState)
    requires p.carId !in prevValues
    requires Observe(p, g).Ok?
    ensures Step(w, prevValues, p, g) == Ok(EventOutcome(0.0, prevValues[p.carId := Observe(p, g).value]))
  {
  }

  /** Every call that succeeds leaves the current values as this car's baseline and the
      other cars' baselines untouched. */
  lemma StepRecordsBaseline(w: EventWeights, prevValues: map<int, EventValues>, p: PlayerView, g: GameState)
    requires Step(w, prevValues, p, g).Ok?
    ensures var next := Step(w, prevValues, p, g).value.prevValues;
      && next[p.carId] == Observe(p, g).value
      && next.Keys == prevValues.Keys + {p.carId}
      && forall id :: id in prevValues && id != p.carId ==> next[id] == prevValues[id]
  {
  }

  /** Values that did not move, or only moved down, pay nothing: every test is strict. */
  lemma NoRiseNoReward(w: EventWeights, prev: EventValues, cur: EventValues)
    requires cur.teamGoals <= prev.teamGoals && cur.opponentGoals <= prev.opponentGoals
    requires cur.shots <= prev.shots && cur.saves <= prev.saves && cur.demos <= prev.demos
    requires cur.boostFraction <= prev.boostFraction && cur.assists <= prev.assists
    requires cur.touch ==> prev.touch
    requires cur.demoed ==> prev.demoed
    ensures EdgeScore(w, prev, cur) == 0.0
  {
  }

  /** If no tracked value changed since the previous call for the car, the reward is 0. */
  lemma UnchangedValuesNoReward(w: EventWeights, prevValues: map<int, EventValues>, p: PlayerView, g: GameState)
    requires p.carId in prevValues
    requires Observe(p, g) == Ok(prevValues[p.carId])
    ensures Step(w, prevValues, p, g) == Ok(EventOutcome(0.0, prevValues))
  {
    NoRiseNoReward(w, prevValues[p.carId], prevValues[p.carId]);
    assert prevValues[p.carId := prevValues[p.carId]] == prevValues;
  }

  /** When only the own team's goals rose, the reward is exactly the `teamGoal` weight, and
      0 when the configuration has no `teamGoal` key. */
  lemma TeamGoalOnly(scales: map<string, real>, prev: EventValues, cur: EventValues)
    requires cur == prev.(teamGoals := cur.teamGoals) && cur.teamGoals > prev.teamGoals
    ensures EdgeScore(WeightsFrom(scales), prev, cur) == Get0(scales, "teamGoal")
    ensures "teamGoal" !in scales ==> EdgeScore(WeightsFrom(scales), prev, cur) == 0.0
  {
  }

  /** A touch pays on the false-to-true edge only, a held or released touch pays nothing. */
  lemma TouchPaysOnRisingEdge(w: EventWeights, prev: EventValues, cur: EventValues)
    requires cur == prev.(touch := cur.touch)
    ensures EdgeScore(w, prev, cur) == if cur.touch && !prev.touch then w.touch else 0.0
  {
  }

  /** Being demolished pays on the false-to-true edge only. */
  lemma DemoedPaysOnRisingEdge(w: EventWeights, prev: EventValues, cur: EventValues)
    requires cur == prev.(demoed := cur.demoed)
    ensures EdgeScore(w, prev, cur) == if cur.demoed && !prev.demoed then w.demoed else 0.0
  {
  }
}
