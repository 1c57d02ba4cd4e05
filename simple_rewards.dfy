/** The stateless scorers that reduce to sign and threshold tests: HoldInputReward,
    PositiveRollReward and DistanceToBallReward. */
module SimpleRewards {
  import opened Common
  import opened PlayerDataModel

  // ---- HoldInputReward ----

  /** `weights[key]` added to a running sum; a missing key raises KeyError, and once an
      error is raised nothing more is added. */
  /** A failure, if any, is the KeyError of a key the configuration lacks. */
  predicate MissingKeyOnly(r: Result<real>, weights: map<string, real>) {
    r.Err? ==> r.error.KeyError? && r.error.key !in weights
  }

  function AddKey(acc: Result<real>, weights: map<string, real>, key: string): (r: Result<real>)
    ensures MissingKeyOnly(acc, weights) ==> MissingKeyOnly(r, weights)
  {
    if acc.Err? then acc
    else if key in weights then Ok(acc.value + weights[key])
    else Err(KeyError(key))
  }

  /** One signed axis: the `positive_` weight for a value above 0, the `negative_` weight
      for a value below 0, nothing for exactly 0. */
  function AddAxis(acc: Result<real>, weights: map<string, real>, value: real, axis: string): (r: Result<real>)
    ensures MissingKeyOnly(acc, weights) ==> MissingKeyOnly(r, weights)
  {
    if value > 0.0 then AddKey(acc, weights, "positive_" + axis)
    else if value < 0.0 then AddKey(acc, weights, "negative_" + axis)
    else acc
  }

  /** One button: its weight when pressed. */
  function AddButton(acc: Result<real>, weights: map<string, real>, pressed: bool, key: string): (r: Result<real>)
    ensures MissingKeyOnly(acc, weights) ==> MissingKeyOnly(r, weights)
  {
    if pressed then AddKey(acc, weights, key) else acc
  }

  /** `get_reward`: the axes steer, throttle, pitch and roll, then the buttons jump, boost,
      handbrake and use_item, tested in that order on the cached inputs of the car. */
  function HoldInput(weights: map<string, real>, c: Controls): (r: Result<real>)
    ensures MissingKeyOnly(r, weights)
    ensures c == NeutralControls ==> r == Ok(0.0)
  {
    var steer := AddAxis(Ok(0.0), weights, c.steer, "steer");
    var throttle := AddAxis(steer, weights, c.throttle, "throttle");
    var pitch := AddAxis(throttle, weights, c.pitch, "pitch");
    var roll := AddAxis(pitch, weights, c.roll, "roll");
    var jump := AddButton(roll, weights, c.jump, "jump");
    var boost := AddButton(jump, weights, c.boost, "boost");
    var handbrake := AddButton(boost, weights, c.handbrake, "handbrake");
    AddButton(handbrake, weights, c.useItem, "use_item")
  }

  // The reference definition: the list of weight keys an input selects, and their sum.

  function AxisKeys(value: real, axis: string): seq<string> {
    if value > 0.0 then ["positive_" + axis] else if value < 0.0 then ["negative_" + axis] else []
  }

  function ButtonKeys(pressed: bool, key: string): seq<string> {
    if pressed then [key] else []
  }

  /** The keys whose weights the inputs select, in the order they are looked up. */
  function HeldKeys(c: Controls): (keys: seq<string>)
    ensures |keys| <= 8
  {
    AxisKeys(c.steer, "steer") + AxisKeys(c.throttle, "throttle")
    + AxisKeys(c.pitch, "pitch") + AxisKeys(c.roll, "roll")
    + ButtonKeys(c.jump, "jump") + ButtonKeys(c.boost, "boost")
    + ButtonKeys(c.handbrake, "handbrake") + ButtonKeys(c.useItem, "use_item")
  }

  /** The sum of the weights of `keys`, or KeyError for the first key that is missing. */
  function SumWeights(weights: map<string, real>, keys: seq<string>): (r: Result<real>)
    ensures r.Ok? <==> forall i :: 0 <= i < |keys| ==> keys[i] in weights
  {
    if keys == [] then Ok(0.0)
    else if keys[0] !in weights then Err(KeyError(keys[0]))
    else
      match SumWeights(weights, keys[1..])
      case Err(e) => Err(e)
      case Ok(rest) => Ok(weights[keys[0]] + rest)
  }

  /** Adding `keys` one at a time to a running sum. */
  function AddKeys(acc: Result<real>, weights: map<string, real>, keys: seq<string>): Result<real>
    decreases |keys|
  {
    if keys == [] then acc else AddKeys(AddKey(acc, weights, keys[0]), weights, keys[1..])
  }

  lemma {:induction false} AddKeysAppend(acc: Result<real>, weights: map<string, real>, a: seq<string>, b: seq<string>)
    ensures AddKeys(acc, weights, a + b) == AddKeys(AddKeys(acc, weights, a), weights, b)
    decreases |a|
  {
    if a == [] {
      assert a + b == b;
    } else {
      assert (a + b)[1..] == a[1..] + b;
      AddKeysAppend(AddKey(acc, weights, a[0]), weights, a[1..], b);
    }
  }

  /** A running sum that starts from `Ok(s)` ends at `s` plus the reference sum. */
  lemma {:induction false} AddKeysIsSum(s: real, weights: map<string, real>, keys: seq<string>)
    ensures AddKeys(Ok(s), weights, keys)
      == match SumWeights(weights, keys) case Err(e) => Err(e) case Ok(t) => Ok(s + t)
    decreases |keys|
  {
    if keys != [] && keys[0] in weights {
      AddKeysIsSum(s + weights[keys[0]], weights, keys[1..]);
    } else if keys != [] {
      AddKeysFromErr(KeyError(keys[0]), weights, keys[1..]);
    }
  }

  lemma {:induction false} AddKeysFromErr(e: Error, weights: map<string, real>, keys: seq<string>)
    ensures AddKeys(Err(e), weights, keys) == Err(e)
    decreases |keys|
  {
    if keys != [] {
      AddKeysFromErr(e, weights, keys[1..]);
    }
  }

  lemma AxisIsAddKeys(acc: Result<real>, weights: map<string, real>, value: real, axis: string)
    ensures AddAxis(acc, weights, value, axis) == AddKeys(acc, weights, AxisKeys(value, axis))
  {
  }

  lemma ButtonIsAddKeys(acc: Result<real>, weights: map<string, real>, pressed: bool, key: string)
    ensures AddButton(acc, weights, pressed, key) == AddKeys(acc, weights, ButtonKeys(pressed, key))
  {
  }

  /** The chain of tests adds the held keys one at a time. */
  lemma ChainIsAddKeys(weights: map<string, real>, c: Controls)
    ensures HoldInput(weights, c) == AddKeys(Ok(0.0), weights, HeldKeys(c))
  {
    var k1, k2 := AxisKeys(c.steer, "steer"), AxisKeys(c.throttle, "throttle");
    var k3, k4 := AxisKeys(c.pitch, "pitch"), AxisKeys(c.roll, "roll");
    var k5, k6 := ButtonKeys(c.jump, "jump"), ButtonKeys(c.boost, "boost");
    var k7, k8 := ButtonKeys(c.handbrake, "handbrake"), ButtonKeys(c.useItem, "use_item");
    var acc := Ok(0.0);
    var a1 := AddAxis(acc, weights, c.steer, "steer");
    var a2 := AddAxis(a1, weights, c.throttle, "throttle");
    var a3 := AddAxis(a2, weights, c.pitch, "pitch");
    var a4 := AddAxis(a3, weights, c.roll, "roll");
    var a5 := AddButton(a4, weights, c.jump, "jump");
    var a6 := AddButton(a5, weights, c.boost, "boost");
    var a7 := AddButton(a6, weights, c.handbrake, "handbrake");
    var a8 := AddButton(a7, weights, c.useItem, "use_item");
    AxisIsAddKeys(acc, weights, c.steer, "steer");
    AxisIsAddKeys(a1, weights, c.throttle, "throttle");
    AxisIsAddKeys(a2, weights, c.pitch, "pitch");
    AxisIsAddKeys(a3, weights, c.roll, "roll");
    ButtonIsAddKeys(a4, weights, c.jump, "jump");
    ButtonIsAddKeys(a5, weights, c.boost, "boost");
    ButtonIsAddKeys(a6, weights, c.handbrake, "handbrake");
    ButtonIsAddKeys(a7, weights, c.useItem, "use_item");
    AddKeysAppend(acc, weights, k1, k2);
    AddKeysAppend(acc, weights, k1 + k2, k3);
    AddKeysAppend(acc, weights, k1 + k2 + k3, k4);
    AddKeysAppend(acc, weights, k1 + k2 + k3 + k4, k5);
    AddKeysAppend(acc, weights, k1 + k2 + k3 + k4 + k5, k6);
    AddKeysAppend(acc, weights, k1 + k2 + k3 + k4 + k5 + k6, k7);
    AddKeysAppend(acc, weights, k1 + k2 + k3 + k4 + k5 + k6 + k7, k8);
    assert a8 == AddKeys(acc, weights, k1 + k2 + k3 + k4 + k5 + k6 + k7 + k8);
  }

  /** The hold reward is the sum of the weights of exactly the held inputs, where an axis
      counts as held when it is strictly positive or strictly negative; it fails with the
      first held input whose weight is not configured. */
  lemma HoldInputIsSumOfHeld(weights: map<string, real>, c: Controls)
    ensures HoldInput(weights, c) == SumWeights(weights, HeldKeys(c))
  {
    ChainIsAddKeys(weights, c);
    AddKeysIsSum(0.0, weights, HeldKeys(c));
  }

  /** The reward fails exactly when a held input has no configured weight. */
  lemma HoldInputFailsIffMissing(weights: map<string, real>, c: Controls)
    ensures HoldInput(weights, c).Err? <==> exists i :: 0 <= i < |HeldKeys(c)| && HeldKeys(c)[i] !in weights
  {
    HoldInputIsSumOfHeld(weights, c);
  }

  /** With every input at rest nothing is looked up, so even an empty configuration gives 0. */
  lemma NeutralHoldsNothing(weights: map<string, real>)
    ensures HoldInput(weights, NeutralControls) == Ok(0.0)
  {
  }

  /** The configuration of the default registry: only roll carries a weight. */
  const DefaultHoldWeights: map<string, real> := map[
    "positive_steer" := 0.0, "negative_steer" := 0.0,
    "positive_throttle" := 0.0, "negative_throttle" := 0.0,
    "positive_pitch" := 0.0, "negative_pitch" := 0.0,
    "positive_roll" := 1.0, "negative_roll" := -1.0,
    "jump" := 0.0, "boost" := 0.0, "handbrake" := 0.0, "use_item" := 0.0]

  /** An axis whose two weights are 0 leaves a running sum as it is. */
  lemma ZeroAxis(weights: map<string, real>, s: real, value: real, axis: string)
    requires "positive_" + axis in weights && weights["positive_" + axis] == 0.0
    requires "negative_" + axis in weights && weights["negative_" + axis] == 0.0
    ensures AddAxis(Ok(s), weights, value, axis) == Ok(s)
  {
  }

  /** A button whose weight is 0 leaves a running sum as it is. */
  lemma ZeroButton(weights: map<string, real>, s: real, pressed: bool, key: string)
    requires key in weights && weights[key] == 0.0
    ensures AddButton(Ok(s), weights, pressed, key) == Ok(s)
  {
  }

  /** The weights of the default configuration, key by key. */
  lemma DefaultHoldLookups()
    ensures var w := DefaultHoldWeights;
      && "positive_" + "steer" in w && w["positive_" + "steer"] == 0.0
      && "negative_" + "steer" in w && w["negative_" + "steer"] == 0.0
      && "positive_" + "throttle" in w && w["positive_" + "throttle"] == 0.0
      && "negative_" + "throttle" in w && w["negative_" + "throttle"] == 0.0
      && "positive_" + "pitch" in w && w["positive_" + "pitch"] == 0.0
      && "negative_" + "pitch" in w && w["negative_" + "pitch"] == 0.0
      && "positive_" + "roll" in w && w["positive_" + "roll"] == 1.0
      && "negative_" + "roll" in w && w["negative_" + "roll"] == -1.0
      && "jump" in w && w["jump"] == 0.0 && "boost" in w && w["boost"] == 0.0
      && "handbrake" in w && w["handbrake"] == 0.0 && "use_item" in w && w["use_item"] == 0.0
  {
    assert "positive_" + "steer" == "positive_steer" && "negative_" + "steer" == "negative_steer";
    assert "positive_" + "throttle" == "positive_throttle" && "negative_" + "throttle" == "negative_throttle";
    assert "positive_" + "pitch" == "positive_pitch" && "negative_" + "pitch" == "negative_pitch";
    assert "positive_" + "roll" == "positive_roll" && "negative_" + "roll" == "negative_roll";
  }

  /** Under the default configuration the reward is the sign of the roll input. */
  lemma DefaultHoldIsRollSign(c: Controls)
    ensures HoldInput(DefaultHoldWeights, c)
      == Ok(if c.roll > 0.0 then 1.0 else if c.roll < 0.0 then -1.0 else 0.0)
  {
    var w := DefaultHoldWeights;
    DefaultHoldLookups();
    ZeroAxis(w, 0.0, c.steer, "steer");
    ZeroAxis(w, 0.0, c.throttle, "throttle");
    ZeroAxis(w, 0.0, c.pitch, "pitch");
    var sign := if c.roll > 0.0 then 1.0 else if c.roll < 0.0 then -1.0 else 0.0;
    assert AddAxis(Ok(0.0), w, c.roll, "roll") == Ok(sign);
    ZeroButton(w, sign, c.jump, "jump");
    ZeroButton(w, sign, c.boost, "boost");
    ZeroButton(w, sign, c.handbrake, "handbrake");
    ZeroButton(w, sign, c.useItem, "use_item");
  }

  // ---- PositiveRollReward ----

  const DEFAULT_HEIGHT_THRESHOLD: real := 300.0
  const DEFAULT_DISTANCE_THRESHOLD: real := 500.0

  /** `get_reward`: 1.0 when the car is above the height threshold, closer to the ball than
      the distance threshold and the cached roll input is positive. */
  function PositiveRoll(heightThreshold: real, distanceThreshold: real,
                        carZ: real, distance: real, roll: real): (r: real)
    ensures r == 0.0 || r == 1.0
    ensures roll <= 0.0 ==> r == 0.0
  {
    if carZ > heightThreshold && distance < distanceThreshold && roll > 0.0 then 1.0 else 0.0
  }

  /** The reward is an indicator: 1.0 exactly when all three strict thresholds hold and 0.0
      otherwise; rolling the other way, or not at all, never pays. */
  lemma PositiveRollIndicator(heightThreshold: real, distanceThreshold: real,
                              carZ: real, distance: real, roll: real)
    ensures var r := PositiveRoll(heightThreshold, distanceThreshold, carZ, distance, roll);
      && (r == 1.0 <==> carZ > heightThreshold && distance < distanceThreshold && roll > 0.0)
      && (r == 0.0 <==> !(carZ > heightThreshold && distance < distanceThreshold && roll > 0.0))
      && (roll <= 0.0 ==> r == 0.0)
  {
  }

  // ---- DistanceToBallReward ----

  /** `get_reward`: `max(0, 1 - distance / (2 * BALL_RADIUS))`. */
  function DistanceToBall(distance: real): (r: real)
    ensures r >= 0.0
    ensures distance >= 0.0 ==> r <= 1.0
  {
    Max(0.0, 1.0 - distance / (BALL_RADIUS * 2.0))
  }

  /** For a distance that is a length the reward lies in [0, 1]; it is 1 at distance 0,
      falls linearly to 0 at twice the ball radius and stays 0 beyond. */
  lemma DistanceToBallShape(distance: real)
    requires distance >= 0.0
    ensures 0.0 <= DistanceToBall(distance) <= 1.0
    ensures distance == 0.0 ==> DistanceToBall(distance) == 1.0
    ensures distance >= 2.0 * BALL_RADIUS ==> DistanceToBall(distance) == 0.0
    ensures distance <= 2.0 * BALL_RADIUS ==> DistanceToBall(distance) == 1.0 - distance / (2.0 * BALL_RADIUS)
  {
  }

  /** Moving farther from the ball never increases the reward. */
  lemma DistanceToBallNonIncreasing(d1: real, d2: real)
    requires d1 <= d2
    ensures DistanceToBall(d2) <= DistanceToBall(d1)
  {
  }
}
