/** FlipResetReward: a latch per car that pays once when the car regains its jump or flip
    with its wheels against the ball, away from floor, ceiling and walls, and then pays a
    small hold reward while the latch stays set outside that zone. */
module FlipResetRewards {
  import opened Common
  import opened PlayerDataModel

  const CAR_UNDER_THRESHOLD: real := -1.0
  const MIN_DISTANCE_FLOOR: real := 200.0
  const MIN_DISTANCE_CEILING: real := 300.0
  const MIN_DISTANCE_WALLS: real := 700.0
  const NEAR_BALL_DISTANCE: real := 170.0
  const ENABLE_MULTIPLE_RESETS: int := 1

  /** The four geometric tests of one call. */
  datatype Zone = Zone(nearBall: bool, heightCheck: bool, wallDisCheck: bool, wheelsUnder: bool)

  /** Computes the tests from the car and ball physics. The direction to the ball is the
      offset divided by its length; at length 0 every component is NaN and so the
      wheels-under comparison is false. */
  function ZoneOf(car: PhysicsObject, ball: PhysicsObject, norm: Norm): (z: Zone)
    ensures z.heightCheck <==> car.position.z < 200.0 || car.position.z > 1744.0
    ensures z.wallDisCheck <==>
      car.position.x < -3396.0 || car.position.x > 3396.0 || car.position.y < -4420.0 || car.position.y > 4420.0
    ensures z.wheelsUnder ==> norm(Sub(ball.position, car.position)) != 0.0
  {
    var pos := car.position;
    var toBall := Sub(ball.position, pos);
    var distance := norm(Sub(pos, ball.position));
    Zone(
      distance < NEAR_BALL_DISTANCE,
      pos.z < MIN_DISTANCE_FLOOR || pos.z > CEILING_Z - MIN_DISTANCE_CEILING,
      (-SIDE_WALL_X + MIN_DISTANCE_WALLS > pos.x) || (SIDE_WALL_X - MIN_DISTANCE_WALLS < pos.x)
      || (-BACK_WALL_Y + MIN_DISTANCE_WALLS > pos.y) || (BACK_WALL_Y - MIN_DISTANCE_WALLS < pos.y),
      norm(toBall) != 0.0 && Dot(car.up, toBall) / norm(toBall) > CAR_UNDER_THRESHOLD)
  }

  /** The reset zone: near the ball, clear of floor, ceiling and walls, wheels toward it. */
  predicate InResetZone(z: Zone) {
    z.nearBall && !z.heightCheck && !z.wallDisCheck && z.wheelsUnder
  }

  /** A `defaultdict(bool)` read: a car never seen reads as false. */
  function Flag(m: map<int, bool>, carId: int): bool {
    carId in m && m[carId]
  }

  /** The three per-car maps of the component. */
  datatype Latches = Latches(prevHasJump: map<int, bool>, prevHasFlip: map<int, bool>, hasReset: map<int, bool>)

  const NoLatches := Latches(map[], map[], map[])

  /** The jump or the flip came back since the previous call (a bool compared with `<`). */
  function GotReset(l: Latches, carId: int, hasJump: bool, hasFlip: bool): bool {
    (!Flag(l.prevHasJump, carId) && hasJump)
    || ENABLE_MULTIPLE_RESETS * (if !Flag(l.prevHasFlip, carId) && hasFlip then 1 else 0) != 0
  }

  /** The latch after the clear that near walls or after a flip precedes the zone test. */
  function LatchAfterClear(l: Latches, carId: int, z: Zone, hasFlipped: bool): bool {
    Flag(l.hasReset, carId) && !(z.wallDisCheck || hasFlipped)
  }

  datatype FlipOutcome = FlipOutcome(reward: real, latches: Latches)

  /** One call of `get_reward`. */
  function Step(flipResetR: real, holdFlipResetR: real, l: Latches, carId: int, z: Zone,
                hasJump: bool, hasFlip: bool, hasFlipped: bool): (o: FlipOutcome)
    ensures o.reward == 0.0 || o.reward == flipResetR || o.reward == holdFlipResetR
    ensures Flag(o.latches.prevHasJump, carId) == hasJump && Flag(o.latches.prevHasFlip, carId) == hasFlip
  {
    var gotReset := GotReset(l, carId, hasJump, hasFlip);
    var cleared := if z.wallDisCheck || hasFlipped then l.hasReset[carId := false] else l.hasReset;
    var (reward, hasReset) :=
      if InResetZone(z) then
        if gotReset && !Flag(cleared, carId) then (flipResetR, cleared[carId := true]) else (0.0, cleared)
      else if Flag(cleared, carId) then (0.0 + holdFlipResetR, cleared)
      else (0.0, cleared);
    FlipOutcome(reward, Latches(l.prevHasJump[carId := hasJump], l.prevHasFlip[carId := hasFlip], hasReset))
  }

  class FlipResetReward {
    const flipResetR: real
    const holdFlipResetR: real
    var prevHasJump: map<int, bool>
    var prevHasFlip: map<int, bool>
    var hasReset: map<int, bool>

    function Model(): Latches
      reads this
    {
      Latches(prevHasJump, prevHasFlip, hasReset)
    }

    constructor (flipResetR: real, holdFlipResetR: real)
      ensures this.flipResetR == flipResetR && this.holdFlipResetR == holdFlipResetR
      ensures Model() == NoLatches
    {
      this.flipResetR := flipResetR;
      this.holdFlipResetR := holdFlipResetR;
      prevHasJump, prevHasFlip, hasReset := map[], map[], map[];
    }

    /** `reset(initial_state)`: forgets every car. */
    method Reset()
      modifies this
      ensures Model() == NoLatches
    {
      prevHasJump, prevHasFlip, hasReset := map[], map[], map[];
    }

    method GetReward(p: PlayerView, g: GameState, norm: Norm) returns (reward: real)
      modifies this
      ensures var o := Step(flipResetR, holdFlipResetR, old(Model()), p.carId,
                            ZoneOf(p.carData, g.ball, norm), p.hasJump, p.hasFlip, p.hasFlipped);
        reward == o.reward && Model() == o.latches
    {
      var carId := p.carId;
      reward := 0.0;
      var z := ZoneOf(p.carData, g.ball, norm);
      var gotReset := (!Flag(prevHasJump, carId) && p.hasJump)
        || ENABLE_MULTIPLE_RESETS * (if !Flag(prevHasFlip, carId) && p.hasFlip then 1 else 0) != 0;
      if z.wallDisCheck || p.hasFlipped {
        hasReset := hasReset[carId := false];
      }
      if z.nearBall && !z.heightCheck && !z.wallDisCheck && z.wheelsUnder {
        if gotReset && !Flag(hasReset, carId) {
          hasReset := hasReset[carId := true];
          reward := flipResetR;
        }
      } else if Flag(hasReset, carId) {
        reward := reward + holdFlipResetR;
      }
      prevHasJump := prevHasJump[carId := p.hasJump];
      prevHasFlip := prevHasFlip[carId := p.hasFlip];
    }
  }

  // ---- Properties ----

  /** Inside the zone the full reward is paid exactly on a rising edge with the latch unset
      after the clear, and the latch is then set; otherwise inside the zone nothing is paid
      and the latch keeps its cleared value. */
  lemma InZoneAward(flipResetR: real, holdFlipResetR: real, l: Latches, carId: int, z: Zone,
                    hasJump: bool, hasFlip: bool, hasFlipped: bool)
    requires InResetZone(z)
    ensures var o := Step(flipResetR, holdFlipResetR, l, carId, z, hasJump, hasFlip, hasFlipped);
      var award := GotReset(l, carId, hasJump, hasFlip) && !LatchAfterClear(l, carId, z, hasFlipped);
      && o.reward == (if award then flipResetR else 0.0)
      && Flag(o.latches.hasReset, carId) == (award || LatchAfterClear(l, carId, z, hasFlipped))
  {
  }

  /** Outside the zone the hold reward is paid exactly when the latch survives the clear;
      a wall-zone position or a flip clears it, so those calls pay 0. */
  lemma OutsideZoneHold(flipResetR: real, holdFlipResetR: real, l: Latches, carId: int, z: Zone,
                        hasJump: bool, hasFlip: bool, hasFlipped: bool)
    requires !InResetZone(z)
    ensures var o := Step(flipResetR, holdFlipResetR, l, carId, z, hasJump, hasFlip, hasFlipped);
      && o.reward == (if LatchAfterClear(l, carId, z, hasFlipped) then holdFlipResetR else 0.0)
      && Flag(o.latches.hasReset, carId) == LatchAfterClear(l, carId, z, hasFlipped)
      && (z.wallDisCheck || hasFlipped ==> o.reward == 0.0)
  {
  }

  /** Every call leaves the previous-flag maps equal to this call's flags and touches no
      other car's entries. */
  lemma StepRecordsFlags(flipResetR: real, holdFlipResetR: real, l: Latches, carId: int, z: Zone,
                         hasJump: bool, hasFlip: bool, hasFlipped: bool)
    ensures var o := Step(flipResetR, holdFlipResetR, l, carId, z, hasJump, hasFlip, hasFlipped);
      && Flag(o.latches.prevHasJump, carId) == hasJump
      && Flag(o.latches.prevHasFlip, carId) == hasFlip
      && forall id :: id != carId ==>
           Flag(o.latches.prevHasJump, id) == Flag(l.prevHasJump, id)
           && Flag(o.latches.prevHasFlip, id) == Flag(l.prevHasFlip, id)
           && Flag(o.latches.hasReset, id) == Flag(l.hasReset, id)
  {
  }

  /** The reset is paid once: repeating a call with the same flags (so no new edge) in the
      same zone pays nothing more. */
  lemma AwardedOnce(flipResetR: real, holdFlipResetR: real, l: Latches, carId: int, z: Zone,
                    hasJump: bool, hasFlip: bool, hasFlipped: bool)
    requires InResetZone(z)
    ensures var o := Step(flipResetR, holdFlipResetR, l, carId, z, hasJump, hasFlip, hasFlipped);
      Step(flipResetR, holdFlipResetR, o.latches, carId, z, hasJump, hasFlip, hasFlipped).reward == 0.0
  {
  }

  /** After a flip clears the latch outside the zone, a new entry into the zone with a
      rising edge pays the full reward again. */
  lemma ReentryRetriggers(flipResetR: real, holdFlipResetR: real, l: Latches, carId: int,
                          outside: Zone, inside: Zone, hasJump: bool, hasFlip: bool)
    requires !InResetZone(outside) && InResetZone(inside)
    ensures var o := Step(flipResetR, holdFlipResetR, l, carId, outside, false, false, true);
      Step(flipResetR, holdFlipResetR, o.latches, carId, inside, true, hasFlip, false).reward == flipResetR
  {
  }
}
