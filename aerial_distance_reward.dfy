/** AerialDistanceReward: per-car accumulators of the distance car and ball travel and of the
    car's spin while airborne, with a height bonus for a touch in the air. */
module AerialDistanceRewards {
  import opened Common
  import opened PlayerDataModel

  const GROUND_HEIGHT: real := 250.0
  const TOUCH_HEIGHT_OFFSET: real := 500.0
  const ANG_VEL_SCALE: real := 5.5
  const NORMALIZATION: real := 2.0 * 5120.0

  /** The per-car maps: three `defaultdict(float)` accumulators and the two anchor
      positions, where a missing entry is the `None` of `defaultdict(lambda: None)`. */
  datatype Accumulators = Accumulators(
    ballDistance: map<int, real>, carDistance: map<int, real>, angVelAccumulated: map<int, real>,
    prevBallPos: map<int, Vec3>, prevCarPos: map<int, Vec3>)

  const NoAccumulators := Accumulators(map[], map[], map[], map[], map[])

  /** A `defaultdict(float)` read. */
  function Get0(m: map<int, real>, carId: int): real {
    if carId in m then m[carId] else 0.0
  }

  /** The anchors are set once, at the first grounded call. */
  function Anchor(m: map<int, Vec3>, carId: int, pos: Vec3): map<int, Vec3> {
    if carId in m then m else m[carId := pos]
  }

  datatype AerialOutcome = AerialOutcome(rew: real, acc: Accumulators)

  /** The spin added per airborne call: the weighted angular speed scaled by 1/5.5. */
  function Spin(angVelW: real, car: PhysicsObject, norm: Norm): real {
    angVelW * (norm(car.angularVelocity) / ANG_VEL_SCALE)
  }

  /** First branch, the car below height 250: the car's accumulators restart from 0 and the
      anchors are set if they are still missing. */
  function Grounded(a: Accumulators, carId: int, car: PhysicsObject, ball: PhysicsObject): Accumulators {
    a.(ballDistance := a.ballDistance[carId := 0.0],
       carDistance := a.carDistance[carId := 0.0],
       angVelAccumulated := a.angVelAccumulated[carId := 0.0],
       prevBallPos := Anchor(a.prevBallPos, carId, ball.position),
       prevCarPos := Anchor(a.prevCarPos, carId, car.position))
  }

  /** Second branch, a touch in the air: both anchors move to the current positions. */
  function Reanchored(a: Accumulators, carId: int, car: PhysicsObject, ball: PhysicsObject): Accumulators {
    a.(prevBallPos := a.prevBallPos[carId := ball.position],
       prevCarPos := a.prevCarPos[carId := car.position])
  }

  /** Third branch, airborne without a touch: the distances from the anchors and the spin are
      added to the accumulators. The source then tests for a touch again to cash the
      accumulators out; that test contradicts the branch's guard, so the cash-out is kept
      here exactly as written and never taken. Without an anchor the subtraction from None
      raises TypeError. */
  function Airborne(distanceScale: real, angVelW: real, a: Accumulators, carId: int,
                    car: PhysicsObject, ball: PhysicsObject, ballTouched: bool, norm: Norm): (r: Result<AerialOutcome>)
    ensures r.Err? <==> carId !in a.prevCarPos || carId !in a.prevBallPos
    ensures r.Err? ==> r.error == TypeError
    ensures r.Ok? && !ballTouched ==>
      r.value.rew == 0.0 && r.value.acc.prevCarPos == a.prevCarPos && r.value.acc.prevBallPos == a.prevBallPos
  {
    if carId !in a.prevCarPos || carId !in a.prevBallPos then Err(TypeError)
    else
      var carDistance := Get0(a.carDistance, carId) + norm(Sub(car.position, a.prevCarPos[carId]));
      var ballDistance := Get0(a.ballDistance, carId) + norm(Sub(ball.position, a.prevBallPos[carId]));
      var angVel := Get0(a.angVelAccumulated, carId) + Spin(angVelW, car, norm);
      if ballTouched then
        Ok(AerialOutcome(distanceScale * (carDistance + ballDistance) + angVel,
                   Reanchored(a.(ballDistance := a.ballDistance[carId := 0.0],
                                 carDistance := a.carDistance[carId := 0.0],
                                 angVelAccumulated := a.angVelAccumulated[carId := 0.0]), carId, car, ball)))
      else
        Ok(AerialOutcome(0.0, a.(ballDistance := a.ballDistance[carId := ballDistance],
                           carDistance := a.carDistance[carId := carDistance],
                           angVelAccumulated := a.angVelAccumulated[carId := angVel])))
  }

  /** The three branches of `get_reward`, before the final normalisation; a car on the
      ground at height 250 or more falls through all three. */
  function Branches(heightScale: real, distanceScale: real, angVelW: real, a: Accumulators,
                    carId: int, car: PhysicsObject, ball: PhysicsObject,
                    ballTouched: bool, onGround: bool, norm: Norm): (r: Result<AerialOutcome>)
    ensures r.Err? ==> r.error == TypeError && car.position.z >= GROUND_HEIGHT && !ballTouched && !onGround
    ensures r.Ok? && r.value.rew != 0.0 ==> car.position.z >= GROUND_HEIGHT && ballTouched
  {
    if car.position.z < GROUND_HEIGHT then
      Ok(AerialOutcome(0.0, Grounded(a, carId, car, ball)))
    else if ballTouched then
      Ok(AerialOutcome(heightScale * Max(car.position.z + ball.position.z - TOUCH_HEIGHT_OFFSET, 0.0),
                 Reanchored(a, carId, car, ball)))
    else if !onGround then
      Airborne(distanceScale, angVelW, a, carId, car, ball, ballTouched, norm)
    else
      Ok(AerialOutcome(0.0, a))
  }

  /** The branch result is a success paying `rew` and leaving `acc`. */
  predicate Produces(b: Result<AerialOutcome>, rew: real, acc: Accumulators) {
    b.Ok? && b.value.rew == rew && b.value.acc == acc
  }

  /** One call of `get_reward`: the branch result divided by `2 * 5120`. */
  function Step(heightScale: real, distanceScale: real, angVelW: real, a: Accumulators,
                carId: int, car: PhysicsObject, ball: PhysicsObject,
                ballTouched: bool, onGround: bool, norm: Norm): (r: Result<AerialOutcome>)
    ensures r.Err? ==> r.error == TypeError && car.position.z >= GROUND_HEIGHT && !ballTouched && !onGround
    ensures r.Ok? && r.value.rew != 0.0 ==> car.position.z >= GROUND_HEIGHT && ballTouched
  {
    match Branches(heightScale, distanceScale, angVelW, a, carId, car, ball, ballTouched, onGround, norm)
    case Err(e) => Err(e)
    case Ok(o) => Ok(o.(rew := o.rew / NORMALIZATION))
  }

  class AerialDistanceReward {
    const heightScale: real
    const distanceScale: real
    const angVelW: real
    var ballDistance: map<int, real>
    var carDistance: map<int, real>
    var angVelAccumulated: map<int, real>
    var prevBallPos: map<int, Vec3>
    var prevCarPos: map<int, Vec3>

    function Model(): Accumulators
      reads this
    {
      Accumulators(ballDistance, carDistance, angVelAccumulated, prevBallPos, prevCarPos)
    }

    constructor (heightScale: real, distanceScale: real, angVelW: real)
      ensures this.heightScale == heightScale && this.distanceScale == distanceScale
      ensures this.angVelW == angVelW && Model() == NoAccumulators
    {
      this.heightScale, this.distanceScale, this.angVelW := heightScale, distanceScale, angVelW;
      ballDistance, carDistance, angVelAccumulated := map[], map[], map[];
      prevBallPos, prevCarPos := map[], map[];
    }

    /** The third branch, airborne without a touch, with the source's cash-out test; a
        missing anchor raises TypeError and leaves the accumulators as they were. */
    method Accumulate(p: PlayerView, g: GameState, norm: Norm) returns (r: Result<real>)
      modifies this
      ensures var b := Airborne(distanceScale, angVelW, old(Model()), p.carId, p.carData, g.ball, p.ballTouched, norm);
        && (b.Ok? ==> r.Ok? && r.value == b.value.rew && Model() == b.value.acc)
        && (b.Err? ==> r == Err(b.error) && Model() == old(Model()))
    {
      var carId := p.carId;
      var car, ball := p.carData.position, g.ball.position;
      if carId !in prevCarPos || carId !in prevBallPos {
        return Err(TypeError);
      }
      var carTotal := Get0(carDistance, carId) + norm(Sub(car, prevCarPos[carId]));
      var ballTotal := Get0(ballDistance, carId) + norm(Sub(ball, prevBallPos[carId]));
      var angVelTotal := Get0(angVelAccumulated, carId) + Spin(angVelW, p.carData, norm);
      ghost var b := Airborne(distanceScale, angVelW, Model(), carId, p.carData, g.ball, p.ballTouched, norm);
      assert b.Ok? && b.value.rew == if p.ballTouched then distanceScale * (carTotal + ballTotal) + angVelTotal else 0.0;
      assert b.value.acc == if p.ballTouched
        then Accumulators(ballDistance[carId := 0.0], carDistance[carId := 0.0], angVelAccumulated[carId := 0.0],
                          prevBallPos[carId := ball], prevCarPos[carId := car])
        else Accumulators(ballDistance[carId := ballTotal], carDistance[carId := carTotal],
                          angVelAccumulated[carId := angVelTotal], prevBallPos, prevCarPos);
      var rew := 0.0;
      var cd, bd, av := carDistance[carId := carTotal], ballDistance[carId := ballTotal],
                        angVelAccumulated[carId := angVelTotal];
      var pb, pc := prevBallPos, prevCarPos;
      if p.ballTouched {
        rew := distanceScale * (carTotal + ballTotal) + angVelTotal;
        cd, bd, av := carDistance[carId := 0.0], ballDistance[carId := 0.0], angVelAccumulated[carId := 0.0];
        pb, pc := pb[carId := ball], pc[carId := car];
      }
      carDistance, ballDistance, angVelAccumulated, prevBallPos, prevCarPos := cd, bd, av, pb, pc;
      r := Ok(rew);
    }

    /** `get_reward`: the three branches, then the normalisation; a TypeError leaves the
        accumulators as they were. */
    method GetReward(p: PlayerView, g: GameState, norm: Norm) returns (r: Result<real>)
      modifies this
      ensures var s := Step(heightScale, distanceScale, angVelW, old(Model()), p.carId,
                            p.carData, g.ball, p.ballTouched, p.onGround, norm);
        && (s.Ok? ==> r.Ok? && r.value == s.value.rew && Model() == s.value.acc)
        && (s.Err? ==> r == Err(s.error) && Model() == old(Model()))
    {
      var carId := p.carId;
      var car, ball := p.carData.position, g.ball.position;
      ghost var a := Model();
      var rew := 0.0;
      if car.z < GROUND_HEIGHT {
        ballDistance := ballDistance[carId := 0.0];
        carDistance := carDistance[carId := 0.0];
        angVelAccumulated := angVelAccumulated[carId := 0.0];
        if carId !in prevBallPos {
          prevBallPos := prevBallPos[carId := ball];
        }
        if carId !in prevCarPos {
          prevCarPos := prevCarPos[carId := car];
        }
        assert Model() == Grounded(a, carId, p.carData, g.ball);
      } else if p.ballTouched {
        rew := heightScale * Max(car.z + ball.z - TOUCH_HEIGHT_OFFSET, 0.0);
        prevBallPos := prevBallPos[carId := ball];
        prevCarPos := prevCarPos[carId := car];
        assert Model() == Reanchored(a, carId, p.carData, g.ball);
      } else if !p.onGround {
        var b := Accumulate(p, g, norm);
        if b.Err? {
          return b;
        }
        rew := b.value;
      }
      assert Produces(Branches(heightScale, distanceScale, angVelW, a, carId, p.carData, g.ball,
                               p.ballTouched, p.onGround, norm), rew, Model());
      r := Ok(rew / NORMALIZATION);
    }
  }

  // ---- Properties ----

  /** Below height 250 the three accumulators of the car become 0, the anchors are set if
      they were missing, and the reward is 0. */
  lemma GroundedResets(heightScale: real, distanceScale: real, angVelW: real, a: Accumulators,
                       carId: int, car: PhysicsObject, ball: PhysicsObject,
                       ballTouched: bool, onGround: bool, norm: Norm)
    requires car.position.z < GROUND_HEIGHT
    ensures var s := Step(heightScale, distanceScale, angVelW, a, carId, car, ball, ballTouched, onGround, norm);
      && s.Ok? && s.value.rew == 0.0
      && s.value.acc.carDistance[carId] == 0.0 && s.value.acc.ballDistance[carId] == 0.0
      && s.value.acc.angVelAccumulated[carId] == 0.0
      && carId in s.value.acc.prevCarPos && carId in s.value.acc.prevBallPos
  {
  }

  /** An airborne touch pays the height bonus `height_scale * max(car_z + ball_z - 500, 0) / 10240`
      and moves both anchors to the current positions. */
  lemma AirborneTouchBonus(heightScale: real, distanceScale: real, angVelW: real, a: Accumulators,
                           carId: int, car: PhysicsObject, ball: PhysicsObject, onGround: bool, norm: Norm)
    requires car.position.z >= GROUND_HEIGHT
    ensures var s := Step(heightScale, distanceScale, angVelW, a, carId, car, ball, true, onGround, norm);
      && s.Ok?
      && s.value.rew == heightScale * Max(car.position.z + ball.position.z - 500.0, 0.0) / 10240.0
      && s.value.acc.prevCarPos[carId] == car.position && s.value.acc.prevBallPos[carId] == ball.position
  {
  }

  /** The third branch only grows the accumulators (for a non-negative norm and spin
      weight), pays nothing, and fails exactly when the car has no anchor yet. */
  lemma AirborneAccumulates(heightScale: real, distanceScale: real, angVelW: real, a: Accumulators,
                            carId: int, car: PhysicsObject, ball: PhysicsObject, norm: Norm)
    requires car.position.z >= GROUND_HEIGHT
    requires IsNorm(norm) && angVelW >= 0.0
    ensures var s := Step(heightScale, distanceScale, angVelW, a, carId, car, ball, false, false, norm);
      && (s.Err? <==> carId !in a.prevCarPos || carId !in a.prevBallPos)
      && (s.Ok? ==>
            && s.value.rew == 0.0
            && s.value.acc.carDistance[carId] >= Get0(a.carDistance, carId)
            && s.value.acc.ballDistance[carId] >= Get0(a.ballDistance, carId)
            && s.value.acc.angVelAccumulated[carId] >= Get0(a.angVelAccumulated, carId)
            && s.value.acc.prevCarPos == a.prevCarPos && s.value.acc.prevBallPos == a.prevBallPos)
  {
  }

  /** The cash-out block can never run: the accumulated distances and spin never reach the
      reward. Two states that differ only in their accumulators always pay the same. */
  lemma AccumulatorsNeverPaid(heightScale: real, distanceScale: real, angVelW: real,
                              a1: Accumulators, a2: Accumulators,
                              carId: int, car: PhysicsObject, ball: PhysicsObject,
                              ballTouched: bool, onGround: bool, norm: Norm)
    requires a1.prevCarPos == a2.prevCarPos && a1.prevBallPos == a2.prevBallPos
    ensures var s1 := Step(heightScale, distanceScale, angVelW, a1, carId, car, ball, ballTouched, onGround, norm);
      var s2 := Step(heightScale, distanceScale, angVelW, a2, carId, car, ball, ballTouched, onGround, norm);
      s1.Ok? == s2.Ok? && (s1.Ok? ==> s1.value.rew == s2.value.rew)
  {
  }

  /** Every non-zero reward comes from the airborne-touch branch. */
  lemma OnlyTouchesPay(heightScale: real, distanceScale: real, angVelW: real, a: Accumulators,
                       carId: int, car: PhysicsObject, ball: PhysicsObject,
                       ballTouched: bool, onGround: bool, norm: Norm)
    requires Step(heightScale, distanceScale, angVelW, a, carId, car, ball, ballTouched, onGround, norm).Ok?
    requires Step(heightScale, distanceScale, angVelW, a, carId, car, ball, ballTouched, onGround, norm).value.rew != 0.0
    ensures car.position.z >= GROUND_HEIGHT && ballTouched
  {
  }
}
