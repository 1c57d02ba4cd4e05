/** Values shared by every reward component: the physics vectors handed over by the
    game-state decoder, the arena constants, and the outcomes a Python call can end in. */
module Common {

  /** The Python exceptions the reward core can raise. */
  datatype Error =
    | KeyError(key: string)   // a dict lookup of a key that is not there
    | IndexError              // a list index outside the list
    | TypeError               // arithmetic with None
    | ZeroDivisionError

  datatype Result<T> = Ok(value: T) | Err(error: Error)

  datatype Option<T> = None | Some(value: T)

  datatype Vec3 = Vec3(x: real, y: real, z: real)

  const Origin := Vec3(0.0, 0.0, 0.0)

  function Sub(a: Vec3, b: Vec3): Vec3 {
    Vec3(a.x - b.x, a.y - b.y, a.z - b.z)
  }

  function Dot(a: Vec3, b: Vec3): real {
    a.x * b.x + a.y * b.y + a.z * b.z
  }

  function Max(a: real, b: real): real {
    if a >= b then a else b
  }

  /** `np.linalg.norm` is floating-point work outside the model: every operation that needs a
      length receives the norm as a function, and the properties assume only that it is
      never negative. */
  type Norm = Vec3 -> real

  ghost predicate IsNorm(norm: Norm) {
    forall v :: norm(v) >= 0.0
  }

  /** The decoded physics of a car or of the ball. `up` stands for `PhysicsObject.up()`,
      the car's roof direction derived from its orientation. */
  datatype PhysicsObject = PhysicsObject(position: Vec3, linearVelocity: Vec3, angularVelocity: Vec3, up: Vec3)

  const RestingPhysics := PhysicsObject(Origin, Origin, Origin, Origin)

  /** The decoded game state as the reward components read it. */
  datatype GameState = GameState(scoreLine: seq<int>, ball: PhysicsObject)

  // Arena constants of the game (half-widths and heights in unreal units).
  const BALL_RADIUS: real := 92.75
  const CEILING_Z: real := 2044.0
  const SIDE_WALL_X: real := 4096.0
  const BACK_WALL_Y: real := 5120.0

  /** Python list indexing `s[i]`: negative indices count from the end, anything else
      outside the list raises IndexError. */
  function PyIndex(s: seq<int>, i: int): (r: Result<int>)
    ensures r.Ok? <==> -|s| <= i < |s|
    ensures 0 <= i < |s| ==> r == Ok(s[i])
    ensures -|s| <= i < 0 ==> r == Ok(s[|s| + i])
  {
    if 0 <= i < |s| then Ok(s[i])
    else if -|s| <= i < 0 then Ok(s[|s| + i])
    else Err(IndexError)
  }
}
