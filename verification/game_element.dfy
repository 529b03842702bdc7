/**
 * A game element: a position, an orientation, and the speeds and direction
 * with which it moves. `Move` and `Rotate` compute the new position or
 * orientation and hand it to the element's own setter, which a subclass
 * (the camera) may override; the computations are therefore given here as
 * functions of their own, and `Move`/`Rotate` as the base setters applied.
 * The frame time is a parameter.
 */
module Elements {
  import opened Algebra

  datatype GameElement = GameElement(
    position: Vec3,
    rotation: Quat,
    linearSpeed: real,
    angularSpeed: real,
    movementDirection: Vec3)

  /** The forward direction of a new element. */
  const Forward: Vec3 := Vec3(0.0, 0.0, -1.0)

  /** A new element rests at the origin, unrotated, facing forward. */
  function NewElement(): (e: GameElement)
    ensures e.position == Zero3 && e.rotation == QuatIdentity
    ensures e.linearSpeed == 0.0 && e.angularSpeed == 0.0
    ensures e.movementDirection == Forward
  {
    GameElement(Zero3, QuatIdentity, 0.0, 0.0, Forward)
  }

  /** The base `Position` setter. */
  function SetPosition(e: GameElement, p: Vec3): (r: GameElement)
    ensures r.position == p && r.(position := e.position) == e
  {
    e.(position := p)
  }

  /** The base `Rotation` setter. */
  function SetRotation(e: GameElement, q: Quat): (r: GameElement)
    ensures r.rotation == q && r.(rotation := e.rotation) == e
  {
    e.(rotation := q)
  }

  /** The `LinearSpeed` setter. */
  function SetLinearSpeed(e: GameElement, v: real): (r: GameElement)
    ensures r.linearSpeed == v && r.(linearSpeed := e.linearSpeed) == e
  {
    e.(linearSpeed := v)
  }

  /** The `AngularSpeed` setter, in degrees. */
  function SetAngularSpeed(e: GameElement, v: real): (r: GameElement)
    ensures r.angularSpeed == v && r.(angularSpeed := e.angularSpeed) == e
  {
    e.(angularSpeed := v)
  }

  /** The `MovementDirection` setter keeps the direction normalized. */
  function SetMovementDirection(e: GameElement, v: Vec3): (r: GameElement)
    ensures r.movementDirection == Normalized(v)
    ensures r.(movementDirection := e.movementDirection) == e
  {
    e.(movementDirection := Normalized(v))
  }

  /** The time factor of a step: the frame time when smooth, 1 otherwise. */
  function TimeFactor(smooth: bool, deltaTime: real): (r: real)
    ensures !smooth ==> r == 1.0
    ensures smooth ==> r == deltaTime
  {
    if smooth then deltaTime else 1.0
  }

  /** The position `Move` hands to the `Position` setter. */
  function MoveTarget(e: GameElement, smooth: bool, deltaTime: real): Vec3 {
    Add(e.position, Scale(Scale(e.movementDirection, e.linearSpeed), TimeFactor(smooth, deltaTime)))
  }

  /** `Move` through the base setter: only the position changes. */
  function Move(e: GameElement, smooth: bool, deltaTime: real): (r: GameElement)
    ensures r.position == Add(e.position, Scale(Scale(e.movementDirection, e.linearSpeed), TimeFactor(smooth, deltaTime)))
    ensures r.(position := e.position) == e
  {
    SetPosition(e, MoveTarget(e, smooth, deltaTime))
  }

  /** The angle, in degrees, of one `Rotate` step: negated when clockwise. */
  function StepDegrees(e: GameElement, clockwise: bool, smooth: bool, deltaTime: real): real {
    e.angularSpeed * (TimeFactor(smooth, deltaTime) * (if clockwise then -1.0 else 1.0))
  }

  /** The orientation `Rotate` hands to the `Rotation` setter: the current one times the step. */
  function RotateTarget(e: GameElement, axis: Vec3, clockwise: bool, smooth: bool, deltaTime: real): (q: Quat)
    ensures q.QuatMul? && q.a == e.rotation
    ensures q.b == FromAxisAngle(axis, DegreesToRadians(StepDegrees(e, clockwise, smooth, deltaTime)))
  {
    QuatMul(e.rotation, FromAxisAngle(axis, DegreesToRadians(StepDegrees(e, clockwise, smooth, deltaTime))))
  }

  /** `Rotate` through the base setter: only the rotation changes. */
  function Rotate(e: GameElement, axis: Vec3, clockwise: bool, smooth: bool, deltaTime: real): (r: GameElement)
    ensures r.rotation == RotateTarget(e, axis, clockwise, smooth, deltaTime)
    ensures r.(rotation := e.rotation) == e
  {
    SetRotation(e, RotateTarget(e, axis, clockwise, smooth, deltaTime))
  }

  /** A local axis expressed in world space by the element's rotation. */
  function LocalAxis(e: GameElement, axis: Vec3): (r: Vec3)
    ensures r.RotatedBy? && r.v == axis && r.q == e.rotation
  {
    RotatedBy(axis, e.rotation)
  }

  /** `RotateLocal`: `Rotate` about the axis turned into world space. */
  function RotateLocal(e: GameElement, axis: Vec3, clockwise: bool, smooth: bool, deltaTime: real): (r: GameElement)
    ensures r == Rotate(e, RotatedBy(axis, e.rotation), clockwise, smooth, deltaTime)
  {
    Rotate(e, LocalAxis(e, axis), clockwise, smooth, deltaTime)
  }

  /** A clockwise turn is the counter-clockwise turn of the same element at the opposite angular speed. */
  lemma ClockwiseIsOpposite(e: GameElement, axis: Vec3, smooth: bool, deltaTime: real)
    ensures Rotate(e, axis, true, smooth, deltaTime).rotation ==
      Rotate(e.(angularSpeed := -e.angularSpeed), axis, false, smooth, deltaTime).rotation
  {
    var t := TimeFactor(smooth, deltaTime);
    assert e.angularSpeed * (t * -1.0) == -e.angularSpeed * (t * 1.0);
  }

  /** The moves and turns an element makes of its own accord. */
  datatype Motion =
    | MoveStep(smooth: bool, deltaTime: real)
    | Turn(axis: Vec3, clockwise: bool, smooth: bool, deltaTime: real)
    | TurnLocal(axis: Vec3, clockwise: bool, smooth: bool, deltaTime: real)

  /** Makes one motion through the base setters. */
  function Perform(e: GameElement, m: Motion): GameElement {
    match m
    case MoveStep(s, dt) => Move(e, s, dt)
    case Turn(a, cw, s, dt) => Rotate(e, a, cw, s, dt)
    case TurnLocal(a, cw, s, dt) => RotateLocal(e, a, cw, s, dt)
  }

  /** Makes the motions in order. */
  function PerformAll(e: GameElement, ms: seq<Motion>): GameElement
    decreases |ms|
  {
    if ms == [] then e else PerformAll(Perform(e, ms[0]), ms[1..])
  }

  /** Motions change only the position and the rotation: speeds and direction stay. */
  lemma {:induction false} MotionsKeepSpeeds(e: GameElement, ms: seq<Motion>)
    ensures var r := PerformAll(e, ms);
      r.linearSpeed == e.linearSpeed && r.angularSpeed == e.angularSpeed && r.movementDirection == e.movementDirection
    decreases |ms|
  {
    if ms != [] {
      MotionsKeepSpeeds(Perform(e, ms[0]), ms[1..]);
    }
  }
}
