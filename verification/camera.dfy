/**
 * A camera: a game element whose position is the eye, with a target, an up
 * vector, a projection, and a view matrix that every setter recomputes as
 * `LookAt(eye, target, up)`. The camera overrides the element's `Position`
 * and `Rotation` setters, so `Move` and `Rotate` go through them. The
 * viewport and the frame time are parameters.
 */
module Cameras {
  import opened Algebra
  import Elements

  datatype Camera = Camera(
    element: Elements.GameElement,
    target: Vec3,
    up: Vec3,
    view: Mat4,
    projection: Mat4)

  /** The eye position. */
  function Eye(c: Camera): Vec3 {
    c.element.position
  }

  /** The view matrix is the look-at matrix of the current eye, target and up vector. */
  predicate ViewCurrent(c: Camera) {
    c.view == LookAt(Eye(c), c.target, c.up)
  }

  /** `UpdateViewMatrix`. */
  function UpdateView(c: Camera): (r: Camera)
    ensures ViewCurrent(r) && r.(view := c.view) == c
  {
    c.(view := LookAt(Eye(c), c.target, c.up))
  }

  /** The byte values of `ProjectionType`. */
  const OrthographicKind: Byte := 0
  const PerspectiveKind: Byte := 1

  /** The aspect ratio the perspective constructor passes: `16 / 9` in integers, then converted. */
  const PerspectiveAspect: real := (16 / 9) as real

  /** The aspect ratio is 1, not 16/9, because the division is done in integers. */
  lemma PerspectiveAspectIsOne()
    ensures PerspectiveAspect == 1.0
  {
  }

  /** The projection the constructor builds for a projection kind; other byte values leave it zero. */
  function DefaultProjection(kind: Byte): (p: Mat4)
    ensures kind == PerspectiveKind <==> p.PerspectiveFieldOfView?
    ensures kind == OrthographicKind <==> p.Orthographic?
    ensures kind == PerspectiveKind ==> p == PerspectiveFieldOfView(DegreesToRadians(90.0), 1.0, 0.1, 100.0)
    ensures kind == OrthographicKind ==> p == Orthographic(16.0, 9.0, 0.1, 100.0)
    ensures kind != PerspectiveKind && kind != OrthographicKind ==> p == ZeroMatrix
  {
    if kind == PerspectiveKind then PerspectiveFieldOfView(DegreesToRadians(90.0), PerspectiveAspect, 0.1, 100.0)
    else if kind == OrthographicKind then Orthographic(16.0, 9.0, 0.1, 100.0)
    else ZeroMatrix
  }

  /** `new Camera(eye, target, up, kind)`: a default element placed at the eye. */
  function NewCamera(eye: Vec3, target: Vec3, up: Vec3, kind: Byte): (c: Camera)
    ensures ViewCurrent(c)
    ensures Eye(c) == eye && c.target == target && c.up == up
    ensures c.element == Elements.NewElement().(position := eye)
    ensures c.projection == DefaultProjection(kind)
  {
    UpdateView(Camera(Elements.NewElement().(position := eye), target, up, ZeroMatrix, DefaultProjection(kind)))
  }

  /** The overriding `Position` setter: the eye moves, the target and up vector stay. */
  function SetPosition(c: Camera, p: Vec3): (r: Camera)
    ensures ViewCurrent(r)
    ensures Eye(r) == p && r.target == c.target && r.up == c.up
    ensures r.element == c.element.(position := p) && r.projection == c.projection
  {
    UpdateView(c.(element := Elements.SetPosition(c.element, p)))
  }

  /** The `Target` setter. */
  function SetTarget(c: Camera, t: Vec3): (r: Camera)
    ensures ViewCurrent(r)
    ensures r.target == t && r.element == c.element && r.up == c.up && r.projection == c.projection
  {
    UpdateView(c.(target := t))
  }

  /** The `Up` setter. */
  function SetUp(c: Camera, u: Vec3): (r: Camera)
    ensures ViewCurrent(r)
    ensures r.up == u && r.element == c.element && r.target == c.target && r.projection == c.projection
  {
    UpdateView(c.(up := u))
  }

  /**
   * The overriding `Rotation` setter: stores the orientation, then turns the
   * target and the up vector by it about the origin.
   */
  function SetRotation(c: Camera, q: Quat): (r: Camera)
    ensures ViewCurrent(r)
    ensures r.element == c.element.(rotation := q)
    ensures r.target == RotatedBy(c.target, q) && r.up == RotatedBy(c.up, q)
    ensures r.projection == c.projection
  {
    var c1 := c.(element := Elements.SetRotation(c.element, q));
    var c2 := c1.(target := RotatedBy(c1.target, q));
    SetUp(c2, RotatedBy(c2.up, q))
  }

  /** The `Direction` getter: the unit vector from the eye to the target. */
  function Direction(c: Camera): (d: Vec3)
    ensures d == Normalized(Sub(c.target, Eye(c)))
  {
    Normalized(Sub(c.target, Eye(c)))
  }

  /** The `Direction` setter: the target becomes the eye plus the normalized direction. */
  function SetDirection(c: Camera, v: Vec3): (r: Camera)
    ensures ViewCurrent(r)
    ensures r.target == Add(Eye(c), Normalized(v))
    ensures r.element == c.element && r.up == c.up && r.projection == c.projection
  {
    SetTarget(c, Add(Eye(c), Normalized(v)))
  }

  /** The `ProjectionMatrix` setter: nothing but the projection changes. */
  function SetProjection(c: Camera, p: Mat4): (r: Camera)
    ensures r.projection == p && r.(projection := c.projection) == c
  {
    c.(projection := p)
  }

  /** The `CameraMatrix` getter: the view followed by the projection. */
  function CameraMatrix(c: Camera): (m: Mat4)
    ensures m.MatMul? && m.a == c.view && m.b == c.projection
  {
    MatMul(c.view, c.projection)
  }

  /**
   * `New2D`: a camera over the viewport, looking down the negative z axis
   * from its centre at the given layer, with an orthographic projection of
   * the viewport's size.
   */
  function New2D(layer: int, viewport: Vec2): (c: Camera)
    ensures ViewCurrent(c)
    ensures Eye(c) == Vec3(viewport.x / 2.0, viewport.y / 2.0, layer as real)
    ensures c.target == Vec3(0.0, 0.0, -1.0) && c.up == UnitY
    ensures c.projection == Orthographic(viewport.x, viewport.y, 0.1, 100.0)
    ensures c.element.rotation == QuatIdentity
  {
    var c0 := NewCamera(Vec3(0.0, 0.0, layer as real), Vec3(0.0, 0.0, -1.0), UnitY, PerspectiveKind);
    var c1 := c0.(element := c0.element.(position := Vec3(viewport.x / 2.0, viewport.y / 2.0, layer as real)));
    var c2 := c1.(projection := Orthographic(viewport.x, viewport.y, 0.1, 100.0));
    UpdateView(c2)
  }

  /** `RotateFromMouse`: turns the direction about y by the horizontal move, then about x by the vertical one. */
  function RotateFromMouse(c: Camera, mouseMove: Vec2): (r: Camera)
    ensures ViewCurrent(r)
    ensures Eye(r) == Eye(c) && r.up == c.up && r.element == c.element && r.projection == c.projection
    ensures r.target == Add(Eye(c), Normalized(
      TransformedBy(TransformedBy(Direction(c), RotationY(mouseMove.x)), RotationX(mouseMove.y))))
  {
    var turned := TransformedBy(Direction(c), RotationY(mouseMove.x));
    SetDirection(c, TransformedBy(turned, RotationX(mouseMove.y)))
  }

  /** `Move` on a camera goes through the overriding `Position` setter: the eye moves alone. */
  function Move(c: Camera, smooth: bool, deltaTime: real): (r: Camera)
    ensures ViewCurrent(r)
    ensures r.element == Elements.Move(c.element, smooth, deltaTime)
    ensures r.target == c.target && r.up == c.up && r.projection == c.projection
  {
    SetPosition(c, Elements.MoveTarget(c.element, smooth, deltaTime))
  }

  /** `Rotate` on a camera goes through the overriding `Rotation` setter. */
  function Rotate(c: Camera, axis: Vec3, clockwise: bool, smooth: bool, deltaTime: real): (r: Camera)
    ensures ViewCurrent(r)
    ensures r.element == Elements.Rotate(c.element, axis, clockwise, smooth, deltaTime)
    ensures r.target == RotatedBy(c.target, r.element.rotation) && r.up == RotatedBy(c.up, r.element.rotation)
    ensures r.projection == c.projection
  {
    SetRotation(c, Elements.RotateTarget(c.element, axis, clockwise, smooth, deltaTime))
  }

  /** `RotateLocal` on a camera: `Rotate` about the axis turned into world space. */
  function RotateLocal(c: Camera, axis: Vec3, clockwise: bool, smooth: bool, deltaTime: real): (r: Camera)
    ensures ViewCurrent(r)
    ensures r.element == Elements.RotateLocal(c.element, axis, clockwise, smooth, deltaTime)
    ensures r.target == RotatedBy(c.target, r.element.rotation) && r.up == RotatedBy(c.up, r.element.rotation)
    ensures r.projection == c.projection
  {
    Rotate(c, Elements.LocalAxis(c.element, axis), clockwise, smooth, deltaTime)
  }

  /**
   * A local turn of a camera composes its orientation with a turn about the
   * local axis carried into world space by the current orientation, and
   * carries target and up by the composed orientation; the eye stays.
   */
  lemma RotateLocalTurnsByComposed(c: Camera, axis: Vec3, clockwise: bool, smooth: bool, deltaTime: real)
    ensures var r := RotateLocal(c, axis, clockwise, smooth, deltaTime);
      var q := c.element.rotation;
      var turn := FromAxisAngle(RotatedBy(axis, q), DegreesToRadians(Elements.StepDegrees(c.element, clockwise, smooth, deltaTime)));
      && r.element == c.element.(rotation := QuatMul(q, turn))
      && r.target == RotatedBy(c.target, QuatMul(q, turn))
      && r.up == RotatedBy(c.up, QuatMul(q, turn))
      && Eye(r) == Eye(c)
  {
  }

  /** The public mutations of a camera. */
  datatype Op =
    | SetPositionOp(p: Vec3)
    | SetTargetOp(t: Vec3)
    | SetUpOp(u: Vec3)
    | SetRotationOp(q: Quat)
    | SetDirectionOp(v: Vec3)
    | SetProjectionOp(m: Mat4)
    | RotateFromMouseOp(mouseMove: Vec2)
    | MoveOp(smooth: bool, deltaTime: real)
    | RotateOp(axis: Vec3, clockwise: bool, smooth: bool, deltaTime: real)
    | RotateLocalOp(axis: Vec3, clockwise: bool, smooth: bool, deltaTime: real)
    | SetLinearSpeedOp(speed: real)
    | SetAngularSpeedOp(speed: real)
    | SetMovementDirectionOp(direction: Vec3)

  /** Applies one mutation. */
  function Apply(c: Camera, op: Op): Camera {
    match op
    case SetPositionOp(p) => SetPosition(c, p)
    case SetTargetOp(t) => SetTarget(c, t)
    case SetUpOp(u) => SetUp(c, u)
    case SetRotationOp(q) => SetRotation(c, q)
    case SetDirectionOp(v) => SetDirection(c, v)
    case SetProjectionOp(m) => SetProjection(c, m)
    case RotateFromMouseOp(mm) => RotateFromMouse(c, mm)
    case MoveOp(s, dt) => Move(c, s, dt)
    case RotateOp(a, cw, s, dt) => Rotate(c, a, cw, s, dt)
    case RotateLocalOp(a, cw, s, dt) => RotateLocal(c, a, cw, s, dt)
    case SetLinearSpeedOp(v) => c.(element := Elements.SetLinearSpeed(c.element, v))
    case SetAngularSpeedOp(v) => c.(element := Elements.SetAngularSpeed(c.element, v))
    case SetMovementDirectionOp(v) => c.(element := Elements.SetMovementDirection(c.element, v))
  }

  /** Applies the mutations in order. */
  function ApplyAll(c: Camera, ops: seq<Op>): Camera
    decreases |ops|
  {
    if ops == [] then c else ApplyAll(Apply(c, ops[0]), ops[1..])
  }

  /** Every mutation keeps the view matrix current. */
  lemma ApplyKeepsViewCurrent(c: Camera, op: Op)
    requires ViewCurrent(c)
    ensures ViewCurrent(Apply(c, op))
  {
  }

  /**
   * From construction on, whatever public mutations follow, the view matrix
   * is the look-at matrix of the current eye, target and up vector.
   */
  lemma {:induction false} ViewStaysCurrent(eye: Vec3, target: Vec3, up: Vec3, kind: Byte, ops: seq<Op>)
    ensures ViewCurrent(ApplyAll(NewCamera(eye, target, up, kind), ops))
  {
    ViewCurrentAfter(NewCamera(eye, target, up, kind), ops);
  }

  /** Any run of mutations from a camera with a current view keeps it current. */
  lemma {:induction false} ViewCurrentAfter(c: Camera, ops: seq<Op>)
    requires ViewCurrent(c)
    ensures ViewCurrent(ApplyAll(c, ops))
    decreases |ops|
  {
    if ops != [] {
      ApplyKeepsViewCurrent(c, ops[0]);
      ViewCurrentAfter(Apply(c, ops[0]), ops[1..]);
    }
  }

  /**
   * From construction on, the camera matrix is always the look-at matrix of
   * the current eye, target and up vector, followed by the projection.
   */
  lemma CameraMatrixIsLookAtThenProjection(eye: Vec3, target: Vec3, up: Vec3, kind: Byte, ops: seq<Op>)
    ensures var c := ApplyAll(NewCamera(eye, target, up, kind), ops);
      CameraMatrix(c) == MatMul(LookAt(Eye(c), c.target, c.up), c.projection)
  {
    ViewStaysCurrent(eye, target, up, kind, ops);
  }

  /** Only the projection setter changes the projection. */
  lemma {:induction false} ProjectionChangesOnlyBySetter(c: Camera, ops: seq<Op>)
    requires forall k :: 0 <= k < |ops| ==> !ops[k].SetProjectionOp?
    ensures ApplyAll(c, ops).projection == c.projection
    decreases |ops|
  {
    if ops != [] {
      ProjectionChangesOnlyBySetter(Apply(c, ops[0]), ops[1..]);
    }
  }

  /** The camera mutation that makes an element motion. */
  function MotionOp(m: Elements.Motion): Op {
    match m
    case MoveStep(s, dt) => MoveOp(s, dt)
    case Turn(a, cw, s, dt) => RotateOp(a, cw, s, dt)
    case TurnLocal(a, cw, s, dt) => RotateLocalOp(a, cw, s, dt)
  }

  /** The camera mutations that make a run of motions. */
  function MotionOps(ms: seq<Elements.Motion>): (ops: seq<Op>)
    ensures |ops| == |ms|
    ensures forall k :: 0 <= k < |ms| ==> ops[k] == MotionOp(ms[k])
  {
    seq(|ms|, k requires 0 <= k < |ms| => MotionOp(ms[k]))
  }

  /**
   * Going through the overriding setters changes nothing about how the
   * element itself moves and turns: after any run of moves and turns, the
   * camera's element is the plain element after the same motions.
   */
  lemma {:induction false} CameraElementFollowsMotions(c: Camera, ms: seq<Elements.Motion>)
    ensures ApplyAll(c, MotionOps(ms)).element == Elements.PerformAll(c.element, ms)
    decreases |ms|
  {
    if ms != [] {
      var ops := MotionOps(ms);
      assert ops[1..] == MotionOps(ms[1..]);
      var c1 := Apply(c, ops[0]);
      assert c1.element == Elements.Perform(c.element, ms[0]);
      CameraElementFollowsMotions(c1, ms[1..]);
    }
  }
}
