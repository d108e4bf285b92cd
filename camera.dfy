/**
  The fly-through camera (src/camera.c).

  The camera keeps a position and an orientation quaternion, and derives its
  view matrix from them. Each frame `update_camera` moves the position along
  the summed W/S/A/D directions (normalised when not zero) by 0.1, turns the
  orientation by a yaw about the world up axis and a pitch about the
  camera's right axis taken from the mouse offset from the window centre,
  renormalises it, and recomputes the view matrix.

  The inputs of a frame are four key flags, the mouse position and the
  window's integer width and height (`CameraInput`).
 */
module Camera {
  import opened Maths
  import opened QuatLaws
  import opened Memory

  /** The camera's view direction and its opposites, in world space
      (src/camera.c:3-31): the camera-space axes rotated by the conjugate
      of the orientation. */
  function Forward(o: Quaternion): Vector3 {
    QuatMulVec3(QuatConjugate(o), Vector3(0.0, 0.0, -1.0))
  }

  function Backward(o: Quaternion): Vector3 {
    QuatMulVec3(QuatConjugate(o), Vector3(0.0, 0.0, 1.0))
  }

  function Right(o: Quaternion): Vector3 {
    QuatMulVec3(QuatConjugate(o), Vector3(1.0, 0.0, 0.0))
  }

  function Left(o: Quaternion): Vector3 {
    QuatMulVec3(QuatConjugate(o), Vector3(-1.0, 0.0, 0.0))
  }

  function Up(o: Quaternion): Vector3 {
    QuatMulVec3(QuatConjugate(o), Vector3(0.0, 1.0, 0.0))
  }

  function Down(o: Quaternion): Vector3 {
    QuatMulVec3(QuatConjugate(o), Vector3(0.0, -1.0, 0.0))
  }

  /** For every orientation, backward, left and down are the opposites of
      forward, right and up, because quat_mul_vec3 is linear. */
  lemma OppositeDirections(o: Quaternion)
    ensures Backward(o) == Neg(Forward(o))
    ensures Left(o) == Neg(Right(o))
    ensures Down(o) == Neg(Up(o))
  {
    var c := QuatConjugate(o);
    QuatMulVec3Linear(c, Vector3(0.0, 0.0, -1.0), Zero3, -1.0);
    QuatMulVec3Linear(c, Vector3(1.0, 0.0, 0.0), Zero3, -1.0);
    QuatMulVec3Linear(c, Vector3(0.0, 1.0, 0.0), Zero3, -1.0);
    NegIsMulFloat(Forward(o));
    NegIsMulFloat(Right(o));
    NegIsMulFloat(Up(o));
  }

  /** The inputs update_camera reads in one frame: whether the keys W, S, A
      and D (key codes 87, 83, 65 and 68, src/platform.h:18-43) are held, the
      mouse position and the window's size. */
  datatype CameraInput = CameraInput(
    w: bool, s: bool, a: bool, d: bool,
    mouse: Vector2,
    width: int, height: int)

  const Speed: real := 0.1

  /** The key-by-key sum of src/camera.c:60-70 over the four directions. */
  function Accumulate(input: CameraInput, forward: Vector3, backward: Vector3,
                      left: Vector3, right: Vector3): Vector3 {
    var v := Zero3;
    var v := if input.w then Add(v, forward) else v;
    var v := if input.s then Add(v, backward) else v;
    var v := if input.a then Add(v, left) else v;
    if input.d then Add(v, right) else v
  }

  /** `velocity_dir` before normalisation (src/camera.c:57-70). */
  function Direction(o: Quaternion, input: CameraInput): Vector3 {
    Accumulate(input, Forward(o), Backward(o), Left(o), Right(o))
  }

  /** Opposite directions pressed together cancel out. */
  lemma AccumulateCancels(input: CameraInput, f: Vector3, r: Vector3)
    requires input.w == input.s && input.a == input.d
    ensures Accumulate(input, f, Neg(f), Neg(r), r) == Zero3
  {
  }

  /** The guarded normalisation of src/camera.c:70-71. */
  function Normalised(v: Vector3, lib: Libm): Vector3 {
    if Length(v, lib) > 0.0 then Norm(v, lib) else v
  }

  /** The zero vector stays zero, whatever sqrt returns: when sqrt reports
      length 0 the guard leaves it alone (normalising it would give NaN),
      and any other length scales zero to zero. */
  lemma NormalisedZero(lib: Libm)
    ensures Normalised(Zero3, lib) == Zero3
  {
    if Length(Zero3, lib) > 0.0 {
      assert Norm(Zero3, lib) == MulFloat(Zero3, 1.0 / Length(Zero3, lib));
    }
  }

  /** Without the guard, normalising the zero vector under a sound sqrt
      gives the unspecified result of a division by length 0. */
  lemma UnguardedZeroNorm(lib: Libm)
    requires SqrtSound(lib)
    ensures Norm(Zero3, lib) == lib.normAtZero(Zero3)
  {
    LengthZeroIff(Zero3, lib);
  }

  /** With a sound sqrt the guard normalises exactly the non-zero vectors,
      to unit length, and leaves the zero vector unnormalised. */
  lemma GuardedNormalisation(v: Vector3, lib: Libm)
    requires SqrtSound(lib)
    ensures v == Zero3 ==> Length(v, lib) == 0.0 && Normalised(v, lib) == v
    ensures v != Zero3 ==>
      Length(v, lib) > 0.0 && Normalised(v, lib) == Norm(v, lib) &&
      LengthSq(Normalised(v, lib)) == 1.0
  {
    LengthZeroIff(v, lib);
    if v != Zero3 {
      NormIsUnit(v, lib);
    }
  }

  /** `velocity_dir` after the guarded normalisation (src/camera.c:70-71). */
  function MoveDirection(o: Quaternion, input: CameraInput, lib: Libm): Vector3 {
    Normalised(Direction(o, input), lib)
  }

  /** A step of 0.1 along a direction. */
  function Step(p: Vector3, v: Vector3): Vector3 {
    Add(p, MulFloat(v, Speed))
  }

  function NextPosition(p: Vector3, o: Quaternion, input: CameraInput, lib: Libm): Vector3 {
    Step(p, MoveDirection(o, input, lib))
  }

  /** The mouse offset from the window centre; `width / 2` is C integer division. */
  function MouseDelta(input: CameraInput): Vector2 {
    Vector2(input.mouse.x - (TruncDiv(input.width, 2) as real),
            input.mouse.y - (TruncDiv(input.height, 2) as real))
  }

  function Yaw(input: CameraInput, lib: Libm): Quaternion {
    AngleAxis(0.005 * ToRadians(MouseDelta(input).x), Vector3(0.0, 1.0, 0.0), lib)
  }

  function Pitch(o: Quaternion, input: CameraInput, lib: Libm): Quaternion {
    AngleAxis(0.005 * ToRadians(MouseDelta(input).y), Right(o), lib)
  }

  /** The orientation after a frame (src/camera.c:79-85). */
  function NextOrientation(o: Quaternion, input: CameraInput, lib: Libm): Quaternion {
    QuatNorm(QuatMul(o, QuatMul(Yaw(input, lib), Pitch(o, input, lib))), lib)
  }

  /** The view matrix of update_camera_view (src/camera.c:33-38). */
  ghost function ViewOf(o: Quaternion, p: Vector3): Matrix4x4 {
    Product(QuatToMat4(o), Translate(Neg(p)))
  }

  /** Pressing both keys of a pair cancels it: with W and S in the same
      state and A and D in the same state (in particular none pressed) the
      position does not change, whatever sqrt returns. */
  lemma CancellingKeysKeepPosition(p: Vector3, o: Quaternion, input: CameraInput, lib: Libm)
    requires input.w == input.s && input.a == input.d
    ensures Direction(o, input) == Zero3
    ensures MoveDirection(o, input, lib) == Direction(o, input)
    ensures NextPosition(p, o, input, lib) == p
  {
    OppositeDirections(o);
    AccumulateCancels(input, Forward(o), Right(o));
    NormalisedZero(lib);
    assert MulFloat(Zero3, Speed) == Zero3;
  }

  /** With a sound sqrt the cancelled direction fails the guard's test
      `vec3_length(velocity_dir) > 0`, so it is never normalised. */
  lemma CancelledDirectionFailsGuard(o: Quaternion, input: CameraInput, lib: Libm)
    requires SqrtSound(lib)
    requires input.w == input.s && input.a == input.d
    ensures Length(Direction(o, input), lib) == 0.0
  {
    OppositeDirections(o);
    AccumulateCancels(input, Forward(o), Right(o));
    LengthZeroIff(Zero3, lib);
  }

  /** No key pressed: the camera stays where it is. */
  lemma NoKeysKeepPosition(p: Vector3, o: Quaternion, input: CameraInput, lib: Libm)
    requires !input.w && !input.s && !input.a && !input.d
    ensures Direction(o, input) == Zero3
    ensures MoveDirection(o, input, lib) == Zero3
    ensures NextPosition(p, o, input, lib) == p
  {
    CancellingKeysKeepPosition(p, o, input, lib);
  }

  /** The position moves by exactly 0.1 times the direction; when the summed
      direction is not zero it is normalised first, so the step has length 0.1. */
  lemma PositionStep(p: Vector3, o: Quaternion, input: CameraInput, lib: Libm)
    ensures Sub(NextPosition(p, o, input, lib), p) == MulFloat(MoveDirection(o, input, lib), 0.1)
    ensures SqrtSound(lib) && Direction(o, input) != Zero3 ==>
      LengthSq(Sub(NextPosition(p, o, input, lib), p)) == 0.1 * 0.1
  {
    var v := MoveDirection(o, input, lib);
    assert Sub(Add(p, MulFloat(v, Speed)), p) == MulFloat(v, 0.1);
    if SqrtSound(lib) && Direction(o, input) != Zero3 {
      GuardedNormalisation(Direction(o, input), lib);
      LengthSqMulFloat(v, 0.1);
    }
  }

  /** The turn is a right multiplication by yaw then pitch: the product
      orientation * (yaw * pitch) equals (orientation * yaw) * pitch. */
  lemma OrientationOrder(o: Quaternion, input: CameraInput, lib: Libm)
    ensures NextOrientation(o, input, lib) ==
      QuatNorm(QuatMul(QuatMul(o, Yaw(input, lib)), Pitch(o, input, lib)), lib)
  {
    QuatMulAssociative(o, Yaw(input, lib), Pitch(o, input, lib));
  }

  /** With a sound sqrt the new orientation is a unit quaternion, provided
      the old one and both turns are not zero. */
  lemma OrientationIsUnit(o: Quaternion, input: CameraInput, lib: Libm)
    requires SqrtSound(lib)
    requires QuatLengthSq(o) > 0.0
    requires QuatLengthSq(Yaw(input, lib)) > 0.0 && QuatLengthSq(Pitch(o, input, lib)) > 0.0
    ensures QuatLengthSq(NextOrientation(o, input, lib)) == 1.0
  {
    var yaw, pitch := Yaw(input, lib), Pitch(o, input, lib);
    QuatLengthSqMul(yaw, pitch);
    QuatLengthSqMul(o, QuatMul(yaw, pitch));
    MulPositive(QuatLengthSq(yaw), QuatLengthSq(pitch));
    MulPositive(QuatLengthSq(o), QuatLengthSq(QuatMul(yaw, pitch)));
    QuatNormIsUnit(QuatMul(o, QuatMul(yaw, pitch)), lib);
  }

  /** A mouse at the window centre does not turn the camera (given
      sin 0 = 0 and cos 0 = 1): the orientation is only renormalised. */
  lemma CentredMouseKeepsOrientation(o: Quaternion, input: CameraInput, lib: Libm)
    requires input.mouse == Vector2(TruncDiv(input.width, 2) as real, TruncDiv(input.height, 2) as real)
    requires lib.sin(0.0) == 0.0 && lib.cos(0.0) == 1.0
    ensures Yaw(input, lib) == IdentityQuat && Pitch(o, input, lib) == IdentityQuat
    ensures NextOrientation(o, input, lib) == QuatNorm(o, lib)
  {
    var d := MouseDelta(input);
    assert d == Zero2;
    var yawAngle, pitchAngle := 0.005 * ToRadians(d.x), 0.005 * ToRadians(d.y);
    assert yawAngle == 0.0 && pitchAngle == 0.0;
    AngleAxisZero(Vector3(0.0, 1.0, 0.0), lib);
    AngleAxisZero(Right(o), lib);
    assert Yaw(input, lib) == AngleAxis(yawAngle, Vector3(0.0, 1.0, 0.0), lib);
    assert Pitch(o, input, lib) == AngleAxis(pitchAngle, Right(o), lib);
    QuatMulIdentity(IdentityQuat);
    QuatMulIdentity(o);
  }

  /** At the identity orientation the view matrix is the inverse translation. */
  lemma IdentityView(p: Vector3)
    ensures ViewOf(IdentityQuat, p) == Translate(Neg(p))
  {
    QuatToMat4Identity();
    Mat4IdentityNeutral(Translate(Neg(p)));
  }

  const InitialPosition: Vector3 := Vector3(0.0, 0.0, 5.0)

  /** sizeof(Camera): a Vector3, a Quaternion and two Matrix4x4 of f32. */
  const CameraSize: nat := 4 * (3 + 4 + 16 + 16)

  /** The up vector, the view direction and the right vector of the
      initial camera. */
  const WorldUp: Vector3 := Vector3(0.0, 1.0, 0.0)
  const InitialForward: Vector3 := Vector3(0.0, 0.0, -1.0)
  const InitialRight: Vector3 := Vector3(1.0, 0.0, 0.0)

  /** The axes init_camera's look-at computes, given that sqrt is exact on
      25 and 1: the camera looks down -z with x to the right. */
  lemma InitialAxes(lib: Libm)
    requires lib.sqrt(25.0) == 5.0 && lib.sqrt(1.0) == 1.0
    ensures Norm(Sub(Zero3, InitialPosition), lib) == InitialForward
    ensures Norm(Cross(InitialForward, WorldUp), lib) == InitialRight
  {
    NormOf(Sub(Zero3, InitialPosition), 5.0, lib);
    NormOf(Cross(InitialForward, WorldUp), 1.0, lib);
  }

  /** The initial axes form a right-handed frame, and the eye lies on the
      view axis. */
  lemma InitialFrame()
    ensures Cross(InitialRight, InitialForward) == WorldUp
    ensures Dot(InitialRight, InitialPosition) == 0.0 && Dot(WorldUp, InitialPosition) == 0.0
    ensures Dot(InitialForward, InitialPosition) == -5.0
  {
  }

  /** The columns of the look-at matrix init_camera starts from. */
  lemma InitialLookAtColumns(lib: Libm)
    requires lib.sqrt(25.0) == 5.0 && lib.sqrt(1.0) == 1.0
    ensures LookAt(InitialPosition, Zero3, WorldUp, lib) ==
      [[1.0, 0.0, 0.0, 0.0], [0.0, 1.0, 0.0, 0.0], [0.0, 0.0, 1.0, 0.0], [0.0, 0.0, -5.0, 1.0]]
  {
    InitialAxes(lib);
    InitialFrame();
    LookAtOfAxes(InitialPosition, Zero3, WorldUp, InitialRight, InitialForward, lib);
  }

  /** The look-at matrix init_camera starts from, given that sqrt is exact
      on 25 and 1: the translation that takes the eye to the origin. */
  lemma InitialLookAt(lib: Libm)
    requires lib.sqrt(25.0) == 5.0 && lib.sqrt(1.0) == 1.0
    ensures LookAt(InitialPosition, Zero3, WorldUp, lib) == Translate(Neg(InitialPosition))
  {
    InitialLookAtColumns(lib);
    TranslateColumns(Neg(InitialPosition));
  }

  /** For a pure translation the w candidate, 3, is the greatest. */
  lemma TranslationCandidates(t: Vector3)
    ensures Candidates(Translate(t)) == [3.0, -1.0, -1.0, -1.0]
    ensures FirstGreatest(Candidates(Translate(t))) == 0
  {
    TranslateColumns(t);
    var c := Candidates(Translate(t));
    assert c == [3.0, -1.0, -1.0, -1.0];
    assert IsFirstMax(c, 0);
    FirstMaxUnique(c, 0, FirstGreatest(c));
  }

  /** mat4_to_quat recovers the identity rotation from a pure translation,
      given that sqrt is exact on 4. */
  lemma QuatOfTranslation(t: Vector3, lib: Libm)
    requires lib.sqrt(4.0) == 2.0
    ensures QuatOfMatrix(Translate(t), lib) == IdentityQuat
  {
    TranslationCandidates(t);
    TranslateColumns(t);
  }

  /** The state init_camera leaves behind, given that sqrt is exact on 25,
      4 and 1: the orientation is the identity, and the view matrix is the
      translation that takes the eye (0, 0, 5) to the origin. */
  lemma InitialState(lib: Libm)
    requires lib.sqrt(25.0) == 5.0 && lib.sqrt(4.0) == 2.0 && lib.sqrt(1.0) == 1.0
    ensures QuatOfMatrix(LookAt(InitialPosition, Zero3, WorldUp, lib), lib) == IdentityQuat
    ensures ViewOf(IdentityQuat, InitialPosition) == Translate(Neg(InitialPosition))
  {
    InitialLookAt(lib);
    QuatOfTranslation(Neg(InitialPosition), lib);
    IdentityView(InitialPosition);
  }

  /** struct Camera (src/camera.h:4-10). */
  class Camera {
    var position: Vector3
    var orientation: Quaternion
    var viewMatrix: Matrix4x4
    var projectionMatrix: Matrix4x4

    /** The zero bytes of fresh arena memory. */
    constructor ()
      ensures position == Zero3 && orientation == Quaternion(0.0, 0.0, 0.0, 0.0)
      ensures viewMatrix == Mat4(0.0) && projectionMatrix == Mat4(0.0)
    {
      position := Zero3;
      orientation := Quaternion(0.0, 0.0, 0.0, 0.0);
      viewMatrix := Mat4(0.0);
      projectionMatrix := Mat4(0.0);
    }

    /** update_camera_view (src/camera.c:33-38). */
    method UpdateView()
      modifies this`viewMatrix
      ensures viewMatrix == ViewOf(orientation, position)
    {
      viewMatrix := ViewMatrix(orientation, position);
    }

    /** The stores of update_camera: the new position and orientation
        (src/camera.c:73, 84-85) and the view matrix recomputed from them
        (src/camera.c:87). */
    method Store(p: Vector3, o: Quaternion, view: Matrix4x4)
      modifies this`position, this`orientation, this`viewMatrix
      ensures position == p && orientation == o && viewMatrix == view
    {
      position := p;
      orientation := o;
      viewMatrix := view;
    }

    /** update_camera (src/camera.c:55-88): move along the keys pressed,
        turn by the mouse offset, recompute the view. */
    method Update(input: CameraInput, lib: Libm)
      modifies this`position, this`orientation, this`viewMatrix
      ensures position == NextPosition(old(position), old(orientation), input, lib)
      ensures orientation == NextOrientation(old(orientation), input, lib)
      ensures viewMatrix == ViewOf(orientation, position)
    {
      var p := MovedPosition(position, orientation, input, lib);
      var o := TurnedOrientation(orientation, input, lib);
      var view := ViewMatrix(o, p);
      Store(p, o, view);
    }
  }

  /** The matrix update_camera_view computes (src/camera.c:33-38). */
  method ViewMatrix(orientation: Quaternion, position: Vector3) returns (view: Matrix4x4)
    ensures view == ViewOf(orientation, position)
  {
    var rotation := QuatToMat4(orientation);
    var translation := Translate(Vector3(-position.x, -position.y, -position.z));
    view := Mat4Mul(rotation, translation);
  }

  /** The movement part of update_camera (src/camera.c:57-73). */
  method MovedPosition(position: Vector3, orientation: Quaternion, input: CameraInput, lib: Libm)
    returns (result: Vector3)
    ensures result == NextPosition(position, orientation, input, lib)
  {
    var velocityDir := Zero3;
    var velocitySpeed := 0.1;

    if input.w {
      velocityDir := Add(velocityDir, Forward(orientation));
    }
    if input.s {
      velocityDir := Add(velocityDir, Backward(orientation));
    }
    if input.a {
      velocityDir := Add(velocityDir, Left(orientation));
    }
    if input.d {
      velocityDir := Add(velocityDir, Right(orientation));
    }
    if Length(velocityDir, lib) > 0.0 {
      velocityDir := Norm(velocityDir, lib);
    }
    result := Add(position, MulFloat(velocityDir, velocitySpeed));
  }

  /** The turning part of update_camera (src/camera.c:79-85). */
  method TurnedOrientation(orientation: Quaternion, input: CameraInput, lib: Libm)
    returns (result: Quaternion)
    ensures result == NextOrientation(orientation, input, lib)
  {
    var delta := Zero2;
    delta := delta.(x := input.mouse.x - (TruncDiv(input.width, 2) as real));
    delta := delta.(y := input.mouse.y - (TruncDiv(input.height, 2) as real));

    var yaw := AngleAxis(0.005 * ToRadians(delta.x), Vector3(0.0, 1.0, 0.0), lib);
    var pitch := AngleAxis(0.005 * ToRadians(delta.y), Right(orientation), lib);
    var rotation := QuatMul(yaw, pitch);
    result := QuatMul(orientation, rotation);
    result := QuatNorm(result, lib);
  }

  /** init_camera (src/camera.c:40-53): the camera record is pushed on the
      arena, then placed at (0, 0, 5) looking at the origin. */
  method InitCamera(arena: Arena, projection: Matrix4x4, lib: Libm) returns (camera: Camera)
    requires arena.Valid()
    requires arena.used + CameraSize <= arena.size
    modifies arena
    ensures arena.Valid()
    ensures arena.used == old(arena.used) + CameraSize
    ensures arena.size == old(arena.size) && arena.base == old(arena.base)
    ensures arena.spans == old(arena.spans) + [Span(old(arena.used), CameraSize)]
    ensures fresh(camera)
    ensures camera.projectionMatrix == projection
    ensures camera.position == InitialPosition
    ensures camera.orientation == QuatOfMatrix(LookAt(InitialPosition, Zero3, WorldUp, lib), lib)
    ensures camera.viewMatrix == ViewOf(camera.orientation, camera.position)
  {
    var _ := arena.PushStruct(CameraSize);
    camera := new Camera();
    camera.projectionMatrix := projection;
    camera.position := Vector3(0.0, 0.0, 5.0);
    camera.viewMatrix := LookAt(camera.position, Vector3(0.0, 0.0, 0.0), Vector3(0.0, 1.0, 0.0), lib);
    camera.orientation := Mat4ToQuat(camera.viewMatrix, lib);
    camera.UpdateView();
  }
}
