/**
  The math library of the renderer (src/maths.h and src/maths.c): 3-vectors,
  quaternions and column-major 4x4 matrices, over the reals instead of 32-bit
  floats.

  The transcendental functions of libm (sqrt, sin, cos) are not defined here:
  they are the fields of a `Libm` value that every caller passes in, so the
  model assumes nothing about them except where a lemma says so (`SqrtSound`).
 */
module Maths {

  // ---------------------------------------------------------------------
  // libm and C arithmetic
  // ---------------------------------------------------------------------

  /** The libm functions the code calls, left uninterpreted. `overZero(a)`
      stands for whatever `a / 0.0f` yields in IEEE arithmetic (an infinity
      or NaN), which has no real-number counterpart. `normAtZero(v)` and
      `quatNormAtZero(q)` stand for what `vec3_norm` and `quat_norm` yield
      when the length is 0: a vector scaled by `1.0f / 0.0f`, whose zero
      components become NaN. They are unconstrained, so no property proved
      here depends on what that NaN vector is. */
  datatype Libm = Libm(
    sqrt: real -> real,
    sin: real -> real,
    cos: real -> real,
    overZero: real -> real,
    normAtZero: Vector3 -> Vector3,
    quatNormAtZero: Quaternion -> Quaternion)

  /** sqrt is correct at x: its result is the non-negative square root. */
  ghost predicate SqrtAt(lib: Libm, x: real) {
    0.0 <= lib.sqrt(x) && lib.sqrt(x) * lib.sqrt(x) == x
  }

  /** The one property of sqrt that some lemmas rely on: it is correct on
      every non-negative argument. */
  ghost predicate SqrtSound(lib: Libm) {
    forall x: real :: 0.0 <= x ==> SqrtAt(lib, x)
  }

  /** The float division `a / b` of the source. */
  function Quot(a: real, b: real, lib: Libm): real {
    if b != 0.0 then a / b else lib.overZero(a)
  }

  /** Division by a non-zero divisor is exact. */
  lemma QuotExact(a: real, b: real, lib: Libm)
    requires b != 0.0
    ensures Quot(a, b, lib) * b == a
  {
  }

  /** C's `/` on signed integers truncates toward zero. */
  function TruncDiv(a: int, b: int): (r: int)
    requires b > 0
    ensures a >= 0 ==> r * b <= a < r * b + b
    ensures a < 0 ==> r * b - b < a <= r * b
    ensures (a >= 0 ==> r >= 0) && (a <= 0 ==> r <= 0)
  {
    if a >= 0 then
      DivBounds(a, b);
      a / b
    else
      DivBounds(-a, b);
      -((-a) / b)
  }

  /** Euclidean division of a natural number: the quotient is the largest
      multiple of b not above n. */
  lemma DivBounds(n: nat, b: int)
    requires b > 0
    ensures 0 <= n / b && (n / b) * b <= n < (n / b) * b + b
    ensures (-(n / b)) * b == -((n / b) * b)
  {
  }

  const PI: real := 3.1415926535897

  /** to_radians (src/maths.h:8). */
  function ToRadians(degrees: real): (r: real)
    ensures r * 180.0 == degrees * PI
  {
    degrees * (PI / 180.0)
  }

  // ---------------------------------------------------------------------
  // Vectors (src/maths.h)
  // ---------------------------------------------------------------------

  datatype Vector2 = Vector2(x: real, y: real)

  datatype Vector3 = Vector3(x: real, y: real, z: real)

  const Zero2: Vector2 := Vector2(0.0, 0.0)
  const Zero3: Vector3 := Vector3(0.0, 0.0, 0.0)

  /** `v.elements[j]`. */
  function Elem(v: Vector3, j: nat): real
    requires j < 3
  {
    if j == 0 then v.x else if j == 1 then v.y else v.z
  }

  function Add(a: Vector3, b: Vector3): Vector3 {
    Vector3(a.x + b.x, a.y + b.y, a.z + b.z)
  }

  function Sub(a: Vector3, b: Vector3): Vector3 {
    Vector3(a.x - b.x, a.y - b.y, a.z - b.z)
  }

  function MulFloat(a: Vector3, f: real): Vector3 {
    Vector3(a.x * f, a.y * f, a.z * f)
  }

  function Neg(v: Vector3): Vector3 {
    Vector3(-v.x, -v.y, -v.z)
  }

  function Dot(a: Vector3, b: Vector3): real {
    a.x * b.x + a.y * b.y + a.z * b.z
  }

  function Cross(a: Vector3, b: Vector3): Vector3 {
    Vector3(a.y * b.z - a.z * b.y,
            a.z * b.x - a.x * b.z,
            a.x * b.y - a.y * b.x)
  }

  function LengthSq(v: Vector3): real {
    v.x * v.x + v.y * v.y + v.z * v.z
  }

  function Length(v: Vector3, lib: Libm): real {
    lib.sqrt(LengthSq(v))
  }

  /** vec3_norm: the vector scaled by 1 / length; when sqrt reports length
      0 the result is the unspecified `lib.normAtZero(v)`. */
  function Norm(v: Vector3, lib: Libm): Vector3 {
    var l := Length(v, lib);
    if l != 0.0 then MulFloat(v, 1.0 / l) else lib.normAtZero(v)
  }

  /** A vector whose length sqrt reports as l != 0 is normalised by scaling with 1 / l. */
  lemma NormOf(v: Vector3, l: real, lib: Libm)
    requires Length(v, lib) == l && l != 0.0
    ensures Norm(v, lib) == MulFloat(v, 1.0 / l)
  {
  }

  lemma SubAddCancel(a: Vector3, b: Vector3)
    ensures Sub(Add(a, b), b) == a
  {
  }

  lemma DotSymmetric(a: Vector3, b: Vector3)
    ensures Dot(a, b) == Dot(b, a)
  {
  }

  lemma Square(a: real)
    ensures a * a >= 0.0
  {
    if a < 0.0 {
      assert (-a) * (-a) > 0.0;
    }
  }

  lemma LengthSqIsSelfDot(v: Vector3)
    ensures LengthSq(v) == Dot(v, v)
    ensures LengthSq(v) >= 0.0
  {
    Square(v.x);
    Square(v.y);
    Square(v.z);
  }

  lemma CrossAntiCommutative(a: Vector3, b: Vector3)
    ensures Cross(a, b) == Neg(Cross(b, a))
  {
  }

  lemma CrossOrthogonal(a: Vector3, b: Vector3)
    ensures Dot(a, Cross(a, b)) == 0.0
    ensures Dot(b, Cross(a, b)) == 0.0
  {
  }

  lemma ZeroVector(v: Vector3)
    ensures MulFloat(v, 0.0) == Zero3
    ensures Add(v, Zero3) == v && Add(Zero3, v) == v
  {
  }

  lemma MulFloatDistributes(a: Vector3, b: Vector3, f: real)
    ensures MulFloat(Add(a, b), f) == Add(MulFloat(a, f), MulFloat(b, f))
  {
  }

  /** Cross product is linear in its second argument. */
  lemma CrossLinear(u: Vector3, a: Vector3, b: Vector3, f: real)
    ensures Cross(u, Add(a, b)) == Add(Cross(u, a), Cross(u, b))
    ensures Cross(u, MulFloat(a, f)) == MulFloat(Cross(u, a), f)
  {
    CrossAddX(u, a, b);
    CrossScaleX(u, a, f);
    CrossAddY(u, a, b);
    CrossScaleY(u, a, f);
    CrossAddZ(u, a, b);
    CrossScaleZ(u, a, f);
  }

  lemma CrossAddX(u: Vector3, a: Vector3, b: Vector3)
    ensures Cross(u, Add(a, b)).x == Add(Cross(u, a), Cross(u, b)).x
  {
  }

  lemma CrossScaleX(u: Vector3, a: Vector3, f: real)
    ensures Cross(u, MulFloat(a, f)).x == MulFloat(Cross(u, a), f).x
  {
    var m, c := MulFloat(a, f), Cross(u, a);
    CrossScaleOnCoordinates(u.x, u.y, u.z, a.x, a.y, a.z, f, m.x, m.y, m.z, c.x, c.y, c.z);
  }

  lemma CrossAddY(u: Vector3, a: Vector3, b: Vector3)
    ensures Cross(u, Add(a, b)).y == Add(Cross(u, a), Cross(u, b)).y
  {
  }

  lemma CrossScaleY(u: Vector3, a: Vector3, f: real)
    ensures Cross(u, MulFloat(a, f)).y == MulFloat(Cross(u, a), f).y
  {
    var m, c := MulFloat(a, f), Cross(u, a);
    CrossScaleOnCoordinates(u.x, u.y, u.z, a.x, a.y, a.z, f, m.x, m.y, m.z, c.x, c.y, c.z);
  }

  lemma CrossAddZ(u: Vector3, a: Vector3, b: Vector3)
    ensures Cross(u, Add(a, b)).z == Add(Cross(u, a), Cross(u, b)).z
  {
  }

  lemma CrossScaleZ(u: Vector3, a: Vector3, f: real)
    ensures Cross(u, MulFloat(a, f)).z == MulFloat(Cross(u, a), f).z
  {
    var m, c := MulFloat(a, f), Cross(u, a);
    CrossScaleOnCoordinates(u.x, u.y, u.z, a.x, a.y, a.z, f, m.x, m.y, m.z, c.x, c.y, c.z);
  }

  /** Scaling commutes with the cross product, on coordinates: m = a * f and c = u x a. */
  lemma CrossScaleOnCoordinates(ux: real, uy: real, uz: real, ax: real, ay: real, az: real, f: real,
                                mx: real, my: real, mz: real, cx: real, cy: real, cz: real)
    requires Vector3(mx, my, mz) == MulFloat(Vector3(ax, ay, az), f)
    requires Vector3(cx, cy, cz) == Cross(Vector3(ux, uy, uz), Vector3(ax, ay, az))
    ensures uy * mz - uz * my == cx * f
    ensures uz * mx - ux * mz == cy * f
    ensures ux * my - uy * mx == cz * f
  {
  }

  lemma NegIsMulFloat(v: Vector3)
    ensures Neg(v) == MulFloat(v, -1.0)
  {
  }

  lemma LengthSqMulFloat(v: Vector3, f: real)
    ensures LengthSq(MulFloat(v, f)) == f * f * LengthSq(v)
  {
  }

  lemma MulPositive(a: real, b: real)
    requires a > 0.0 && b > 0.0
    ensures a * b > 0.0
  {
  }

  lemma SquareMonotone(a: real, b: real)
    requires 0.0 <= a < b
    ensures a * a < b * b
  {
    MulPositive(b - a, b + a);
    assert (b - a) * (b + a) == b * b - a * a;
  }

  /** `t > 0`, as a named fact so that it carries over an equation for `t`. */
  predicate IsPositive(t: real) {
    t > 0.0
  }

  /** A sum of three squares, not all of them of zero, is positive. */
  lemma SumOfSquaresPositive(a: real, b: real, c: real, t: real)
    requires t == a * a + b * b + c * c
    requires a != 0.0 || b != 0.0 || c != 0.0
    ensures t > 0.0
  {
    assert IsPositive(a * a + b * b + c * c) by {
      assert a * a >= 0.0;
      assert b * b >= 0.0;
      assert c * c >= 0.0;
      assert a * a > 0.0 || b * b > 0.0 || c * c > 0.0;
    }
    assert IsPositive(t);
  }

  /** Only the zero vector has squared length 0. */
  lemma LengthSqPositive(v: Vector3)
    requires v != Zero3
    ensures LengthSq(v) > 0.0
  {
    SumOfSquaresPositive(v.x, v.y, v.z, LengthSq(v));
  }

  /** A sound sqrt maps the square of a non-negative number back to it. */
  lemma SqrtOfSquare(lib: Libm, a: real)
    requires SqrtSound(lib)
    requires a >= 0.0
    ensures lib.sqrt(a * a) == a
  {
    Square(a);
    assert SqrtAt(lib, a * a);
    var r := lib.sqrt(a * a);
    assert r >= 0.0 && r * r == a * a;
    if r < a {
      SquareMonotone(r, a);
    } else if a < r {
      SquareMonotone(a, r);
    }
  }

  lemma SqrtZero(lib: Libm)
    requires SqrtSound(lib)
    ensures lib.sqrt(0.0) == 0.0
  {
    SqrtOfSquare(lib, 0.0);
  }

  /** With a sound sqrt exactly the zero vector has length 0. */
  lemma LengthZeroIff(v: Vector3, lib: Libm)
    requires SqrtSound(lib)
    ensures Length(v, lib) == 0.0 <==> v == Zero3
  {
    if v == Zero3 {
      assert LengthSq(v) == 0.0;
      SqrtZero(lib);
    } else {
      NormIsUnit(v, lib);
    }
  }

  /** With a sound sqrt, normalising a non-zero vector gives unit length. */
  lemma NormIsUnit(v: Vector3, lib: Libm)
    requires SqrtSound(lib)
    requires v != Zero3
    ensures Length(v, lib) > 0.0
    ensures LengthSq(Norm(v, lib)) == 1.0
  {
    LengthSqIsSelfDot(v);
    assert SqrtAt(lib, LengthSq(v));
    var l := Length(v, lib);
    assert l * l == LengthSq(v);
    LengthSqPositive(v);
    assert l != 0.0;
    var s := 1.0 / l;
    assert s * l == 1.0;
    calc {
      LengthSq(Norm(v, lib));
      LengthSq(MulFloat(v, s));
      s * s * LengthSq(v);
      (s * l) * (s * l);
      1.0;
    }
  }

  // ---------------------------------------------------------------------
  // Quaternions (src/maths.h:82-103, src/maths.c:147-191)
  // ---------------------------------------------------------------------

  datatype Quaternion = Quaternion(x: real, y: real, z: real, w: real)

  const IdentityQuat: Quaternion := Quaternion(0.0, 0.0, 0.0, 1.0)

  /** The vector part `vec3(q.x, q.y, q.z)`. */
  function Axis(q: Quaternion): Vector3 {
    Vector3(q.x, q.y, q.z)
  }

  function QuatMulFloat(q: Quaternion, f: real): Quaternion {
    Quaternion(q.x * f, q.y * f, q.z * f, q.w * f)
  }

  function QuatLengthSq(q: Quaternion): real {
    q.x * q.x + q.y * q.y + q.z * q.z + q.w * q.w
  }

  function QuatLength(q: Quaternion, lib: Libm): real {
    lib.sqrt(QuatLengthSq(q))
  }

  /** quat_norm: the quaternion scaled by 1 / length; when sqrt reports
      length 0 the result is the unspecified `lib.quatNormAtZero(q)`. */
  function QuatNorm(q: Quaternion, lib: Libm): Quaternion {
    var l := QuatLength(q, lib);
    if l != 0.0 then QuatMulFloat(q, 1.0 / l) else lib.quatNormAtZero(q)
  }

  /** Hamilton product (src/maths.c:147-157). */
  function QuatMul(a: Quaternion, b: Quaternion): Quaternion {
    Quaternion(
      a.w * b.x + a.x * b.w + a.y * b.z - a.z * b.y,
      a.w * b.y - a.x * b.z + a.y * b.w + a.z * b.x,
      a.w * b.z + a.x * b.y - a.y * b.x + a.z * b.w,
      a.w * b.w - a.x * b.x - a.y * b.y - a.z * b.z)
  }

  /** Rotate v by q with the two-cross-product formula (src/maths.c:159-163). */
  function QuatMulVec3(q: Quaternion, v: Vector3): Vector3 {
    var t := MulFloat(Cross(Axis(q), v), 2.0);
    Add(Add(v, MulFloat(t, q.w)), Cross(Axis(q), t))
  }

  function QuatConjugate(q: Quaternion): Quaternion {
    Quaternion(-q.x, -q.y, -q.z, q.w)
  }

  /** angle_axis (src/maths.c:177-191). */
  function AngleAxis(angle: real, axis: Vector3, lib: Libm): Quaternion {
    var n := Norm(axis, lib);
    var s := lib.sin(angle * 0.5);
    Quaternion(n.x * s, n.y * s, n.z * s, lib.cos(angle * 0.5))
  }

  /** A turn by angle 0 about any axis is the identity, given sin 0 = 0 and cos 0 = 1. */
  lemma AngleAxisZero(axis: Vector3, lib: Libm)
    requires lib.sin(0.0) == 0.0 && lib.cos(0.0) == 1.0
    ensures AngleAxis(0.0, axis, lib) == IdentityQuat
  {
    var n := Norm(axis, lib);
    assert 0.0 * 0.5 == 0.0;
    assert n.x * 0.0 == 0.0 && n.y * 0.0 == 0.0 && n.z * 0.0 == 0.0;
  }

  lemma QuatLengthSqMulFloat(q: Quaternion, f: real)
    ensures QuatLengthSq(QuatMulFloat(q, f)) == f * f * QuatLengthSq(q)
  {
  }

  lemma QuatLengthSqNonNegative(q: Quaternion)
    ensures QuatLengthSq(q) >= 0.0
  {
    Square(q.x);
    Square(q.y);
    Square(q.z);
    Square(q.w);
  }

  /** With a sound sqrt, quat_norm of a non-zero quaternion is a unit quaternion. */
  lemma QuatNormIsUnit(q: Quaternion, lib: Libm)
    requires SqrtSound(lib)
    requires QuatLengthSq(q) != 0.0
    ensures QuatLengthSq(QuatNorm(q, lib)) == 1.0
  {
    QuatLengthSqNonNegative(q);
    assert SqrtAt(lib, QuatLengthSq(q));
    var l := QuatLength(q, lib);
    var s := 1.0 / l;
    assert l * l == QuatLengthSq(q);
    assert l != 0.0;
    assert s * l == 1.0;
    QuatLengthSqMulFloat(q, s);
    assert s * s * (l * l) == (s * l) * (s * l);
  }

  lemma QuatMulIdentity(q: Quaternion)
    ensures QuatMul(IdentityQuat, q) == q
    ensures QuatMul(q, IdentityQuat) == q
  {
  }

  lemma QuatConjugateInvolution(q: Quaternion)
    ensures QuatConjugate(QuatConjugate(q)) == q
    ensures QuatConjugate(q).w == q.w && Axis(QuatConjugate(q)) == Neg(Axis(q))
  {
  }

  /** The vector `t = 2 (q.xyz x v)` that quat_mul_vec3 builds first. */
  function Twist(q: Quaternion, v: Vector3): Vector3 {
    MulFloat(Cross(Axis(q), v), 2.0)
  }

  lemma QuatMulVec3Parts(q: Quaternion, v: Vector3)
    ensures QuatMulVec3(q, v) == Add(Add(v, MulFloat(Twist(q, v), q.w)), Cross(Axis(q), Twist(q, v)))
  {
  }

  lemma MulFloatCommute(v: Vector3, f: real, g: real)
    ensures MulFloat(MulFloat(v, f), g) == MulFloat(MulFloat(v, g), f)
  {
    assert (v.x * f) * g == (v.x * g) * f;
    assert (v.y * f) * g == (v.y * g) * f;
    assert (v.z * f) * g == (v.z * g) * f;
  }

  lemma TwistLinear(q: Quaternion, a: Vector3, b: Vector3, f: real)
    ensures Twist(q, Add(a, b)) == Add(Twist(q, a), Twist(q, b))
    ensures Twist(q, MulFloat(a, f)) == MulFloat(Twist(q, a), f)
  {
    var u := Axis(q);
    CrossLinear(u, a, b, f);
    MulFloatDistributes(Cross(u, a), Cross(u, b), 2.0);
    MulFloatCommute(Cross(u, a), f, 2.0);
  }

  /** quat_mul_vec3(q, .) is linear. */
  lemma QuatMulVec3Linear(q: Quaternion, a: Vector3, b: Vector3, f: real)
    ensures QuatMulVec3(q, Add(a, b)) == Add(QuatMulVec3(q, a), QuatMulVec3(q, b))
    ensures QuatMulVec3(q, MulFloat(a, f)) == MulFloat(QuatMulVec3(q, a), f)
  {
    var u, w := Axis(q), q.w;
    var ta, tb := Twist(q, a), Twist(q, b);
    QuatMulVec3Parts(q, a);
    QuatMulVec3Parts(q, b);
    QuatMulVec3Parts(q, Add(a, b));
    QuatMulVec3Parts(q, MulFloat(a, f));
    TwistLinear(q, a, b, f);
    MulFloatDistributes(ta, tb, w);
    CrossLinear(u, ta, tb, f);
    MulFloatCommute(ta, f, w);
    calc {
      QuatMulVec3(q, MulFloat(a, f));
      Add(Add(MulFloat(a, f), MulFloat(MulFloat(ta, f), w)), Cross(u, MulFloat(ta, f)));
      Add(Add(MulFloat(a, f), MulFloat(MulFloat(ta, w), f)), MulFloat(Cross(u, ta), f));
      { MulFloatDistributes(a, MulFloat(ta, w), f);
        MulFloatDistributes(Add(a, MulFloat(ta, w)), Cross(u, ta), f); }
      MulFloat(QuatMulVec3(q, a), f);
    }
  }

  lemma QuatMulVec3Identity(v: Vector3)
    ensures QuatMulVec3(IdentityQuat, v) == v
  {
    assert Axis(IdentityQuat) == Zero3;
    assert Twist(IdentityQuat, v) == Zero3;
    QuatMulVec3Parts(IdentityQuat, v);
  }

  // ---------------------------------------------------------------------
  // 4x4 matrices (src/maths.c:3-145), column-major: m[i][j] is column i, row j
  // ---------------------------------------------------------------------

  type Column = c: seq<real> | |c| == 4 witness [0.0, 0.0, 0.0, 0.0]

  type Matrix4x4 = m: seq<Column> | |m| == 4
    witness var c: Column := [0.0, 0.0, 0.0, 0.0]; [c, c, c, c]

  /** `m.elements[i][j] = v`. */
  function SetEntry(m: Matrix4x4, i: nat, j: nat, v: real): (r: Matrix4x4)
    requires i < 4 && j < 4
    ensures forall i', j' :: 0 <= i' < 4 && 0 <= j' < 4 ==>
      r[i'][j'] == if i' == i && j' == j then v else m[i'][j']
  {
    m[i := m[i][j := v]]
  }

  /** mat4(f) (src/maths.c:3-13): f on the diagonal, 0 elsewhere. */
  function Mat4(f: real): (r: Matrix4x4)
    ensures forall i, j :: 0 <= i < 4 && 0 <= j < 4 ==> r[i][j] == if i == j then f else 0.0
  {
    [[f, 0.0, 0.0, 0.0], [0.0, f, 0.0, 0.0], [0.0, 0.0, f, 0.0], [0.0, 0.0, 0.0, f]]
  }

  /** Row j of a times column i of b. */
  function Entry(a: Matrix4x4, b: Matrix4x4, i: nat, j: nat): real
    requires i < 4 && j < 4
  {
    a[0][j] * b[i][0] + a[1][j] * b[i][1] + a[2][j] * b[i][2] + a[3][j] * b[i][3]
  }

  /** The matrix product a * b. */
  ghost function Product(a: Matrix4x4, b: Matrix4x4): (r: Matrix4x4)
    ensures forall i, j :: 0 <= i < 4 && 0 <= j < 4 ==> r[i][j] == Entry(a, b, i, j)
  {
    seq(4, i requires 0 <= i < 4 => seq(4, j requires 0 <= j < 4 => Entry(a, b, i, j)))
  }

  lemma MatrixExt(a: Matrix4x4, b: Matrix4x4)
    requires forall i, j :: 0 <= i < 4 && 0 <= j < 4 ==> a[i][j] == b[i][j]
    ensures a == b
  {
    forall i | 0 <= i < 4 ensures a[i] == b[i] {
      assert a[i][0] == b[i][0] && a[i][1] == b[i][1] && a[i][2] == b[i][2] && a[i][3] == b[i][3];
    }
  }

  /** mat4_mul (src/maths.c:15-29): the nested loops fill `result` entry by entry. */
  method Mat4Mul(a: Matrix4x4, b: Matrix4x4) returns (result: Matrix4x4)
    ensures result == Product(a, b)
  {
    result := Mat4(0.0);
    for j := 0 to 4
      invariant forall i', j' :: 0 <= i' < 4 && 0 <= j' < j ==> result[i'][j'] == Entry(a, b, i', j')
    {
      for i := 0 to 4
        invariant forall i', j' :: 0 <= i' < 4 && 0 <= j' < j ==> result[i'][j'] == Entry(a, b, i', j')
        invariant forall i' :: 0 <= i' < i ==> result[i'][j] == Entry(a, b, i', j)
      {
        result := SetEntry(result, i, j,
          a[0][j] * b[i][0] + a[1][j] * b[i][1] + a[2][j] * b[i][2] + a[3][j] * b[i][3]);
      }
    }
    MatrixExt(result, Product(a, b));
  }

  /** mat4_mul_float (src/maths.c:31-39): scales the parameter copy in place. */
  method Mat4MulFloat(m: Matrix4x4, f: real) returns (result: Matrix4x4)
    ensures forall i, j :: 0 <= i < 4 && 0 <= j < 4 ==> result[i][j] == m[i][j] * f
  {
    result := m;
    for j := 0 to 4
      invariant forall i', j' :: 0 <= i' < 4 && 0 <= j' < 4 ==>
        result[i'][j'] == if j' < j then m[i'][j'] * f else m[i'][j']
    {
      for i := 0 to 4
        invariant forall i', j' :: 0 <= i' < 4 && 0 <= j' < 4 ==>
          result[i'][j'] == if j' < j || (j' == j && i' < i) then m[i'][j'] * f else m[i'][j']
      {
        result := SetEntry(result, i, j, result[i][j] * f);
      }
    }
  }

  /** mat4(1) is a two-sided identity of the product. */
  lemma Mat4IdentityNeutral(m: Matrix4x4)
    ensures Product(Mat4(1.0), m) == m
    ensures Product(m, Mat4(1.0)) == m
  {
    var id := Mat4(1.0);
    forall i, j | 0 <= i < 4 && 0 <= j < 4
      ensures Product(id, m)[i][j] == m[i][j] && Product(m, id)[i][j] == m[i][j]
    {
      assert Entry(id, m, i, j) == m[i][j];
      assert Entry(m, id, i, j) == m[i][j];
    }
    MatrixExt(Product(id, m), m);
    MatrixExt(Product(m, id), m);
  }

  /** mat4_translate (src/maths.c:73-82). */
  function Translate(t: Vector3): Matrix4x4 {
    SetEntry(SetEntry(SetEntry(Mat4(1.0), 3, 0, t.x), 3, 1, t.y), 3, 2, t.z)
  }

  /** mat4_scale (src/maths.c:109-118). */
  function Scale(s: Vector3): Matrix4x4 {
    SetEntry(SetEntry(SetEntry(Mat4(1.0), 0, 0, s.x), 1, 1, s.y), 2, 2, s.z)
  }

  lemma TranslateLayout(t: Vector3)
    ensures forall i, j :: 0 <= i < 4 && 0 <= j < 4 ==>
      Translate(t)[i][j] == if i == 3 && j < 3 then Elem(t, j) else Mat4(1.0)[i][j]
  {
  }

  /** mat4_translate written out column by column. */
  lemma TranslateColumns(t: Vector3)
    ensures Translate(t) ==
      [[1.0, 0.0, 0.0, 0.0], [0.0, 1.0, 0.0, 0.0], [0.0, 0.0, 1.0, 0.0], [t.x, t.y, t.z, 1.0]]
  {
    TranslateLayout(t);
    MatrixExt(Translate(t),
      [[1.0, 0.0, 0.0, 0.0], [0.0, 1.0, 0.0, 0.0], [0.0, 0.0, 1.0, 0.0], [t.x, t.y, t.z, 1.0]]);
  }

  lemma ScaleLayout(s: Vector3)
    ensures forall i, j :: 0 <= i < 4 && 0 <= j < 4 ==>
      Scale(s)[i][j] == if i == j && i < 3 then Elem(s, i) else Mat4(1.0)[i][j]
  {
  }

  /** Two translations compose to the translation by the sum. */
  lemma TranslateCompose(a: Vector3, b: Vector3)
    ensures Product(Translate(a), Translate(b)) == Translate(Add(a, b))
  {
    TranslateLayout(a);
    TranslateLayout(b);
    TranslateLayout(Add(a, b));
    MatrixExt(Product(Translate(a), Translate(b)), Translate(Add(a, b)));
  }

  /** Two scalings compose to the scaling by the component-wise product. */
  lemma ScaleCompose(a: Vector3, b: Vector3)
    ensures Product(Scale(a), Scale(b)) == Scale(Vector3(a.x * b.x, a.y * b.y, a.z * b.z))
  {
    var c := Vector3(a.x * b.x, a.y * b.y, a.z * b.z);
    ScaleLayout(a);
    ScaleLayout(b);
    ScaleLayout(c);
    MatrixExt(Product(Scale(a), Scale(b)), Scale(c));
  }

  /** quat_to_mat4 (src/maths.c:193-220). */
  function QuatToMat4(q: Quaternion): Matrix4x4 {
    var xx, yy, zz := q.x * q.x, q.y * q.y, q.z * q.z;
    var xy, xz, yz := q.x * q.y, q.x * q.z, q.y * q.z;
    var wx, wy, wz := q.w * q.x, q.w * q.y, q.w * q.z;
    var r0 := SetEntry(SetEntry(SetEntry(Mat4(1.0),
      0, 0, 1.0 - 2.0 * (yy + zz)), 0, 1, 2.0 * (xy + wz)), 0, 2, 2.0 * (xz - wy));
    var r1 := SetEntry(SetEntry(SetEntry(r0,
      1, 0, 2.0 * (xy - wz)), 1, 1, 1.0 - 2.0 * (xx + zz)), 1, 2, 2.0 * (yz + wx));
    SetEntry(SetEntry(SetEntry(r1,
      2, 0, 2.0 * (xz + wy)), 2, 1, 2.0 * (yz - wx)), 2, 2, 1.0 - 2.0 * (xx + yy))
  }

  lemma QuatToMat4Identity()
    ensures QuatToMat4(IdentityQuat) == Mat4(1.0)
  {
    MatrixExt(QuatToMat4(IdentityQuat), Mat4(1.0));
  }

  /** mat4_lookat (src/maths.c:120-145). */
  function LookAt(eye: Vector3, centre: Vector3, up: Vector3, lib: Libm): Matrix4x4 {
    var zAxis := Norm(Sub(centre, eye), lib);
    var xAxis := Norm(Cross(zAxis, up), lib);
    var yAxis := Cross(xAxis, zAxis);
    var c0 := [xAxis.x, yAxis.x, -zAxis.x, 0.0];
    var c1 := [xAxis.y, yAxis.y, -zAxis.y, 0.0];
    var c2 := [xAxis.z, yAxis.z, -zAxis.z, 0.0];
    var c3 := [-Dot(xAxis, eye), -Dot(yAxis, eye), Dot(zAxis, eye), 1.0];
    [c0, c1, c2, c3]
  }

  /** The look-at matrix in terms of its axes: the columns hold the rows
      x, y and -z of the rotation, and the last column the eye projected
      onto them. */
  lemma LookAtOfAxes(eye: Vector3, centre: Vector3, up: Vector3, x: Vector3, z: Vector3, lib: Libm)
    requires Norm(Sub(centre, eye), lib) == z && Norm(Cross(z, up), lib) == x
    ensures var y := Cross(x, z);
      LookAt(eye, centre, up, lib) ==
        [[x.x, y.x, -z.x, 0.0], [x.y, y.y, -z.y, 0.0], [x.z, y.z, -z.z, 0.0],
         [-Dot(x, eye), -Dot(y, eye), Dot(z, eye), 1.0]]
  {
  }

  // ---------------------------------------------------------------------
  // mat4_to_quat (src/maths.c:222-283)
  // ---------------------------------------------------------------------

  /** The four candidates `four_w/x/y/z_squared_minus_1`, in the order of `biggest_index`. */
  function Candidates(m: Matrix4x4): (c: seq<real>)
    ensures |c| == 4
  {
    [m[0][0] + m[1][1] + m[2][2],
     m[0][0] - m[1][1] - m[2][2],
     m[1][1] - m[0][0] - m[2][2],
     m[2][2] - m[0][0] - m[1][1]]
  }

  /** k is the first index holding the greatest value of c. */
  ghost predicate IsFirstMax(c: seq<real>, k: nat) {
    && k < |c|
    && (forall i :: 0 <= i < k ==> c[i] < c[k])
    && (forall i :: k < i < |c| ==> c[i] <= c[k])
  }

  lemma FirstMaxUnique(c: seq<real>, k1: nat, k2: nat)
    requires IsFirstMax(c, k1) && IsFirstMax(c, k2)
    ensures k1 == k2
  {
    // Either index would otherwise beat the other.
    assert c[k1] == c[k2];
  }

  /** Reference definition of the first greatest index, by a scan from the left. */
  function FirstGreatest(c: seq<real>): (k: nat)
    requires |c| > 0
    ensures IsFirstMax(c, k)
  {
    if |c| == 1 then 0
    else
      var k := FirstGreatest(c[..|c| - 1]);
      if c[|c| - 1] > c[k] then |c| - 1 else k
  }

  /** Component k of q, in the order w, x, y, z used by `biggest_index`. */
  function Component(q: Quaternion, k: nat): real
    requires k < 4
  {
    if k == 0 then q.w else if k == 1 then q.x else if k == 2 then q.y else q.z
  }

  /** The `switch (biggest_index)` of mat4_to_quat. */
  function QuatFromBiggest(m: Matrix4x4, k: nat, biggest: real, mult: real): (q: Quaternion)
    requires k < 4
    ensures Component(q, k) == biggest
  {
    if k == 0 then
      Quaternion((m[1][2] - m[2][1]) * mult, (m[2][0] - m[0][2]) * mult,
                 (m[0][1] - m[1][0]) * mult, biggest)
    else if k == 1 then
      Quaternion(biggest, (m[0][1] + m[1][0]) * mult,
                 (m[2][0] + m[0][2]) * mult, (m[1][2] - m[2][1]) * mult)
    else if k == 2 then
      Quaternion((m[0][1] + m[1][0]) * mult, biggest,
                 (m[1][2] + m[2][1]) * mult, (m[2][0] - m[0][2]) * mult)
    else
      Quaternion((m[2][0] + m[0][2]) * mult, (m[1][2] + m[2][1]) * mult,
                 biggest, (m[0][1] - m[1][0]) * mult)
  }

  /** What mat4_to_quat computes, with the selection of the greatest
      candidate given by `FirstGreatest`. */
  ghost function QuatOfMatrix(m: Matrix4x4, lib: Libm): Quaternion {
    var c := Candidates(m);
    var k := FirstGreatest(c);
    var biggest := lib.sqrt(c[k] + 1.0) * 0.5;
    QuatFromBiggest(m, k, biggest, Quot(0.25, biggest, lib))
  }

  /** mat4_to_quat: the if-chain keeps the first strictly greatest candidate. */
  method Mat4ToQuat(m: Matrix4x4, lib: Libm) returns (result: Quaternion)
    ensures result == QuatOfMatrix(m, lib)
  {
    var fourXSquaredMinus1 := m[0][0] - m[1][1] - m[2][2];
    var fourYSquaredMinus1 := m[1][1] - m[0][0] - m[2][2];
    var fourZSquaredMinus1 := m[2][2] - m[0][0] - m[1][1];
    var fourWSquaredMinus1 := m[0][0] + m[1][1] + m[2][2];

    var biggestIndex: nat := 0;
    var fourBiggestSquaredMinus1 := fourWSquaredMinus1;
    if fourXSquaredMinus1 > fourBiggestSquaredMinus1 {
      fourBiggestSquaredMinus1 := fourXSquaredMinus1;
      biggestIndex := 1;
    }
    if fourYSquaredMinus1 > fourBiggestSquaredMinus1 {
      fourBiggestSquaredMinus1 := fourYSquaredMinus1;
      biggestIndex := 2;
    }
    if fourZSquaredMinus1 > fourBiggestSquaredMinus1 {
      fourBiggestSquaredMinus1 := fourZSquaredMinus1;
      biggestIndex := 3;
    }

    var biggestValue := lib.sqrt(fourBiggestSquaredMinus1 + 1.0) * 0.5;
    var mult := Quot(0.25, biggestValue, lib);

    ghost var c := Candidates(m);
    assert fourBiggestSquaredMinus1 == c[biggestIndex];
    assert IsFirstMax(c, biggestIndex);
    FirstMaxUnique(c, biggestIndex, FirstGreatest(c));
    result := QuatFromBiggest(m, biggestIndex, biggestValue, mult);
  }

  /** The component selected by mat4_to_quat is `biggest_value`, and the
      selected index is the first strictly greatest candidate (w wins ties). */
  lemma QuatOfMatrixSelection(m: Matrix4x4, lib: Libm)
    ensures var c := Candidates(m);
            exists k: nat :: IsFirstMax(c, k) && k < 4 &&
              Component(QuatOfMatrix(m, lib), k) == lib.sqrt(c[k] + 1.0) * 0.5
  {
    var c := Candidates(m);
    var k := FirstGreatest(c);
    assert IsFirstMax(c, k) && Component(QuatOfMatrix(m, lib), k) == lib.sqrt(c[k] + 1.0) * 0.5;
  }
}
