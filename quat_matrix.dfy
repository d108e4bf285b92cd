/**
  quat_to_mat4 (src/maths.c:193-220) followed by mat4_to_quat
  (src/maths.c:222-283), on exact reals: for a unit quaternion the pair
  gives back the quaternion or its negation, which is the same rotation.
 */
module QuatMatrix {
  import opened Maths

  /** The entries of quat_to_mat4 that mat4_to_quat reads. */
  lemma RotationEntries(q: Quaternion)
    ensures var m := QuatToMat4(q);
      && m[0][0] == 1.0 - 2.0 * (q.y * q.y + q.z * q.z)
      && m[1][1] == 1.0 - 2.0 * (q.x * q.x + q.z * q.z)
      && m[2][2] == 1.0 - 2.0 * (q.x * q.x + q.y * q.y)
      && m[0][1] == 2.0 * (q.x * q.y + q.w * q.z)
      && m[1][0] == 2.0 * (q.x * q.y - q.w * q.z)
      && m[0][2] == 2.0 * (q.x * q.z - q.w * q.y)
      && m[2][0] == 2.0 * (q.x * q.z + q.w * q.y)
      && m[1][2] == 2.0 * (q.y * q.z + q.w * q.x)
      && m[2][1] == 2.0 * (q.y * q.z - q.w * q.x)
  {
  }

  /** For a unit quaternion the four candidates are `4 w^2 - 1`, `4 x^2 - 1`,
      `4 y^2 - 1` and `4 z^2 - 1`, the names the source gives them. */
  lemma RotationCandidates(q: Quaternion)
    requires QuatLengthSq(q) == 1.0
    ensures var c := Candidates(QuatToMat4(q));
      && c[0] == 4.0 * (q.w * q.w) - 1.0
      && c[1] == 4.0 * (q.x * q.x) - 1.0
      && c[2] == 4.0 * (q.y * q.y) - 1.0
      && c[3] == 4.0 * (q.z * q.z) - 1.0
  {
    RotationEntries(q);
    var m := QuatToMat4(q);
    CandidatesOfSquares(q.x * q.x, q.y * q.y, q.z * q.z, q.w * q.w, m[0][0], m[1][1], m[2][2]);
  }

  /** The same on the squares of the coordinates. */
  lemma CandidatesOfSquares(xx: real, yy: real, zz: real, ww: real, a: real, b: real, c: real)
    requires xx + yy + zz + ww == 1.0
    requires a == 1.0 - 2.0 * (yy + zz)
    requires b == 1.0 - 2.0 * (xx + zz)
    requires c == 1.0 - 2.0 * (xx + yy)
    ensures a + b + c == 4.0 * ww - 1.0
    ensures a - b - c == 4.0 * xx - 1.0
    ensures b - a - c == 4.0 * yy - 1.0
    ensures c - a - b == 4.0 * zz - 1.0
  {
  }

  /** The differences and sums of opposite off-diagonal entries. */
  lemma RotationOffDiagonal(q: Quaternion)
    ensures var m := QuatToMat4(q);
      && m[1][2] - m[2][1] == 4.0 * (q.w * q.x)
      && m[2][0] - m[0][2] == 4.0 * (q.w * q.y)
      && m[0][1] - m[1][0] == 4.0 * (q.w * q.z)
      && m[0][1] + m[1][0] == 4.0 * (q.x * q.y)
      && m[2][0] + m[0][2] == 4.0 * (q.x * q.z)
      && m[1][2] + m[2][1] == 4.0 * (q.y * q.z)
  {
    RotationEntries(q);
  }

  /** Four numbers summing to zero: the greatest of them is not negative. */
  lemma GreatestOfZeroSum(c: seq<real>, k: nat)
    requires |c| == 4 && c[0] + c[1] + c[2] + c[3] == 0.0
    requires IsFirstMax(c, k)
    ensures c[k] >= 0.0
  {
  }

  function Abs(s: real): real {
    if s >= 0.0 then s else -s
  }

  /** `biggest_value = sqrt(four_biggest_squared_minus_1 + 1) * 0.5` is the
      magnitude of the selected component, and it is not zero. */
  lemma BiggestIsMagnitude(lib: Libm, s: real, t: real)
    requires SqrtSound(lib)
    requires t == 4.0 * (s * s) - 1.0 && t >= 0.0
    ensures lib.sqrt(t + 1.0) * 0.5 == Abs(s)
    ensures Abs(s) > 0.0
  {
    var a := Abs(s);
    assert a * a == s * s;
    var d := 2.0 * a;
    assert t + 1.0 == d * d;
    SqrtOfSquare(lib, d);
  }

  function Sign(s: real): real {
    if s >= 0.0 then 1.0 else -1.0
  }

  /** `(4 s t) * mult` with `mult = 0.25 / |s|` is t, with the sign of s. */
  lemma Unscale(s: real, t: real, mult: real)
    requires Abs(s) != 0.0 && mult * Abs(s) == 0.25
    ensures (4.0 * (s * t)) * mult == t * Sign(s)
  {
    if s >= 0.0 {
      assert (4.0 * (s * t)) * mult == 4.0 * t * (mult * s);
    } else {
      assert (4.0 * (s * t)) * mult == -4.0 * t * (mult * -s);
    }
  }

  /** One case of the switch: the selected component s is `|s|`, and the
      other three come out of `(4 s t) * mult` as t with the sign of s. */
  lemma SwitchCase(s: real, t1: real, t2: real, t3: real, biggest: real, mult: real,
                   d1: real, d2: real, d3: real)
    requires biggest == Abs(s) && biggest != 0.0 && mult * biggest == 0.25
    requires d1 == 4.0 * (s * t1) && d2 == 4.0 * (s * t2) && d3 == 4.0 * (s * t3)
    ensures biggest == s * Sign(s)
    ensures d1 * mult == t1 * Sign(s) && d2 * mult == t2 * Sign(s) && d3 * mult == t3 * Sign(s)
  {
    Unscale(s, t1, mult);
    Unscale(s, t2, mult);
    Unscale(s, t3, mult);
  }

  /** The greatest of the candidates `4 w^2 - 1`, `4 x^2 - 1`, `4 y^2 - 1`,
      `4 z^2 - 1` of a unit quaternion is `4 s^2 - 1 >= 0`, s the component
      it names. */
  lemma SelectedCandidate(q: Quaternion, c: seq<real>, k: nat)
    requires QuatLengthSq(q) == 1.0
    requires |c| == 4
    requires c[0] == 4.0 * (q.w * q.w) - 1.0 && c[1] == 4.0 * (q.x * q.x) - 1.0
    requires c[2] == 4.0 * (q.y * q.y) - 1.0 && c[3] == 4.0 * (q.z * q.z) - 1.0
    requires IsFirstMax(c, k)
    ensures var s := Component(q, k); c[k] == 4.0 * (s * s) - 1.0 >= 0.0
  {
    CandidatesSumToZero(q.x * q.x, q.y * q.y, q.z * q.z, q.w * q.w, c[0], c[1], c[2], c[3]);
    GreatestOfZeroSum(c, k);
  }

  lemma CandidatesSumToZero(xx: real, yy: real, zz: real, ww: real,
                            cw: real, cx: real, cy: real, cz: real)
    requires xx + yy + zz + ww == 1.0
    requires cw == 4.0 * ww - 1.0 && cx == 4.0 * xx - 1.0
    requires cy == 4.0 * yy - 1.0 && cz == 4.0 * zz - 1.0
    ensures cw + cx + cy + cz == 0.0
  {
  }

  /** The switch of mat4_to_quat on a matrix whose off-diagonal entries are
      those of q, at index k, with `biggest_value = |component k|` and
      `mult = 0.25 / biggest_value`: q itself, or -q when component k of q
      is negative. */
  lemma SwitchOfRotation(q: Quaternion, m: Matrix4x4, k: nat, biggest: real, mult: real)
    requires m[1][2] - m[2][1] == 4.0 * (q.w * q.x)
    requires m[2][0] - m[0][2] == 4.0 * (q.w * q.y)
    requires m[0][1] - m[1][0] == 4.0 * (q.w * q.z)
    requires m[0][1] + m[1][0] == 4.0 * (q.x * q.y)
    requires m[2][0] + m[0][2] == 4.0 * (q.x * q.z)
    requires m[1][2] + m[2][1] == 4.0 * (q.y * q.z)
    requires k < 4 && biggest == Abs(Component(q, k)) && biggest != 0.0
    requires mult * biggest == 0.25
    ensures QuatFromBiggest(m, k, biggest, mult) == QuatMulFloat(q, Sign(Component(q, k)))
  {
    if k == 0 {
      SwitchW(q, m, biggest, mult);
    } else if k == 1 {
      SwitchX(q, m, biggest, mult);
    } else if k == 2 {
      SwitchY(q, m, biggest, mult);
    } else {
      SwitchZ(q, m, biggest, mult);
    }
  }

  lemma SwitchW(q: Quaternion, m: Matrix4x4, biggest: real, mult: real)
    requires m[1][2] - m[2][1] == 4.0 * (q.w * q.x)
    requires m[2][0] - m[0][2] == 4.0 * (q.w * q.y)
    requires m[0][1] - m[1][0] == 4.0 * (q.w * q.z)
    requires biggest == Abs(q.w) && biggest != 0.0 && mult * biggest == 0.25
    ensures QuatFromBiggest(m, 0, biggest, mult) == QuatMulFloat(q, Sign(q.w))
  {
    var d1, d2, d3 := m[1][2] - m[2][1], m[2][0] - m[0][2], m[0][1] - m[1][0];
    assert QuatFromBiggest(m, 0, biggest, mult) == Quaternion(d1 * mult, d2 * mult, d3 * mult, biggest);
    SwitchCase(q.w, q.x, q.y, q.z, biggest, mult, d1, d2, d3);
  }

  lemma SwitchX(q: Quaternion, m: Matrix4x4, biggest: real, mult: real)
    requires m[1][2] - m[2][1] == 4.0 * (q.w * q.x)
    requires m[0][1] + m[1][0] == 4.0 * (q.x * q.y)
    requires m[2][0] + m[0][2] == 4.0 * (q.x * q.z)
    requires biggest == Abs(q.x) && biggest != 0.0 && mult * biggest == 0.25
    ensures QuatFromBiggest(m, 1, biggest, mult) == QuatMulFloat(q, Sign(q.x))
  {
    var d1, d2, d3 := m[1][2] - m[2][1], m[0][1] + m[1][0], m[2][0] + m[0][2];
    assert QuatFromBiggest(m, 1, biggest, mult) == Quaternion(biggest, d2 * mult, d3 * mult, d1 * mult);
    SwitchCase(q.x, q.w, q.y, q.z, biggest, mult, d1, d2, d3);
  }

  lemma SwitchY(q: Quaternion, m: Matrix4x4, biggest: real, mult: real)
    requires m[2][0] - m[0][2] == 4.0 * (q.w * q.y)
    requires m[0][1] + m[1][0] == 4.0 * (q.x * q.y)
    requires m[1][2] + m[2][1] == 4.0 * (q.y * q.z)
    requires biggest == Abs(q.y) && biggest != 0.0 && mult * biggest == 0.25
    ensures QuatFromBiggest(m, 2, biggest, mult) == QuatMulFloat(q, Sign(q.y))
  {
    var d1, d2, d3 := m[2][0] - m[0][2], m[0][1] + m[1][0], m[1][2] + m[2][1];
    assert QuatFromBiggest(m, 2, biggest, mult) == Quaternion(d2 * mult, biggest, d3 * mult, d1 * mult);
    SwitchCase(q.y, q.w, q.x, q.z, biggest, mult, d1, d2, d3);
  }

  lemma SwitchZ(q: Quaternion, m: Matrix4x4, biggest: real, mult: real)
    requires m[0][1] - m[1][0] == 4.0 * (q.w * q.z)
    requires m[2][0] + m[0][2] == 4.0 * (q.x * q.z)
    requires m[1][2] + m[2][1] == 4.0 * (q.y * q.z)
    requires biggest == Abs(q.z) && biggest != 0.0 && mult * biggest == 0.25
    ensures QuatFromBiggest(m, 3, biggest, mult) == QuatMulFloat(q, Sign(q.z))
  {
    var d1, d2, d3 := m[0][1] - m[1][0], m[2][0] + m[0][2], m[1][2] + m[2][1];
    assert QuatFromBiggest(m, 3, biggest, mult) == Quaternion(d2 * mult, d3 * mult, biggest, d1 * mult);
    SwitchCase(q.z, q.w, q.x, q.y, biggest, mult, d1, d2, d3);
  }

  /** mat4_to_quat of the matrix quat_to_mat4 builds from a unit quaternion
      q is q itself when the component it selects is not negative, and -q
      otherwise (given that sqrt is correct). */
  lemma MatrixToQuatOfRotation(q: Quaternion, lib: Libm)
    requires SqrtSound(lib) && QuatLengthSq(q) == 1.0
    ensures var k := FirstGreatest(Candidates(QuatToMat4(q)));
      QuatOfMatrix(QuatToMat4(q), lib) == QuatMulFloat(q, Sign(Component(q, k)))
    ensures QuatOfMatrix(QuatToMat4(q), lib) in {q, QuatMulFloat(q, -1.0)}
  {
    var m := QuatToMat4(q);
    RotationCandidates(q);
    RotationOffDiagonal(q);
    SelectedBiggest(q, Candidates(m), lib);
    QuatOfEntries(q, m, lib);
    assert QuatMulFloat(q, 1.0) == q;
  }

  /** With a correct sqrt, `biggest_value` is the magnitude of the selected
      component, and not zero. */
  lemma SelectedBiggest(q: Quaternion, c: seq<real>, lib: Libm)
    requires SqrtSound(lib) && QuatLengthSq(q) == 1.0
    requires |c| == 4
    requires c[0] == 4.0 * (q.w * q.w) - 1.0 && c[1] == 4.0 * (q.x * q.x) - 1.0
    requires c[2] == 4.0 * (q.y * q.y) - 1.0 && c[3] == 4.0 * (q.z * q.z) - 1.0
    ensures var k := FirstGreatest(c);
      lib.sqrt(c[k] + 1.0) * 0.5 == Abs(Component(q, k)) != 0.0
  {
    var k := FirstGreatest(c);
    SelectedCandidate(q, c, k);
    BiggestIsMagnitude(lib, Component(q, k), c[k]);
  }

  /** The same for any matrix with the entries of quat_to_mat4 that
      mat4_to_quat reads, once `biggest_value` is known to be the magnitude
      of the selected component. */
  lemma QuatOfEntries(q: Quaternion, m: Matrix4x4, lib: Libm)
    requires m[1][2] - m[2][1] == 4.0 * (q.w * q.x)
    requires m[2][0] - m[0][2] == 4.0 * (q.w * q.y)
    requires m[0][1] - m[1][0] == 4.0 * (q.w * q.z)
    requires m[0][1] + m[1][0] == 4.0 * (q.x * q.y)
    requires m[2][0] + m[0][2] == 4.0 * (q.x * q.z)
    requires m[1][2] + m[2][1] == 4.0 * (q.y * q.z)
    requires var c := Candidates(m); var k := FirstGreatest(c);
      lib.sqrt(c[k] + 1.0) * 0.5 == Abs(Component(q, k)) != 0.0
    ensures QuatOfMatrix(m, lib) == QuatMulFloat(q, Sign(Component(q, FirstGreatest(Candidates(m)))))
  {
    var c := Candidates(m);
    var k := FirstGreatest(c);
    var biggest := lib.sqrt(c[k] + 1.0) * 0.5;
    var mult := Quot(0.25, biggest, lib);
    QuotExact(0.25, biggest, lib);
    SwitchOfRotation(q, m, k, biggest, mult);
  }

  /** q and -q give the same matrix. */
  lemma RotationOfNegation(q: Quaternion)
    ensures QuatToMat4(QuatMulFloat(q, -1.0)) == QuatToMat4(q)
  {
    var n := QuatMulFloat(q, -1.0);
    assert n.x * n.x == q.x * q.x && n.y * n.y == q.y * q.y && n.z * n.z == q.z * q.z;
    assert n.x * n.y == q.x * q.y && n.x * n.z == q.x * q.z && n.y * n.z == q.y * q.z;
    assert n.w * n.x == q.w * q.x && n.w * n.y == q.w * q.y && n.w * n.z == q.w * q.z;
    SameProducts(q, n);
  }

  /** So quat_to_mat4 after mat4_to_quat gives back the rotation matrix of
      every unit quaternion. */
  lemma RotationRoundTrip(q: Quaternion, lib: Libm)
    requires SqrtSound(lib) && QuatLengthSq(q) == 1.0
    ensures QuatToMat4(QuatOfMatrix(QuatToMat4(q), lib)) == QuatToMat4(q)
  {
    MatrixToQuatOfRotation(q, lib);
    RotationOfNegation(q);
  }

  /** quat_to_mat4 reads q only through the nine products it names. */
  lemma SameProducts(q: Quaternion, n: Quaternion)
    requires n.x * n.x == q.x * q.x && n.y * n.y == q.y * q.y && n.z * n.z == q.z * q.z
    requires n.x * n.y == q.x * q.y && n.x * n.z == q.x * q.z && n.y * n.z == q.y * q.z
    requires n.w * n.x == q.w * q.x && n.w * n.y == q.w * q.y && n.w * n.z == q.w * q.z
    ensures QuatToMat4(n) == QuatToMat4(q)
  {
    RotationEntries(q);
    RotationEntries(n);
    RotationBorder(q);
    RotationBorder(n);
    MatrixExt(QuatToMat4(n), QuatToMat4(q));
  }

  /** The last row and column of quat_to_mat4 are those of mat4(1). */
  lemma RotationBorder(q: Quaternion)
    ensures var m := QuatToMat4(q);
      m[3] == [0.0, 0.0, 0.0, 1.0] && m[0][3] == 0.0 && m[1][3] == 0.0 && m[2][3] == 0.0
  {
  }
}
