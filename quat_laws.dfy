/**
  Algebraic laws of the Hamilton product `quat_mul` (src/maths.c:147-157)
  and of `quat_conjugate` (src/maths.c:165-175), on exact reals.
 */
module QuatLaws {
  import opened Maths

  /** The conjugate of a product is the product of the conjugates, reversed. */
  lemma QuatConjugateOfProduct(a: Quaternion, b: Quaternion)
    ensures QuatConjugate(QuatMul(a, b)) == QuatMul(QuatConjugate(b), QuatConjugate(a))
  {
    var p, r := QuatMul(a, b), QuatMul(QuatConjugate(b), QuatConjugate(a));
    ConjugateOfProductOnCoordinates(a.x, a.y, a.z, a.w, b.x, b.y, b.z, b.w,
                                    p.x, p.y, p.z, p.w, r.x, r.y, r.z, r.w);
  }

  /** The same law on coordinates, with p = u * v and r = conj(v) * conj(u). */
  lemma ConjugateOfProductOnCoordinates(ux: real, uy: real, uz: real, uw: real,
                                         vx: real, vy: real, vz: real, vw: real,
                                         px: real, py: real, pz: real, pw: real,
                                         rx: real, ry: real, rz: real, rw: real)
    requires Quaternion(px, py, pz, pw) == QuatMul(Quaternion(ux, uy, uz, uw), Quaternion(vx, vy, vz, vw))
    requires Quaternion(rx, ry, rz, rw) == QuatMul(Quaternion(-vx, -vy, -vz, vw), Quaternion(-ux, -uy, -uz, uw))
    ensures -px == rx && -py == ry && -pz == rz && pw == rw
  {
  }

  lemma QuatMulAssociative(a: Quaternion, b: Quaternion, c: Quaternion)
    ensures QuatMul(QuatMul(a, b), c) == QuatMul(a, QuatMul(b, c))
  {
    QuatMulAssociativeX(a, b, c);
    QuatMulAssociativeY(a, b, c);
    QuatMulAssociativeZ(a, b, c);
    QuatMulAssociativeW(a, b, c);
  }

  lemma QuatMulAssociativeX(a: Quaternion, b: Quaternion, c: Quaternion)
    ensures QuatMul(QuatMul(a, b), c).x == QuatMul(a, QuatMul(b, c)).x
  {
    var p, q := QuatMul(a, b), QuatMul(b, c);
    AssociativeXOnCoordinates(a.x, a.y, a.z, a.w, b.x, b.y, b.z, b.w, c.x, c.y, c.z, c.w, p.x, p.y, p.z, p.w, q.x, q.y, q.z, q.w);
  }

  lemma QuatMulAssociativeY(a: Quaternion, b: Quaternion, c: Quaternion)
    ensures QuatMul(QuatMul(a, b), c).y == QuatMul(a, QuatMul(b, c)).y
  {
    var p, q := QuatMul(a, b), QuatMul(b, c);
    AssociativeYOnCoordinates(a.x, a.y, a.z, a.w, b.x, b.y, b.z, b.w, c.x, c.y, c.z, c.w, p.x, p.y, p.z, p.w, q.x, q.y, q.z, q.w);
  }

  lemma QuatMulAssociativeZ(a: Quaternion, b: Quaternion, c: Quaternion)
    ensures QuatMul(QuatMul(a, b), c).z == QuatMul(a, QuatMul(b, c)).z
  {
    var p, q := QuatMul(a, b), QuatMul(b, c);
    AssociativeZOnCoordinates(a.x, a.y, a.z, a.w, b.x, b.y, b.z, b.w, c.x, c.y, c.z, c.w, p.x, p.y, p.z, p.w, q.x, q.y, q.z, q.w);
  }

  lemma QuatMulAssociativeW(a: Quaternion, b: Quaternion, c: Quaternion)
    ensures QuatMul(QuatMul(a, b), c).w == QuatMul(a, QuatMul(b, c)).w
  {
    var p, q := QuatMul(a, b), QuatMul(b, c);
    AssociativeWOnCoordinates(a.x, a.y, a.z, a.w, b.x, b.y, b.z, b.w, c.x, c.y, c.z, c.w, p.x, p.y, p.z, p.w, q.x, q.y, q.z, q.w);
  }

  /** Component x of (u * v) * t == u * (v * t) on coordinates, with p = u * v and q = v * t. */
  lemma AssociativeXOnCoordinates(ux: real, uy: real, uz: real, uw: real, vx: real, vy: real, vz: real, vw: real, tx: real, ty: real, tz: real, tw: real, px: real, py: real, pz: real, pw: real, qx: real, qy: real, qz: real, qw: real)
    requires Quaternion(px, py, pz, pw) == QuatMul(Quaternion(ux, uy, uz, uw), Quaternion(vx, vy, vz, vw))
    requires Quaternion(qx, qy, qz, qw) == QuatMul(Quaternion(vx, vy, vz, vw), Quaternion(tx, ty, tz, tw))
    ensures pw * tx + px * tw + py * tz - pz * ty == uw * qx + ux * qw + uy * qz - uz * qy
  {
  }

  /** Component y of (u * v) * t == u * (v * t) on coordinates, with p = u * v and q = v * t. */
  lemma AssociativeYOnCoordinates(ux: real, uy: real, uz: real, uw: real, vx: real, vy: real, vz: real, vw: real, tx: real, ty: real, tz: real, tw: real, px: real, py: real, pz: real, pw: real, qx: real, qy: real, qz: real, qw: real)
    requires Quaternion(px, py, pz, pw) == QuatMul(Quaternion(ux, uy, uz, uw), Quaternion(vx, vy, vz, vw))
    requires Quaternion(qx, qy, qz, qw) == QuatMul(Quaternion(vx, vy, vz, vw), Quaternion(tx, ty, tz, tw))
    ensures pw * ty - px * tz + py * tw + pz * tx == uw * qy - ux * qz + uy * qw + uz * qx
  {
  }

  /** Component z of (u * v) * t == u * (v * t) on coordinates, with p = u * v and q = v * t. */
  lemma AssociativeZOnCoordinates(ux: real, uy: real, uz: real, uw: real, vx: real, vy: real, vz: real, vw: real, tx: real, ty: real, tz: real, tw: real, px: real, py: real, pz: real, pw: real, qx: real, qy: real, qz: real, qw: real)
    requires Quaternion(px, py, pz, pw) == QuatMul(Quaternion(ux, uy, uz, uw), Quaternion(vx, vy, vz, vw))
    requires Quaternion(qx, qy, qz, qw) == QuatMul(Quaternion(vx, vy, vz, vw), Quaternion(tx, ty, tz, tw))
    ensures pw * tz + px * ty - py * tx + pz * tw == uw * qz + ux * qy - uy * qx + uz * qw
  {
  }

  /** Component w of (u * v) * t == u * (v * t) on coordinates, with p = u * v and q = v * t. */
  lemma AssociativeWOnCoordinates(ux: real, uy: real, uz: real, uw: real, vx: real, vy: real, vz: real, vw: real, tx: real, ty: real, tz: real, tw: real, px: real, py: real, pz: real, pw: real, qx: real, qy: real, qz: real, qw: real)
    requires Quaternion(px, py, pz, pw) == QuatMul(Quaternion(ux, uy, uz, uw), Quaternion(vx, vy, vz, vw))
    requires Quaternion(qx, qy, qz, qw) == QuatMul(Quaternion(vx, vy, vz, vw), Quaternion(tx, ty, tz, tw))
    ensures pw * tw - px * tx - py * ty - pz * tz == uw * qw - ux * qx - uy * qy - uz * qz
  {
  }

  /** q * conjugate(q) is the real quaternion |q|^2. */
  lemma QuatMulConjugate(q: Quaternion)
    ensures QuatMul(q, QuatConjugate(q)) == Quaternion(0.0, 0.0, 0.0, QuatLengthSq(q))
  {
  }

  /** The squared length is multiplicative: |a b|^2 = |a|^2 |b|^2. */
  lemma QuatLengthSqMul(a: Quaternion, b: Quaternion)
    ensures QuatLengthSq(QuatMul(a, b)) == QuatLengthSq(a) * QuatLengthSq(b)
  {
    var ab, ca, cb := QuatMul(a, b), QuatConjugate(a), QuatConjugate(b);
    var la, lb := QuatLengthSq(a), QuatLengthSq(b);
    calc {
      RealQuat(QuatLengthSq(ab));
      { QuatMulConjugate(ab); }
      QuatMul(ab, QuatConjugate(ab));
      { QuatConjugateOfProduct(a, b); }
      QuatMul(ab, QuatMul(cb, ca));
      { QuatMulAssociative(ab, cb, ca); }
      QuatMul(QuatMul(ab, cb), ca);
      { QuatMulAssociative(a, b, cb); }
      QuatMul(QuatMul(a, QuatMul(b, cb)), ca);
      { QuatMulConjugate(b); }
      QuatMul(QuatMul(a, RealQuat(lb)), ca);
      { QuatMulRealRight(a, lb); }
      QuatMul(QuatMulFloat(a, lb), ca);
      { QuatMulFloatLeft(a, ca, lb); }
      QuatMulFloat(QuatMul(a, ca), lb);
      { QuatMulConjugate(a); }
      QuatMulFloat(RealQuat(la), lb);
      { RealQuatMulFloat(la, lb); }
      RealQuat(la * lb);
    }
  }

  /** The quaternion with real part k and no vector part. */
  function RealQuat(k: real): Quaternion {
    Quaternion(0.0, 0.0, 0.0, k)
  }

  /** Multiplying by a real quaternion on the right scales. */
  lemma QuatMulRealRight(a: Quaternion, k: real)
    ensures QuatMul(a, RealQuat(k)) == QuatMulFloat(a, k)
  {
  }

  /** A scale factor on the left operand moves out of the product. */
  lemma QuatMulFloatLeft(a: Quaternion, c: Quaternion, k: real)
    ensures QuatMul(QuatMulFloat(a, k), c) == QuatMulFloat(QuatMul(a, c), k)
  {
    QuatMulFloatLeftX(a, c, k);
    QuatMulFloatLeftY(a, c, k);
    QuatMulFloatLeftZ(a, c, k);
    QuatMulFloatLeftW(a, c, k);
  }

  lemma QuatMulFloatLeftX(a: Quaternion, c: Quaternion, k: real)
    ensures QuatMul(QuatMulFloat(a, k), c).x == QuatMulFloat(QuatMul(a, c), k).x
  {
    var s, p := QuatMulFloat(a, k), QuatMul(a, c);
    FloatLeftOnCoordinates(a.x, a.y, a.z, a.w, c.x, c.y, c.z, c.w, k,
                           s.x, s.y, s.z, s.w, p.x, p.y, p.z, p.w);
  }

  lemma QuatMulFloatLeftY(a: Quaternion, c: Quaternion, k: real)
    ensures QuatMul(QuatMulFloat(a, k), c).y == QuatMulFloat(QuatMul(a, c), k).y
  {
    var s, p := QuatMulFloat(a, k), QuatMul(a, c);
    FloatLeftOnCoordinates(a.x, a.y, a.z, a.w, c.x, c.y, c.z, c.w, k,
                           s.x, s.y, s.z, s.w, p.x, p.y, p.z, p.w);
  }

  lemma QuatMulFloatLeftZ(a: Quaternion, c: Quaternion, k: real)
    ensures QuatMul(QuatMulFloat(a, k), c).z == QuatMulFloat(QuatMul(a, c), k).z
  {
    var s, p := QuatMulFloat(a, k), QuatMul(a, c);
    FloatLeftOnCoordinates(a.x, a.y, a.z, a.w, c.x, c.y, c.z, c.w, k,
                           s.x, s.y, s.z, s.w, p.x, p.y, p.z, p.w);
  }

  lemma QuatMulFloatLeftW(a: Quaternion, c: Quaternion, k: real)
    ensures QuatMul(QuatMulFloat(a, k), c).w == QuatMulFloat(QuatMul(a, c), k).w
  {
    var s, p := QuatMulFloat(a, k), QuatMul(a, c);
    FloatLeftOnCoordinates(a.x, a.y, a.z, a.w, c.x, c.y, c.z, c.w, k,
                           s.x, s.y, s.z, s.w, p.x, p.y, p.z, p.w);
  }

  lemma FloatLeftOnCoordinates(ax: real, ay: real, az: real, aw: real,
                               cx: real, cy: real, cz: real, cw: real, k: real,
                               sx: real, sy: real, sz: real, sw: real,
                               px: real, py: real, pz: real, pw: real)
    requires Quaternion(sx, sy, sz, sw) == QuatMulFloat(Quaternion(ax, ay, az, aw), k)
    requires Quaternion(px, py, pz, pw) == QuatMul(Quaternion(ax, ay, az, aw), Quaternion(cx, cy, cz, cw))
    ensures sw * cx + sx * cw + sy * cz - sz * cy == px * k
    ensures sw * cy - sx * cz + sy * cw + sz * cx == py * k
    ensures sw * cz + sx * cy - sy * cx + sz * cw == pz * k
    ensures sw * cw - sx * cx - sy * cy - sz * cz == pw * k
  {
  }

  lemma RealQuatMulFloat(l: real, k: real)
    ensures QuatMulFloat(RealQuat(l), k) == RealQuat(l * k)
  {
  }
}
