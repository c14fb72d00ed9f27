/**
 Rotation conversions (common/transformations/transformations.py) over exact reals.

 Sines, cosines and square roots are symbols: an angle is given by the cosine and sine of its half and of itself,
 tied by the unit-circle and double-angle identities, and a square root is any function with the defining law.
 */
module Rotation {
  import opened Numbers

  datatype Quat = Quat(w: real, x: real, y: real, z: real)

  /** A three by three matrix, row by row. */
  datatype Mat = Mat(m00: real, m01: real, m02: real,
                     m10: real, m11: real, m12: real,
                     m20: real, m21: real, m22: real)

  /** An angle t: `ch`, `sh` are the cosine and sine of t/2, `c`, `s` those of t. */
  datatype Angle = Angle(ch: real, sh: real, c: real, s: real)
  {
    predicate Valid() {
      ch * ch + sh * sh == 1.0 && c == ch * ch - sh * sh && s == 2.0 * sh * ch
    }
  }

  datatype Euler = Euler(roll: Angle, pitch: Angle, yaw: Angle)
  {
    predicate Valid() {
      roll.Valid() && pitch.Valid() && yaw.Valid()
    }
  }

  const IDENTITY: Mat := Mat(1.0, 0.0, 0.0, 0.0, 1.0, 0.0, 0.0, 0.0, 1.0)

  function SumOfSquares(w: real, x: real, y: real, z: real): real {
    w * w + x * x + y * y + z * z
  }

  function Norm2(q: Quat): real {
    SumOfSquares(q.w, q.x, q.y, q.z)
  }

  function Neg(q: Quat): Quat {
    Quat(-q.w, -q.x, -q.y, -q.z)
  }

  function Dot(a: real, b: real, c: real, p: real, q: real, r: real): real {
    a * p + b * q + c * r
  }

  function Cross(a: real, b: real, c: real, d: real): real {
    a * b - c * d
  }

  function Transpose(a: Mat): Mat {
    Mat(a.m00, a.m10, a.m20, a.m01, a.m11, a.m21, a.m02, a.m12, a.m22)
  }

  function MatMul(a: Mat, b: Mat): Mat {
    Mat(Dot(a.m00, a.m01, a.m02, b.m00, b.m10, b.m20), Dot(a.m00, a.m01, a.m02, b.m01, b.m11, b.m21), Dot(a.m00, a.m01, a.m02, b.m02, b.m12, b.m22),
        Dot(a.m10, a.m11, a.m12, b.m00, b.m10, b.m20), Dot(a.m10, a.m11, a.m12, b.m01, b.m11, b.m21), Dot(a.m10, a.m11, a.m12, b.m02, b.m12, b.m22),
        Dot(a.m20, a.m21, a.m22, b.m00, b.m10, b.m20), Dot(a.m20, a.m21, a.m22, b.m01, b.m11, b.m21), Dot(a.m20, a.m21, a.m22, b.m02, b.m12, b.m22))
  }

  function Det(a: Mat): real {
    a.m00 * Cross(a.m11, a.m22, a.m12, a.m21)
    - a.m01 * Cross(a.m10, a.m22, a.m12, a.m20)
    + a.m02 * Cross(a.m10, a.m21, a.m11, a.m20)
  }

  // ---------------------------------------------------------------- the conversions

  function EulerComponents(cr: real, sr: real, cp: real, sp: real, cy: real, sy: real): Quat {
    Quat(cr * cp * cy + sr * sp * sy,
         sr * cp * cy - cr * sp * sy,
         cr * sp * cy + sr * cp * sy,
         cr * cp * sy - sr * sp * cy)
  }

  function Euler2Quat(e: Euler): Quat {
    var q := EulerComponents(e.roll.ch, e.roll.sh, e.pitch.ch, e.pitch.sh, e.yaw.ch, e.yaw.sh);
    if q.w < 0.0 then Neg(q) else q
  }

  function QuatEntries(w: real, x: real, y: real, z: real): Mat {
    var (xx, yy, zz) := (x * x, y * y, z * z);
    var (xy, xz, yz) := (x * y, x * z, y * z);
    var (wx, wy, wz) := (w * x, w * y, w * z);
    Mat(1.0 - 2.0 * (yy + zz), 2.0 * (xy - wz), 2.0 * (xz + wy),
        2.0 * (xy + wz), 1.0 - 2.0 * (xx + zz), 2.0 * (yz - wx),
        2.0 * (xz - wy), 2.0 * (yz + wx), 1.0 - 2.0 * (xx + yy))
  }

  function Quat2Rot(q: Quat): Mat {
    QuatEntries(q.w, q.x, q.y, q.z)
  }

  function RotX(a: Angle): Mat {
    Mat(1.0, 0.0, 0.0, 0.0, a.c, -a.s, 0.0, a.s, a.c)
  }

  function RotY(a: Angle): Mat {
    Mat(a.c, 0.0, a.s, 0.0, 1.0, 0.0, -a.s, 0.0, a.c)
  }

  function RotZ(a: Angle): Mat {
    Mat(a.c, -a.s, 0.0, a.s, a.c, 0.0, 0.0, 0.0, 1.0)
  }

  function Euler2Rot(e: Euler): Mat {
    MatMul(MatMul(RotZ(e.yaw), RotY(e.pitch)), RotX(e.roll))
  }

  /** The square-root argument of the branch `Rot2Quat` takes. */
  function RootArg(m: Mat): real {
    if m.m00 + m.m11 + m.m22 > 0.0 then m.m00 + m.m11 + m.m22 + 1.0
    else if m.m00 > m.m11 && m.m00 > m.m22 then 1.0 + m.m00 - m.m11 - m.m22
    else if m.m11 > m.m22 then 1.0 + m.m11 - m.m00 - m.m22
    else 1.0 + m.m22 - m.m00 - m.m11
  }

  /** What is assumed of the library's square root. */
  ghost predicate IsSquareRoot(sqrt: real -> real) {
    forall v :: v >= 0.0 ==> sqrt(v) >= 0.0 && sqrt(v) * sqrt(v) == v
  }

  /** The four components from the matrix and the root of the branch's argument. */
  function FromRoot(m: Mat, root: real): Quat
    requires root > 0.0
  {
    if m.m00 + m.m11 + m.m22 > 0.0 then
      var s := 0.5 / root;
      Quat(0.25 / s, (m.m21 - m.m12) * s, (m.m02 - m.m20) * s, (m.m10 - m.m01) * s)
    else
      var s := 2.0 * root;
      if m.m00 > m.m11 && m.m00 > m.m22 then
        Quat((m.m21 - m.m12) / s, 0.25 * s, (m.m01 + m.m10) / s, (m.m02 + m.m20) / s)
      else if m.m11 > m.m22 then
        Quat((m.m02 - m.m20) / s, (m.m01 + m.m10) / s, 0.25 * s, (m.m12 + m.m21) / s)
      else
        Quat((m.m10 - m.m01) / s, (m.m02 + m.m20) / s, (m.m12 + m.m21) / s, 0.25 * s)
  }

  function Rot2Quat(m: Mat, sqrt: real -> real): Quat
    requires IsSquareRoot(sqrt)
  {
    RootIsPositive(m, sqrt);
    var q := FromRoot(m, sqrt(RootArg(m)));
    if q.w < 0.0 then Neg(q) else q
  }

  /**
   Whatever the matrix, the chosen square-root argument is at least one: the four candidate arguments sum to four,
   so no divisor of `Rot2Quat` is ever zero.
   */
  lemma RootIsPositive(m: Mat, sqrt: real -> real)
    requires IsSquareRoot(sqrt)
    ensures RootArg(m) >= 1.0
    ensures sqrt(RootArg(m)) > 0.0 && sqrt(RootArg(m)) * sqrt(RootArg(m)) == RootArg(m)
  {
    assert sqrt(RootArg(m)) == 0.0 ==> sqrt(RootArg(m)) * sqrt(RootArg(m)) == 0.0;
  }

  // ---------------------------------------------------------------- products of named polynomials

  // Polynomial identities are stated over functions of real arguments with the polynomials written out as
  // arguments, where they are immediate; named entries then enter by equality of arguments.

  lemma SameProduct(a: real, b: real, p: real, q: real)
    requires a == p && b == q
    ensures a * b == p * q
  {
  }

  lemma OneTimes(u: real, v: real, r: real)
    requires u == 1.0 && r == v
    ensures Mul(u, v) == r
  {
  }

  lemma CancelFactor(k: real, a: real, b: real)
    requires k != 0.0 && k * a == k * b
    ensures a == b
  {
    assert k * (a - b) == 0.0;
  }

  // ---------------------------------------------------------------- quaternions compose as matrices do

  function QuatMul(p: Quat, q: Quat): Quat {
    Quat(p.w * q.w - p.x * q.x - p.y * q.y - p.z * q.z,
         p.w * q.x + p.x * q.w + p.y * q.z - p.z * q.y,
         p.w * q.y - p.x * q.z + p.y * q.w + p.z * q.x,
         p.w * q.z + p.x * q.y - p.y * q.x + p.z * q.w)
  }

  function Diagonal(a: real, b: real, c: real, d: real): real {
    a * a + b * b - c * c - d * d
  }

  function Minus(a: real, b: real, c: real, d: real): real {
    2.0 * (a * b - c * d)
  }

  function Plus(a: real, b: real, c: real, d: real): real {
    2.0 * (a * b + c * d)
  }

  /** `Quat2Rot` without the use of the unit norm. */
  function Hom(q: Quat): Mat {
    var Quat(w, x, y, z) := q;
    Mat(Diagonal(w, x, y, z), Minus(x, y, w, z), Plus(z, x, w, y),
        Plus(x, y, w, z), Diagonal(w, y, z, x), Minus(y, z, w, x),
        Minus(z, x, w, y), Plus(y, z, w, x), Diagonal(w, z, x, y))
  }

  lemma UnitDiagonals(w: real, x: real, y: real, z: real)
    requires w * w + x * x + y * y + z * z == 1.0
    ensures Diagonal(w, x, y, z) == 1.0 - 2.0 * (y * y + z * z)
    ensures Diagonal(w, y, z, x) == 1.0 - 2.0 * (x * x + z * z)
    ensures Diagonal(w, z, x, y) == 1.0 - 2.0 * (x * x + y * y)
  {
  }

  lemma OffDiagonals(q: Quat)
    ensures var (m, h) := (Quat2Rot(q), Hom(q));
            && m.m01 == h.m01 && m.m12 == h.m12 && m.m20 == h.m20
            && m.m02 == h.m02 && m.m10 == h.m10 && m.m21 == h.m21
  {
    hide Diagonal;
  }

  lemma QuatDiagonal(w: real, x: real, y: real, z: real)
    ensures QuatEntries(w, x, y, z).m00 == 1.0 - 2.0 * (y * y + z * z)
    ensures QuatEntries(w, x, y, z).m11 == 1.0 - 2.0 * (x * x + z * z)
    ensures QuatEntries(w, x, y, z).m22 == 1.0 - 2.0 * (x * x + y * y)
  {
  }

  lemma DiagonalEntries(q: Quat)
    ensures Quat2Rot(q).m00 == 1.0 - 2.0 * (q.y * q.y + q.z * q.z)
    ensures Quat2Rot(q).m11 == 1.0 - 2.0 * (q.x * q.x + q.z * q.z)
    ensures Quat2Rot(q).m22 == 1.0 - 2.0 * (q.x * q.x + q.y * q.y)
    ensures Hom(q).m00 == Diagonal(q.w, q.x, q.y, q.z)
    ensures Hom(q).m11 == Diagonal(q.w, q.y, q.z, q.x)
    ensures Hom(q).m22 == Diagonal(q.w, q.z, q.x, q.y)
  {
    hide QuatEntries, Hom, Diagonal;
    QuatDiagonal(q.w, q.x, q.y, q.z);
    HomRow0(q);
    HomColumns(q);
  }

  lemma UnitIsHom(q: Quat)
    requires Norm2(q) == 1.0
    ensures Quat2Rot(q) == Hom(q)
  {
    hide Quat2Rot, Hom, Diagonal;
    UnitDiagonals(q.w, q.x, q.y, q.z);
    DiagonalEntries(q);
    OffDiagonals(q);
  }

  // The first row of the product of the quaternions with components `a..d` and `e..h`.

  lemma FirstEntry(a: real, b: real, c: real, d: real, e: real, f: real, g: real, h: real)
    ensures Diagonal(a * e - b * f - c * g - d * h,
                     a * f + b * e + c * h - d * g,
                     a * g - b * h + c * e + d * f,
                     a * h + b * g - c * f + d * e)
         == Dot(a * a + b * b - c * c - d * d, 2.0 * (b * c - a * d), 2.0 * (d * b + a * c),
                e * e + f * f - g * g - h * h, 2.0 * (f * g + e * h), 2.0 * (h * f - e * g))
  {
  }

  lemma SecondEntry(a: real, b: real, c: real, d: real, e: real, f: real, g: real, h: real)
    ensures Minus(a * f + b * e + c * h - d * g,
                  a * g - b * h + c * e + d * f,
                  a * e - b * f - c * g - d * h,
                  a * h + b * g - c * f + d * e)
         == Dot(a * a + b * b - c * c - d * d, 2.0 * (b * c - a * d), 2.0 * (d * b + a * c),
                2.0 * (f * g - e * h), e * e + g * g - h * h - f * f, 2.0 * (g * h + e * f))
  {
  }

  lemma ThirdEntry(a: real, b: real, c: real, d: real, e: real, f: real, g: real, h: real)
    ensures Plus(a * h + b * g - c * f + d * e,
                 a * f + b * e + c * h - d * g,
                 a * e - b * f - c * g - d * h,
                 a * g - b * h + c * e + d * f)
         == Dot(a * a + b * b - c * c - d * d, 2.0 * (b * c - a * d), 2.0 * (d * b + a * c),
                2.0 * (h * f + e * g), 2.0 * (g * h - e * f), e * e + h * h - f * f - g * g)
  {
  }

  lemma QuatMulDef(p: Quat, q: Quat)
    ensures var r := QuatMul(p, q);
            && r.w == p.w * q.w - p.x * q.x - p.y * q.y - p.z * q.z
            && r.x == p.w * q.x + p.x * q.w + p.y * q.z - p.z * q.y
            && r.y == p.w * q.y - p.x * q.z + p.y * q.w + p.z * q.x
            && r.z == p.w * q.z + p.x * q.y - p.y * q.x + p.z * q.w
  {
  }

  lemma HomRow0(q: Quat)
    ensures Hom(q).m00 == Diagonal(q.w, q.x, q.y, q.z)
    ensures Hom(q).m01 == Minus(q.x, q.y, q.w, q.z) && Hom(q).m02 == Plus(q.z, q.x, q.w, q.y)
  {
    hide Diagonal, Minus, Plus;
  }

  lemma HomColumns(q: Quat)
    ensures Hom(q).m10 == Plus(q.x, q.y, q.w, q.z) && Hom(q).m20 == Minus(q.z, q.x, q.w, q.y)
    ensures Hom(q).m11 == Diagonal(q.w, q.y, q.z, q.x) && Hom(q).m21 == Plus(q.y, q.z, q.w, q.x)
    ensures Hom(q).m12 == Minus(q.y, q.z, q.w, q.x) && Hom(q).m22 == Diagonal(q.w, q.z, q.x, q.y)
  {
    hide Diagonal, Minus, Plus;
  }

  lemma DiagonalDef(a: real, b: real, c: real, d: real)
    ensures Diagonal(a, b, c, d) == a * a + b * b - c * c - d * d
  {
  }

  lemma MinusDef(a: real, b: real, c: real, d: real)
    ensures Minus(a, b, c, d) == 2.0 * (a * b - c * d)
  {
  }

  lemma PlusDef(a: real, b: real, c: real, d: real)
    ensures Plus(a, b, c, d) == 2.0 * (a * b + c * d)
  {
  }

  lemma FirstRowDef(q: Quat)
    ensures Hom(q).m00 == q.w * q.w + q.x * q.x - q.y * q.y - q.z * q.z
    ensures Hom(q).m01 == 2.0 * (q.x * q.y - q.w * q.z)
    ensures Hom(q).m02 == 2.0 * (q.z * q.x + q.w * q.y)
  {
    hide Diagonal, Minus, Plus;
    HomRow0(q);
    DiagonalDef(q.w, q.x, q.y, q.z);
    MinusDef(q.x, q.y, q.w, q.z);
    PlusDef(q.z, q.x, q.w, q.y);
  }

  lemma HomMul00(p: Quat, q: Quat)
    ensures Hom(QuatMul(p, q)).m00 == MatMul(Hom(p), Hom(q)).m00
  {
    hide Hom, QuatMul, Diagonal, Minus, Plus, Dot;
    QuatMulDef(p, q);
    FirstRowDef(p);
    HomRow0(q);
    HomColumns(q);
    DiagonalDef(q.w, q.x, q.y, q.z); PlusDef(q.x, q.y, q.w, q.z); MinusDef(q.z, q.x, q.w, q.y);
    HomRow0(QuatMul(p, q));
    FirstEntry(p.w, p.x, p.y, p.z, q.w, q.x, q.y, q.z);
  }

  lemma HomMul01(p: Quat, q: Quat)
    ensures Hom(QuatMul(p, q)).m01 == MatMul(Hom(p), Hom(q)).m01
  {
    hide Hom, QuatMul, Diagonal, Minus, Plus, Dot;
    QuatMulDef(p, q);
    FirstRowDef(p);
    HomRow0(q);
    HomColumns(q);
    MinusDef(q.x, q.y, q.w, q.z); DiagonalDef(q.w, q.y, q.z, q.x); PlusDef(q.y, q.z, q.w, q.x);
    HomRow0(QuatMul(p, q));
    SecondEntry(p.w, p.x, p.y, p.z, q.w, q.x, q.y, q.z);
  }

  lemma HomMul02(p: Quat, q: Quat)
    ensures Hom(QuatMul(p, q)).m02 == MatMul(Hom(p), Hom(q)).m02
  {
    hide Hom, QuatMul, Diagonal, Minus, Plus, Dot;
    QuatMulDef(p, q);
    FirstRowDef(p);
    HomRow0(q);
    HomColumns(q);
    PlusDef(q.z, q.x, q.w, q.y); MinusDef(q.y, q.z, q.w, q.x); DiagonalDef(q.w, q.z, q.x, q.y);
    HomRow0(QuatMul(p, q));
    ThirdEntry(p.w, p.x, p.y, p.z, q.w, q.x, q.y, q.z);
  }

  lemma HomMulFirstRow(p: Quat, q: Quat)
    ensures Hom(QuatMul(p, q)).m00 == MatMul(Hom(p), Hom(q)).m00
    ensures Hom(QuatMul(p, q)).m01 == MatMul(Hom(p), Hom(q)).m01
    ensures Hom(QuatMul(p, q)).m02 == MatMul(Hom(p), Hom(q)).m02
  {
    hide Hom, MatMul, QuatMul;
    HomMul00(p, q);
    HomMul01(p, q);
    HomMul02(p, q);
  }

  /** Renaming the axes x, y, z to y, z, x. */
  function Cycle(q: Quat): Quat {
    Quat(q.w, q.y, q.z, q.x)
  }

  function CycleMat(a: Mat): Mat {
    Mat(a.m11, a.m12, a.m10, a.m21, a.m22, a.m20, a.m01, a.m02, a.m00)
  }

  lemma CycleHom(q: Quat)
    ensures Hom(Cycle(q)) == CycleMat(Hom(q))
  {
    var c := Cycle(q);
    assert c.w == q.w && c.x == q.y && c.y == q.z && c.z == q.x;
    hide Cycle, Diagonal, Minus, Plus;
  }

  lemma CycleQuatMul(p: Quat, q: Quat)
    ensures QuatMul(Cycle(p), Cycle(q)) == Cycle(QuatMul(p, q))
  {
    var (c, d, m) := (Cycle(p), Cycle(q), QuatMul(p, q));
    var r := Cycle(m);
    assert c.w == p.w && c.x == p.y && c.y == p.z && c.z == p.x;
    assert d.w == q.w && d.x == q.y && d.y == q.z && d.z == q.x;
    assert r.w == m.w && r.x == m.y && r.y == m.z && r.z == m.x;
    hide Cycle;
  }

  lemma DotPermutes(a: real, b: real, c: real, p: real, q: real, r: real)
    ensures Dot(a, b, c, p, q, r) == Dot(b, c, a, q, r, p) == Dot(p, q, r, a, b, c)
  {
  }

  lemma CycleMatMul(a: Mat, b: Mat)
    ensures MatMul(CycleMat(a), CycleMat(b)) == CycleMat(MatMul(a, b))
  {
    hide Dot;
    DotPermutes(a.m00, a.m01, a.m02, b.m00, b.m10, b.m20);
    DotPermutes(a.m00, a.m01, a.m02, b.m01, b.m11, b.m21);
    DotPermutes(a.m00, a.m01, a.m02, b.m02, b.m12, b.m22);
    DotPermutes(a.m10, a.m11, a.m12, b.m00, b.m10, b.m20);
    DotPermutes(a.m10, a.m11, a.m12, b.m01, b.m11, b.m21);
    DotPermutes(a.m10, a.m11, a.m12, b.m02, b.m12, b.m22);
    DotPermutes(a.m20, a.m21, a.m22, b.m00, b.m10, b.m20);
    DotPermutes(a.m20, a.m21, a.m22, b.m01, b.m11, b.m21);
    DotPermutes(a.m20, a.m21, a.m22, b.m02, b.m12, b.m22);
  }

  /** Composition: the matrix of a product of quaternions is the product of their matrices. */
  lemma HomMul(p: Quat, q: Quat)
    ensures Hom(QuatMul(p, q)) == MatMul(Hom(p), Hom(q))
  {
    var (p1, q1) := (Cycle(p), Cycle(q));
    HomMulFirstRow(p, q);
    HomMulFirstRow(p1, q1);
    HomMulFirstRow(Cycle(p1), Cycle(q1));
    hide Hom, MatMul, QuatMul;
    CycleQuatMul(p, q);
    CycleQuatMul(p1, q1);
    CycleHom(p);
    CycleHom(q);
    CycleHom(QuatMul(p, q));
    CycleHom(p1);
    CycleHom(q1);
    CycleHom(QuatMul(p1, q1));
    CycleMatMul(Hom(p), Hom(q));
    CycleMatMul(Hom(p1), Hom(q1));
  }

  // ---------------------------------------------------------------- two routes from Euler angles

  function HalfX(a: Angle): Quat {
    Quat(a.ch, a.sh, 0.0, 0.0)
  }

  function HalfY(a: Angle): Quat {
    Quat(a.ch, 0.0, a.sh, 0.0)
  }

  function HalfZ(a: Angle): Quat {
    Quat(a.ch, 0.0, 0.0, a.sh)
  }

  lemma HalfTurns(a: Angle)
    requires a.Valid()
    ensures Hom(HalfX(a)) == RotX(a) && Hom(HalfY(a)) == RotY(a) && Hom(HalfZ(a)) == RotZ(a)
    ensures Norm2(HalfX(a)) == 1.0 && Norm2(HalfY(a)) == 1.0 && Norm2(HalfZ(a)) == 1.0
  {
  }

  lemma NormPolynomial(a: real, b: real, c: real, d: real, e: real, f: real, g: real, h: real)
    ensures SumOfSquares(a * e - b * f - c * g - d * h,
                         a * f + b * e + c * h - d * g,
                         a * g - b * h + c * e + d * f,
                         a * h + b * g - c * f + d * e)
         == Mul(a * a + b * b + c * c + d * d, e * e + f * f + g * g + h * h)
  {
  }

  lemma UnitPolynomial(a: real, b: real, c: real, d: real, e: real, f: real, g: real, h: real)
    requires a * a + b * b + c * c + d * d == 1.0 && e * e + f * f + g * g + h * h == 1.0
    ensures SumOfSquares(a * e - b * f - c * g - d * h,
                         a * f + b * e + c * h - d * g,
                         a * g - b * h + c * e + d * f,
                         a * h + b * g - c * f + d * e)
         == 1.0
  {
    hide *;
    NormPolynomial(a, b, c, d, e, f, g, h);
    OneTimes(a * a + b * b + c * c + d * d, e * e + f * f + g * g + h * h, 1.0);
  }

  lemma NormDef(q: Quat)
    ensures Norm2(q) == q.w * q.w + q.x * q.x + q.y * q.y + q.z * q.z
    ensures Norm2(q) == SumOfSquares(q.w, q.x, q.y, q.z)
  {
  }

  /** Unit quaternions are closed under composition. */
  lemma UnitMul(p: Quat, q: Quat)
    requires Norm2(p) == 1.0 && Norm2(q) == 1.0
    ensures Norm2(QuatMul(p, q)) == 1.0
  {
    hide *;
    NormDef(p);
    NormDef(q);
    NormDef(QuatMul(p, q));
    QuatMulDef(p, q);
    UnitPolynomial(p.w, p.x, p.y, p.z, q.w, q.x, q.y, q.z);
  }

  lemma NegEntries(w: real, x: real, y: real, z: real)
    ensures QuatEntries(-w, -x, -y, -z) == QuatEntries(w, x, y, z)
    ensures SumOfSquares(-w, -x, -y, -z) == SumOfSquares(w, x, y, z)
  {
  }

  lemma NegChangesNothing(q: Quat)
    ensures Norm2(Neg(q)) == Norm2(q) && Quat2Rot(Neg(q)) == Quat2Rot(q)
  {
    hide QuatEntries, SumOfSquares;
    NegEntries(q.w, q.x, q.y, q.z);
  }

  lemma YawPitch(a: Angle, b: Angle)
    ensures QuatMul(HalfZ(a), HalfY(b)) == Quat(a.ch * b.ch, -(a.sh * b.sh), a.ch * b.sh, a.sh * b.ch)
  {
  }

  lemma ThenRoll(p: Quat, w: real, x: real, y: real, z: real, a: Angle, ch: real, sh: real)
    requires p == Quat(w, x, y, z) && a.ch == ch && a.sh == sh
    ensures QuatMul(p, HalfX(a)) == Quat(w * ch - x * sh, w * sh + x * ch, y * ch + z * sh, z * ch - y * sh)
  {
  }

  lemma ComponentsExpanded(cr: real, sr: real, cp: real, sp: real, cy: real, sy: real)
    ensures EulerComponents(cr, sr, cp, sp, cy, sy)
         == Quat((cy * cp) * cr - (-(sy * sp)) * sr, (cy * cp) * sr + (-(sy * sp)) * cr,
                 (cy * sp) * cr + (sy * cp) * sr, (sy * cp) * cr - (cy * sp) * sr)
  {
  }

  lemma Euler2QuatDef(e: Euler, q: Quat)
    requires q == EulerComponents(e.roll.ch, e.roll.sh, e.pitch.ch, e.pitch.sh, e.yaw.ch, e.yaw.sh)
    ensures Euler2Quat(e) == if q.w < 0.0 then Neg(q) else q
  {
    hide EulerComponents, Neg;
  }

  lemma EulerPolynomial(p: Quat, a: Angle, cr: real, sr: real, cp: real, sp: real, cy: real, sy: real)
    requires p == Quat(cy * cp, -(sy * sp), cy * sp, sy * cp) && a.ch == cr && a.sh == sr
    ensures QuatMul(p, HalfX(a)) == EulerComponents(cr, sr, cp, sp, cy, sy)
  {
    hide *;
    ThenRoll(p, cy * cp, -(sy * sp), cy * sp, sy * cp, a, cr, sr);
    ComponentsExpanded(cr, sr, cp, sp, cy, sy);
  }

  /** The Euler quaternion is yaw after pitch after roll, up to sign. */
  lemma EulerFactors(e: Euler)
    ensures var q := QuatMul(QuatMul(HalfZ(e.yaw), HalfY(e.pitch)), HalfX(e.roll));
            Euler2Quat(e) == if q.w < 0.0 then Neg(q) else q
  {
    hide *;
    var p := QuatMul(HalfZ(e.yaw), HalfY(e.pitch));
    YawPitch(e.yaw, e.pitch);
    EulerPolynomial(p, e.roll, e.roll.ch, e.roll.sh, e.pitch.ch, e.pitch.sh, e.yaw.ch, e.yaw.sh);
    Euler2QuatDef(e, QuatMul(p, HalfX(e.roll)));
  }

  /** `euler2quat` gives a unit quaternion with a non-negative scalar part. */
  lemma EulerQuatIsUnit(e: Euler)
    requires e.Valid()
    ensures Norm2(Euler2Quat(e)) == 1.0 && Euler2Quat(e).w >= 0.0
  {
    hide QuatMul, Euler2Quat, Norm2;
    HalfTurns(e.yaw);
    HalfTurns(e.pitch);
    HalfTurns(e.roll);
    UnitMul(HalfZ(e.yaw), HalfY(e.pitch));
    var q := QuatMul(QuatMul(HalfZ(e.yaw), HalfY(e.pitch)), HalfX(e.roll));
    UnitMul(QuatMul(HalfZ(e.yaw), HalfY(e.pitch)), HalfX(e.roll));
    NegChangesNothing(q);
    EulerFactors(e);
  }

  /** Going through the quaternion and multiplying the three axis matrices give the same rotation. */
  lemma TwoRoutesAgree(e: Euler)
    requires e.Valid()
    ensures Quat2Rot(Euler2Quat(e)) == Euler2Rot(e)
  {
    EulerQuatIsUnit(e);
    hide QuatMul, Euler2Quat, Norm2, Hom, Quat2Rot, MatMul;
    var p := QuatMul(HalfZ(e.yaw), HalfY(e.pitch));
    var q := QuatMul(p, HalfX(e.roll));
    EulerFactors(e);
    NegChangesNothing(q);
    UnitIsHom(q);
    HomMul(p, HalfX(e.roll));
    HomMul(HalfZ(e.yaw), HalfY(e.pitch));
    HalfTurns(e.yaw);
    HalfTurns(e.pitch);
    HalfTurns(e.roll);
  }

  // ---------------------------------------------------------------- unit quaternions give rotations

  ghost predicate IsRotation(m: Mat) {
    && MatMul(m, Transpose(m)) == IDENTITY
    && MatMul(Transpose(m), m) == IDENTITY
    && Det(m) == 1.0
  }

  function Conj(q: Quat): Quat {
    Quat(q.w, -q.x, -q.y, -q.z)
  }

  lemma FlipSigns(a: real, b: real, c: real, d: real)
    ensures Diagonal(a, -b, -c, -d) == Diagonal(a, b, c, d)
    ensures Minus(-a, -b, c, -d) == Plus(a, b, c, d) && Plus(-a, -b, c, -d) == Minus(a, b, c, d)
  {
  }

  lemma ConjIsTranspose(q: Quat)
    ensures Hom(Conj(q)) == Transpose(Hom(q))
  {
    hide Diagonal, Minus, Plus;
    FlipSigns(q.w, q.x, q.y, q.z);
    FlipSigns(q.w, q.y, q.z, q.x);
    FlipSigns(q.w, q.z, q.x, q.y);
    FlipSigns(q.x, q.y, q.w, q.z);
    FlipSigns(q.y, q.z, q.w, q.x);
    FlipSigns(q.z, q.x, q.w, q.y);
  }

  lemma ConjCancels(q: Quat)
    requires Norm2(q) == 1.0
    ensures QuatMul(q, Conj(q)) == Quat(1.0, 0.0, 0.0, 0.0) == QuatMul(Conj(q), q)
  {
  }

  lemma HomOne()
    ensures Hom(Quat(1.0, 0.0, 0.0, 0.0)) == IDENTITY
  {
  }

  // Cofactors of the first row.

  lemma CofactorDiagonal(w: real, x: real, y: real, z: real)
    ensures Cross(w * w + y * y - z * z - x * x, w * w + z * z - x * x - y * y, 2.0 * (y * z - w * x), 2.0 * (y * z + w * x))
         == Mul(w * w + x * x + y * y + z * z, w * w + x * x - y * y - z * z)
  {
  }

  lemma UnitCofactorDiagonal(w: real, x: real, y: real, z: real)
    requires w * w + x * x + y * y + z * z == 1.0
    ensures Cross(w * w + y * y - z * z - x * x, w * w + z * z - x * x - y * y, 2.0 * (y * z - w * x), 2.0 * (y * z + w * x))
         == w * w + x * x - y * y - z * z
  {
    hide *;
    CofactorDiagonal(w, x, y, z);
    OneTimes(w * w + x * x + y * y + z * z, w * w + x * x - y * y - z * z, w * w + x * x - y * y - z * z);
  }

  lemma CofactorMinus(w: real, x: real, y: real, z: real)
    ensures Cross(2.0 * (y * z - w * x), 2.0 * (z * x - w * y), 2.0 * (x * y + w * z), w * w + z * z - x * x - y * y)
         == Mul(w * w + x * x + y * y + z * z, 2.0 * (x * y - w * z))
  {
  }

  lemma UnitCofactorMinus(w: real, x: real, y: real, z: real)
    requires w * w + x * x + y * y + z * z == 1.0
    ensures Cross(2.0 * (y * z - w * x), 2.0 * (z * x - w * y), 2.0 * (x * y + w * z), w * w + z * z - x * x - y * y)
         == 2.0 * (x * y - w * z)
  {
    hide *;
    CofactorMinus(w, x, y, z);
    OneTimes(w * w + x * x + y * y + z * z, 2.0 * (x * y - w * z), 2.0 * (x * y - w * z));
  }

  lemma CofactorPlus(w: real, x: real, y: real, z: real)
    ensures Cross(2.0 * (x * y + w * z), 2.0 * (y * z + w * x), w * w + y * y - z * z - x * x, 2.0 * (z * x - w * y))
         == Mul(w * w + x * x + y * y + z * z, 2.0 * (z * x + w * y))
  {
  }

  lemma UnitCofactorPlus(w: real, x: real, y: real, z: real)
    requires w * w + x * x + y * y + z * z == 1.0
    ensures Cross(2.0 * (x * y + w * z), 2.0 * (y * z + w * x), w * w + y * y - z * z - x * x, 2.0 * (z * x - w * y))
         == 2.0 * (z * x + w * y)
  {
    hide *;
    CofactorPlus(w, x, y, z);
    OneTimes(w * w + x * x + y * y + z * z, 2.0 * (z * x + w * y), 2.0 * (z * x + w * y));
  }

  lemma CrossFlips(a: real, b: real, c: real, d: real)
    ensures Cross(c, d, a, b) == -Cross(a, b, c, d)
  {
  }

  lemma DetFromFirstRow(m: Mat)
    requires Cross(m.m11, m.m22, m.m12, m.m21) == m.m00
    requires Cross(m.m12, m.m20, m.m10, m.m22) == m.m01
    requires Cross(m.m10, m.m21, m.m11, m.m20) == m.m02
    requires Dot(m.m00, m.m01, m.m02, m.m00, m.m01, m.m02) == 1.0
    ensures Det(m) == 1.0
  {
    hide Cross;
    CrossFlips(m.m12, m.m20, m.m10, m.m22);
    SameProduct(m.m00, Cross(m.m11, m.m22, m.m12, m.m21), m.m00, m.m00);
    SameProduct(m.m01, Cross(m.m10, m.m22, m.m12, m.m20), m.m01, -m.m01);
    SameProduct(m.m02, Cross(m.m10, m.m21, m.m11, m.m20), m.m02, m.m02);
  }

  lemma UnitCofactor00(q: Quat)
    requires Norm2(q) == 1.0
    ensures Cross(Hom(q).m11, Hom(q).m22, Hom(q).m12, Hom(q).m21) == Hom(q).m00
  {
    hide *;
    NormDef(q);
    HomRow0(q);
    HomColumns(q);
    DiagonalDef(q.w, q.x, q.y, q.z); DiagonalDef(q.w, q.y, q.z, q.x); DiagonalDef(q.w, q.z, q.x, q.y); MinusDef(q.y, q.z, q.w, q.x); PlusDef(q.y, q.z, q.w, q.x);
    UnitCofactorDiagonal(q.w, q.x, q.y, q.z);
  }

  lemma UnitCofactor01(q: Quat)
    requires Norm2(q) == 1.0
    ensures Cross(Hom(q).m12, Hom(q).m20, Hom(q).m10, Hom(q).m22) == Hom(q).m01
  {
    hide *;
    NormDef(q);
    HomRow0(q);
    HomColumns(q);
    MinusDef(q.x, q.y, q.w, q.z); MinusDef(q.y, q.z, q.w, q.x); MinusDef(q.z, q.x, q.w, q.y); PlusDef(q.x, q.y, q.w, q.z); DiagonalDef(q.w, q.z, q.x, q.y);
    UnitCofactorMinus(q.w, q.x, q.y, q.z);
  }

  lemma UnitCofactor02(q: Quat)
    requires Norm2(q) == 1.0
    ensures Cross(Hom(q).m10, Hom(q).m21, Hom(q).m11, Hom(q).m20) == Hom(q).m02
  {
    hide *;
    NormDef(q);
    HomRow0(q);
    HomColumns(q);
    PlusDef(q.z, q.x, q.w, q.y); PlusDef(q.x, q.y, q.w, q.z); PlusDef(q.y, q.z, q.w, q.x); DiagonalDef(q.w, q.y, q.z, q.x); MinusDef(q.z, q.x, q.w, q.y);
    UnitCofactorPlus(q.w, q.x, q.y, q.z);
  }

  lemma UnitCofactors(q: Quat)
    requires Norm2(q) == 1.0
    ensures var m := Hom(q);
            && Cross(m.m11, m.m22, m.m12, m.m21) == m.m00
            && Cross(m.m12, m.m20, m.m10, m.m22) == m.m01
            && Cross(m.m10, m.m21, m.m11, m.m20) == m.m02
  {
    hide *;
    UnitCofactor00(q);
    UnitCofactor01(q);
    UnitCofactor02(q);
  }

  /** The matrix of a unit quaternion is orthogonal with determinant one. */
  lemma UnitQuatGivesRotation(q: Quat)
    requires Norm2(q) == 1.0
    ensures IsRotation(Quat2Rot(q))
  {
    hide Hom, Quat2Rot, QuatMul, Norm2, Det, Dot, Cross;
    UnitIsHom(q);
    ConjIsTranspose(q);
    ConjCancels(q);
    HomOne();
    HomMul(q, Conj(q));
    HomMul(Conj(q), q);
    UnitCofactors(q);
    DetFromFirstRow(Hom(q));
  }

  // ---------------------------------------------------------------- back to quaternions

  /** A symmetric four by four matrix over the components w, x, y, z. */
  datatype Sym4 = Sym4(ww: real, wx: real, wy: real, wz: real, xx: real, xy: real, xz: real, yy: real, yz: real, zz: real)

  /** Four times the products of the components of a quaternion whose matrix is `m`, read off the matrix. */
  function Gram(m: Mat): Sym4 {
    Sym4(1.0 + m.m00 + m.m11 + m.m22, m.m21 - m.m12, m.m02 - m.m20, m.m10 - m.m01,
         1.0 + m.m00 - m.m11 - m.m22, m.m01 + m.m10, m.m02 + m.m20,
         1.0 + m.m11 - m.m00 - m.m22, m.m12 + m.m21,
         1.0 + m.m22 - m.m00 - m.m11)
  }

  function Quad(u: real, v: real): real {
    4.0 * u * v
  }

  function Outer(q: Quat): Sym4 {
    Sym4(Quad(q.w, q.w), Quad(q.w, q.x), Quad(q.w, q.y), Quad(q.w, q.z),
         Quad(q.x, q.x), Quad(q.x, q.y), Quad(q.x, q.z),
         Quad(q.y, q.y), Quad(q.y, q.z),
         Quad(q.z, q.z))
  }

  lemma NormFromQuads(w: real, x: real, y: real, z: real)
    ensures Quad(w, w) + Quad(x, x) + Quad(y, y) + Quad(z, z) == 4.0 * (w * w + x * x + y * y + z * z)
  {
  }

  lemma EntriesFromQuads(a: real, b: real, c: real, d: real)
    ensures a * a + b * b + c * c + d * d == 1.0 ==> Diagonal(a, b, c, d) == 0.5 * (Quad(a, a) + Quad(b, b)) - 1.0
    ensures Minus(a, b, c, d) == 0.5 * (Quad(a, b) - Quad(c, d)) && Plus(a, b, c, d) == 0.5 * (Quad(a, b) + Quad(c, d))
    ensures Quad(a, b) == Quad(b, a)
  {
  }

  lemma HomFromQuads(q: Quat)
    requires Norm2(q) == 1.0
    ensures var (h, o) := (Hom(q), Outer(q));
            && h.m00 == 0.5 * (o.ww + o.xx) - 1.0 && h.m11 == 0.5 * (o.ww + o.yy) - 1.0 && h.m22 == 0.5 * (o.ww + o.zz) - 1.0
            && h.m01 == 0.5 * (o.xy - o.wz) && h.m10 == 0.5 * (o.xy + o.wz)
            && h.m12 == 0.5 * (o.yz - o.wx) && h.m21 == 0.5 * (o.yz + o.wx)
            && h.m20 == 0.5 * (o.xz - o.wy) && h.m02 == 0.5 * (o.xz + o.wy)
            && o.ww + o.xx + o.yy + o.zz == 4.0
  {
    NormDef(q);
    hide Norm2, Hom, Diagonal, Minus, Plus, Quad;
    HomRow0(q);
    HomColumns(q);
    NormFromQuads(q.w, q.x, q.y, q.z);
    EntriesFromQuads(q.w, q.x, q.y, q.z);
    EntriesFromQuads(q.w, q.y, q.z, q.x);
    EntriesFromQuads(q.w, q.z, q.x, q.y);
    EntriesFromQuads(q.x, q.y, q.w, q.z);
    EntriesFromQuads(q.y, q.z, q.w, q.x);
    EntriesFromQuads(q.z, q.x, q.w, q.y);
  }

  /** The Gram matrix of a unit quaternion's rotation is four times its outer product ... */
  lemma GramOfQuat(q: Quat)
    requires Norm2(q) == 1.0
    ensures Gram(Quat2Rot(q)) == Outer(q)
  {
    hide Norm2, Hom, Outer, Quat2Rot;
    HomFromQuads(q);
    UnitIsHom(q);
  }

  /** ... and no other matrix has that Gram matrix. */
  lemma GramDetermines(q: Quat, m: Mat)
    requires Outer(q) == Gram(m)
    ensures Norm2(q) == 1.0 && Quat2Rot(q) == m
  {
    hide Norm2, Hom, Quat2Rot, Quad;
    NormFromQuads(q.w, q.x, q.y, q.z);
    NormDef(q);
    HomFromQuads(q);
    UnitIsHom(q);
  }

  predicate IsMinor(a: real, b: real, c: real, d: real) {
    a * b == c * d
  }

  lemma MinorFlip(a: real, b: real, c: real, d: real)
    requires IsMinor(a, b, c, d)
    ensures IsMinor(b, a, c, d)
  {
  }

  /** The two by two minors through the diagonal vanish. */
  predicate RankOne(k: Sym4) {
    && IsMinor(k.ww, k.xx, k.wx, k.wx) && IsMinor(k.ww, k.yy, k.wy, k.wy) && IsMinor(k.ww, k.zz, k.wz, k.wz)
    && IsMinor(k.ww, k.xy, k.wx, k.wy) && IsMinor(k.ww, k.xz, k.wx, k.wz) && IsMinor(k.ww, k.yz, k.wy, k.wz)
    && IsMinor(k.xx, k.yy, k.xy, k.xy) && IsMinor(k.xx, k.zz, k.xz, k.xz) && IsMinor(k.yy, k.zz, k.yz, k.yz)
    && IsMinor(k.xx, k.wy, k.wx, k.xy) && IsMinor(k.xx, k.wz, k.wx, k.xz) && IsMinor(k.xx, k.yz, k.xy, k.xz)
    && IsMinor(k.yy, k.wx, k.wy, k.xy) && IsMinor(k.yy, k.wz, k.wy, k.yz) && IsMinor(k.yy, k.xz, k.xy, k.yz)
    && IsMinor(k.zz, k.wx, k.wz, k.xz) && IsMinor(k.zz, k.wy, k.wz, k.yz) && IsMinor(k.zz, k.xy, k.xz, k.yz)
  }

  /** `r` is the positive root of `b`, and `u` the component that `r` takes from the entry `bu`. */
  predicate IsRoot(r: real, b: real) {
    r > 0.0 && r * r == b
  }

  predicate IsShare(r: real, u: real, bu: real) {
    2.0 * r * u == bu
  }

  /** Two components recovered through a third one, whose square is a quarter of `b`. */
  lemma Recover(r: real, b: real, u: real, v: real, bu: real, bv: real, uv: real)
    requires IsRoot(r, b) && IsShare(r, u, bu) && IsShare(r, v, bv) && IsMinor(b, uv, bu, bv)
    ensures Quad(u, v) == uv
  {
    SameProduct(bu, bv, 2.0 * r * u, 2.0 * r * v);
    SameProduct(b, uv, r * r, uv);
    calc {
      r * r * (4.0 * u * v);
      { Regroup(r, u, v); }
      (2.0 * r * u) * (2.0 * r * v);
      bu * bv;
      b * uv;
      r * r * uv;
    }
    CancelSquare(r, 4.0 * u * v, uv);
  }

  lemma Regroup(r: real, u: real, v: real)
    ensures (2.0 * r * u) * (2.0 * r * v) == r * r * (4.0 * u * v)
  {
  }

  lemma CancelSquare(r: real, a: real, b: real)
    requires r > 0.0 && r * r * a == r * r * b
    ensures a == b
  {
    assert r * (r * a) == r * (r * b);
    CancelFactor(r, r * a, r * b);
    CancelFactor(r, a, b);
  }

  lemma RecoverOwn(r: real, b: real, own: real, u: real, bu: real)
    requires IsRoot(r, b) && own == 0.5 * r && IsShare(r, u, bu)
    ensures Quad(own, own) == b && Quad(own, u) == bu == Quad(u, own)
  {
    SameProduct(own, own, 0.5 * r, 0.5 * r);
    SameProduct(own, u, 0.5 * r, u);
  }

  lemma RootScales(r: real, s: real, t: real)
    requires r > 0.0 && s == 0.5 / r && t == 2.0 * r
    ensures s > 0.0 && 0.25 / s == 0.5 * r == 0.25 * t && s * r == 0.5
  {
    assert s * r == 0.5;
    assert 0.25 / s * s == 0.25;
    assert (0.5 * r) * s == 0.25;
    CancelFactor(s, 0.25 / s, 0.5 * r);
  }

  lemma ShareByProduct(r: real, s: real, d: real, u: real, k: real)
    requires s * r == 0.5 && d == k && u == d * s
    ensures IsShare(r, u, k)
  {
    calc {
      2.0 * r * u;
      2.0 * r * (d * s);
      d * (2.0 * (s * r));
      d;
    }
  }

  lemma ShareByQuotient(r: real, t: real, d: real, u: real, k: real)
    requires r > 0.0 && t == 2.0 * r && d == k && u == d / t
    ensures IsShare(r, u, k)
  {
    assert t * (d / t) == d;
  }

  lemma FromW(k: Sym4, q: Quat, r: real)
    requires RankOne(k) && IsRoot(r, k.ww) && q.w == 0.5 * r
    requires IsShare(r, q.x, k.wx) && IsShare(r, q.y, k.wy) && IsShare(r, q.z, k.wz)
    ensures Outer(q) == k
  {
    hide Quad, IsMinor, IsRoot, IsShare;
    RecoverOwn(r, k.ww, q.w, q.x, k.wx);
    RecoverOwn(r, k.ww, q.w, q.y, k.wy);
    RecoverOwn(r, k.ww, q.w, q.z, k.wz);
    Recover(r, k.ww, q.x, q.x, k.wx, k.wx, k.xx);
    Recover(r, k.ww, q.x, q.y, k.wx, k.wy, k.xy);
    Recover(r, k.ww, q.x, q.z, k.wx, k.wz, k.xz);
    Recover(r, k.ww, q.y, q.y, k.wy, k.wy, k.yy);
    Recover(r, k.ww, q.y, q.z, k.wy, k.wz, k.yz);
    Recover(r, k.ww, q.z, q.z, k.wz, k.wz, k.zz);
  }

  lemma FromX(k: Sym4, q: Quat, r: real)
    requires RankOne(k) && IsRoot(r, k.xx) && q.x == 0.5 * r
    requires IsShare(r, q.w, k.wx) && IsShare(r, q.y, k.xy) && IsShare(r, q.z, k.xz)
    ensures Outer(q) == k
  {
    hide Quad, IsMinor, IsRoot, IsShare;
    MinorFlip(k.ww, k.xx, k.wx, k.wx);
    RecoverOwn(r, k.xx, q.x, q.w, k.wx);
    RecoverOwn(r, k.xx, q.x, q.y, k.xy);
    RecoverOwn(r, k.xx, q.x, q.z, k.xz);
    Recover(r, k.xx, q.w, q.w, k.wx, k.wx, k.ww);
    Recover(r, k.xx, q.w, q.y, k.wx, k.xy, k.wy);
    Recover(r, k.xx, q.w, q.z, k.wx, k.xz, k.wz);
    Recover(r, k.xx, q.y, q.y, k.xy, k.xy, k.yy);
    Recover(r, k.xx, q.y, q.z, k.xy, k.xz, k.yz);
    Recover(r, k.xx, q.z, q.z, k.xz, k.xz, k.zz);
  }

  lemma FromY(k: Sym4, q: Quat, r: real)
    requires RankOne(k) && IsRoot(r, k.yy) && q.y == 0.5 * r
    requires IsShare(r, q.w, k.wy) && IsShare(r, q.x, k.xy) && IsShare(r, q.z, k.yz)
    ensures Outer(q) == k
  {
    hide Quad, IsMinor, IsRoot, IsShare;
    MinorFlip(k.ww, k.yy, k.wy, k.wy);
    MinorFlip(k.xx, k.yy, k.xy, k.xy);
    RecoverOwn(r, k.yy, q.y, q.w, k.wy);
    RecoverOwn(r, k.yy, q.y, q.x, k.xy);
    RecoverOwn(r, k.yy, q.y, q.z, k.yz);
    Recover(r, k.yy, q.w, q.w, k.wy, k.wy, k.ww);
    Recover(r, k.yy, q.w, q.x, k.wy, k.xy, k.wx);
    Recover(r, k.yy, q.w, q.z, k.wy, k.yz, k.wz);
    Recover(r, k.yy, q.x, q.x, k.xy, k.xy, k.xx);
    Recover(r, k.yy, q.x, q.z, k.xy, k.yz, k.xz);
    Recover(r, k.yy, q.z, q.z, k.yz, k.yz, k.zz);
  }

  lemma FromZ(k: Sym4, q: Quat, r: real)
    requires RankOne(k) && IsRoot(r, k.zz) && q.z == 0.5 * r
    requires IsShare(r, q.w, k.wz) && IsShare(r, q.x, k.xz) && IsShare(r, q.y, k.yz)
    ensures Outer(q) == k
  {
    hide Quad, IsMinor, IsRoot, IsShare;
    MinorFlip(k.ww, k.zz, k.wz, k.wz);
    MinorFlip(k.xx, k.zz, k.xz, k.xz);
    MinorFlip(k.yy, k.zz, k.yz, k.yz);
    RecoverOwn(r, k.zz, q.z, q.w, k.wz);
    RecoverOwn(r, k.zz, q.z, q.x, k.xz);
    RecoverOwn(r, k.zz, q.z, q.y, k.yz);
    Recover(r, k.zz, q.w, q.w, k.wz, k.wz, k.ww);
    Recover(r, k.zz, q.w, q.x, k.wz, k.xz, k.wx);
    Recover(r, k.zz, q.w, q.y, k.wz, k.yz, k.wy);
    Recover(r, k.zz, q.x, q.x, k.xz, k.xz, k.xx);
    Recover(r, k.zz, q.x, q.y, k.xz, k.yz, k.xy);
    Recover(r, k.zz, q.y, q.y, k.yz, k.yz, k.yy);
  }

  lemma QuadMinor(a: real, b: real, c: real, d: real)
    ensures IsMinor(Quad(a, b), Quad(c, d), Quad(a, c), Quad(b, d))
  {
    SameProduct(Quad(a, b), Quad(c, d), 4.0 * a * b, 4.0 * c * d);
    SameProduct(Quad(a, c), Quad(b, d), 4.0 * a * c, 4.0 * b * d);
  }

  lemma OuterIsRankOne(q: Quat)
    ensures RankOne(Outer(q))
  {
    hide Quad, IsMinor;
    var Quat(w, x, y, z) := q;
    AllMinorsOf(w, x, y, z);
    AllMinorsOf(x, y, z, w);
    AllMinorsOf(y, z, w, x);
    AllMinorsOf(z, w, x, y);
    QuadCommutes(w, x); QuadCommutes(w, y); QuadCommutes(w, z);
    QuadCommutes(x, y); QuadCommutes(x, z); QuadCommutes(y, z);
  }

  lemma QuadCommutes(a: real, b: real)
    ensures Quad(a, b) == Quad(b, a)
  {
  }

  /** The minors through the first component. */
  lemma AllMinorsOf(a: real, b: real, c: real, d: real)
    ensures IsMinor(Quad(a, a), Quad(b, b), Quad(a, b), Quad(a, b))
    ensures IsMinor(Quad(a, a), Quad(c, c), Quad(a, c), Quad(a, c))
    ensures IsMinor(Quad(a, a), Quad(d, d), Quad(a, d), Quad(a, d))
    ensures IsMinor(Quad(a, a), Quad(b, c), Quad(a, b), Quad(a, c))
    ensures IsMinor(Quad(a, a), Quad(b, d), Quad(a, b), Quad(a, d))
    ensures IsMinor(Quad(a, a), Quad(c, d), Quad(a, c), Quad(a, d))
    ensures IsMinor(Quad(a, a), Quad(b, c), Quad(a, c), Quad(a, b))
    ensures IsMinor(Quad(a, a), Quad(b, d), Quad(a, d), Quad(a, b))
    ensures IsMinor(Quad(a, a), Quad(c, d), Quad(a, d), Quad(a, c))
  {
    hide Quad, IsMinor;
    QuadMinor(a, a, b, b);
    QuadMinor(a, a, c, c);
    QuadMinor(a, a, d, d);
    QuadMinor(a, a, b, c);
    QuadMinor(a, a, b, d);
    QuadMinor(a, a, c, d);
    QuadMinor(a, a, c, b);
    QuadMinor(a, a, d, b);
    QuadMinor(a, a, d, c);
    QuadCommutes(b, c);
    QuadCommutes(b, d);
    QuadCommutes(c, d);
  }

  lemma FromRootHasGram(m: Mat, r: real)
    requires IsRoot(r, RootArg(m)) && RankOne(Gram(m))
    ensures Outer(FromRoot(m, r)) == Gram(m)
  {
    hide RankOne, IsMinor, IsShare, Outer;
    var k, q, s, t := Gram(m), FromRoot(m, r), 0.5 / r, 2.0 * r;
    RootScales(r, s, t);
    if m.m00 + m.m11 + m.m22 > 0.0 {
      ShareByProduct(r, s, m.m21 - m.m12, q.x, k.wx);
      ShareByProduct(r, s, m.m02 - m.m20, q.y, k.wy);
      ShareByProduct(r, s, m.m10 - m.m01, q.z, k.wz);
      FromW(k, q, r);
    } else if m.m00 > m.m11 && m.m00 > m.m22 {
      ShareByQuotient(r, t, m.m21 - m.m12, q.w, k.wx);
      ShareByQuotient(r, t, m.m01 + m.m10, q.y, k.xy);
      ShareByQuotient(r, t, m.m02 + m.m20, q.z, k.xz);
      FromX(k, q, r);
    } else if m.m11 > m.m22 {
      ShareByQuotient(r, t, m.m02 - m.m20, q.w, k.wy);
      ShareByQuotient(r, t, m.m01 + m.m10, q.x, k.xy);
      ShareByQuotient(r, t, m.m12 + m.m21, q.z, k.yz);
      FromY(k, q, r);
    } else {
      ShareByQuotient(r, t, m.m10 - m.m01, q.w, k.wz);
      ShareByQuotient(r, t, m.m02 + m.m20, q.x, k.xz);
      ShareByQuotient(r, t, m.m12 + m.m21, q.y, k.yz);
      FromZ(k, q, r);
    }
  }

  /** Whatever branch is taken, a matrix with rank-one Gram matrix yields a quaternion with that Gram matrix. */
  lemma Rot2QuatHasGram(m: Mat, sqrt: real -> real)
    requires IsSquareRoot(sqrt) && RankOne(Gram(m))
    ensures Outer(Rot2Quat(m, sqrt)) == Gram(m) && Rot2Quat(m, sqrt).w >= 0.0
  {
    RootIsPositive(m, sqrt);
    hide RankOne, Outer, FromRoot, Gram, RootArg;
    FromRootHasGram(m, sqrt(RootArg(m)));
    NegOuter(FromRoot(m, sqrt(RootArg(m))));
  }

  lemma NegOuter(q: Quat)
    ensures Outer(Neg(q)) == Outer(q)
  {
  }

  lemma SameSquare(a: real, b: real)
    requires a * a == b * b
    ensures a == b || a == -b
  {
    assert (a - b) * (a + b) == 0.0;
  }

  /** Quaternions with the same products of components agree up to sign. */
  lemma OuterIsUpToSign(p: Quat, q: Quat)
    requires Outer(p) == Outer(q)
    ensures p == q || p == Neg(q)
  {
    if q.w != 0.0 {
      ShareSign(p.w, q.w, p.x, q.x);
      ShareSign(p.w, q.w, p.y, q.y);
      ShareSign(p.w, q.w, p.z, q.z);
    } else if q.x != 0.0 {
      ShareSign(p.x, q.x, p.w, q.w);
      ShareSign(p.x, q.x, p.y, q.y);
      ShareSign(p.x, q.x, p.z, q.z);
    } else if q.y != 0.0 {
      ShareSign(p.y, q.y, p.w, q.w);
      ShareSign(p.y, q.y, p.x, q.x);
      ShareSign(p.y, q.y, p.z, q.z);
    } else if q.z != 0.0 {
      ShareSign(p.z, q.z, p.w, q.w);
      ShareSign(p.z, q.z, p.x, q.x);
      ShareSign(p.z, q.z, p.y, q.y);
    } else {
      SameSquare(p.w, q.w);
      SameSquare(p.x, q.x);
      SameSquare(p.y, q.y);
      SameSquare(p.z, q.z);
    }
  }

  lemma ShareSign(a: real, b: real, c: real, d: real)
    requires b != 0.0 && Quad(a, a) == Quad(b, b) && (Quad(a, c) == Quad(b, d) || Quad(c, a) == Quad(d, b))
    ensures (a == b && c == d) || (a == -b && c == -d)
  {
    SameSquare(a, b);
    if a == b {
      CancelFactor(b, c, d);
    } else {
      CancelFactor(b, -c, d);
    }
  }

  /** `rot2quat` undoes `quat2rot`: the same unit quaternion comes back, with its sign chosen so that w >= 0. */
  lemma Rot2QuatInvertsQuat2Rot(q: Quat, sqrt: real -> real)
    requires Norm2(q) == 1.0 && IsSquareRoot(sqrt)
    ensures var p := Rot2Quat(Quat2Rot(q), sqrt);
            && p.w >= 0.0 && (p == q || p == Neg(q))
            && (q.w > 0.0 ==> p == q) && (q.w < 0.0 ==> p == Neg(q))
  {
    hide Norm2, Outer, Quat2Rot, Rot2Quat, RankOne, Gram, IsSquareRoot;
    GramOfQuat(q);
    OuterIsRankOne(q);
    Rot2QuatHasGram(Quat2Rot(q), sqrt);
    OuterIsUpToSign(Rot2Quat(Quat2Rot(q), sqrt), q);
  }

  // ---------------------------------------------------------------- every rotation has a rank-one Gram matrix

  /** Rows and columns are orthonormal and each entry is its own cofactor. */
  ghost predicate Orthonormal(m: Mat) {
    && Dot(m.m00, m.m01, m.m02, m.m00, m.m01, m.m02) == 1.0 && Dot(m.m10, m.m11, m.m12, m.m10, m.m11, m.m12) == 1.0
    && Dot(m.m20, m.m21, m.m22, m.m20, m.m21, m.m22) == 1.0 && Dot(m.m00, m.m01, m.m02, m.m10, m.m11, m.m12) == 0.0
    && Dot(m.m00, m.m01, m.m02, m.m20, m.m21, m.m22) == 0.0 && Dot(m.m10, m.m11, m.m12, m.m20, m.m21, m.m22) == 0.0
    && Dot(m.m00, m.m10, m.m20, m.m00, m.m10, m.m20) == 1.0 && Dot(m.m01, m.m11, m.m21, m.m01, m.m11, m.m21) == 1.0
    && Dot(m.m02, m.m12, m.m22, m.m02, m.m12, m.m22) == 1.0 && Dot(m.m00, m.m10, m.m20, m.m01, m.m11, m.m21) == 0.0
    && Dot(m.m00, m.m10, m.m20, m.m02, m.m12, m.m22) == 0.0 && Dot(m.m01, m.m11, m.m21, m.m02, m.m12, m.m22) == 0.0
  }

  ghost predicate SelfCofactor(m: Mat) {
    && Cross(m.m11, m.m22, m.m12, m.m21) == m.m00 && Cross(m.m12, m.m20, m.m10, m.m22) == m.m01
    && Cross(m.m10, m.m21, m.m11, m.m20) == m.m02 && Cross(m.m21, m.m02, m.m22, m.m01) == m.m10
    && Cross(m.m22, m.m00, m.m20, m.m02) == m.m11 && Cross(m.m20, m.m01, m.m21, m.m00) == m.m12
    && Cross(m.m01, m.m12, m.m02, m.m11) == m.m20 && Cross(m.m02, m.m10, m.m00, m.m12) == m.m21
    && Cross(m.m00, m.m11, m.m01, m.m10) == m.m22
  }

  lemma RowsAndColumns(m: Mat)
    requires IsRotation(m)
    ensures Orthonormal(m)
  {
    RowsOrthonormal(m);
    RowsOrthonormal(Transpose(m));
    assert Transpose(Transpose(m)) == m;
    hide Dot, MatMul;
  }

  lemma RowsOrthonormal(m: Mat)
    requires MatMul(m, Transpose(m)) == IDENTITY
    ensures Dot(m.m00, m.m01, m.m02, m.m00, m.m01, m.m02) == 1.0 && Dot(m.m10, m.m11, m.m12, m.m10, m.m11, m.m12) == 1.0
    ensures Dot(m.m20, m.m21, m.m22, m.m20, m.m21, m.m22) == 1.0 && Dot(m.m00, m.m01, m.m02, m.m10, m.m11, m.m12) == 0.0
    ensures Dot(m.m00, m.m01, m.m02, m.m20, m.m21, m.m22) == 0.0 && Dot(m.m10, m.m11, m.m12, m.m20, m.m21, m.m22) == 0.0
  {
    hide Dot;
    DotPermutes(m.m00, m.m01, m.m02, m.m10, m.m11, m.m12);
    DotPermutes(m.m00, m.m01, m.m02, m.m20, m.m21, m.m22);
    DotPermutes(m.m10, m.m11, m.m12, m.m20, m.m21, m.m22);
  }

  /** A vector whose products with orthonormal rows are 1, 0, 0 is the first row. */
  lemma SolveForFirstRow(a0: real, a1: real, a2: real, b0: real, b1: real, b2: real, c0: real, c1: real, c2: real,
                         v0: real, v1: real, v2: real)
    requires Dot(a0, b0, c0, a0, b0, c0) == 1.0 && Dot(a1, b1, c1, a1, b1, c1) == 1.0 && Dot(a2, b2, c2, a2, b2, c2) == 1.0
    requires Dot(a0, b0, c0, a1, b1, c1) == 0.0 && Dot(a0, b0, c0, a2, b2, c2) == 0.0 && Dot(a1, b1, c1, a2, b2, c2) == 0.0
    requires Dot(a0, a1, a2, v0, v1, v2) == 1.0 && Dot(b0, b1, b2, v0, v1, v2) == 0.0 && Dot(c0, c1, c2, v0, v1, v2) == 0.0
    ensures v0 == a0 && v1 == a1 && v2 == a2
  {
    SolveForEntry(a0, a1, a2, b0, b1, b2, c0, c1, c2, v0, v1, v2);
    SolveForEntry(a1, a2, a0, b1, b2, b0, c1, c2, c0, v1, v2, v0);
    SolveForEntry(a2, a0, a1, b2, b0, b1, c2, c0, c1, v2, v0, v1);
  }

  lemma SolveForEntry(a0: real, a1: real, a2: real, b0: real, b1: real, b2: real, c0: real, c1: real, c2: real,
                      v0: real, v1: real, v2: real)
    requires Dot(a0, b0, c0, a0, b0, c0) == 1.0
    requires Dot(a0, b0, c0, a1, b1, c1) == 0.0 && Dot(a0, b0, c0, a2, b2, c2) == 0.0
    requires Dot(a0, a1, a2, v0, v1, v2) == 1.0 && Dot(b0, b1, b2, v0, v1, v2) == 0.0 && Dot(c0, c1, c2, v0, v1, v2) == 0.0
    ensures v0 == a0
  {
    SameProduct(a0, a0 * v0 + a1 * v1 + a2 * v2, a0, 1.0);
    SameProduct(b0, b0 * v0 + b1 * v1 + b2 * v2, b0, 0.0);
    SameProduct(c0, c0 * v0 + c1 * v1 + c2 * v2, c0, 0.0);
    SameProduct(v0, a0 * a0 + b0 * b0 + c0 * c0, v0, 1.0);
    SameProduct(v1, a0 * a1 + b0 * b1 + c0 * c1, v1, 0.0);
    SameProduct(v2, a0 * a2 + b0 * b2 + c0 * c2, v2, 0.0);
  }

  function Triple(a0: real, a1: real, a2: real, b0: real, b1: real, b2: real, c0: real, c1: real, c2: real): real {
    Dot(a0, a1, a2, Cross(b1, c2, b2, c1), Cross(b2, c0, b0, c2), Cross(b0, c1, b1, c0))
  }

  lemma TripleLaws(a0: real, a1: real, a2: real, b0: real, b1: real, b2: real, c0: real, c1: real, c2: real)
    ensures Triple(a0, a1, a2, b0, b1, b2, c0, c1, c2) == Triple(b0, b1, b2, c0, c1, c2, a0, a1, a2)
    ensures Triple(b0, b1, b2, b0, b1, b2, c0, c1, c2) == 0.0 == Triple(c0, c1, c2, b0, b1, b2, c0, c1, c2)
  {
    TripleExpanded(a0, a1, a2, b0, b1, b2, c0, c1, c2);
    TripleExpanded(b0, b1, b2, c0, c1, c2, a0, a1, a2);
    TripleExpanded(b0, b1, b2, b0, b1, b2, c0, c1, c2);
    TripleExpanded(c0, c1, c2, b0, b1, b2, c0, c1, c2);
    hide Triple;
  }

  lemma TripleExpanded(a0: real, a1: real, a2: real, b0: real, b1: real, b2: real, c0: real, c1: real, c2: real)
    ensures Triple(a0, a1, a2, b0, b1, b2, c0, c1, c2)
         == a0 * b1 * c2 - a0 * b2 * c1 + a1 * b2 * c0 - a1 * b0 * c2 + a2 * b0 * c1 - a2 * b1 * c0
  {
    SameProduct(a0, Cross(b1, c2, b2, c1), a0, b1 * c2 - b2 * c1);
    SameProduct(a1, Cross(b2, c0, b0, c2), a1, b2 * c0 - b0 * c2);
    SameProduct(a2, Cross(b0, c1, b1, c0), a2, b0 * c1 - b1 * c0);
  }

  /** With orthonormal columns and triple product one, the first row is the cross product of the others. */
  lemma FirstRowIsCross(a0: real, a1: real, a2: real, b0: real, b1: real, b2: real, c0: real, c1: real, c2: real)
    requires Dot(a0, b0, c0, a0, b0, c0) == 1.0 && Dot(a1, b1, c1, a1, b1, c1) == 1.0 && Dot(a2, b2, c2, a2, b2, c2) == 1.0
    requires Dot(a0, b0, c0, a1, b1, c1) == 0.0 && Dot(a0, b0, c0, a2, b2, c2) == 0.0 && Dot(a1, b1, c1, a2, b2, c2) == 0.0
    requires Triple(a0, a1, a2, b0, b1, b2, c0, c1, c2) == 1.0
    ensures Cross(b1, c2, b2, c1) == a0 && Cross(b2, c0, b0, c2) == a1 && Cross(b0, c1, b1, c0) == a2
  {
    hide Dot, Cross;
    TripleLaws(a0, a1, a2, b0, b1, b2, c0, c1, c2);
    SolveForFirstRow(a0, a1, a2, b0, b1, b2, c0, c1, c2,
                     Cross(b1, c2, b2, c1), Cross(b2, c0, b0, c2), Cross(b0, c1, b1, c0));
  }

  lemma CrossCommutes(a: real, b: real, c: real, d: real)
    ensures Cross(a, b, c, d) == Cross(b, a, c, d) == Cross(a, b, d, c) == Cross(b, a, d, c)
  {
  }

  lemma DetIsTriple(m: Mat)
    ensures Det(m) == Triple(m.m00, m.m01, m.m02, m.m10, m.m11, m.m12, m.m20, m.m21, m.m22)
  {
    TripleExpanded(m.m00, m.m01, m.m02, m.m10, m.m11, m.m12, m.m20, m.m21, m.m22);
    DetExpanded(m);
    hide Det, Triple;
  }

  lemma DetExpanded(m: Mat)
    ensures Det(m) == m.m00 * m.m11 * m.m22 - m.m00 * m.m12 * m.m21 + m.m01 * m.m12 * m.m20 - m.m01 * m.m10 * m.m22
                    + m.m02 * m.m10 * m.m21 - m.m02 * m.m11 * m.m20
  {
  }

  lemma RotationIsSelfCofactor(m: Mat)
    requires IsRotation(m)
    ensures SelfCofactor(m)
  {
    RowsAndColumns(m);
    DetIsTriple(m);
    hide IsRotation, Det, Dot, Cross, Triple;
    var Mat(a0, a1, a2, b0, b1, b2, c0, c1, c2) := m;
    ColumnsPermute(a0, a1, a2, b0, b1, b2, c0, c1, c2);
    ColumnsPermute(b0, b1, b2, c0, c1, c2, a0, a1, a2);
    TripleLaws(a0, a1, a2, b0, b1, b2, c0, c1, c2);
    TripleLaws(b0, b1, b2, c0, c1, c2, a0, a1, a2);
    FirstRowIsCross(a0, a1, a2, b0, b1, b2, c0, c1, c2);
    FirstRowIsCross(b0, b1, b2, c0, c1, c2, a0, a1, a2);
    FirstRowIsCross(c0, c1, c2, a0, a1, a2, b0, b1, b2);
    CrossCommutes(b2, c0, b0, c2);
    CrossCommutes(c1, a2, c2, a1);
    CrossCommutes(c2, a0, c0, a2);
    CrossCommutes(c0, a1, c1, a0);
  }

  lemma ColumnsPermute(a0: real, a1: real, a2: real, b0: real, b1: real, b2: real, c0: real, c1: real, c2: real)
    ensures Dot(b0, c0, a0, b0, c0, a0) == Dot(a0, b0, c0, a0, b0, c0)
    ensures Dot(b1, c1, a1, b1, c1, a1) == Dot(a1, b1, c1, a1, b1, c1)
    ensures Dot(b2, c2, a2, b2, c2, a2) == Dot(a2, b2, c2, a2, b2, c2)
    ensures Dot(b0, c0, a0, b1, c1, a1) == Dot(a0, b0, c0, a1, b1, c1)
    ensures Dot(b0, c0, a0, b2, c2, a2) == Dot(a0, b0, c0, a2, b2, c2)
    ensures Dot(b1, c1, a1, b2, c2, a2) == Dot(a1, b1, c1, a2, b2, c2)
  {
  }

  // The minors, written over the entries they need.

  lemma MinorOpposite(r00: real, r01: real, r02: real, r11: real, r12: real, r21: real, r22: real,
                      ww: real, xx: real, wx: real)
    requires ww == 1.0 + r00 + r11 + r22 && xx == 1.0 + r00 - r11 - r22 && wx == r21 - r12
    requires Dot(r00, r01, r02, r00, r01, r02) == 1.0
    requires Dot(r01, r11, r21, r01, r11, r21) == 1.0 && Dot(r02, r12, r22, r02, r12, r22) == 1.0
    requires Cross(r11, r22, r12, r21) == r00
    ensures IsMinor(ww, xx, wx, wx)
  {
    SameProduct(ww, xx, 1.0 + r00 + r11 + r22, 1.0 + r00 - r11 - r22);
    SameProduct(wx, wx, r21 - r12, r21 - r12);
  }

  lemma MinorMixed(r00: real, r01: real, r02: real, r10: real, r11: real, r12: real, r20: real, r21: real, r22: real,
                   ww: real, xy: real, wx: real, wy: real)
    requires ww == 1.0 + r00 + r11 + r22 && xy == r01 + r10 && wx == r21 - r12 && wy == r02 - r20
    requires Cross(r12, r20, r10, r22) == r01 && Cross(r21, r02, r22, r01) == r10
    requires Dot(r00, r10, r20, r01, r11, r21) == 0.0 && Dot(r00, r01, r02, r10, r11, r12) == 0.0
    ensures IsMinor(ww, xy, wx, wy)
  {
    SameProduct(ww, xy, 1.0 + r00 + r11 + r22, r01 + r10);
    SameProduct(wx, wy, r21 - r12, r02 - r20);
  }

  lemma MinorDiagonal(r00: real, r01: real, r02: real, r10: real, r11: real, r12: real, r22: real,
                      xx: real, yy: real, xy: real)
    requires xx == 1.0 + r00 - r11 - r22 && yy == 1.0 + r11 - r00 - r22 && xy == r01 + r10
    requires Dot(r00, r01, r02, r00, r01, r02) == 1.0
    requires Dot(r10, r11, r12, r10, r11, r12) == 1.0 && Dot(r02, r12, r22, r02, r12, r22) == 1.0
    requires Cross(r00, r11, r01, r10) == r22
    ensures IsMinor(xx, yy, xy, xy)
  {
    SameProduct(xx, yy, 1.0 + r00 - r11 - r22, 1.0 + r11 - r00 - r22);
    SameProduct(xy, xy, r01 + r10, r01 + r10);
  }

  lemma MinorNext(r00: real, r01: real, r02: real, r10: real, r11: real, r12: real, r20: real, r21: real, r22: real,
                  xx: real, wy: real, wx: real, xy: real)
    requires xx == 1.0 + r00 - r11 - r22 && wy == r02 - r20 && wx == r21 - r12 && xy == r01 + r10
    requires Cross(r10, r21, r11, r20) == r02 && Cross(r01, r12, r02, r11) == r20
    requires Dot(r00, r01, r02, r20, r21, r22) == 0.0 && Dot(r00, r10, r20, r02, r12, r22) == 0.0
    ensures IsMinor(xx, wy, wx, xy)
  {
    SameProduct(xx, wy, 1.0 + r00 - r11 - r22, r02 - r20);
    SameProduct(wx, xy, r21 - r12, r01 + r10);
  }

  lemma MinorPrevious(r00: real, r01: real, r02: real, r10: real, r11: real, r12: real, r20: real, r21: real, r22: real,
                      xx: real, wz: real, wx: real, xz: real)
    requires xx == 1.0 + r00 - r11 - r22 && wz == r10 - r01 && wx == r21 - r12 && xz == r02 + r20
    requires Cross(r12, r20, r10, r22) == r01 && Cross(r21, r02, r22, r01) == r10
    requires Dot(r00, r10, r20, r01, r11, r21) == 0.0 && Dot(r00, r01, r02, r10, r11, r12) == 0.0
    ensures IsMinor(xx, wz, wx, xz)
  {
    SameProduct(xx, wz, 1.0 + r00 - r11 - r22, r10 - r01);
    SameProduct(wx, xz, r21 - r12, r02 + r20);
  }

  lemma MinorOffDiagonal(r00: real, r01: real, r02: real, r10: real, r11: real, r12: real, r20: real, r21: real, r22: real,
                         xx: real, yz: real, xy: real, xz: real)
    requires xx == 1.0 + r00 - r11 - r22 && yz == r12 + r21 && xy == r01 + r10 && xz == r02 + r20
    requires Cross(r20, r01, r21, r00) == r12 && Cross(r02, r10, r00, r12) == r21
    requires Dot(r01, r11, r21, r02, r12, r22) == 0.0 && Dot(r10, r11, r12, r20, r21, r22) == 0.0
    ensures IsMinor(xx, yz, xy, xz)
  {
    SameProduct(xx, yz, 1.0 + r00 - r11 - r22, r12 + r21);
    SameProduct(xy, xz, r01 + r10, r02 + r20);
  }

  lemma MinorsAtX(m: Mat)
    requires Orthonormal(m) && SelfCofactor(m)
    ensures var k := Gram(m);
            && IsMinor(k.ww, k.xx, k.wx, k.wx) && IsMinor(k.ww, k.xy, k.wx, k.wy) && IsMinor(k.xx, k.yy, k.xy, k.xy)
            && IsMinor(k.xx, k.wy, k.wx, k.xy) && IsMinor(k.xx, k.wz, k.wx, k.xz) && IsMinor(k.xx, k.yz, k.xy, k.xz)
  {
    hide Dot, Cross, IsMinor;
    var Mat(a, b, c, d, e, f, g, h, i) := m;
    var k := Gram(m);
    MinorOpposite(a, b, c, e, f, h, i, k.ww, k.xx, k.wx);
    MinorMixed(a, b, c, d, e, f, g, h, i, k.ww, k.xy, k.wx, k.wy);
    MinorDiagonal(a, b, c, d, e, f, i, k.xx, k.yy, k.xy);
    MinorNext(a, b, c, d, e, f, g, h, i, k.xx, k.wy, k.wx, k.xy);
    MinorPrevious(a, b, c, d, e, f, g, h, i, k.xx, k.wz, k.wx, k.xz);
    MinorOffDiagonal(a, b, c, d, e, f, g, h, i, k.xx, k.yz, k.xy, k.xz);
  }

  lemma CycleKeepsOrthonormal(m: Mat)
    requires Orthonormal(m) && SelfCofactor(m)
    ensures Orthonormal(CycleMat(m)) && SelfCofactor(CycleMat(m))
  {
    hide Dot, Cross;
    var Mat(a, b, c, d, e, f, g, h, i) := m;
    DotPermutes(a, b, c, a, b, c); DotPermutes(d, e, f, d, e, f); DotPermutes(g, h, i, g, h, i);
    DotPermutes(a, b, c, d, e, f); DotPermutes(a, b, c, g, h, i); DotPermutes(d, e, f, g, h, i);
    DotPermutes(d, e, f, a, b, c); DotPermutes(g, h, i, a, b, c);
    DotPermutes(a, d, g, a, d, g); DotPermutes(b, e, h, b, e, h); DotPermutes(c, f, i, c, f, i);
    DotPermutes(a, d, g, b, e, h); DotPermutes(a, d, g, c, f, i); DotPermutes(b, e, h, c, f, i);
    DotPermutes(b, e, h, a, d, g); DotPermutes(c, f, i, a, d, g);
  }

  lemma MinorRegroups(a: real, b: real, c: real, d: real)
    requires IsMinor(a, b, c, d)
    ensures IsMinor(b, a, c, d) && IsMinor(a, b, d, c)
  {
  }

  lemma RotationIsRankOne(m: Mat)
    requires IsRotation(m)
    ensures RankOne(Gram(m))
  {
    RowsAndColumns(m);
    RotationIsSelfCofactor(m);
    hide IsRotation, Orthonormal, SelfCofactor, IsMinor;
    var n := CycleMat(m);
    CycleKeepsOrthonormal(m);
    CycleKeepsOrthonormal(n);
    MinorsAtX(m);
    MinorsAtX(n);
    MinorsAtX(CycleMat(n));
    var k := Gram(m);
    MinorRegroups(k.ww, k.xz, k.wz, k.wx);
    MinorRegroups(k.zz, k.xx, k.xz, k.xz);
    MinorRegroups(k.yy, k.wz, k.wy, k.yz);
    MinorRegroups(k.yy, k.xz, k.yz, k.xy);
  }

  /** Every rotation matrix comes from the unit quaternion that `rot2quat` computes for it. */
  lemma Quat2RotInvertsRot2Quat(m: Mat, sqrt: real -> real)
    requires IsRotation(m) && IsSquareRoot(sqrt)
    ensures var q := Rot2Quat(m, sqrt);
            Norm2(q) == 1.0 && q.w >= 0.0 && Quat2Rot(q) == m
  {
    hide *;
    RotationIsRankOne(m);
    Rot2QuatHasGram(m, sqrt);
    GramDetermines(Rot2Quat(m, sqrt), m);
  }

  // ---------------------------------------------------------------- local coordinates

  datatype Point = Point(x: real, y: real, z: real)

  function Apply(m: Mat, p: Point): Point {
    Point(Dot(m.m00, m.m01, m.m02, p.x, p.y, p.z), Dot(m.m10, m.m11, m.m12, p.x, p.y, p.z), Dot(m.m20, m.m21, m.m22, p.x, p.y, p.z))
  }

  function Translate(p: Point, q: Point): Point {
    Point(p.x + q.x, p.y + q.y, p.z + q.z)
  }

  function Opposite(p: Point): Point {
    Point(-p.x, -p.y, -p.z)
  }

  /** The matrix from north-east-down to earth-centred axes, from the cosines and sines of latitude and longitude. */
  function NedToEcef(latC: real, latS: real, lonC: real, lonS: real): Mat {
    Mat(-latS * lonC, -lonS, -latC * lonC, -latS * lonS, lonC, -latC * lonS, latC, 0.0, -latS)
  }

  /** A local frame: its origin, and its matrix. */
  datatype LocalCoord = LocalCoord(origin: Point, matrix: Mat)
  {
    function EcefToNed(p: Point): Point {
      Apply(Transpose(matrix), Translate(p, Opposite(origin)))
    }

    function NedToEcefPoint(p: Point): Point {
      Translate(Apply(matrix, p), origin)
    }
  }

  lemma DotOfDots(a: real, b: real, c: real, m0: real, m1: real, m2: real, n0: real, n1: real, n2: real,
                  o0: real, o1: real, o2: real, x: real, y: real, z: real)
    ensures Dot(a * m0 + b * n0 + c * o0, a * m1 + b * n1 + c * o1, a * m2 + b * n2 + c * o2, x, y, z)
         == Dot(a, b, c, m0 * x + m1 * y + m2 * z, n0 * x + n1 * y + n2 * z, o0 * x + o1 * y + o2 * z)
  {
  }

  lemma DotDef(a: real, b: real, c: real, p: real, q: real, r: real)
    ensures Dot(a, b, c, p, q, r) == a * p + b * q + c * r
  {
  }

  lemma RowApplies(a: real, b: real, c: real, n: Mat, p: Point)
    ensures Dot(Dot(a, b, c, n.m00, n.m10, n.m20), Dot(a, b, c, n.m01, n.m11, n.m21), Dot(a, b, c, n.m02, n.m12, n.m22), p.x, p.y, p.z)
         == Dot(a, b, c, Apply(n, p).x, Apply(n, p).y, Apply(n, p).z)
  {
    hide Dot;
    DotDef(a, b, c, n.m00, n.m10, n.m20);
    DotDef(a, b, c, n.m01, n.m11, n.m21);
    DotDef(a, b, c, n.m02, n.m12, n.m22);
    DotDef(n.m00, n.m01, n.m02, p.x, p.y, p.z);
    DotDef(n.m10, n.m11, n.m12, p.x, p.y, p.z);
    DotDef(n.m20, n.m21, n.m22, p.x, p.y, p.z);
    DotOfDots(a, b, c, n.m00, n.m01, n.m02, n.m10, n.m11, n.m12, n.m20, n.m21, n.m22, p.x, p.y, p.z);
  }

  lemma ApplyProduct(m: Mat, n: Mat, p: Point)
    ensures Apply(MatMul(m, n), p) == Apply(m, Apply(n, p))
  {
    hide Dot;
    RowApplies(m.m00, m.m01, m.m02, n, p);
    RowApplies(m.m10, m.m11, m.m12, n, p);
    RowApplies(m.m20, m.m21, m.m22, n, p);
  }

  lemma ApplyIdentity(p: Point)
    ensures Apply(IDENTITY, p) == p
  {
  }

  // The dot products of the rows and of the columns of the frame's matrix, with a, b the cosine and sine of the latitude
  // and c, d those of the longitude.

  lemma FrameIdentities(a: real, b: real, c: real, d: real)
    ensures Dot(-b * c, -d, -a * c, -b * c, -d, -a * c) == Mul(a * a + b * b, c * c) + d * d
    ensures Dot(-b * d, c, -a * d, -b * d, c, -a * d) == Mul(a * a + b * b, d * d) + c * c
    ensures Dot(a, 0.0, -b, a, 0.0, -b) == a * a + b * b
    ensures Dot(-b * c, -d, -a * c, -b * d, c, -a * d) == Mul(a * a + b * b, c * d) - c * d
    ensures Dot(-b * c, -d, -a * c, a, 0.0, -b) == 0.0 == Dot(-b * d, c, -a * d, a, 0.0, -b)
    ensures Dot(-b * c, -b * d, a, -b * c, -b * d, a) == Mul(c * c + d * d, b * b) + a * a
    ensures Dot(-d, c, 0.0, -d, c, 0.0) == c * c + d * d
    ensures Dot(-a * c, -a * d, -b, -a * c, -a * d, -b) == Mul(c * c + d * d, a * a) + b * b
    ensures Dot(-b * c, -b * d, a, -d, c, 0.0) == 0.0 == Dot(-d, c, 0.0, -a * c, -a * d, -b)
    ensures Dot(-b * c, -b * d, a, -a * c, -a * d, -b) == Mul(c * c + d * d, a * b) - a * b
  {
  }

  lemma FrameCofactors(a: real, b: real, c: real, d: real)
    requires a * a + b * b == 1.0
    ensures Cross(c, -b, -a * d, 0.0) == -b * c
    ensures Cross(-a * d, a, -b * d, -b) == -d
    ensures Cross(-b * d, 0.0, c, a) == -a * c
  {
    assert Cross(-a * d, a, -b * d, -b) == -Mul(a * a + b * b, d);
    OneTimes(a * a + b * b, d, d);
  }

  lemma FrameIsOrthonormal(a: real, b: real, c: real, d: real)
    requires a * a + b * b == 1.0 && c * c + d * d == 1.0
    ensures Orthonormal(NedToEcef(a, b, c, d))
  {
    hide Dot, Mul;
    FrameIdentities(a, b, c, d);
    OneTimes(a * a + b * b, c * c, c * c);
    OneTimes(a * a + b * b, d * d, d * d);
    OneTimes(a * a + b * b, c * d, c * d);
    OneTimes(c * c + d * d, a * a, a * a);
    OneTimes(c * c + d * d, b * b, b * b);
    OneTimes(c * c + d * d, a * b, a * b);
  }

  lemma OrthonormalIsInverse(m: Mat)
    requires Orthonormal(m)
    ensures MatMul(m, Transpose(m)) == IDENTITY && MatMul(Transpose(m), m) == IDENTITY
  {
    hide Dot;
    DotPermutes(m.m10, m.m11, m.m12, m.m00, m.m01, m.m02); DotPermutes(m.m20, m.m21, m.m22, m.m00, m.m01, m.m02);
    DotPermutes(m.m20, m.m21, m.m22, m.m10, m.m11, m.m12); DotPermutes(m.m01, m.m11, m.m21, m.m00, m.m10, m.m20);
    DotPermutes(m.m02, m.m12, m.m22, m.m00, m.m10, m.m20); DotPermutes(m.m02, m.m12, m.m22, m.m01, m.m11, m.m21);
  }

  /** For every latitude and longitude the frame's matrix is a rotation. */
  lemma LocalFrameIsRotation(latC: real, latS: real, lonC: real, lonS: real)
    requires latC * latC + latS * latS == 1.0 && lonC * lonC + lonS * lonS == 1.0
    ensures IsRotation(NedToEcef(latC, latS, lonC, lonS))
  {
    FrameCofactors(latC, latS, lonC, lonS);
    hide Dot, Cross, MatMul, Det, Transpose;
    var m := NedToEcef(latC, latS, lonC, lonS);
    FrameIsOrthonormal(latC, latS, lonC, lonS);
    OrthonormalIsInverse(m);
    DetFromFirstRow(m);
  }

  /** Where the axes of a turn go: about x from y to z, about y from z to x, about z from x to y. */
  lemma AxesTurn(a: Angle)
    ensures Apply(RotX(a), Point(1.0, 0.0, 0.0)) == Point(1.0, 0.0, 0.0) && Apply(RotX(a), Point(0.0, 1.0, 0.0)) == Point(0.0, a.c, a.s)
    ensures Apply(RotY(a), Point(0.0, 1.0, 0.0)) == Point(0.0, 1.0, 0.0) && Apply(RotY(a), Point(0.0, 0.0, 1.0)) == Point(a.s, 0.0, a.c)
    ensures Apply(RotZ(a), Point(0.0, 0.0, 1.0)) == Point(0.0, 0.0, 1.0) && Apply(RotZ(a), Point(1.0, 0.0, 0.0)) == Point(a.c, a.s, 0.0)
  {
  }

  function CrossProduct(p: Point, q: Point): Point {
    Point(Cross(p.y, q.z, p.z, q.y), Cross(p.z, q.x, p.x, q.z), Cross(p.x, q.y, p.y, q.x))
  }

  function Scaled(k: real, p: Point): Point {
    Point(k * p.x, k * p.y, k * p.z)
  }

  /** The direction straight up at a latitude and longitude. */
  function Up(latC: real, latS: real, lonC: real, lonS: real): Point {
    Point(latC * lonC, latC * lonS, latS)
  }

  const POLE: Point := Point(0.0, 0.0, 1.0)

  /** The columns of a matrix are where the three axes go. */
  lemma Columns(m: Mat)
    ensures Apply(m, Point(1.0, 0.0, 0.0)) == Point(m.m00, m.m10, m.m20)
    ensures Apply(m, Point(0.0, 1.0, 0.0)) == Point(m.m01, m.m11, m.m21)
    ensures Apply(m, Point(0.0, 0.0, 1.0)) == Point(m.m02, m.m12, m.m22)
  {
  }

  lemma EastOfPole(latC: real, latS: real, lonC: real, lonS: real)
    ensures CrossProduct(POLE, Up(latC, latS, lonC, lonS)) == Scaled(latC, Point(-lonS, lonC, 0.0))
  {
  }

  lemma NorthOfUp(latC: real, latS: real, lonC: real, lonS: real)
    requires lonC * lonC + lonS * lonS == 1.0
    ensures CrossProduct(Up(latC, latS, lonC, lonS), Point(-lonS, lonC, 0.0)) == Point(-latS * lonC, -latS * lonS, latC)
  {
    assert Cross(latC * lonC, lonC, latC * lonS, -lonS) == Mul(lonC * lonC + lonS * lonS, latC);
    OneTimes(lonC * lonC + lonS * lonS, latC, latC);
  }

  /**
   Where the axes of the local frame point: down is opposite to up, east is horizontal, along the pole crossed with up, and
   north is up crossed with east, so it looks towards the pole.
   */
  lemma LocalFrameAxes(latC: real, latS: real, lonC: real, lonS: real)
    requires latC * latC + latS * latS == 1.0 && lonC * lonC + lonS * lonS == 1.0
    ensures var m := NedToEcef(latC, latS, lonC, lonS);
            var (north, east, down) := (Apply(m, Point(1.0, 0.0, 0.0)), Apply(m, Point(0.0, 1.0, 0.0)), Apply(m, Point(0.0, 0.0, 1.0)));
            && down == Opposite(Up(latC, latS, lonC, lonS))
            && east == Point(-lonS, lonC, 0.0) && CrossProduct(POLE, Up(latC, latS, lonC, lonS)) == Scaled(latC, east)
            && north == CrossProduct(Up(latC, latS, lonC, lonS), east) && north.z == latC
  {
    Columns(NedToEcef(latC, latS, lonC, lonS));
    EastOfPole(latC, latS, lonC, lonS);
    NorthOfUp(latC, latS, lonC, lonS);
    hide Apply, CrossProduct, Scaled;
  }

  /** The same frame by turns: the longitude about the pole, then the latitude and a right angle more, tilted down. */
  lemma LocalFrameByTurns(latC: real, latS: real, lon: Angle, tilt: Angle)
    requires tilt.c == -latS && tilt.s == -latC
    ensures MatMul(RotZ(lon), RotY(tilt)) == NedToEcef(latC, latS, lon.c, lon.s)
  {
  }

  /** A local coordinate system at a point of the given latitude and longitude, as the constructor makes it. */
  function LocalCoordAt(origin: Point, latC: real, latS: real, lonC: real, lonS: real): LocalCoord {
    LocalCoord(origin, NedToEcef(latC, latS, lonC, lonS))
  }

  lemma TransposeUndoes(m: Mat, p: Point)
    requires IsRotation(m)
    ensures Apply(Transpose(m), Apply(m, p)) == p
  {
    hide Apply, MatMul, Transpose, Det;
    ApplyProduct(Transpose(m), m, p);
    ApplyIdentity(p);
  }

  /** A point straight above the origin has local coordinates straight up, and the other way round. */
  lemma AboveOrigin(origin: Point, latC: real, latS: real, lonC: real, lonS: real, height: real)
    requires latC * latC + latS * latS == 1.0 && lonC * lonC + lonS * lonS == 1.0
    ensures var f := LocalCoordAt(origin, latC, latS, lonC, lonS);
            var above := Translate(Scaled(height, Up(latC, latS, lonC, lonS)), origin);
            f.NedToEcefPoint(Point(0.0, 0.0, -height)) == above && f.EcefToNed(above) == Point(0.0, 0.0, -height)
  {
    var m := NedToEcef(latC, latS, lonC, lonS);
    var up := Scaled(height, Up(latC, latS, lonC, lonS));
    LocalFrameIsRotation(latC, latS, lonC, lonS);
    StraightUp(latC, latS, lonC, lonS, height);
    TransposeUndoes(m, Point(0.0, 0.0, -height));
    assert Translate(Translate(up, origin), Opposite(origin)) == up;
    hide Apply, IsRotation, NedToEcef, Translate, Transpose;
  }

  lemma StraightUp(latC: real, latS: real, lonC: real, lonS: real, height: real)
    ensures Apply(NedToEcef(latC, latS, lonC, lonS), Point(0.0, 0.0, -height)) == Scaled(height, Up(latC, latS, lonC, lonS))
  {
  }

  // Turning a point by a quaternion: the product with the point as a quaternion in between.

  lemma SandwichW(w: real, x: real, y: real, z: real, a: real, b: real, c: real)
    ensures (w * 0.0 - x * a - y * b - z * c) * w - (w * a + x * 0.0 + y * c - z * b) * -x
            - (w * b - x * c + y * 0.0 + z * a) * -y - (w * c + x * b - y * a + z * 0.0) * -z == 0.0
  {
  }

  lemma SandwichX(w: real, x: real, y: real, z: real, a: real, b: real, c: real)
    ensures (w * 0.0 - x * a - y * b - z * c) * -x + (w * a + x * 0.0 + y * c - z * b) * w
            + (w * b - x * c + y * 0.0 + z * a) * -z - (w * c + x * b - y * a + z * 0.0) * -y
         == Diagonal(w, x, y, z) * a + Minus(x, y, w, z) * b + Plus(z, x, w, y) * c
  {
  }

  lemma SandwichY(w: real, x: real, y: real, z: real, a: real, b: real, c: real)
    ensures (w * 0.0 - x * a - y * b - z * c) * -y - (w * a + x * 0.0 + y * c - z * b) * -z
            + (w * b - x * c + y * 0.0 + z * a) * w + (w * c + x * b - y * a + z * 0.0) * -x
         == Plus(x, y, w, z) * a + Diagonal(w, y, z, x) * b + Minus(y, z, w, x) * c
  {
  }

  lemma SandwichZ(w: real, x: real, y: real, z: real, a: real, b: real, c: real)
    ensures (w * 0.0 - x * a - y * b - z * c) * -z + (w * a + x * 0.0 + y * c - z * b) * -y
            - (w * b - x * c + y * 0.0 + z * a) * -x + (w * c + x * b - y * a + z * 0.0) * w
         == Minus(z, x, w, y) * a + Plus(y, z, w, x) * b + Diagonal(w, z, x, y) * c
  {
  }

  lemma Sandwich(w: real, x: real, y: real, z: real, a: real, b: real, c: real)
    ensures QuatMul(QuatMul(Quat(w, x, y, z), Quat(0.0, a, b, c)), Quat(w, -x, -y, -z))
         == Quat(0.0, Diagonal(w, x, y, z) * a + Minus(x, y, w, z) * b + Plus(z, x, w, y) * c,
                 Plus(x, y, w, z) * a + Diagonal(w, y, z, x) * b + Minus(y, z, w, x) * c,
                 Minus(z, x, w, y) * a + Plus(y, z, w, x) * b + Diagonal(w, z, x, y) * c)
  {
    SandwichW(w, x, y, z, a, b, c);
    SandwichX(w, x, y, z, a, b, c);
    SandwichY(w, x, y, z, a, b, c);
    SandwichZ(w, x, y, z, a, b, c);
    hide Diagonal, Minus, Plus;
  }

  function AsQuat(p: Point): Quat {
    Quat(0.0, p.x, p.y, p.z)
  }

  /** The matrix of a unit quaternion q takes every point p to q p q*. */
  lemma MatrixTurnsAsQuat(q: Quat, p: Point)
    requires Norm2(q) == 1.0
    ensures QuatMul(QuatMul(q, AsQuat(p)), Conj(q)) == AsQuat(Apply(Quat2Rot(q), p))
  {
    UnitIsHom(q);
    Sandwich(q.w, q.x, q.y, q.z, p.x, p.y, p.z);
    hide Diagonal, Minus, Plus, Norm2, Quat2Rot, QuatMul;
  }

  /** In a frame whose matrix is a rotation the two conversions undo each other, for every point. */
  lemma LocalCoordRoundTrip(f: LocalCoord, p: Point)
    requires IsRotation(f.matrix)
    ensures f.NedToEcefPoint(f.EcefToNed(p)) == p && f.EcefToNed(f.NedToEcefPoint(p)) == p
  {
    var d := Translate(p, Opposite(f.origin));
    assert Translate(d, f.origin) == p;
    var e := Apply(f.matrix, p);
    assert Translate(Translate(e, f.origin), Opposite(f.origin)) == e;
    hide Apply, MatMul, Transpose, Det, Translate;
    ApplyProduct(f.matrix, Transpose(f.matrix), d);
    ApplyProduct(Transpose(f.matrix), f.matrix, p);
    ApplyIdentity(d);
    ApplyIdentity(p);
  }

  // ---------------------------------------------------------------- back to Euler angles

  /**
   What is assumed of the library's two-argument arctangent: the angle points along (x, y), and is zero where that has no
   direction.
   */
  ghost predicate IsAtan2(f: (real, real) -> Angle) {
    && (forall y, x :: f(y, x).Valid())
    && (forall y, x :: x != 0.0 || y != 0.0 ==> f(y, x).c * y == f(y, x).s * x && f(y, x).c * x + f(y, x).s * y > 0.0)
    && f(0.0, 0.0) == Angle(1.0, 0.0, 1.0, 0.0)
  }

  /** What is assumed of its arcsine: the angle between minus and plus a right angle with that sine. */
  ghost predicate IsAsin(f: real -> Angle) {
    forall v :: -1.0 <= v <= 1.0 ==> f(v).Valid() && f(v).s == v && f(v).c >= 0.0
  }

  function ClipUnit(v: real): real {
    if v < -1.0 then -1.0 else if v > 1.0 then 1.0 else v
  }

  /** The sine and cosine of the roll, of the yaw, both times the cosine of the pitch. */
  function RollSine(q: Quat): real {
    2.0 * (q.w * q.x + q.y * q.z)
  }

  function RollCosine(q: Quat): real {
    1.0 - 2.0 * (q.x * q.x + q.y * q.y)
  }

  function YawSine(q: Quat): real {
    2.0 * (q.w * q.z + q.x * q.y)
  }

  function YawCosine(q: Quat): real {
    1.0 - 2.0 * (q.y * q.y + q.z * q.z)
  }

  function PitchSine(q: Quat): real {
    2.0 * (q.w * q.y - q.z * q.x)
  }

  function Quat2Euler(q: Quat, atan2: (real, real) -> Angle, asin: real -> Angle): Euler {
    Euler(atan2(RollSine(q), RollCosine(q)), asin(ClipUnit(PitchSine(q))), atan2(YawSine(q), YawCosine(q)))
  }

  lemma UnitAngle(a: Angle)
    requires a.Valid()
    ensures a.c * a.c + a.s * a.s == 1.0
  {
    UnitAngleScalar(a.ch, a.sh, a.c, a.s);
  }

  lemma UnitAngleScalar(ch: real, sh: real, c: real, s: real)
    requires ch * ch + sh * sh == 1.0 && c == ch * ch - sh * sh && s == 2.0 * sh * ch
    ensures c * c + s * s == 1.0
  {
    SameProduct(c, c, ch * ch - sh * sh, ch * ch - sh * sh);
    SameProduct(s, s, 2.0 * sh * ch, 2.0 * sh * ch);
    SameProduct(ch * ch + sh * sh, ch * ch + sh * sh, 1.0, 1.0);
  }

  /** An angle along (x, y) has the cosine and sine that its length k gives. */
  lemma Direction(c: real, s: real, x: real, y: real, k: real)
    requires c * c + s * s == 1.0 && c * y == s * x && c * x + s * y > 0.0 && k > 0.0 && x * x + y * y == k * k
    ensures c * k == x && s * k == y
  {
    var r := c * x + s * y;
    assert r * r + (c * y - s * x) * (c * y - s * x) == (c * c + s * s) * (x * x + y * y);
    SameProduct(c * y - s * x, c * y - s * x, 0.0, 0.0);
    SameProduct(c * c + s * s, x * x + y * y, 1.0, k * k);
    SameSquares(r, k);
    assert c * r == (c * c) * x + s * (c * y);
    SameProduct(s, c * y, s, s * x);
    assert (c * c) * x + s * (s * x) == (c * c + s * s) * x;
    SameProduct(c * c + s * s, x, 1.0, x);
    assert s * r == c * (s * x) + (s * s) * y;
    SameProduct(c, s * x, c, c * y);
    assert c * (c * y) + (s * s) * y == (c * c + s * s) * y;
    SameProduct(c * c + s * s, y, 1.0, y);
  }

  lemma SameSquares(a: real, b: real)
    requires a > 0.0 && b > 0.0 && a * a == b * b
    ensures a == b
  {
    assert (a - b) * (a + b) == 0.0;
  }

  lemma EulerEntries(e: Euler)
    ensures var m := Euler2Rot(e);
            && m.m00 == e.yaw.c * e.pitch.c && m.m10 == e.yaw.s * e.pitch.c && m.m20 == -e.pitch.s
            && m.m21 == e.pitch.c * e.roll.s && m.m22 == e.pitch.c * e.roll.c
  {
  }

  lemma Solve(u: real, k: real, x: real, y: real)
    requires x == u * u * x + k && y == u * u * y + k && u * u != 1.0
    ensures x == y
  {
    CancelFactor(1.0 - u * u, x, y);
  }

  lemma CofactorsSolve(a00: real, a10: real, a20: real, a21: real, a22: real, m01: real, m02: real, m11: real, m12: real)
    requires Cross(m12, a20, a10, a22) == m01 && Cross(a20, m01, a21, a00) == m12
    requires Cross(a22, a00, a20, m02) == m11 && Cross(a10, a21, m11, a20) == m02
    ensures m01 == a20 * a20 * m01 + (-(a20 * (a21 * a00)) - a10 * a22)
    ensures m11 == a20 * a20 * m11 + (a22 * a00 - a20 * (a10 * a21))
  {
    SameProduct(m12, a20, a20 * m01 - a21 * a00, a20);
    SameProduct(a20, m02, a20, a10 * a21 - m11 * a20);
  }

  /** Two rotations that agree in the first column and the last row agree, unless their corner is plus or minus one. */
  lemma FiveEntriesDetermine(m: Mat, n: Mat)
    requires SelfCofactor(m) && SelfCofactor(n) && m.m20 * m.m20 != 1.0
    requires m.m00 == n.m00 && m.m10 == n.m10 && m.m20 == n.m20 && m.m21 == n.m21 && m.m22 == n.m22
    ensures m == n
  {
    hide Cross;
    CofactorsDetermine(m.m00, m.m10, m.m20, m.m21, m.m22, m.m01, m.m02, m.m11, m.m12, n.m01, n.m02, n.m11, n.m12);
  }

  lemma CofactorsDetermine(a00: real, a10: real, a20: real, a21: real, a22: real, m01: real, m02: real, m11: real, m12: real,
                           n01: real, n02: real, n11: real, n12: real)
    requires Cross(m12, a20, a10, a22) == m01 && Cross(a20, m01, a21, a00) == m12
    requires Cross(a22, a00, a20, m02) == m11 && Cross(a10, a21, m11, a20) == m02
    requires Cross(n12, a20, a10, a22) == n01 && Cross(a20, n01, a21, a00) == n12
    requires Cross(a22, a00, a20, n02) == n11 && Cross(a10, a21, n11, a20) == n02
    requires a20 * a20 != 1.0
    ensures m01 == n01 && m02 == n02 && m11 == n11 && m12 == n12
  {
    CofactorsSolve(a00, a10, a20, a21, a22, m01, m02, m11, m12);
    CofactorsSolve(a00, a10, a20, a21, a22, n01, n02, n11, n12);
    Solve(a20, -(a20 * (a21 * a00)) - a10 * a22, m01, n01);
    Solve(a20, a22 * a00 - a20 * (a10 * a21), m11, n11);
    hide Cross;
  }

  /** Gimbal lock: the nose points straight up or down. */
  ghost predicate Locked(q: Quat) {
    PitchSine(q) * PitchSine(q) == 1.0
  }

  lemma EntriesOfQuat(q: Quat)
    ensures var m := Quat2Rot(q);
            && m.m00 == YawCosine(q) && m.m10 == YawSine(q) && m.m20 == -PitchSine(q)
            && m.m21 == RollSine(q) && m.m22 == RollCosine(q)
            && m.m11 == 1.0 - 2.0 * (q.x * q.x + q.z * q.z)
  {
  }

  lemma BeyondOne(v: real)
    requires v > 1.0
    ensures v * v > 1.0
  {
    assert (v - 1.0) * (v + 1.0) > 0.0;
  }

  lemma SquareBound(v: real)
    requires v * v <= 1.0
    ensures -1.0 <= v <= 1.0 && ClipUnit(v) == v
  {
    if v > 1.0 {
      BeyondOne(v);
    } else if v < -1.0 {
      BeyondOne(-v);
    }
  }

  lemma NotNegativeSquare(a: real)
    ensures a * a >= 0.0
  {
  }

  lemma MulDef(a: real, b: real)
    ensures Mul(a, b) == a * b
  {
  }

  lemma MulSigns(a: real, b: real)
    ensures a > 0.0 && b > 0.0 ==> Mul(a, b) > 0.0
    ensures a < 0.0 && b < 0.0 ==> Mul(a, b) > 0.0
    ensures a == 0.0 ==> Mul(a, b) == 0.0
  {
  }

  /** In a rotation the first column and the last row each leave the same length beside the corner. */
  lemma LengthsBesideCorner(m: Mat, v: real)
    requires Orthonormal(m) && m.m20 == -v
    ensures m.m22 * m.m22 + m.m21 * m.m21 == 1.0 - v * v == m.m00 * m.m00 + m.m10 * m.m10
    ensures v * v <= 1.0
  {
    DotDef(m.m20, m.m21, m.m22, m.m20, m.m21, m.m22);
    DotDef(m.m00, m.m10, m.m20, m.m00, m.m10, m.m20);
    hide Dot;
    SameProduct(m.m20, m.m20, -v, -v);
    NotNegativeSquare(m.m22);
    NotNegativeSquare(m.m21);
  }

  lemma PositiveRoot(c: real, v: real)
    requires c >= 0.0 && c * c + v * v == 1.0 && v * v != 1.0
    ensures c > 0.0
  {
    assert c == 0.0 ==> c * c == 0.0;
  }

  lemma NotBothZero(x: real, y: real, k: real)
    requires x * x + y * y == k * k && k > 0.0
    ensures x != 0.0 || y != 0.0
  {
    MulDef(x, x);
    MulDef(y, y);
    MulDef(k, k);
    hide Mul;
    MulSigns(x, x);
    MulSigns(y, y);
    MulSigns(k, k);
  }

  /** The library's angle along (x, y) has the cosine and sine that the length k gives. */
  lemma AngleAlong(a: Angle, x: real, y: real, k: real)
    requires a.Valid() && k > 0.0 && x * x + y * y == k * k
    requires x != 0.0 || y != 0.0 ==> a.c * y == a.s * x && a.c * x + a.s * y > 0.0
    ensures a.c * k == x && a.s * k == y
  {
    UnitAngle(a);
    hide Angle.Valid;
    NotBothZero(x, y, k);
    Direction(a.c, a.s, x, y, k);
  }

  lemma Atan2Along(f: (real, real) -> Angle, x: real, y: real, k: real)
    requires IsAtan2(f) && k > 0.0 && x * x + y * y == k * k
    ensures f(y, x).Valid() && f(y, x).c * k == x && f(y, x).s * k == y
  {
    hide Angle.Valid;
    AngleAlong(f(y, x), x, y, k);
  }

  /** The cosine of the pitch is the length beside the corner, positive away from gimbal lock. */
  lemma PitchCosine(asin: real -> Angle, v: real)
    requires IsAsin(asin) && v * v <= 1.0
    ensures asin(ClipUnit(v)).Valid() && asin(ClipUnit(v)).s == v
    ensures asin(ClipUnit(v)).c * asin(ClipUnit(v)).c == 1.0 - v * v && asin(ClipUnit(v)).c >= 0.0
    ensures v * v != 1.0 ==> asin(ClipUnit(v)).c > 0.0
  {
    SquareBound(v);
    var a := asin(v);
    UnitAngle(a);
    hide Angle.Valid;
    SameProduct(a.s, a.s, v, v);
    if v * v != 1.0 {
      PositiveRoot(a.c, v);
    }
  }

  lemma Quat2EulerOf(q: Quat, m: Mat, atan2: (real, real) -> Angle, asin: real -> Angle)
    requires m == Quat2Rot(q)
    ensures Quat2Euler(q, atan2, asin) == Euler(atan2(m.m21, m.m22), asin(ClipUnit(-m.m20)), atan2(m.m10, m.m00))
  {
    EntriesOfQuat(q);
    hide Quat2Rot, ClipUnit, PitchSine, RollSine, RollCosine, YawSine, YawCosine;
  }

  lemma SameDirection(f: (real, real) -> Angle, y: real, x: real, y1: real, x1: real)
    requires y == y1 && x == x1
    ensures f(y, x) == f(y1, x1)
  {
  }

  /** Away from gimbal lock the Euler angles read off a rotation are those of its five entries. */
  lemma AnglesOfRotation(m: Mat, e: Euler, v: real, atan2: (real, real) -> Angle, asin: real -> Angle)
    requires Orthonormal(m) && m.m20 == -v && v * v != 1.0 && IsAtan2(atan2) && IsAsin(asin)
    requires e == Euler(atan2(m.m21, m.m22), asin(ClipUnit(v)), atan2(m.m10, m.m00))
    ensures e.Valid() && e.pitch.s == v
    ensures e.roll.c * e.pitch.c == m.m22 && e.roll.s * e.pitch.c == m.m21
    ensures e.yaw.c * e.pitch.c == m.m00 && e.yaw.s * e.pitch.c == m.m10
  {
    hide *;
    LengthsBesideCorner(m, v);
    PitchCosine(asin, v);
    Atan2Along(atan2, m.m22, m.m21, e.pitch.c);
    Atan2Along(atan2, m.m00, m.m10, e.pitch.c);
    ValidAngles(e);
  }

  lemma ValidAngles(e: Euler)
    requires e.roll.Valid() && e.pitch.Valid() && e.yaw.Valid()
    ensures e.Valid()
  {
  }

  lemma LockedCorner(q: Quat, m: Mat, v: real)
    requires m == Quat2Rot(q) && v == -m.m20
    ensures Locked(q) <==> v * v == 1.0
  {
    EntriesOfQuat(q);
    SameProduct(PitchSine(q), PitchSine(q), v, v);
    hide Quat2Rot, PitchSine;
  }

  /** Away from gimbal lock the Euler angles read off a quaternion give its matrix back. */
  lemma EulerKeepsMatrix(q: Quat, atan2: (real, real) -> Angle, asin: real -> Angle)
    requires Norm2(q) == 1.0 && IsAtan2(atan2) && IsAsin(asin) && !Locked(q)
    ensures Quat2Euler(q, atan2, asin).Valid() && Euler2Rot(Quat2Euler(q, atan2, asin)) == Quat2Rot(q)
  {
    hide *;
    var (m, e) := (Quat2Rot(q), Quat2Euler(q, atan2, asin));
    UnitQuatGivesRotation(q);
    RowsAndColumns(m);
    RotationIsSelfCofactor(m);
    LockedCorner(q, m, -m.m20);
    Quat2EulerOf(q, m, atan2, asin);
    AnglesOfRotation(m, e, -m.m20, atan2, asin);
    EulerEntries(e);
    EulerIsRotation(e);
    CornerSquares(m.m20);
    FiveEntriesDetermine(m, Euler2Rot(e));
  }

  lemma CornerSquares(u: real)
    ensures -u * -u == u * u
  {
  }

  lemma EulerIsRotation(e: Euler)
    requires e.Valid()
    ensures SelfCofactor(Euler2Rot(e))
  {
    hide *;
    EulerQuatIsUnit(e);
    TwoRoutesAgree(e);
    UnitQuatGivesRotation(Euler2Quat(e));
    RotationIsSelfCofactor(Euler2Rot(e));
  }

  lemma SameMatrixSameQuat(p: Quat, q: Quat)
    requires Norm2(p) == 1.0 == Norm2(q)
    ensures Quat2Rot(p) == Quat2Rot(q) <==> p == q || p == Neg(q)
  {
    hide *;
    GramOfQuat(p);
    GramOfQuat(q);
    if Quat2Rot(p) == Quat2Rot(q) {
      OuterIsUpToSign(p, q);
    }
    NegChangesNothing(q);
  }

  lemma NoRollAtLock(q: Quat)
    requires Norm2(q) == 1.0 && Locked(q)
    ensures var m := Quat2Rot(q); m.m21 == 0.0 == m.m22 && m.m10 == 0.0 == m.m00
  {
    hide *;
    var m := Quat2Rot(q);
    UnitQuatGivesRotation(q);
    RowsAndColumns(m);
    LockedCorner(q, m, -m.m20);
    LengthsBesideCorner(m, -m.m20);
    BothZero(m.m22, m.m21);
    BothZero(m.m00, m.m10);
  }

  lemma BothZero(x: real, y: real)
    requires x * x + y * y == 0.0
    ensures x == 0.0 == y
  {
    MulDef(x, x);
    MulDef(y, y);
    hide Mul;
    MulSigns(x, x);
    MulSigns(y, y);
  }

  /** Without roll and yaw only the pitch turns. */
  lemma PitchOnly(e: Euler)
    requires e.roll == Angle(1.0, 0.0, 1.0, 0.0) == e.yaw
    ensures Euler2Rot(e) == RotY(e.pitch)
  {
    assert RotZ(e.yaw) == IDENTITY == RotX(e.roll);
    hide MatMul, RotX, RotY, RotZ;
    IdentityIsNeutral(RotY(e.pitch));
  }

  lemma IdentityIsNeutral(m: Mat)
    ensures MatMul(IDENTITY, m) == m == MatMul(m, IDENTITY)
  {
    forall a: real, b: real, c: real
      ensures Dot(1.0, 0.0, 0.0, a, b, c) == a == Dot(a, b, c, 1.0, 0.0, 0.0)
      ensures Dot(0.0, 1.0, 0.0, a, b, c) == b == Dot(a, b, c, 0.0, 1.0, 0.0)
      ensures Dot(0.0, 0.0, 1.0, a, b, c) == c == Dot(a, b, c, 0.0, 0.0, 1.0)
    {
    }
    hide Dot;
  }

  /** At gimbal lock the angles read off are the pitch alone. */
  lemma AnglesAtLock(q: Quat, atan2: (real, real) -> Angle, asin: real -> Angle)
    requires Norm2(q) == 1.0 && IsAtan2(atan2) && IsAsin(asin) && Locked(q)
    ensures var e := Quat2Euler(q, atan2, asin);
            && e.Valid() && Euler2Rot(e) == RotY(e.pitch) && e.pitch.s == -Quat2Rot(q).m20 && e.pitch.c == 0.0
            && e.roll == Angle(1.0, 0.0, 1.0, 0.0) == e.yaw
  {
    hide *;
    var (m, e) := (Quat2Rot(q), Quat2Euler(q, atan2, asin));
    var v := -m.m20;
    NoRollAtLock(q);
    LockedCorner(q, m, v);
    Quat2EulerOf(q, m, atan2, asin);
    SameDirection(atan2, m.m21, m.m22, 0.0, 0.0);
    SameDirection(atan2, m.m10, m.m00, 0.0, 0.0);
    ZeroDirection(atan2);
    PitchCosine(asin, v);
    BothZero(e.pitch.c, 0.0);
    PitchOnly(e);
    ValidAngles(e);
  }

  lemma ZeroDirection(f: (real, real) -> Angle)
    requires IsAtan2(f)
    ensures f(0.0, 0.0) == Angle(1.0, 0.0, 1.0, 0.0) && f(0.0, 0.0).Valid()
  {
  }

  /** At gimbal lock the matrix turns by the pitch alone exactly when the quaternion has neither roll nor yaw part. */
  lemma PitchOnlyIff(q: Quat, pitch: Angle)
    requires Norm2(q) == 1.0 && Locked(q) && pitch.s == -Quat2Rot(q).m20 && pitch.c == 0.0
    ensures Quat2Rot(q) == RotY(pitch) <==> q.x == 0.0 && q.z == 0.0
  {
    NoRollAtLock(q);
    EntriesOfQuat(q);
    RemainingEntries(q);
    hide Quat2Rot, Norm2, Locked, PitchSine;
    if Quat2Rot(q) == RotY(pitch) {
      BothZero(q.x, q.z);
    }
  }

  lemma RemainingEntries(q: Quat)
    ensures var m := Quat2Rot(q);
            && m.m01 == 2.0 * (q.x * q.y - q.w * q.z) && m.m02 == 2.0 * (q.x * q.z + q.w * q.y) && m.m12 == 2.0 * (q.y * q.z - q.w * q.x)
    ensures q.x == 0.0 && q.z == 0.0 ==>
      var m := Quat2Rot(q); m.m01 == 0.0 == m.m12 && m.m02 == -m.m20 && m.m11 == 1.0
  {
  }

  /**
   `quat2euler` and back: the same unit quaternion up to sign, with w >= 0, exactly when the nose does not point straight
   up or down, or there is neither a roll nor a yaw part.
   */
  lemma EulerRoundTrip(q: Quat, atan2: (real, real) -> Angle, asin: real -> Angle)
    requires Norm2(q) == 1.0 && IsAtan2(atan2) && IsAsin(asin)
    ensures var p := Euler2Quat(Quat2Euler(q, atan2, asin));
            && p.w >= 0.0 && Norm2(p) == 1.0
            && (p == q || p == Neg(q) <==> !Locked(q) || (q.x == 0.0 && q.z == 0.0))
  {
    hide *;
    var e := Quat2Euler(q, atan2, asin);
    if Locked(q) {
      AnglesAtLock(q, atan2, asin);
      PitchOnlyIff(q, e.pitch);
    } else {
      EulerKeepsMatrix(q, atan2, asin);
    }
    EulerQuatIsUnit(e);
    TwoRoutesAgree(e);
    SameMatrixSameQuat(Euler2Quat(e), q);
  }

  // ---------------------------------------------------------------- the same for matrices and for angles

  /** `rot2euler` */
  function Rot2Euler(m: Mat, sqrt: real -> real, atan2: (real, real) -> Angle, asin: real -> Angle): Euler
    requires IsSquareRoot(sqrt)
  {
    Quat2Euler(Rot2Quat(m, sqrt), atan2, asin)
  }

  lemma Rot2EulerDef(m: Mat, sqrt: real -> real, atan2: (real, real) -> Angle, asin: real -> Angle)
    requires IsSquareRoot(sqrt)
    ensures Rot2Euler(m, sqrt, atan2, asin) == Quat2Euler(Rot2Quat(m, sqrt), atan2, asin)
  {
    hide Quat2Euler, Rot2Quat, IsSquareRoot;
  }

  lemma AnglesAreValid(q: Quat, atan2: (real, real) -> Angle, asin: real -> Angle)
    requires IsAtan2(atan2) && IsAsin(asin)
    ensures Quat2Euler(q, atan2, asin).Valid()
  {
    hide Angle.Valid, PitchSine, RollSine, RollCosine, YawSine, YawCosine;
  }

  lemma MiddleEntry(q: Quat)
    requires Norm2(q) == 1.0
    ensures Quat2Rot(q).m11 == 1.0 <==> q.x == 0.0 == q.z
  {
    EntriesOfQuat(q);
    hide Quat2Rot, Norm2;
    if Quat2Rot(q).m11 == 1.0 {
      BothZero(q.x, q.z);
    } else if q.x == 0.0 == q.z {
      SameProduct(q.x, q.x, 0.0, 0.0);
      SameProduct(q.z, q.z, 0.0, 0.0);
    }
  }

  /** `rot2euler` and back to the matrix: the same rotation exactly away from gimbal lock, or with nothing but a pitch. */
  lemma RotEulerRoundTrip(m: Mat, sqrt: real -> real, atan2: (real, real) -> Angle, asin: real -> Angle)
    requires IsRotation(m) && IsSquareRoot(sqrt) && IsAtan2(atan2) && IsAsin(asin)
    ensures Euler2Rot(Rot2Euler(m, sqrt, atan2, asin)) == m <==> m.m20 * m.m20 != 1.0 || m.m11 == 1.0
  {
    hide *;
    var (q, e) := (Rot2Quat(m, sqrt), Rot2Euler(m, sqrt, atan2, asin));
    Rot2EulerDef(m, sqrt, atan2, asin);
    Quat2RotInvertsRot2Quat(m, sqrt);
    LockedCorner(q, m, -m.m20);
    CornerSquares(m.m20);
    assert Locked(q) <==> m.m20 * m.m20 == 1.0;
    EulerRoundTrip(q, atan2, asin);
    MiddleEntry(q);
    AnglesAreValid(q, atan2, asin);
    TwoRoutesAgree(e);
    SameMatrixSameQuat(Euler2Quat(e), q);
    assert Euler2Rot(e) == m <==> !Locked(q) || (q.x == 0.0 && q.z == 0.0);
    assert m.m11 == 1.0 <==> q.x == 0.0 && q.z == 0.0;
  }

  /** The same turns, whatever half angles stand for them. */
  predicate SameTurns(a: Euler, b: Euler) {
    && a.roll.c == b.roll.c && a.roll.s == b.roll.s && a.pitch.c == b.pitch.c && a.pitch.s == b.pitch.s
    && a.yaw.c == b.yaw.c && a.yaw.s == b.yaw.s
  }

  lemma NoTurn(a: Angle)
    requires a.Valid() && a.c == 1.0
    ensures a.s == 0.0
  {
    UnitAngle(a);
    hide Angle.Valid;
    SameProduct(a.c, a.c, 1.0, 1.0);
    BothZero(a.s, 0.0);
  }

  lemma SameCosine(e: Euler, r: Euler)
    requires e.Valid() && r.Valid() && e.pitch.s == r.pitch.s && e.pitch.c > 0.0 && r.pitch.c > 0.0
    ensures e.pitch.c == r.pitch.c
  {
    PitchIsUnit(e);
    PitchIsUnit(r);
    hide *;
    SameProduct(e.pitch.s, e.pitch.s, r.pitch.s, r.pitch.s);
    SameSquares(e.pitch.c, r.pitch.c);
  }

  lemma SameBesideFactor(k: real, a: real, l: real, b: real)
    requires k == l != 0.0 && (k * a == l * b || a * k == b * l)
    ensures a == b
  {
    CancelFactor(k, a, b);
  }

  /** Angles read off away from gimbal lock, with the pitch turned towards the front. */
  lemma AnglesFromFront(e: Euler, r: Euler)
    requires e.Valid() && r.Valid() && r.pitch.c > 0.0 && Euler2Rot(r) == Euler2Rot(e)
    ensures SameTurns(r, e) <==> e.pitch.c > 0.0
  {
    hide Angle.Valid, Euler.Valid, Euler2Rot;
    EulerEntries(e);
    EulerEntries(r);
    assert e.pitch.s == r.pitch.s;
    if e.pitch.c > 0.0 {
      SameCosine(e, r);
      SameBesideFactor(e.pitch.c, e.roll.c, r.pitch.c, r.roll.c);
      SameBesideFactor(e.pitch.c, e.roll.s, r.pitch.c, r.roll.s);
      SameBesideFactor(e.pitch.c, e.yaw.c, r.pitch.c, r.yaw.c);
      SameBesideFactor(e.pitch.c, e.yaw.s, r.pitch.c, r.yaw.s);
    }
  }

  /**
   `euler2quat` and back: the same angles exactly when the pitch is less than a right angle, or a right angle with neither
   roll nor yaw.
   */
  lemma EulerComesBack(e: Euler, atan2: (real, real) -> Angle, asin: real -> Angle)
    requires e.Valid() && IsAtan2(atan2) && IsAsin(asin)
    ensures SameTurns(Quat2Euler(Euler2Quat(e), atan2, asin), e)
            <==> e.pitch.c > 0.0 || (e.pitch.c == 0.0 && e.roll.c == 1.0 == e.yaw.c)
  {
    hide *;
    var q := Euler2Quat(e);
    var r := Quat2Euler(q, atan2, asin);
    EulerQuatIsUnit(e);
    TwoRoutesAgree(e);
    EulerEntries(e);
    LockedCorner(q, Euler2Rot(e), e.pitch.s);
    PitchIsUnit(e);
    if Locked(q) {
      AnglesAtLock(q, atan2, asin);
      BothZero(e.pitch.c, 0.0);
      AnglesStraightUp(e, r);
    } else {
      EulerKeepsMatrix(q, atan2, asin);
      Quat2EulerOf(q, Euler2Rot(e), atan2, asin);
      PitchCosine(asin, e.pitch.s);
      AnglesFromFront(e, r);
      NotUpright(e);
    }
  }

  lemma PitchIsUnit(e: Euler)
    requires e.Valid()
    ensures e.pitch.c * e.pitch.c + e.pitch.s * e.pitch.s == 1.0 && e.pitch.s * e.pitch.s <= 1.0
  {
    UnitAngle(e.pitch);
    hide Angle.Valid;
    NotNegativeSquare(e.pitch.c);
  }

  lemma NotUpright(e: Euler)
    requires e.Valid() && e.pitch.s * e.pitch.s != 1.0
    ensures e.pitch.c != 0.0
  {
    UnitAngle(e.pitch);
    hide Angle.Valid;
    if e.pitch.c == 0.0 {
      SameProduct(e.pitch.c, e.pitch.c, 0.0, 0.0);
    }
  }

  lemma AnglesStraightUp(e: Euler, r: Euler)
    requires e.Valid() && e.pitch.c == 0.0 == r.pitch.c && r.pitch.s == e.pitch.s
    requires r.roll == Angle(1.0, 0.0, 1.0, 0.0) == r.yaw
    ensures SameTurns(r, e) <==> e.roll.c == 1.0 == e.yaw.c
  {
    hide Angle.Valid;
    if e.roll.c == 1.0 == e.yaw.c {
      NoTurn(e.roll);
      NoTurn(e.yaw);
    }
  }
}
