/**
 * The vector, quaternion and 4x4 matrix values that the 3D scene nodes
 * compute with, over `real` in place of `float`.  Matrices follow the
 * row-vector convention of the matrix library the nodes use: a point `v`
 * is transformed as `v * M`, so a translation sits in the last row and
 * `A * B` applies `A` first.
 */
module LinearAlgebra {

  /** `(int)` of a float: truncation toward zero. */
  function Truncate(v: real): (r: int)
    ensures 0.0 <= v ==> r as real <= v < r as real + 1.0
    ensures v < 0.0 ==> r as real - 1.0 < v <= r as real
  {
    if v >= 0.0 then v.Floor else -((-v).Floor)
  }

  datatype Vec2 = Vec2(x: real, y: real)

  datatype Vec3 = Vec3(x: real, y: real, z: real) {
    function Xy(): Vec2 { Vec2(x, y) }
  }

  const Zero3 := Vec3(0.0, 0.0, 0.0)
  const One3 := Vec3(1.0, 1.0, 1.0)

  function Add3(u: Vec3, v: Vec3): Vec3 { Vec3(u.x + v.x, u.y + v.y, u.z + v.z) }
  function Sub3(u: Vec3, v: Vec3): Vec3 { Vec3(u.x - v.x, u.y - v.y, u.z - v.z) }
  function Neg3(v: Vec3): Vec3 { Vec3(-v.x, -v.y, -v.z) }

  predicate NoZeroComponent(v: Vec3) { v.x != 0.0 && v.y != 0.0 && v.z != 0.0 }

  /** Component-wise `One / v`, defined where no component is zero. */
  function Reciprocal(v: Vec3): (r: Vec3)
    requires NoZeroComponent(v)
    ensures NoZeroComponent(r)
    ensures v.x * r.x == 1.0 && v.y * r.y == 1.0 && v.z * r.z == 1.0
  {
    Vec3(1.0 / v.x, 1.0 / v.y, 1.0 / v.z)
  }

  datatype Vec4 = Vec4(x: real, y: real, z: real, w: real)

  function Dot(u: Vec4, v: Vec4): real { u.x * v.x + u.y * v.y + u.z * v.z + u.w * v.w }

  /** A quaternion `x i + y j + z k + w`; `w` is the real part. */
  datatype Quaternion = Quaternion(x: real, y: real, z: real, w: real)

  const IdentityQuaternion := Quaternion(0.0, 0.0, 0.0, 1.0)

  function LengthSquared(q: Quaternion): real { q.x * q.x + q.y * q.y + q.z * q.z + q.w * q.w }

  function Conjugate(q: Quaternion): Quaternion { Quaternion(-q.x, -q.y, -q.z, q.w) }

  /** `Quaternion.Invert`: the conjugate over the squared length; a zero quaternion is returned unchanged. */
  function Invert(q: Quaternion): (r: Quaternion)
    ensures LengthSquared(q) == 0.0 ==> r == q
  {
    var n := LengthSquared(q);
    if n != 0.0 then Quaternion(-q.x / n, -q.y / n, -q.z / n, q.w / n) else q
  }

  datatype Matrix4 = Matrix4(row0: Vec4, row1: Vec4, row2: Vec4, row3: Vec4)

  const Identity := Matrix4(Vec4(1.0, 0.0, 0.0, 0.0), Vec4(0.0, 1.0, 0.0, 0.0),
                            Vec4(0.0, 0.0, 1.0, 0.0), Vec4(0.0, 0.0, 0.0, 1.0))
  const ZeroMatrix := Matrix4(Vec4(0.0, 0.0, 0.0, 0.0), Vec4(0.0, 0.0, 0.0, 0.0),
                              Vec4(0.0, 0.0, 0.0, 0.0), Vec4(0.0, 0.0, 0.0, 0.0))

  function Col0(b: Matrix4): Vec4 { Vec4(b.row0.x, b.row1.x, b.row2.x, b.row3.x) }
  function Col1(b: Matrix4): Vec4 { Vec4(b.row0.y, b.row1.y, b.row2.y, b.row3.y) }
  function Col2(b: Matrix4): Vec4 { Vec4(b.row0.z, b.row1.z, b.row2.z, b.row3.z) }
  function Col3(b: Matrix4): Vec4 { Vec4(b.row0.w, b.row1.w, b.row2.w, b.row3.w) }

  /** Row vector `r` times matrix `b`. */
  function Transform(r: Vec4, b: Matrix4): Vec4 {
    Vec4(Dot(r, Col0(b)), Dot(r, Col1(b)), Dot(r, Col2(b)), Dot(r, Col3(b)))
  }

  function Mul(a: Matrix4, b: Matrix4): Matrix4 {
    Matrix4(Transform(a.row0, b), Transform(a.row1, b), Transform(a.row2, b), Transform(a.row3, b))
  }

  /** `a` and `b` undo each other on both sides. */
  predicate MutualInverses(a: Matrix4, b: Matrix4) {
    Mul(a, b) == Identity && Mul(b, a) == Identity
  }

  /** `Matrix4.CreateTranslation`. */
  function CreateTranslation(v: Vec3): Matrix4 {
    Matrix4(Vec4(1.0, 0.0, 0.0, 0.0), Vec4(0.0, 1.0, 0.0, 0.0),
            Vec4(0.0, 0.0, 1.0, 0.0), Vec4(v.x, v.y, v.z, 1.0))
  }

  /** `Matrix4.CreateScale`. */
  function CreateScale(v: Vec3): Matrix4 {
    Matrix4(Vec4(v.x, 0.0, 0.0, 0.0), Vec4(0.0, v.y, 0.0, 0.0),
            Vec4(0.0, 0.0, v.z, 0.0), Vec4(0.0, 0.0, 0.0, 1.0))
  }

  /** The quaternion product `p q`. */
  function QMul(p: Quaternion, q: Quaternion): Quaternion {
    Quaternion(p.w * q.x + p.x * q.w + p.y * q.z - p.z * q.y,
               p.w * q.y - p.x * q.z + p.y * q.w + p.z * q.x,
               p.w * q.z + p.x * q.y - p.y * q.x + p.z * q.w,
               p.w * q.w - p.x * q.x - p.y * q.y - p.z * q.z)
  }

  /** A quaternion read as the row vector `(x, y, z, w)`. */
  function AsRow(q: Quaternion): Vec4 { Vec4(q.x, q.y, q.z, q.w) }

  /** The matrix of `v -> p v` (see `LeftProductActs`). */
  function LeftProduct(p: Quaternion): Matrix4 {
    Matrix4(Vec4(p.w, p.z, -p.y, -p.x), Vec4(-p.z, p.w, p.x, -p.y),
            Vec4(p.y, -p.x, p.w, -p.z), Vec4(p.x, p.y, p.z, p.w))
  }

  /** The matrix of `v -> v p` (see `RightProductActs`). */
  function RightProduct(p: Quaternion): Matrix4 {
    Matrix4(Vec4(p.w, -p.z, p.y, -p.x), Vec4(p.z, p.w, -p.x, -p.y),
            Vec4(-p.y, p.x, p.w, -p.z), Vec4(p.x, p.y, p.z, p.w))
  }

  /**
   * `Matrix4.CreateFromQuaternion`, as the rotation `v -> q v q^-1` of the
   * point `v` read as the pure quaternion `(x, y, z)` with the homogeneous
   * coordinate as real part.  A zero quaternion has no inverse and describes
   * no rotation; the library's floating-point result is not finite there,
   * and the model stands for it with the zero matrix, which has no inverse
   * either (`ZeroRotationSingular`).
   */
  function CreateFromQuaternion(q: Quaternion): Matrix4 {
    if LengthSquared(q) == 0.0 then ZeroMatrix else Mul(LeftProduct(q), RightProduct(Invert(q)))
  }

  // ---------------------------------------------------------------------
  // Matrix algebra

  function Add4(u: Vec4, v: Vec4): Vec4 { Vec4(u.x + v.x, u.y + v.y, u.z + v.z, u.w + v.w) }

  /** `v` with every component multiplied by `c` on the right. */
  function Times4(v: Vec4, c: real): Vec4 { Vec4(v.x * c, v.y * c, v.z * c, v.w * c) }

  function Apply(a: Matrix4, v: Vec4): Vec4 {
    Vec4(Dot(a.row0, v), Dot(a.row1, v), Dot(a.row2, v), Dot(a.row3, v))
  }

  lemma DotTimes(u: Vec4, v: Vec4, c: real)
    ensures Dot(u, v) * c == Dot(u, Times4(v, c))
  {
    var a, b, e, f := u.x * v.x, u.y * v.y, u.z * v.z, u.w * v.w;
    assert (a + b + e + f) * c == a * c + b * c + e * c + f * c;
    assert a * c == u.x * (v.x * c);
    assert b * c == u.y * (v.y * c);
    assert e * c == u.z * (v.z * c);
    assert f * c == u.w * (v.w * c);
  }

  lemma DotAdd(r: Vec4, u: Vec4, v: Vec4)
    ensures Dot(r, Add4(u, v)) == Dot(r, u) + Dot(r, v)
  {
    assert r.x * (u.x + v.x) == r.x * u.x + r.x * v.x;
    assert r.y * (u.y + v.y) == r.y * u.y + r.y * v.y;
    assert r.z * (u.z + v.z) == r.z * u.z + r.z * v.z;
    assert r.w * (u.w + v.w) == r.w * u.w + r.w * v.w;
  }

  lemma ScaledColumnsSum(a: Matrix4, v: Vec4)
    ensures Add4(Add4(Add4(Times4(Col0(a), v.x), Times4(Col1(a), v.y)), Times4(Col2(a), v.z)), Times4(Col3(a), v.w))
         == Apply(a, v)
  {}

  lemma DotTransform(r: Vec4, a: Matrix4, v: Vec4)
    ensures Dot(Transform(r, a), v) == Dot(r, Apply(a, v))
  {
    var c0, c1, c2, c3 := Col0(a), Col1(a), Col2(a), Col3(a);
    DotTimes(r, c0, v.x);
    DotTimes(r, c1, v.y);
    DotTimes(r, c2, v.z);
    DotTimes(r, c3, v.w);
    var s0, s1, s2, s3 := Times4(c0, v.x), Times4(c1, v.y), Times4(c2, v.z), Times4(c3, v.w);
    DotAdd(r, s0, s1);
    DotAdd(r, Add4(s0, s1), s2);
    DotAdd(r, Add4(Add4(s0, s1), s2), s3);
    ScaledColumnsSum(a, v);
  }

  lemma TransformMul(r: Vec4, a: Matrix4, b: Matrix4)
    ensures Transform(Transform(r, a), b) == Transform(r, Mul(a, b))
  {
    DotTransform(r, a, Col0(b));
    DotTransform(r, a, Col1(b));
    DotTransform(r, a, Col2(b));
    DotTransform(r, a, Col3(b));
  }

  /** Matrix multiplication is associative. */
  lemma Associative(a: Matrix4, b: Matrix4, c: Matrix4)
    ensures Mul(Mul(a, b), c) == Mul(a, Mul(b, c))
  {
    TransformMul(a.row0, b, c);
    TransformMul(a.row1, b, c);
    TransformMul(a.row2, b, c);
    TransformMul(a.row3, b, c);
  }

  /** `Identity` is a two-sided unit. */
  lemma IdentityUnit(a: Matrix4)
    ensures Mul(Identity, a) == a && Mul(a, Identity) == a
  {}

  /** The zero matrix absorbs products, so it has no inverse. */
  lemma ZeroAbsorbs(a: Matrix4)
    ensures Mul(ZeroMatrix, a) == ZeroMatrix && Mul(a, ZeroMatrix) == ZeroMatrix
    ensures Mul(ZeroMatrix, a) != Identity && Mul(a, ZeroMatrix) != Identity
  {}

  /**
   * If `(m, mi)` and `(a, b)` are pairs of mutual inverses, then so is
   * `(m a, b mi)`: appending a factor on the right of a matrix and its
   * inverse on the left of the inverse keeps the two inverse.
   */
  lemma ComposeInverses(m: Matrix4, mi: Matrix4, a: Matrix4, b: Matrix4)
    requires MutualInverses(m, mi) && MutualInverses(a, b)
    ensures MutualInverses(Mul(m, a), Mul(b, mi))
  {
    calc {
      Mul(Mul(m, a), Mul(b, mi));
      { Associative(m, a, Mul(b, mi)); }
      Mul(m, Mul(a, Mul(b, mi)));
      { Associative(a, b, mi); }
      Mul(m, Mul(Mul(a, b), mi));
      { IdentityUnit(mi); }
      Mul(m, mi);
    }
    calc {
      Mul(Mul(b, mi), Mul(m, a));
      { Associative(b, mi, Mul(m, a)); }
      Mul(b, Mul(mi, Mul(m, a)));
      { Associative(mi, m, a); }
      Mul(b, Mul(Mul(mi, m), a));
      { IdentityUnit(a); }
      Mul(b, a);
    }
  }

  // ---------------------------------------------------------------------
  // Factories

  /** Translating by `u` then by `v` translates by `u + v`. */
  lemma TranslationsAdd(u: Vec3, v: Vec3)
    ensures Mul(CreateTranslation(u), CreateTranslation(v)) == CreateTranslation(Add3(u, v))
  {
    var t := CreateTranslation(v);
    assert Transform(CreateTranslation(u).row3, t) == Vec4(u.x + v.x, u.y + v.y, u.z + v.z, 1.0);
  }

  /** Translating by `v` and by `-v` undo each other. */
  lemma TranslationInverse(v: Vec3)
    ensures Mul(CreateTranslation(v), CreateTranslation(Neg3(v))) == Identity
    ensures Mul(CreateTranslation(Neg3(v)), CreateTranslation(v)) == Identity
  {}

  /** A zero translation is the identity. */
  lemma TranslationZero()
    ensures CreateTranslation(Zero3) == Identity
  {}

  /** Scaling by `u` then by `v` scales by the component-wise product. */
  lemma ScalesMultiply(u: Vec3, v: Vec3)
    ensures Mul(CreateScale(u), CreateScale(v)) == CreateScale(Vec3(u.x * v.x, u.y * v.y, u.z * v.z))
  {}

  /** Scaling by `v` and by `1 / v` undo each other when no component is zero. */
  lemma ScalesUndo(v: Vec3, r: Vec3)
    requires v.x * r.x == 1.0 && v.y * r.y == 1.0 && v.z * r.z == 1.0
    ensures Mul(CreateScale(v), CreateScale(r)) == Identity
    ensures Mul(CreateScale(r), CreateScale(v)) == Identity
  {}

  lemma ScaleInverse(v: Vec3)
    requires NoZeroComponent(v)
    ensures Mul(CreateScale(v), CreateScale(Reciprocal(v))) == Identity
    ensures Mul(CreateScale(Reciprocal(v)), CreateScale(v)) == Identity
  {
    ScalesUndo(v, Reciprocal(v));
  }

  /** A unit scale is the identity. */
  lemma ScaleOne()
    ensures CreateScale(One3) == Identity
  {}

  /** `LeftProduct(p)` is the matrix of left multiplication by `p`. */
  lemma LeftProductActs(p: Quaternion, v: Quaternion)
    ensures Transform(AsRow(v), LeftProduct(p)) == AsRow(QMul(p, v))
  {}

  /** `RightProduct(p)` is the matrix of right multiplication by `p`. */
  lemma RightProductActs(p: Quaternion, v: Quaternion)
    ensures Transform(AsRow(v), RightProduct(p)) == AsRow(QMul(v, p))
  {}

  lemma LeftProductMul(a: Quaternion, b: Quaternion)
    ensures Mul(LeftProduct(a), LeftProduct(b)).row0 == LeftProduct(QMul(b, a)).row0
    ensures Mul(LeftProduct(a), LeftProduct(b)).row1 == LeftProduct(QMul(b, a)).row1
    ensures Mul(LeftProduct(a), LeftProduct(b)).row2 == LeftProduct(QMul(b, a)).row2
    ensures Mul(LeftProduct(a), LeftProduct(b)).row3 == LeftProduct(QMul(b, a)).row3
  {}

  lemma RightProductMul(a: Quaternion, b: Quaternion)
    ensures Mul(RightProduct(a), RightProduct(b)).row0 == RightProduct(QMul(a, b)).row0
    ensures Mul(RightProduct(a), RightProduct(b)).row1 == RightProduct(QMul(a, b)).row1
    ensures Mul(RightProduct(a), RightProduct(b)).row2 == RightProduct(QMul(a, b)).row2
    ensures Mul(RightProduct(a), RightProduct(b)).row3 == RightProduct(QMul(a, b)).row3
  {}

  /** Left and right multiplications commute (associativity of the quaternion product). */
  lemma ProductsCommute(a: Quaternion, b: Quaternion)
    ensures Mul(LeftProduct(a), RightProduct(b)).row0 == Mul(RightProduct(b), LeftProduct(a)).row0
    ensures Mul(LeftProduct(a), RightProduct(b)).row1 == Mul(RightProduct(b), LeftProduct(a)).row1
    ensures Mul(LeftProduct(a), RightProduct(b)).row2 == Mul(RightProduct(b), LeftProduct(a)).row2
    ensures Mul(LeftProduct(a), RightProduct(b)).row3 == Mul(RightProduct(b), LeftProduct(a)).row3
  {}

  lemma ProductsOfIdentity()
    ensures LeftProduct(IdentityQuaternion) == Identity && RightProduct(IdentityQuaternion) == Identity
  {}

  /** `Invert(q)` is a two-sided inverse of every non-zero quaternion. */
  lemma InvertIsInverse(q: Quaternion)
    requires LengthSquared(q) != 0.0
    ensures QMul(Invert(q), q) == IdentityQuaternion && QMul(q, Invert(q)) == IdentityQuaternion
  {
    var n := LengthSquared(q);
    var k := 1.0 / n;
    assert n * k == 1.0;
    var i := Invert(q);
    assert i == Quaternion(-q.x * k, -q.y * k, -q.z * k, q.w * k);
    assert i.w * q.w - i.x * q.x - i.y * q.y - i.z * q.z == k * n;
    assert q.w * i.w - q.x * i.x - q.y * i.y - q.z * i.z == k * n;
  }

  /** Inverting twice gives back the quaternion, zero or not. */
  lemma InvertInvolutive(q: Quaternion)
    ensures LengthSquared(q) != 0.0 ==> LengthSquared(Invert(q)) != 0.0
    ensures Invert(Invert(q)) == q
  {
    var n := LengthSquared(q);
    if n != 0.0 {
      var k := 1.0 / n;
      assert n * k == 1.0;
      var i := Invert(q);
      assert i == Quaternion(-q.x * k, -q.y * k, -q.z * k, q.w * k);
      assert LengthSquared(i) == k * k * n;
      assert LengthSquared(i) == k;
      assert Invert(i) == Quaternion(-i.x / k, -i.y / k, -i.z / k, i.w / k);
      assert -i.x / k == q.x;
      assert -i.y / k == q.y;
      assert -i.z / k == q.z;
      assert i.w / k == q.w;
    }
  }

  lemma InvertIdentity()
    ensures Invert(IdentityQuaternion) == IdentityQuaternion
  {}

  /** The identity quaternion gives the identity matrix. */
  lemma RotationIdentity()
    ensures CreateFromQuaternion(IdentityQuaternion) == Identity
  {
    InvertIdentity();
    ProductsOfIdentity();
    IdentityUnit(Identity);
  }

  /** A quaternion of squared length zero gives a matrix without inverse. */
  lemma ZeroRotationSingular(q: Quaternion)
    requires LengthSquared(q) == 0.0
    ensures CreateFromQuaternion(q) == ZeroMatrix
    ensures forall m: Matrix4 :: Mul(CreateFromQuaternion(q), m) != Identity
  {
    forall m: Matrix4 ensures Mul(ZeroMatrix, m) != Identity {
      ZeroAbsorbs(m);
    }
  }

  /** `L(a) R(b) L(c) R(d) == L(c a) R(b d)`, regrouping a product of four factors. */
  lemma Regroup(a: Quaternion, b: Quaternion, c: Quaternion, d: Quaternion)
    ensures Mul(Mul(LeftProduct(a), RightProduct(b)), Mul(LeftProduct(c), RightProduct(d)))
         == Mul(LeftProduct(QMul(c, a)), RightProduct(QMul(b, d)))
  {
    var la, rb, lc, rd := LeftProduct(a), RightProduct(b), LeftProduct(c), RightProduct(d);
    calc {
      Mul(Mul(la, rb), Mul(lc, rd));
      { Associative(la, rb, Mul(lc, rd)); }
      Mul(la, Mul(rb, Mul(lc, rd)));
      { Associative(rb, lc, rd); }
      Mul(la, Mul(Mul(rb, lc), rd));
      { ProductsCommute(c, b); }
      Mul(la, Mul(Mul(lc, rb), rd));
      { Associative(lc, rb, rd); }
      Mul(la, Mul(lc, Mul(rb, rd)));
      { Associative(la, lc, Mul(rb, rd)); }
      Mul(Mul(la, lc), Mul(rb, rd));
      { LeftProductMul(a, c); RightProductMul(b, d); }
      Mul(LeftProduct(QMul(c, a)), RightProduct(QMul(b, d)));
    }
  }

  /**
   * The rotation of `Invert(q)` undoes the rotation of `q`, on both sides,
   * for every non-zero quaternion.
   */
  lemma RotationInverse(q: Quaternion)
    requires LengthSquared(q) != 0.0
    ensures MutualInverses(CreateFromQuaternion(Invert(q)), CreateFromQuaternion(q))
  {
    var i := Invert(q);
    InvertInvolutive(q);
    InvertIsInverse(q);
    ProductsOfIdentity();
    IdentityUnit(Identity);
    // R(i) R(q) = L(i) R(q) L(q) R(i) = L(q i) R(q i)
    Regroup(i, q, q, i);
    // R(q) R(i) = L(q) R(i) L(i) R(q) = L(i q) R(i q)
    Regroup(q, i, i, q);
  }
}
