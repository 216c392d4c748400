/**
 * `SpaceDrawInfo`: the transform of a 3D node as a matrix together with
 * the inverse matrix that is maintained alongside it.
 */
module SpaceDrawInfos {
  import opened LinearAlgebra
  import opened Options

  /** `Precision.FLOAT_EPSILON`, the value a zero scale component is clamped to. */
  const FloatEpsilon: real := 0.001

  datatype SpaceDrawInfo = SpaceDrawInfo(matrix: Matrix4, matrixInverse: Matrix4)

  /** The constructor: an absent matrix or inverse becomes the identity. */
  function NewSpaceDrawInfo(matrix: Option<Matrix4>, matrixInverse: Option<Matrix4>): (r: SpaceDrawInfo)
    ensures matrix.Some? ==> r.matrix == matrix.value
    ensures matrix.None? ==> r.matrix == Identity
    ensures matrixInverse.Some? ==> r.matrixInverse == matrixInverse.value
    ensures matrixInverse.None? ==> r.matrixInverse == Identity
  {
    SpaceDrawInfo(if matrix.Some? then matrix.value else Identity,
                  if matrixInverse.Some? then matrixInverse.value else Identity)
  }

  /** Matrix and inverse undo each other. */
  predicate Consistent(info: SpaceDrawInfo) {
    MutualInverses(info.matrix, info.matrixInverse)
  }

  /** The info built without arguments is consistent. */
  lemma DefaultConsistent()
    ensures Consistent(NewSpaceDrawInfo(None, None))
  {
    IdentityUnit(Identity);
  }

  /** Equality of two infos compares the matrices and ignores the inverses. */
  function Equals(a: SpaceDrawInfo, b: SpaceDrawInfo): (r: bool)
    ensures r <==> a.matrix == b.matrix
  {
    a.matrix == b.matrix
  }

  /** `Equals` is an equivalence that cannot tell infos apart by their inverse alone. */
  lemma EqualsIgnoresInverse(a: SpaceDrawInfo, inverse: Matrix4)
    ensures Equals(a, a.(matrixInverse := inverse))
    ensures Equals(a, a)
    ensures a.matrixInverse != inverse ==> a != a.(matrixInverse := inverse)
  {}

  /** The scale actually applied: every component that is exactly zero becomes `FloatEpsilon`. */
  function ClampScale(s: Vec3): (r: Vec3)
    ensures NoZeroComponent(r)
    ensures r.x == (if s.x == 0.0 then FloatEpsilon else s.x)
    ensures r.y == (if s.y == 0.0 then FloatEpsilon else s.y)
    ensures r.z == (if s.z == 0.0 then FloatEpsilon else s.z)
  {
    Vec3(if s.x == 0.0 then FloatEpsilon else s.x,
         if s.y == 0.0 then FloatEpsilon else s.y,
         if s.z == 0.0 then FloatEpsilon else s.z)
  }

  /** The forward matrix: `m * T(t) * R(q) * S(clamped s) * T(-o)`. */
  function ComposedMatrix(m: Matrix4, t: Vec3, s: Vec3, q: Quaternion, o: Vec3): Matrix4 {
    Mul(Mul(Mul(Mul(m, CreateTranslation(t)), CreateFromQuaternion(q)), CreateScale(ClampScale(s))),
        CreateTranslation(Neg3(o)))
  }

  /** The inverse: `T(o) * S(1 / clamped s) * R(q^-1) * T(-t) * mi`. */
  function ComposedInverse(mi: Matrix4, t: Vec3, s: Vec3, q: Quaternion, o: Vec3): Matrix4 {
    Mul(CreateTranslation(o),
        Mul(CreateScale(Reciprocal(ClampScale(s))),
            Mul(CreateFromQuaternion(Invert(q)),
                Mul(CreateTranslation(Neg3(t)), mi))))
  }

  /** The info `ApplyTransform` produces: both matrices extended by the four factors. */
  function Transformed(info: SpaceDrawInfo, t: Vec3, s: Vec3, q: Quaternion, o: Vec3): SpaceDrawInfo {
    SpaceDrawInfo(ComposedMatrix(info.matrix, t, s, q, o), ComposedInverse(info.matrixInverse, t, s, q, o))
  }

  /** One step of `ApplyTransform`: the factor `f` goes on the right of the matrix, `g` on the left of the inverse. */
  function Appended(info: SpaceDrawInfo, f: Matrix4, g: Matrix4): SpaceDrawInfo {
    SpaceDrawInfo(Mul(info.matrix, f), Mul(g, info.matrixInverse))
  }

  /** Appending a pair of identity factors changes nothing, which is why a step may be skipped. */
  lemma AppendIdentity(info: SpaceDrawInfo)
    ensures Appended(info, Identity, Identity) == info
  {
    IdentityUnit(info.matrix);
    IdentityUnit(info.matrixInverse);
  }

  /** Appending a factor together with its inverse keeps matrix and inverse consistent. */
  lemma AppendKeepsConsistent(info: SpaceDrawInfo, f: Matrix4, g: Matrix4)
    requires Consistent(info)
    requires MutualInverses(f, g)
    ensures Consistent(Appended(info, f, g))
  {
    ComposeInverses(info.matrix, info.matrixInverse, f, g);
  }

  /** The translation step: skipped for a zero translation, which multiplies by the identity anyway. */
  method TranslateStep(r0: SpaceDrawInfo, translation: Vec3) returns (r: SpaceDrawInfo)
    ensures r == Appended(r0, CreateTranslation(translation), CreateTranslation(Neg3(translation)))
    ensures Consistent(r0) ==> Consistent(r)
  {
    r := r0;
    if translation != Zero3 {
      r := Appended(r, CreateTranslation(translation), CreateTranslation(Neg3(translation)));
    } else {
      TranslationZero();
      assert Neg3(translation) == Zero3;
      AppendIdentity(r);
    }
    if Consistent(r0) {
      TranslationInverse(translation);
      AppendKeepsConsistent(r0, CreateTranslation(translation), CreateTranslation(Neg3(translation)));
    }
  }

  /** The rotation step: skipped for the identity quaternion, whose rotation matrix is the identity. */
  method RotateStep(r0: SpaceDrawInfo, rotation: Quaternion) returns (r: SpaceDrawInfo)
    ensures r == Appended(r0, CreateFromQuaternion(rotation), CreateFromQuaternion(Invert(rotation)))
    ensures Consistent(r0) && LengthSquared(rotation) != 0.0 ==> Consistent(r)
  {
    r := r0;
    if rotation != IdentityQuaternion {
      r := Appended(r, CreateFromQuaternion(rotation), CreateFromQuaternion(Invert(rotation)));
    } else {
      RotationIdentity();
      InvertIdentity();
      AppendIdentity(r);
    }
    if Consistent(r0) && LengthSquared(rotation) != 0.0 {
      RotationInverse(rotation);
      AppendKeepsConsistent(r0, CreateFromQuaternion(rotation), CreateFromQuaternion(Invert(rotation)));
    }
  }

  /**
   * The scale step: skipped for a unit scale; otherwise zero components are
   * clamped to `FloatEpsilon` before the scale and its reciprocal are applied.
   */
  method ScaleStep(r0: SpaceDrawInfo, scale: Vec3) returns (r: SpaceDrawInfo)
    ensures r == Appended(r0, CreateScale(ClampScale(scale)), CreateScale(Reciprocal(ClampScale(scale))))
    ensures Consistent(r0) ==> Consistent(r)
  {
    r := r0;
    if scale != One3 {
      var s := scale;
      if s.x == 0.0 { s := s.(x := FloatEpsilon); }
      if s.y == 0.0 { s := s.(y := FloatEpsilon); }
      if s.z == 0.0 { s := s.(z := FloatEpsilon); }
      assert s == ClampScale(scale);
      r := Appended(r, CreateScale(s), CreateScale(Reciprocal(s)));
    } else {
      assert ClampScale(scale) == One3;
      assert Reciprocal(One3) == One3;
      ScaleOne();
      AppendIdentity(r);
    }
    if Consistent(r0) {
      ScaleInverse(ClampScale(scale));
      AppendKeepsConsistent(r0, CreateScale(ClampScale(scale)), CreateScale(Reciprocal(ClampScale(scale))));
    }
  }

  /** The origin step: moves the origin to the local zero point; skipped for a zero origin. */
  method OriginStep(r0: SpaceDrawInfo, origin: Vec3) returns (r: SpaceDrawInfo)
    ensures r == Appended(r0, CreateTranslation(Neg3(origin)), CreateTranslation(origin))
    ensures Consistent(r0) ==> Consistent(r)
  {
    r := r0;
    if origin != Zero3 {
      r := Appended(r, CreateTranslation(Neg3(origin)), CreateTranslation(origin));
    } else {
      assert Neg3(origin) == Zero3;
      TranslationZero();
      AppendIdentity(r);
    }
    if Consistent(r0) {
      TranslationInverse(origin);
      AppendKeepsConsistent(r0, CreateTranslation(Neg3(origin)), CreateTranslation(origin));
    }
  }

  /**
   * Applies translation, rotation, scale and origin in that order to the
   * matrix (on the right) and their inverses to the inverse (on the left).
   * The result stays consistent whenever the input was and the rotation
   * quaternion is not zero.
   */
  method ApplyTransform(info: SpaceDrawInfo, translation: Vec3, scale: Vec3, rotation: Quaternion, origin: Vec3)
    returns (r: SpaceDrawInfo)
    ensures r == Transformed(info, translation, scale, rotation, origin)
    ensures Consistent(info) && LengthSquared(rotation) != 0.0 ==> Consistent(r)
  {
    r := TranslateStep(info, translation);
    r := RotateStep(r, rotation);
    r := ScaleStep(r, scale);
    r := OriginStep(r, origin);
  }

  /** `Transformed` keeps the two matrices consistent when the rotation quaternion is not zero. */
  lemma TransformedConsistent(info: SpaceDrawInfo, t: Vec3, s: Vec3, q: Quaternion, o: Vec3)
    requires Consistent(info)
    requires LengthSquared(q) != 0.0
    ensures Consistent(Transformed(info, t, s, q, o))
  {
    var c := ClampScale(s);
    TranslationInverse(t);
    var i1 := Appended(info, CreateTranslation(t), CreateTranslation(Neg3(t)));
    AppendKeepsConsistent(info, CreateTranslation(t), CreateTranslation(Neg3(t)));
    RotationInverse(q);
    var i2 := Appended(i1, CreateFromQuaternion(q), CreateFromQuaternion(Invert(q)));
    AppendKeepsConsistent(i1, CreateFromQuaternion(q), CreateFromQuaternion(Invert(q)));
    ScaleInverse(c);
    var i3 := Appended(i2, CreateScale(c), CreateScale(Reciprocal(c)));
    AppendKeepsConsistent(i2, CreateScale(c), CreateScale(Reciprocal(c)));
    TranslationInverse(o);
    AppendKeepsConsistent(i3, CreateTranslation(Neg3(o)), CreateTranslation(o));
  }

  /** A zero rotation quaternion leaves a matrix that no inverse can undo. */
  lemma ZeroRotationLosesInverse(info: SpaceDrawInfo, t: Vec3, s: Vec3, q: Quaternion, o: Vec3, any: Matrix4)
    requires LengthSquared(q) == 0.0
    ensures Mul(Transformed(info, t, s, q, o).matrix, any) != Identity
  {
    ZeroRotationSingular(q);
    var m1 := Mul(info.matrix, CreateTranslation(t));
    ZeroAbsorbs(m1);
    ZeroAbsorbs(CreateScale(ClampScale(s)));
    ZeroAbsorbs(CreateTranslation(Neg3(o)));
    ZeroAbsorbs(any);
  }
}
