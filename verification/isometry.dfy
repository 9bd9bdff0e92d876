/**
 Isometry: a transform held as a cached homogeneous matrix, a 4x4 rotation
 and a translation, with the 3x3 <-> 4x4 embedding and projection it is
 built from.

 Several members the class relies on are declared in the header but
 defined nowhere in the modelled files: the constant Matrix4::kIdentity,
 the product Matrix4 * Matrix4 and the factory Isometry::FromTranslation.
 They are gathered in `Declared` and passed as a parameter, so every fact
 proved here holds whatever they compute.
 */
module Iso {
  import Vec3
  import Vec4
  import Mat3
  import Mat4

  datatype Isometry = Isometry(
    isometryMatrix: Mat4.Matrix4,  // isometry_matrix_
    rotation4: Mat4.Matrix4,       // rotation_
    translation: Vec3.Vector3)     // translation_

  /** The members declared without a definition that the modelled code calls. */
  datatype Declared = Declared(
    identity4: Mat4.Matrix4,                                   // Matrix4::kIdentity
    mul4: (Mat4.Matrix4, Mat4.Matrix4) -> Mat4.Matrix4,        // Matrix4::operator*(const Matrix4&)
    fromTranslation: Vec3.Vector3 -> Isometry)                 // Isometry::FromTranslation

  /** `Mat4FromMat3`, as a value: the 3x3 block comes from the matrix and
      every other entry, row 3 and column 3, from Matrix4::kIdentity. */
  function Embedded(mat3: Mat3.Matrix3, identity4: Mat4.Matrix4): (r: Mat4.Matrix4)
    ensures forall i, j :: 0 <= i < 4 && 0 <= j < 4 ==>
      r[i][j] == if i < 3 && j < 3 then Vec3.At(Mat3.Row(mat3, i), j) else identity4[i][j]
  {
    [ [mat3[0].x, mat3[0].y, mat3[0].z, identity4[0][3]],
      [mat3[1].x, mat3[1].y, mat3[1].z, identity4[1][3]],
      [mat3[2].x, mat3[2].y, mat3[2].z, identity4[2][3]],
      identity4[3] ]
  }

  /** `Mat4FromMat3` as the source runs it: a copy of the identity whose
      3x3 block is overwritten cell by cell in row-major order. */
  method Mat4FromMat3(mat3: Mat3.Matrix3, identity4: Mat4.Matrix4) returns (output: Mat4.Matrix4)
    ensures output == Embedded(mat3, identity4)
  {
    output := identity4;
    var i := 0;
    while i < 3
      invariant 0 <= i <= 3
      invariant forall p, q :: 0 <= p < 4 && 0 <= q < 4 ==>
        output[p][q] == if p < i && q < 3 then Vec3.At(mat3[p], q) else identity4[p][q]
    {
      var j := 0;
      while j < 3
        invariant 0 <= j <= 3
        invariant forall p, q :: 0 <= p < 4 && 0 <= q < 4 ==>
          output[p][q] == if (p < i && q < 3) || (p == i && q < j) then Vec3.At(mat3[p], q) else identity4[p][q]
      {
        output := output[i := output[i][j := Vec3.At(mat3[i], j)]];
        j := j + 1;
      }
      i := i + 1;
    }
    SameEntriesSameMatrix(output, Embedded(mat3, identity4));
  }

  /** Two 4x4 matrices with the same sixteen entries are the same matrix. */
  lemma SameEntriesSameMatrix(a: Mat4.Matrix4, b: Mat4.Matrix4)
    requires forall i, j :: 0 <= i < 4 && 0 <= j < 4 ==> a[i][j] == b[i][j]
    ensures a == b
  {
    forall i | 0 <= i < 4
      ensures a[i] == b[i]
    {
      assert a[i][0] == b[i][0] && a[i][1] == b[i][1] && a[i][2] == b[i][2] && a[i][3] == b[i][3];
    }
  }

  /** `Mat3FromMat4`, as a value: the upper-left 3x3 block. */
  function Projected(mat4: Mat4.Matrix4): (r: Mat3.Matrix3)
    ensures forall i, j :: 0 <= i < 3 && 0 <= j < 3 ==> Vec3.At(Mat3.Row(r, i), j) == mat4[i][j]
  {
    [ Vec3.Vector3(mat4[0][0], mat4[0][1], mat4[0][2]),
      Vec3.Vector3(mat4[1][0], mat4[1][1], mat4[1][2]),
      Vec3.Vector3(mat4[2][0], mat4[2][1], mat4[2][2]) ]
  }

  /** `Mat3FromMat4` as the source runs it: a default (zero) matrix whose
      nine cells are written one by one through the row reference and
      Vector3's non-const `operator[]`. */
  method Mat3FromMat4(mat4: Mat4.Matrix4) returns (output: Mat3.Matrix3)
    ensures output == Projected(mat4)
  {
    output := Mat3.Default;
    var i := 0;
    while i < 3
      invariant 0 <= i <= 3
      invariant forall p, q :: 0 <= p < 3 && 0 <= q < 3 ==>
        Vec3.At(output[p], q) == if p < i then mat4[p][q] else 0.0
    {
      var j := 0;
      while j < 3
        invariant 0 <= j <= 3
        invariant forall p, q :: 0 <= p < 3 && 0 <= q < 3 ==>
          Vec3.At(output[p], q) == if p < i || (p == i && q < j) then mat4[p][q] else 0.0
      {
        var row := Vec3.WriteAt(output[i], j, mat4[i][j]);
        output := output[i := row];
        j := j + 1;
      }
      i := i + 1;
    }
    forall p | 0 <= p < 3
      ensures output[p] == Projected(mat4)[p]
    {
      assert Vec3.At(output[p], 0) == mat4[p][0];
      assert Vec3.At(output[p], 1) == mat4[p][1];
      assert Vec3.At(output[p], 2) == mat4[p][2];
    }
  }

  /** Projecting an embedded matrix gives it back, whatever the identity is. */
  lemma ProjectEmbedRoundTrip(m: Mat3.Matrix3, identity4: Mat4.Matrix4)
    ensures Projected(Embedded(m, identity4)) == m
  {
    var r := Projected(Embedded(m, identity4));
    forall i | 0 <= i < 3
      ensures r[i] == m[i]
    {
      assert r[i] == Vec3.Vector3(m[i].x, m[i].y, m[i].z);
    }
  }

  /** The embedding leaves row 3 and column 3 exactly as in the identity. */
  lemma EmbedKeepsIdentityBorder(m: Mat3.Matrix3, identity4: Mat4.Matrix4)
    ensures Mat4.Row(Embedded(m, identity4), 3) == Mat4.Row(identity4, 3)
    ensures Mat4.Col(Embedded(m, identity4), 3) == Mat4.Col(identity4, 3)
  {
  }

  /** `Isometry()`: identity matrices and the zero translation. */
  function Default(d: Declared): (r: Isometry)
    ensures r.translation == Vec3.Zero
    ensures r.isometryMatrix == r.rotation4 == d.identity4
  {
    Isometry(d.identity4, d.identity4, Vec3.Zero)
  }

  /** `Isometry(trans, rot)`, as a value: everything `FromTranslation(trans)`
      holds, except that the rotation is replaced by the embedded `rot` and
      the cached matrix is multiplied by it. */
  function Make(d: Declared, trans: Vec3.Vector3, rot: Mat3.Matrix3): (r: Isometry)
    ensures Rotation(r) == rot
    ensures Translation(r) == d.fromTranslation(trans).translation
    ensures r.rotation4 == Embedded(rot, d.identity4)
    ensures r.isometryMatrix == d.mul4(d.fromTranslation(trans).isometryMatrix, r.rotation4)
  {
    ProjectEmbedRoundTrip(rot, d.identity4);
    var base := d.fromTranslation(trans);
    var rotation := Embedded(rot, d.identity4);
    Isometry(d.mul4(base.isometryMatrix, rotation), rotation, base.translation)
  }

  /** `Isometry(trans, rot)` as the source runs it: the object is first
      overwritten with `FromTranslation(trans)`, then its rotation and then
      its cached matrix are replaced in turn. */
  method Construct(d: Declared, trans: Vec3.Vector3, rot: Mat3.Matrix3) returns (self: Isometry)
    ensures self == Make(d, trans, rot)
    ensures Rotation(self) == rot
    ensures Translation(self) == d.fromTranslation(trans).translation
  {
    self := d.fromTranslation(trans);
    var rotation := Mat4FromMat3(rot, d.identity4);
    self := self.(rotation4 := rotation);
    self := self.(isometryMatrix := d.mul4(self.isometryMatrix, self.rotation4));
  }

  /** `rotation()`: the 3x3 block of the stored rotation. */
  function Rotation(iso: Isometry): (r: Mat3.Matrix3)
    ensures forall i, j :: 0 <= i < 3 && 0 <= j < 3 ==> Vec3.At(Mat3.Row(r, i), j) == iso.rotation4[i][j]
  {
    Projected(iso.rotation4)
  }

  /** `translation()`. */
  function Translation(iso: Isometry): Vec3.Vector3
  {
    iso.translation
  }

  /** `get_iso()`. */
  function GetIso(iso: Isometry): Mat4.Matrix4
  {
    iso.isometryMatrix
  }

  /** `operator*(const Isometry&)`: a new isometry from the plain sum of the
      two translations and the 3x3 block of the product of the rotations. */
  function Mul(d: Declared, lhs: Isometry, rhs: Isometry): (r: Isometry)
    ensures Translation(r) == d.fromTranslation(Vec3.Add(lhs.translation, rhs.translation)).translation
    ensures Rotation(r) == Projected(d.mul4(lhs.rotation4, rhs.rotation4))
    ensures r.rotation4 == Embedded(Projected(d.mul4(lhs.rotation4, rhs.rotation4)), d.identity4)
    ensures r.isometryMatrix
         == d.mul4(d.fromTranslation(Vec3.Add(lhs.translation, rhs.translation)).isometryMatrix, r.rotation4)
  {
    Make(d, Vec3.Add(lhs.translation, rhs.translation), Projected(d.mul4(lhs.rotation4, rhs.rotation4)))
  }

  /** `compose(rhs)`: `*this * rhs`, so the composite's translation is that
      of `FromTranslation` of the plain sum of the two translations, with no
      rotation applied, and its rotation is the 3x3 block of the product of
      the two rotations. */
  function Compose(d: Declared, lhs: Isometry, rhs: Isometry): (r: Isometry)
    ensures Translation(r) == d.fromTranslation(Vec3.Add(lhs.translation, rhs.translation)).translation
    ensures Rotation(r) == Projected(d.mul4(lhs.rotation4, rhs.rotation4))
    ensures r.rotation4 == Embedded(Projected(d.mul4(lhs.rotation4, rhs.rotation4)), d.identity4)
    ensures r.isometryMatrix
         == d.mul4(d.fromTranslation(Vec3.Add(lhs.translation, rhs.translation)).isometryMatrix, r.rotation4)
  {
    Mul(d, lhs, rhs)
  }

  /** `inverse()`: `FromTranslation` of the negated translation, that is of
      the additive inverse 0 - t; the rotation plays no part. */
  function Inverse(d: Declared, iso: Isometry): (r: Isometry)
    ensures r == d.fromTranslation(Vec3.Sub(Vec3.Zero, iso.translation))
  {
    d.fromTranslation(Vec3.Scale(iso.translation, -1.0))
  }

  /** `operator*(const Vector3&)` and `transform`: the point is lifted with
      homogeneous coordinate 1, multiplied by the cached matrix, and the
      first three entries are read back through the initializer-list
      constructor. Entry i is therefore the affine image
      M[i][0] * x + M[i][1] * y + M[i][2] * z + M[i][3]. */
  function Transform(iso: Isometry, point: Vec3.Vector3): (r: Vec3.Vector3)
    ensures forall i :: 0 <= i < 3 ==>
      Vec3.At(r, i) == iso.isometryMatrix[i][0] * point.x + iso.isometryMatrix[i][1] * point.y
                     + iso.isometryMatrix[i][2] * point.z + iso.isometryMatrix[i][3]
  {
    var output := Mat4.Apply(iso.isometryMatrix, Vec4.Lift(point));
    Vec3.FromList([output[0], output[1], output[2]])
  }

  /** `operator==`: compares the cached matrices only. */
  function Eq(a: Isometry, b: Isometry): (r: bool)
    ensures r <==> a.isometryMatrix == b.isometryMatrix
  {
    Mat4.Eq(a.isometryMatrix, b.isometryMatrix)
  }

  /** `inverse()` reads nothing but the translation. */
  lemma InverseReadsOnlyTranslation(d: Declared, a: Isometry, b: Isometry)
    requires a.translation == b.translation
    ensures Inverse(d, a) == Inverse(d, b)
  {
  }

  /** The composite's translation does not depend on either rotation. */
  lemma ComposeTranslationIgnoresRotations(d: Declared, a: Isometry, b: Isometry, a': Isometry, b': Isometry)
    requires a.translation == a'.translation && b.translation == b'.translation
    ensures Translation(Compose(d, a, b)) == Translation(Compose(d, a', b'))
  {
  }

  /** Equality sees only the cached matrix: replacing the rotation and the
      translation never changes the verdict. */
  lemma EqIgnoresRotationAndTranslation(a: Isometry, rotation4: Mat4.Matrix4, translation: Vec3.Vector3)
    ensures Eq(a, a.(rotation4 := rotation4, translation := translation))
  {
  }

  /** Isometries that compare equal transform every point alike. */
  lemma EqualIsometriesTransformAlike(a: Isometry, b: Isometry, point: Vec3.Vector3)
    requires Eq(a, b)
    ensures Transform(a, point) == Transform(b, point)
  {
  }
}
