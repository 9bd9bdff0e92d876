# cppcourse geometry kernel in Dafny

This project models the geometry kernel of the `cppcourse` namespace: the
three-component vector `Vector3`, the 3x3 matrix `Matrix3`, the homogeneous
`Vector4` and 4x4 `Matrix4`, and the `Isometry` transform built on them
(a cached homogeneous matrix, a 4x4 rotation and a translation). Every
operation is a deterministic function of a few doubles; the model uses
exact `real`s, so the source's exact `==` is Dafny equality.

One module per class:

- `Vec3` (`vec3.dfy`): `Vector3` and everything `course/src/isometry.cc` defines for it.
- `Mat3` (`mat3.dfy`): `Matrix3` rows, columns and its user-declared `operator=`.
- `Vec4` (`vec4.dfy`): `Vector4`, its lifting from `Vector3` and its inner product.
- `Mat4` (`mat4.dfy`): `Matrix4` rows, columns, equality and matrix-vector product.
- `Iso` (`isometry.dfy`): `Mat4FromMat3`, `Mat3FromMat4` and `Isometry`.

`Vector3` and `Isometry` are datatypes with the source's fields. The raw
arrays `vec_[4]`, `rows_[3]` and `rows_[4]` are sequences constrained to
their fixed length. All five C++ types are value types, so a write into a
local copy or through a non-const `operator[]` is modelled by rebinding the
local to the updated value. Constructors that assign each field once are
modelled as the value they build. The code that works step by step is
modelled as methods that follow the source's statements and loops, each
proved equal to a function that the lemmas use:

- the `Vector4` inner-product loop;
- the `Matrix4 * Vector4` loop;
- the nested loops of `Mat4FromMat3` and `Mat3FromMat4`;
- `cross` filling a local;
- the initializer-list constructor stepping an iterator;
- the `Isometry(trans, rot)` constructor.

The constants are modelled as values: `Vec3.Origin` is `Vector3()`;
`Vec3.UnitX`, `UnitY`, `UnitZ` and `Zero` are `kUnitX`, `kUnitY`, `kUnitZ`
and `kZero`, built from lists as in `course/src/isometry.cc`; and
`Vec4.Default`, `Mat3.Default` and `Mat4.Default` are the default-constructed
`Vector4()`, `Matrix3()` and `Matrix4()`, all entries zero.

Some members are declared in `isometry.h` without a definition anywhere in
the modelled files, yet the modelled code calls them: `Matrix4::kIdentity`,
`Matrix4 * Matrix4`, `Isometry::FromTranslation` and the `Matrix3` copy
constructor. They are parameters: the first three are the record
`Iso.Declared`, the last is the `copy` argument of `Mat3.Assign`. Every fact
proved about `Isometry` therefore holds whatever those members compute.

Where the code departs from textbook rigid-transform semantics, the model
follows the code:

- `Isometry` composition adds the two translations without applying the left rotation.
- `inverse()` negates the translation only and keeps no rotation.
- `Vector3` indexing sends every index other than 0 and 1 to `z`.
- The `Vector3` initializer-list constructor reads the first three elements of any list of at least three elements rather than rejecting other lengths.

## Model

| member | source | states |
|---|---|---|
| `Vec3.FromList` | course/src/isometry.cc:42-47 | the list's elements 0, 1, 2 become components 0, 1, 2 (x, y, z) |
| `Vec3.ConstructFromList` | course/src/isometry.cc:42-47 | stepping the iterator and assigning x, y, z in turn builds exactly `FromList(rhs)` |
| `Vec3.ListTailIgnored` | course/src/isometry.cc:42-47 | elements after the third never affect the vector built |
| `Vec3.At` | course/src/isometry.cc:59-83 | reading index k through either `operator[]` yields the field `Slot(k)` selects (x for 0, y for 1, z otherwise), the same field a write through the non-const overload changes; property in `AtFallsThrough` |
| `Vec3.AtFallsThrough` | course/src/isometry.cc:59-83 | index 0 reads x, index 1 reads y, every other index (negative or above 2) reads z |
| `Vec3.WriteAt` | course/src/isometry.cc:59-70 | writing through the non-const `operator[](k)` makes index k read back the value and leaves the two fields k does not select unchanged |
| `Vec3.Add` | course/src/isometry.cc:10-12 | every index of `a + b` reads the sum of a's and b's entries there; round trip in `AddSubRoundTrip` |
| `Vec3.Sub` | course/src/isometry.cc:26-28 | every index of `a - b` reads the difference of the entries; round trip in `AddSubRoundTrip` |
| `Vec3.Mul` | course/src/isometry.cc:30-32 | every index of `a * b` reads the product of the entries; round trip in `MulDivRoundTrip` |
| `Vec3.Div` | course/src/isometry.cc:22-24 | every index of `a / b` times b's entry gives back a's entry, for non-zero divisors; round trip in `MulDivRoundTrip` |
| `Vec3.Scale` | course/src/isometry.cc:34-36 | every index of `v * s` reads v's entry times s |
| `Vec3.ScaleLeft` | course/include/isometry.h:45-47 | every index of `s * v` reads s times v's entry; agreement with `v * s` in `ScalarSidesAgree` |
| `Vec3.Dot` | course/src/isometry.cc:50-52 | `a.dot(b)` is the sum over indices 0..2 of a[i] * b[i]; properties in `DotSymmetric` and `DotSelfNonNegative` |
| `Vec3.Cross` | course/src/isometry.cc:14-20 | component i of `a.cross(b)` is a[i+1]b[i+2] - a[i+2]b[i+1] (indices mod 3), and the result is orthogonal to both a and b |
| `Vec3.ComputeCross` | course/src/isometry.cc:14-20 | filling the default local field by field yields the cross product |
| `Vec3.CrossAntiCommutative` | course/src/isometry.cc:14-36 | `a.cross(b)` equals `b.cross(a) * -1` |
| `Vec3.CrossRightHanded` | course/src/isometry.cc:5-20 | kUnitX x kUnitY = kUnitZ, kUnitY x kUnitZ = kUnitX, kUnitZ x kUnitX = kUnitY |
| `Vec3.AddSubRoundTrip` | course/src/isometry.cc:10-28 | `(a + b) - b == a` |
| `Vec3.MulDivRoundTrip` | course/src/isometry.cc:22-32 | `(a * b) / b == a` when every component of b is non-zero |
| `Vec3.ScalarSidesAgree` | course/include/isometry.h:45-47 | `s * v` equals `v * s`, and scales every index by s |
| `Vec3.DotSymmetric` | course/src/isometry.cc:50-52 | `a.dot(b) == b.dot(a)` |
| `Vec3.DotSelfNonNegative` | course/src/isometry.cc:50-52 | `v.dot(v) >= 0` |
| `Vec3.Eq` | course/src/isometry.cc:38-40 | componentwise `==` holds exactly when the two vectors are the same value |
| `Vec3.NotEq` | course/include/isometry.h:20 | `!=` holds exactly when the vectors differ |
| `Vec3.EqList` | course/src/isometry.cc:54-57 | `v == list` holds exactly when entries 0..2 of v equal the list's first three elements; property in `EqListIff` |
| `Vec3.EqListIff` | course/src/isometry.cc:54-57 | `v == {a, b, c}` holds iff `v == Vector3(a, b, c)` |
| `Vec4.Make` | course/include/isometry.h:121-127 | the four arguments become entries 0..3 in order |
| `Vec4.Lift` | course/include/isometry.h:115-120 | the lifted vector carries x, y, z at indices 0..2 and 1 at index 3 |
| `Vec4.LiftDropRoundTrip` | course/include/isometry.h:115-120 | reading entries 0..2 of a lifted vector back into a `Vector3` recovers it |
| `Vec4.Dot` | course/include/isometry.h:129-135 | the four-term inner product equals the running sum `PartialDot` over all four indices; symmetry in `Vec4.DotSymmetric` |
| `Vec4.InnerProduct` | course/include/isometry.h:129-135 | the accumulating loop returns the four-term inner product |
| `Vec4.DotSymmetric` | course/include/isometry.h:129-135 | the inner product is symmetric |
| `Vec4.Eq` | course/include/isometry.h:136-139 | four-way exact comparison holds exactly when the vectors are the same value |
| `Mat3.FromRows` | course/include/isometry.h:61-65 | the three arguments become rows 0..2 in order, as `row()` reads them |
| `Mat3.Row` | course/include/isometry.h:81-85 | definition: row `index` of the stored rows, for 0 <= index < 3; transposition in `Mat3.ColIsTransposedRow` |
| `Mat3.Col` | course/include/isometry.h:86-88 | entry i of `col(j)` is entry j of `row(i)`, for any j |
| `Mat3.ColIsTransposedRow` | course/include/isometry.h:84-88 | `col(j)[i] == row(i)[j]` for i, j in 0..2 |
| `Mat3.ColFallsThrough` | course/include/isometry.h:86-88 | every column index other than 0 and 1 yields column 2 |
| `Mat3.Assign` | course/include/isometry.h:79-80 | `operator=` leaves its target unchanged (it returns the copy) |
| `Mat3.AssignLeavesTargetStale` | course/include/isometry.h:79-80 | after `m = n` with m different from n, m still differs from n |
| `Mat3.AssignCounterexample` | course/include/isometry.h:79-80 | assigning the unit-diagonal matrix to a default matrix leaves it different from the unit-diagonal matrix |
| `Mat3.AssignIntended` | course/include/isometry.h:79-80 | intended copy assignment: the target becomes rhs and is what is returned |
| `Mat4.FromRows` | course/include/isometry.h:168-174 | the four arguments become rows 0..3 in order, as `row()` reads them |
| `Mat4.Row` | course/include/isometry.h:176-179 | definition: row `index` of the stored rows, for 0 <= index < 4; transposition in `Mat4.ColIsTransposedRow` |
| `Mat4.Col` | course/include/isometry.h:185-188 | entry i of `col(j)` is entry j of `row(i)` |
| `Mat4.ColIsTransposedRow` | course/include/isometry.h:176-188 | `col(j)[i] == row(i)[j]` for i, j in 0..3 |
| `Mat4.Eq` | course/include/isometry.h:180-183 | row-wise `==` holds exactly when the matrices are the same value |
| `Mat4.Apply` | course/include/isometry.h:189-195 | entry i of `m * w` is the sum over k of row(i)[k] * w[k] |
| `Mat4.MulVec` | course/include/isometry.h:189-195 | the loop filling `output[i]` with `rows_[i] * rhs` computes `m * w` |
| `Iso.Embedded` | course/include/isometry.h:222-230 | entry [i][j] is mat3[i][j] for i, j < 3 and the identity's entry everywhere else |
| `Iso.Mat4FromMat3` | course/include/isometry.h:222-230 | the nested loops over a copy of the identity compute the embedding |
| `Iso.EmbedKeepsIdentityBorder` | course/include/isometry.h:222-230 | row 3 and column 3 of the embedding are those of `Matrix4::kIdentity` |
| `Iso.Projected` | course/include/isometry.h:233-241 | entry [i][j] of the projection is entry [i][j] of the 4x4 matrix, for i, j < 3 |
| `Iso.Mat3FromMat4` | course/include/isometry.h:233-241 | the nested loops over a default matrix compute the projection |
| `Iso.ProjectEmbedRoundTrip` | course/include/isometry.h:222-241 | `Mat3FromMat4(Mat4FromMat3(m)) == m`, whatever `kIdentity` holds |
| `Iso.Default` | course/include/isometry.h:211-215 | `Isometry()` holds `kIdentity` as cached matrix and rotation, and the zero translation |
| `Iso.Make` | course/include/isometry.h:216-220 | `Isometry(t, R)` has `rotation()` exactly R, the translation of `FromTranslation(t)`, the embedded R as stored rotation and `FromTranslation(t)`'s matrix times it as cached matrix, whatever the undefined members compute |
| `Iso.Construct` | course/include/isometry.h:216-220 | the step-by-step constructor yields an isometry whose `rotation()` is exactly rot and whose translation is that of `FromTranslation(trans)` |
| `Iso.Rotation` | course/include/isometry.h:259 | `rotation()` holds entry [i][j] of the stored 4x4 rotation at [i][j], for i, j < 3 |
| `Iso.Translation` | course/include/isometry.h:260 | definition: the stored translation; used by the contracts of `Make`, `Mul` and `Compose` |
| `Iso.GetIso` | course/include/isometry.h:264 | definition: the cached matrix, the one `Transform` and `Eq` read |
| `Iso.Mul` | course/include/isometry.h:246-249 | the product is `Isometry(t1 + t2, Mat3FromMat4(R1 * R2))`, field by field: its translation is that of `FromTranslation(t1 + t2)`, with no rotation applied; its `rotation()` is the 3x3 block of the rotations' product; its stored rotation is that block embedded back into `kIdentity`; its cached matrix is `FromTranslation(t1 + t2)`'s times that stored rotation |
| `Iso.Inverse` | course/include/isometry.h:250-253 | `inverse()` is `FromTranslation` of the additive inverse 0 - t of the translation; independence of the rotation in `InverseReadsOnlyTranslation` |
| `Iso.InverseReadsOnlyTranslation` | course/include/isometry.h:250-253 | isometries with equal translations have equal inverses, whatever their rotations |
| `Iso.Compose` | course/include/isometry.h:246-254 | `compose(r)` has every field `*this * r` has: translation from `FromTranslation(t1 + t2)`, `rotation()` the 3x3 block of the rotations' product, that block embedded as stored rotation, and `FromTranslation(t1 + t2)`'s matrix times it as cached matrix |
| `Iso.ComposeTranslationIgnoresRotations` | course/include/isometry.h:246-249 | the composite's translation does not depend on either rotation |
| `Iso.Transform` | course/include/isometry.h:242-245 | component i of the transformed point is M[i][0]x + M[i][1]y + M[i][2]z + M[i][3] for the cached matrix M |
| `Iso.Eq` | course/include/isometry.h:256-258 | `==` holds exactly when the cached matrices are equal |
| `Iso.EqIgnoresRotationAndTranslation` | course/include/isometry.h:256-258 | replacing the rotation and translation never changes the `==` verdict |
| `Iso.EqualIsometriesTransformAlike` | course/include/isometry.h:242-258 | isometries that compare `==` transform every point identically |

## Left out

- `Vector3::norm` is not modelled: it takes a floating-point square root, which has no exact model over reals.
- `RotateAround` and `FromEulerAngles` are declared without a definition. They would build rotations from trigonometric functions, so they are not modelled.
- `FromTranslation`, `Matrix4::kIdentity`, `Matrix4 * Matrix4` and the `Matrix3` copy constructor are declared without a definition. They are parameters, and nothing is assumed about what they compute.
- Several members are declared without a definition, and nothing modelled calls them, so they are not modelled:
  - `Matrix3` `+ - * /`, `+=`, `-=`, scalar `*`, `operator==` and `det`;
  - the initializer-list constructors of `Matrix3`, `Vector4` and `Matrix4`;
  - `Matrix4(const Matrix3&)`;
  - the constants of `Matrix3`, `Vector4` and `Matrix4` (`kIdentity` is a parameter).
- The `Matrix3` move constructor is not modelled separately: for a value type it only copies the three rows.
- The `operator<<` printers and `std::setprecision` are stream output and are not modelled.
- Doubles are exact reals: rounding, infinities and NaN are not modelled. `Vec3.Div` requires non-zero divisor components, where the source would produce an infinity or NaN.
- Indexing `vec_` or `rows_` outside their bounds is undefined behaviour in the source. It is excluded by `requires` on `Mat3.Row`, `Mat4.Row`, `Mat4.Col` and sequence indexing.
- A list shorter than three elements makes the `Vector3` initializer-list constructor read past its end. It is excluded by `requires`.
- Non-const `operator[]`, `row()`, `x()`, `y()` and `z()` return references. A write through one is modelled as an immediate update of the value. A reference held and written later, through an alias, is not modelled.

## Findings

| source | as written | input that shows it | evidently intended | confidence | as-written member | corrected member |
|---|---|---|---|---|---|---|
| course/include/isometry.h:79-80 | `operator=` returns a new `Matrix3(rhs)` by value and never writes to `*this` | `m = n` with m the default zero matrix and n the unit-diagonal matrix leaves m zero | copy rhs into `*this` and return `*this` | high; not executed | `Mat3.AssignCounterexample` | `Mat3.AssignIntended` |
