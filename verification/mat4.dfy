/**
 Matrix4: a 4x4 matrix stored as the row array rows_[4] of Vector4,
 modelled as a sequence of four rows. Row indices outside 0..3 are
 undefined in the source and excluded here.
 */
module Mat4 {
  import Vec4

  type Matrix4 = s: seq<Vec4.Vector4> | |s| == 4
    witness [Vec4.Default, Vec4.Default, Vec4.Default, Vec4.Default]

  /** `Matrix4()`: four default (zero) rows. */
  const Default: Matrix4 := [Vec4.Default, Vec4.Default, Vec4.Default, Vec4.Default]

  /** `Matrix4(first, second, third, fourth)`: the rows in order. */
  function FromRows(first: Vec4.Vector4, second: Vec4.Vector4, third: Vec4.Vector4, fourth: Vec4.Vector4): (r: Matrix4)
    ensures Row(r, 0) == first && Row(r, 1) == second && Row(r, 2) == third && Row(r, 3) == fourth
  {
    [first, second, third, fourth]
  }

  /** `row(index)` and `operator[](index)`, both overloads. */
  function Row(m: Matrix4, index: int): Vec4.Vector4
    requires 0 <= index < 4
  {
    m[index]
  }

  /** `col(index)`: a fresh vector of the index-th entry of every row. */
  function Col(m: Matrix4, index: int): (r: Vec4.Vector4)
    requires 0 <= index < 4
    ensures forall i :: 0 <= i < 4 ==> r[i] == Row(m, i)[index]
  {
    Vec4.Make(m[0][index], m[1][index], m[2][index], m[3][index])
  }

  /** `operator==`: all four rows equal, which is identity of the values. */
  function Eq(a: Matrix4, b: Matrix4): (r: bool)
    ensures r <==> a == b
  {
    Vec4.Eq(a[0], b[0]) && Vec4.Eq(a[1], b[1]) && Vec4.Eq(a[2], b[2]) && Vec4.Eq(a[3], b[3])
  }

  /** `operator*(const Vector4&)`: entry i is row i's inner product with
      the vector, the four-term sum of row(i)[k] * w[k]. */
  function Apply(m: Matrix4, w: Vec4.Vector4): (r: Vec4.Vector4)
    ensures forall i :: 0 <= i < 4 ==>
      r[i] == Row(m, i)[0] * w[0] + Row(m, i)[1] * w[1] + Row(m, i)[2] * w[2] + Row(m, i)[3] * w[3]
  {
    [Vec4.Dot(m[0], w), Vec4.Dot(m[1], w), Vec4.Dot(m[2], w), Vec4.Dot(m[3], w)]
  }

  /** `operator*(const Vector4&)` as the source runs it: a default output
      vector whose entries are filled row by row. */
  method MulVec(m: Matrix4, w: Vec4.Vector4) returns (output: Vec4.Vector4)
    ensures output == Apply(m, w)
  {
    output := Vec4.Default;
    var i := 0;
    while i < 4
      invariant 0 <= i <= 4
      invariant forall k :: 0 <= k < i ==> output[k] == Vec4.Dot(m[k], w)
    {
      var entry := Vec4.InnerProduct(m[i], w);
      output := output[i := entry];
      i := i + 1;
    }
  }

  /** Column j read at row i is row i read at column j. */
  lemma ColIsTransposedRow(m: Matrix4, i: int, j: int)
    requires 0 <= i < 4 && 0 <= j < 4
    ensures Col(m, j)[i] == Row(m, i)[j]
  {
  }
}
