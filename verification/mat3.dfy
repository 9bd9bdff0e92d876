/**
 Matrix3: a 3x3 matrix stored as the row array rows_[3] of Vector3,
 modelled as a sequence of three rows. Row indices outside 0..2 are
 undefined in the source and excluded here; column indices go through
 Vector3's `operator[]` and so fall through to z like it does.
 */
module Mat3 {
  import Vec3

  type Matrix3 = s: seq<Vec3.Vector3> | |s| == 3
    witness [Vec3.Vector3(0.0, 0.0, 0.0), Vec3.Vector3(0.0, 0.0, 0.0), Vec3.Vector3(0.0, 0.0, 0.0)]

  /** `Matrix3()`: the three rows are default (zero) vectors. */
  const Default: Matrix3 := [Vec3.Origin, Vec3.Origin, Vec3.Origin]

  /** `Matrix3(first, second, third)`: the rows in order. */
  function FromRows(first: Vec3.Vector3, second: Vec3.Vector3, third: Vec3.Vector3): (r: Matrix3)
    ensures Row(r, 0) == first && Row(r, 1) == second && Row(r, 2) == third
  {
    [first, second, third]
  }

  /** `row(index)` and `operator[](row_n)`, both overloads. */
  function Row(m: Matrix3, index: int): Vec3.Vector3
    requires 0 <= index < 3
  {
    m[index]
  }

  /** `col(index)`: a fresh vector of each row read at `index` through
      Vector3's `operator[]`, so column i of the result is row i's entry. */
  function Col(m: Matrix3, index: int): (r: Vec3.Vector3)
    ensures forall i :: 0 <= i < 3 ==> Vec3.At(r, i) == Vec3.At(Row(m, i), index)
  {
    Vec3.Vector3(Vec3.At(m[0], index), Vec3.At(m[1], index), Vec3.At(m[2], index))
  }

  /** Every column index other than 0 and 1 reads the last column. */
  lemma ColFallsThrough(m: Matrix3, index: int)
    requires index != 0 && index != 1
    ensures Col(m, index) == Col(m, 2)
  {
  }

  lemma ColIsTransposedRow(m: Matrix3, i: int, j: int)
    requires 0 <= i < 3 && 0 <= j < 3
    ensures Vec3.At(Col(m, j), i) == Vec3.At(Row(m, i), j)
  {
  }

  /** What an assignment `target = rhs` leaves behind: the assigned-to
      object and the value the operator returns. */
  datatype Assignment = Assignment(target: Matrix3, returned: Matrix3)

  /** The user-declared `operator=` (both the lvalue and rvalue overloads):
      it returns a copy made by the copy constructor and never writes to the
      target. The copy constructor is declared without a definition in the
      source, so it is the parameter `copy`. */
  function Assign(target: Matrix3, rhs: Matrix3, copy: Matrix3 -> Matrix3): (r: Assignment)
    ensures r.target == target
  {
    Assignment(target, copy(rhs))
  }

  /** An assignment between two different matrices leaves the target
      different from the source. */
  lemma AssignLeavesTargetStale(target: Matrix3, rhs: Matrix3, copy: Matrix3 -> Matrix3)
    requires target != rhs
    ensures Assign(target, rhs, copy).target != rhs
  {
  }

  /** A concrete instance: assigning a unit-diagonal matrix to a default one. */
  lemma AssignCounterexample(copy: Matrix3 -> Matrix3)
    ensures Assign(Default, FromRows(Vec3.UnitX, Vec3.UnitY, Vec3.UnitZ), copy).target != FromRows(Vec3.UnitX, Vec3.UnitY, Vec3.UnitZ)
  {
    assert Default[0].x == 0.0;
  }

  /** Copy assignment as evidently intended: the target takes the value of
      the source and a reference to the target is returned. */
  function AssignIntended(target: Matrix3, rhs: Matrix3): (r: Assignment)
    ensures r.target == rhs && r.returned == r.target
  {
    Assignment(rhs, rhs)
  }
}
