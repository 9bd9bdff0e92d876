/**
 Vector4: the homogeneous four-component vector. Its storage is the fixed
 array vec_[4], modelled as a sequence of length four; reading or writing
 an index outside 0..3 is undefined in the source and excluded here.
 */
module Vec4 {
  import Vec3

  type Vector4 = s: seq<real> | |s| == 4 witness [0.0, 0.0, 0.0, 0.0]

  /** `Vector4()`: every constructor argument left at its default 0. */
  const Default: Vector4 := [0.0, 0.0, 0.0, 0.0]

  /** `Vector4(first, second, third, fourth)`. */
  function Make(first: real, second: real, third: real, fourth: real): (r: Vector4)
    ensures r[0] == first && r[1] == second && r[2] == third && r[3] == fourth
  {
    [first, second, third, fourth]
  }

  /** `Vector4(const Vector3&)`: the vector's three components followed by
      a homogeneous coordinate of 1, so the result stands for a point. */
  function Lift(v: Vec3.Vector3): (r: Vector4)
    ensures forall i :: 0 <= i < 3 ==> r[i] == Vec3.At(v, i)
    ensures r[3] == 1.0
  {
    [v.x, v.y, v.z, 1.0]
  }

  /** `operator*(const Vector4)`: the four-term inner product, which is the
      running sum `PartialDot` taken over all four indices. */
  function Dot(a: Vector4, b: Vector4): (r: real)
    ensures r == PartialDot(a, b, 4)
  {
    assert PartialDot(a, b, 1) == a[0] * b[0];
    assert PartialDot(a, b, 3) == a[0] * b[0] + a[1] * b[1] + a[2] * b[2];
    a[0] * b[0] + a[1] * b[1] + a[2] * b[2] + a[3] * b[3]
  }

  /** The sum of the first n products a[k] * b[k]. */
  function PartialDot(a: Vector4, b: Vector4, n: nat): real
    requires n <= 4
  {
    if n == 0 then 0.0 else PartialDot(a, b, n - 1) + a[n - 1] * b[n - 1]
  }

  /** `operator*(const Vector4)` as the source runs it: an accumulator
      starting at 0 takes one product per index, in index order. */
  method InnerProduct(a: Vector4, b: Vector4) returns (output: real)
    ensures output == Dot(a, b)
  {
    output := 0.0;
    var i := 0;
    while i < 4
      invariant 0 <= i <= 4
      invariant output == PartialDot(a, b, i)
    {
      output := output + a[i] * b[i];
      i := i + 1;
    }
  }

  /** `operator==`: exact comparison of all four entries, which is identity
      of the two values. */
  function Eq(a: Vector4, b: Vector4): (r: bool)
    ensures r <==> a == b
  {
    a[0] == b[0] && a[1] == b[1] && a[2] == b[2] && a[3] == b[3]
  }

  lemma DotSymmetric(a: Vector4, b: Vector4)
    ensures Dot(a, b) == Dot(b, a)
  {
  }

  /** Taking the first three entries of a lifted vector back through the
      initializer-list constructor gives the original vector. */
  lemma LiftDropRoundTrip(v: Vec3.Vector3)
    ensures Vec3.FromList([Lift(v)[0], Lift(v)[1], Lift(v)[2]]) == v
  {
  }
}
