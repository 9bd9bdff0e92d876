/**
 Vector3: the three-component vector of the cppcourse geometry kernel.
 Doubles are modelled as exact reals, so `==` on components is exact
 equality, as in the C++ code.
 */
module Vec3 {

  /** A point or direction in 3-space: the fields x_, y_, z_. */
  datatype Vector3 = Vector3(x: real, y: real, z: real)

  /** `Vector3()`: every constructor argument left at its default 0. */
  const Origin := Vector3(0.0, 0.0, 0.0)

  /** The four named constants, each built from a three-element list. */
  const UnitX := FromList([1.0, 0.0, 0.0])
  const UnitY := FromList([0.0, 1.0, 0.0])
  const UnitZ := FromList([0.0, 0.0, 1.0])
  const Zero := FromList([0.0, 0.0, 0.0])

  /** The field that `operator[](index)` selects: 0 for x, 1 for y, and 2
      (that is, z) for every other index, negative or beyond 2. */
  function Slot(index: int): (s: int)
    ensures 0 <= s < 3
    ensures 0 <= index < 3 ==> s == index
  {
    if index == 0 then 0 else if index == 1 then 1 else 2
  }

  /** Reading through either `operator[]` overload. */
  function At(v: Vector3, index: int): (r: real)
    ensures Slot(index) == 0 ==> r == v.x
    ensures Slot(index) == 1 ==> r == v.y
    ensures Slot(index) == 2 ==> r == v.z
  {
    if index == 0 then v.x else if index == 1 then v.y else v.z
  }

  /** Writing `value` through the non-const `operator[](index)`: the
      reference it returns is bound to exactly one field, chosen by the
      same switch as the read. */
  method WriteAt(v: Vector3, index: int, value: real) returns (w: Vector3)
    ensures At(w, index) == value
    ensures forall k :: Slot(k) != Slot(index) ==> At(w, k) == At(v, k)
  {
    if index == 0 {
      w := v.(x := value);
    } else if index == 1 {
      w := v.(y := value);
    } else {
      w := v.(z := value);
    }
  }

  /** The initializer-list constructor, as the value it builds. A list
      shorter than three makes the source read past its end, so it is
      excluded; elements after the third are never read. */
  function FromList(rhs: seq<real>): (v: Vector3)
    requires |rhs| >= 3
    ensures forall k :: 0 <= k < 3 ==> At(v, k) == rhs[k]
  {
    Vector3(rhs[0], rhs[1], rhs[2])
  }

  /** The initializer-list constructor as the source runs it: an iterator
      starts at the list's beginning and each field takes the element under
      it before the iterator steps on. */
  method ConstructFromList(rhs: seq<real>) returns (v: Vector3)
    requires |rhs| >= 3
    ensures v == FromList(rhs)
  {
    var it := 0;
    var x := rhs[it];
    it := it + 1;
    var y := rhs[it];
    it := it + 1;
    var z := rhs[it];
    v := Vector3(x, y, z);
  }

  /** `operator+`: every index reads the sum of the operands' entries. */
  function Add(a: Vector3, b: Vector3): (r: Vector3)
    ensures forall i :: At(r, i) == At(a, i) + At(b, i)
  {
    Vector3(a.x + b.x, a.y + b.y, a.z + b.z)
  }

  /** `operator-`: every index reads the difference of the operands' entries. */
  function Sub(a: Vector3, b: Vector3): (r: Vector3)
    ensures forall i :: At(r, i) == At(a, i) - At(b, i)
  {
    Vector3(a.x - b.x, a.y - b.y, a.z - b.z)
  }

  /** `operator*(const Vector3&)`: the componentwise product. */
  function Mul(a: Vector3, b: Vector3): (r: Vector3)
    ensures forall i :: At(r, i) == At(a, i) * At(b, i)
  {
    Vector3(a.x * b.x, a.y * b.y, a.z * b.z)
  }

  /** `operator/`: the componentwise quotient. Division by a zero component
      (an IEEE infinity or NaN in the source) is excluded. */
  function Div(a: Vector3, b: Vector3): (r: Vector3)
    requires b.x != 0.0 && b.y != 0.0 && b.z != 0.0
    ensures forall i :: At(r, i) * At(b, i) == At(a, i)
  {
    Vector3(a.x / b.x, a.y / b.y, a.z / b.z)
  }

  /** `operator*(const double&)`: scaling on the right. */
  function Scale(v: Vector3, s: real): (r: Vector3)
    ensures forall i :: At(r, i) == At(v, i) * s
  {
    Vector3(v.x * s, v.y * s, v.z * s)
  }

  /** The free `operator*(double, Vector3)`, which defers to `Scale`. */
  function ScaleLeft(s: real, v: Vector3): (r: Vector3)
    ensures forall i :: At(r, i) == s * At(v, i)
  {
    Scale(v, s)
  }

  /** `dot`: the sum over indices 0..2 of the products of the entries. */
  function Dot(a: Vector3, b: Vector3): (r: real)
    ensures r == At(a, 0) * At(b, 0) + At(a, 1) * At(b, 1) + At(a, 2) * At(b, 2)
  {
    a.x * b.x + a.y * b.y + a.z * b.z
  }

  /** The right-handed cross product: component i is built from the two
      components that follow i cyclically, and the result is orthogonal to
      both operands. */
  function Cross(a: Vector3, b: Vector3): (r: Vector3)
    ensures forall i :: 0 <= i < 3 ==>
      At(r, i) == At(a, (i + 1) % 3) * At(b, (i + 2) % 3) - At(a, (i + 2) % 3) * At(b, (i + 1) % 3)
    ensures Dot(a, r) == 0.0 && Dot(b, r) == 0.0
  {
    var r := Vector3(a.y * b.z - a.z * b.y, a.z * b.x - a.x * b.z, a.x * b.y - a.y * b.x);
    assert Dot(a, r) == a.x * r.x + a.y * r.y + a.z * r.z;
    assert Dot(b, r) == b.x * r.x + b.y * r.y + b.z * r.z;
    r
  }

  /** `cross` as the source runs it: a default-constructed local whose
      fields are filled one after another. */
  method ComputeCross(a: Vector3, b: Vector3) returns (output: Vector3)
    ensures output == Cross(a, b)
  {
    output := Origin;
    output := output.(x := a.y * b.z - a.z * b.y);
    output := output.(y := a.z * b.x - a.x * b.z);
    output := output.(z := a.x * b.y - a.y * b.x);
  }

  /** `operator==`: exact componentwise comparison, which is identity of
      the two values. */
  function Eq(a: Vector3, b: Vector3): (r: bool)
    ensures r <==> a == b
  {
    a.x == b.x && a.y == b.y && a.z == b.z
  }

  /** `operator!=`, the negation of `operator==`. */
  function NotEq(a: Vector3, b: Vector3): (r: bool)
    ensures r <==> a != b
  {
    !Eq(a, b)
  }

  /** `operator==(initializer_list)`: builds a vector from the list and
      compares with it. */
  function EqList(v: Vector3, rhs: seq<real>): (r: bool)
    requires |rhs| >= 3
    ensures r <==> forall k :: 0 <= k < 3 ==> At(v, k) == rhs[k]
  {
    Eq(v, FromList(rhs))
  }

  lemma AtFallsThrough(v: Vector3, index: int)
    ensures At(v, 0) == v.x && At(v, 1) == v.y
    ensures index != 0 && index != 1 ==> At(v, index) == v.z == At(v, 2)
  {
  }

  lemma ListTailIgnored(rhs: seq<real>, extra: seq<real>)
    requires |rhs| >= 3
    ensures FromList(rhs + extra) == FromList(rhs)
  {
  }

  lemma EqListIff(v: Vector3, a: real, b: real, c: real)
    ensures EqList(v, [a, b, c]) <==> v == Vector3(a, b, c)
  {
  }

  lemma AddSubRoundTrip(a: Vector3, b: Vector3)
    ensures Sub(Add(a, b), b) == a
  {
  }

  lemma MulDivRoundTrip(a: Vector3, b: Vector3)
    requires b.x != 0.0 && b.y != 0.0 && b.z != 0.0
    ensures Div(Mul(a, b), b) == a
  {
  }

  lemma ScalarSidesAgree(s: real, v: Vector3)
    ensures ScaleLeft(s, v) == Scale(v, s)
    ensures forall i :: At(ScaleLeft(s, v), i) == s * At(v, i)
  {
  }

  lemma CrossAntiCommutative(a: Vector3, b: Vector3)
    ensures Cross(a, b) == Scale(Cross(b, a), -1.0)
  {
  }

  /** The unit axes form a right-handed frame. */
  lemma CrossRightHanded()
    ensures Cross(UnitX, UnitY) == UnitZ
    ensures Cross(UnitY, UnitZ) == UnitX
    ensures Cross(UnitZ, UnitX) == UnitY
  {
    var ex, ey, ez := Vector3(1.0, 0.0, 0.0), Vector3(0.0, 1.0, 0.0), Vector3(0.0, 0.0, 1.0);
    assert UnitX == ex && UnitY == ey && UnitZ == ez;
    assert Cross(ex, ey) == ez by { assert Cross(ex, ey) == Vector3(0.0, 0.0, 1.0); }
    assert Cross(ey, ez) == ex by { assert Cross(ey, ez) == Vector3(1.0, 0.0, 0.0); }
    assert Cross(ez, ex) == ey by { assert Cross(ez, ex) == Vector3(0.0, 1.0, 0.0); }
  }

  lemma DotSymmetric(a: Vector3, b: Vector3)
    ensures Dot(a, b) == Dot(b, a)
  {
  }

  /** The squared length is never negative. */
  lemma DotSelfNonNegative(v: Vector3)
    ensures Dot(v, v) >= 0.0
  {
  }
}
