/**
 * Vector and 4x4 matrix helpers of the teapot renderer.
 *
 * Vectors and matrices hold mathematical reals rather than single-precision
 * floats. Matrices use the "vector on the left" convention: a point (x, y, z)
 * is extended to (x, y, z, 1) and multiplied by the matrix from the left, so
 * row 3 carries the translation and column 3 the homogeneous weight.
 *
 * Rotations do not take an angle: the cosine and sine of the angle are passed
 * in as values, which keeps trigonometry out of the model.
 */
module LinAlg {

  datatype Vec3 = Vec3(x: real, y: real, z: real)

  /** The homogeneous product (x, y, z, 1) . m before any perspective divide. */
  datatype Vec4 = Vec4(x: real, y: real, z: real, w: real)

  predicate Is4x4(m: seq<seq<real>>) {
    |m| == 4 && forall i :: 0 <= i < 4 ==> |m[i]| == 4
  }

  /** A 4x4 matrix, indexed m[row][column]. */
  type Matrix = m: seq<seq<real>> | Is4x4(m)
    witness [[0.0, 0.0, 0.0, 0.0], [0.0, 0.0, 0.0, 0.0], [0.0, 0.0, 0.0, 0.0], [0.0, 0.0, 0.0, 0.0]]

  const ZERO: Vec3 := Vec3(0.0, 0.0, 0.0)

  function Identity(): (m: Matrix)
    ensures forall i, j :: 0 <= i < 4 && 0 <= j < 4 ==> m[i][j] == if i == j then 1.0 else 0.0
  {
    [[1.0, 0.0, 0.0, 0.0],
     [0.0, 1.0, 0.0, 0.0],
     [0.0, 0.0, 1.0, 0.0],
     [0.0, 0.0, 0.0, 1.0]]
  }

  /** Builds the identity matrix cell by cell, row by row. */
  method InitIdentityMatrix() returns (m: Matrix)
    ensures forall i, j :: 0 <= i < 4 && 0 <= j < 4 ==> m[i][j] == if i == j then 1.0 else 0.0
    ensures m == Identity()
  {
    var rows: seq<seq<real>> := [];
    var i := 0;
    while i < 4
      invariant 0 <= i <= 4
      invariant |rows| == i
      invariant forall r :: 0 <= r < i ==> |rows[r]| == 4
      invariant forall r, c :: 0 <= r < i && 0 <= c < 4 ==> rows[r][c] == if r == c then 1.0 else 0.0
    {
      var row: seq<real> := [];
      var j := 0;
      while j < 4
        invariant 0 <= j <= 4
        invariant |row| == j
        invariant forall c :: 0 <= c < j ==> row[c] == if i == c then 1.0 else 0.0
      {
        row := row + [if i == j then 1.0 else 0.0];
        j := j + 1;
      }
      rows := rows + [row];
      i := i + 1;
    }
    m := rows;
    forall r | 0 <= r < 4
      ensures m[r] == Identity()[r]
    {
      assert forall c :: 0 <= c < 4 ==> m[r][c] == Identity()[r][c];
    }
  }

  /** True when cell (i, j) lies in the 2x2 block spanned by axes p and q. */
  predicate InBlock(i: int, j: int, p: int, q: int) {
    (i == p || i == q) && (j == p || j == q)
  }

  /**
   * Overwrites the rotation block of axes p and q with
   * [p][p] = c, [p][q] = -s, [q][p] = s, [q][q] = c; every other cell is kept.
   */
  function WriteBlock(m: Matrix, p: nat, q: nat, c: real, s: real): (r: Matrix)
    requires p < 4 && q < 4 && p != q
    ensures r[p][p] == c && r[p][q] == -s && r[q][p] == s && r[q][q] == c
    ensures forall i, j :: 0 <= i < 4 && 0 <= j < 4 && !InBlock(i, j, p, q) ==> r[i][j] == m[i][j]
  {
    var m1 := m[p := m[p][p := c]];
    var m2 := m1[p := m1[p][q := -s]];
    var m3 := m2[q := m2[q][p := s]];
    m3[q := m3[q][q := c]]
  }

  /** Rotation about the x axis, given the cosine c and sine s of the angle. */
  function RotateXMatrix(m: Matrix, c: real, s: real): (r: Matrix)
    ensures r[1][1] == c && r[1][2] == -s && r[2][1] == s && r[2][2] == c
    ensures forall i, j :: 0 <= i < 4 && 0 <= j < 4 && !InBlock(i, j, 1, 2) ==> r[i][j] == m[i][j]
  {
    WriteBlock(m, 1, 2, c, s)
  }

  /** Rotation about the y axis, given the cosine c and sine s of the angle. */
  function RotateYMatrix(m: Matrix, c: real, s: real): (r: Matrix)
    ensures r[0][0] == c && r[0][2] == s && r[2][0] == -s && r[2][2] == c
    ensures forall i, j :: 0 <= i < 4 && 0 <= j < 4 && !InBlock(i, j, 0, 2) ==> r[i][j] == m[i][j]
  {
    WriteBlock(m, 2, 0, c, s)
  }

  /** Rotation about the z axis, given the cosine c and sine s of the angle. */
  function RotateZMatrix(m: Matrix, c: real, s: real): (r: Matrix)
    ensures r[0][0] == c && r[0][1] == -s && r[1][0] == s && r[1][1] == c
    ensures forall i, j :: 0 <= i < 4 && 0 <= j < 4 && !InBlock(i, j, 0, 1) ==> r[i][j] == m[i][j]
  {
    WriteBlock(m, 0, 1, c, s)
  }

  /** Column 3 is (0, 0, 0, 1): the matrix never produces a weight other than 1. */
  predicate AffineColumn(m: Matrix) {
    m[0][3] == 0.0 && m[1][3] == 0.0 && m[2][3] == 0.0 && m[3][3] == 1.0
  }

  /** Row 3 is (0, 0, 0, 1): the matrix carries no translation. */
  predicate NoTranslation(m: Matrix) {
    m[3][0] == 0.0 && m[3][1] == 0.0 && m[3][2] == 0.0 && m[3][3] == 1.0
  }

  function RowProduct(m: Matrix, v: Vec3): Vec4 {
    Vec4(v.x * m[0][0] + v.y * m[1][0] + v.z * m[2][0] + m[3][0],
         v.x * m[0][1] + v.y * m[1][1] + v.z * m[2][1] + m[3][1],
         v.x * m[0][2] + v.y * m[1][2] + v.z * m[2][2] + m[3][2],
         v.x * m[0][3] + v.y * m[1][3] + v.z * m[2][3] + m[3][3])
  }

  /**
   * Transforms v by m. The result is the homogeneous product brought back to
   * w = 1 when its weight is non-zero, and the raw product when the weight is 0.
   */
  function MultiplyMatrixVector(m: Matrix, v: Vec3): (r: Vec3)
    ensures var h := RowProduct(m, v);
      h.w != 0.0 ==> r.x * h.w == h.x && r.y * h.w == h.y && r.z * h.w == h.z
    ensures var h := RowProduct(m, v);
      h.w == 0.0 ==> r == Vec3(h.x, h.y, h.z)
  {
    var h := RowProduct(m, v);
    if h.w != 0.0 then Vec3(h.x / h.w, h.y / h.w, h.z / h.w) else Vec3(h.x, h.y, h.z)
  }

  function Dot(a: Vec3, b: Vec3): real {
    a.x * b.x + a.y * b.y + a.z * b.z
  }

  function Cross(a: Vec3, b: Vec3): Vec3 {
    Vec3(a.y * b.z - a.z * b.y, a.z * b.x - a.x * b.z, a.x * b.y - a.y * b.x)
  }

  function Subtract(a: Vec3, b: Vec3): Vec3 {
    Vec3(a.x - b.x, a.y - b.y, a.z - b.z)
  }

  function Add(a: Vec3, b: Vec3): Vec3 {
    Vec3(a.x + b.x, a.y + b.y, a.z + b.z)
  }

  function NormSq(v: Vec3): real {
    Dot(v, v)
  }

  /** A matrix whose weight column is (0, 0, 0, 1) always yields w = 1, so no division happens. */
  lemma AffineProductNoDivide(m: Matrix, v: Vec3)
    requires AffineColumn(m)
    ensures RowProduct(m, v).w == 1.0
    ensures var h := RowProduct(m, v); MultiplyMatrixVector(m, v) == Vec3(h.x, h.y, h.z)
  {
  }

  lemma IdentityProduct(v: Vec3)
    ensures MultiplyMatrixVector(Identity(), v) == v
  {
  }

  /** Rotation matrices built on the identity keep row 3 and column 3 at identity. */
  lemma RotatedIdentityIsLinear(c: real, s: real)
    ensures AffineColumn(RotateXMatrix(Identity(), c, s)) && NoTranslation(RotateXMatrix(Identity(), c, s))
    ensures AffineColumn(RotateYMatrix(Identity(), c, s)) && NoTranslation(RotateYMatrix(Identity(), c, s))
    ensures AffineColumn(RotateZMatrix(Identity(), c, s)) && NoTranslation(RotateZMatrix(Identity(), c, s))
  {
    assert !InBlock(0, 3, 1, 2) && !InBlock(3, 3, 0, 2) && !InBlock(3, 0, 0, 1);
  }

  lemma RotateXProduct(v: Vec3, c: real, s: real)
    ensures MultiplyMatrixVector(RotateXMatrix(Identity(), c, s), v) == Vec3(v.x, c * v.y + s * v.z, c * v.z - s * v.y)
  {
    var m := RotateXMatrix(Identity(), c, s);
    RotatedIdentityIsLinear(c, s);
    assert m[0][0] == 1.0 && m[0][1] == 0.0 && m[0][2] == 0.0 && m[1][0] == 0.0 && m[2][0] == 0.0;
  }

  lemma RotateYProduct(v: Vec3, c: real, s: real)
    ensures MultiplyMatrixVector(RotateYMatrix(Identity(), c, s), v) == Vec3(c * v.x - s * v.z, v.y, s * v.x + c * v.z)
  {
    var m := RotateYMatrix(Identity(), c, s);
    RotatedIdentityIsLinear(c, s);
    assert m[1][1] == 1.0 && m[0][1] == 0.0 && m[1][0] == 0.0 && m[1][2] == 0.0 && m[2][1] == 0.0;
  }

  lemma RotateZProduct(v: Vec3, c: real, s: real)
    ensures MultiplyMatrixVector(RotateZMatrix(Identity(), c, s), v) == Vec3(c * v.x + s * v.y, c * v.y - s * v.x, v.z)
  {
    var m := RotateZMatrix(Identity(), c, s);
    RotatedIdentityIsLinear(c, s);
    assert m[2][2] == 1.0 && m[0][2] == 0.0 && m[1][2] == 0.0 && m[2][0] == 0.0 && m[2][1] == 0.0;
  }

  /** A planar rotation by (c, s) with c^2 + s^2 = 1 preserves squared length. */
  lemma PlaneRotationIsometry(a: real, b: real, c: real, s: real)
    requires c * c + s * s == 1.0
    ensures (c * a + s * b) * (c * a + s * b) + (c * b - s * a) * (c * b - s * a) == a * a + b * b
  {
    calc {
      (c * a + s * b) * (c * a + s * b) + (c * b - s * a) * (c * b - s * a);
      (c * c + s * s) * (a * a) + (c * c + s * s) * (b * b);
      a * a + b * b;
    }
  }

  /** With a genuine (cos, sin) pair, rotation about x keeps x and the squared length. */
  lemma RotateXPreservesLength(v: Vec3, c: real, s: real)
    requires c * c + s * s == 1.0
    ensures var r := MultiplyMatrixVector(RotateXMatrix(Identity(), c, s), v); r.x == v.x && NormSq(r) == NormSq(v)
  {
    RotateXProduct(v, c, s);
    PlaneRotationIsometry(v.y, v.z, c, s);
  }

  /** With a genuine (cos, sin) pair, rotation about y keeps y and the squared length. */
  lemma RotateYPreservesLength(v: Vec3, c: real, s: real)
    requires c * c + s * s == 1.0
    ensures var r := MultiplyMatrixVector(RotateYMatrix(Identity(), c, s), v); r.y == v.y && NormSq(r) == NormSq(v)
  {
    RotateYProduct(v, c, s);
    PlaneRotationIsometry(v.x, -v.z, c, s);
  }

  /** With a genuine (cos, sin) pair, rotation about z keeps z and the squared length. */
  lemma RotateZPreservesLength(v: Vec3, c: real, s: real)
    requires c * c + s * s == 1.0
    ensures var r := MultiplyMatrixVector(RotateZMatrix(Identity(), c, s), v); r.z == v.z && NormSq(r) == NormSq(v)
  {
    RotateZProduct(v, c, s);
    PlaneRotationIsometry(v.x, v.y, c, s);
  }

  /** The dot product does not depend on the order of its arguments, and a vector's squared length is never negative. */
  lemma DotSymmetric(a: Vec3, b: Vec3)
    ensures Dot(a, b) == Dot(b, a)
    ensures NormSq(a) >= 0.0
  {
  }

  /** The cross product is perpendicular to both of its arguments. */
  lemma CrossOrthogonal(a: Vec3, b: Vec3)
    ensures Dot(Cross(a, b), a) == 0.0 && Dot(Cross(a, b), b) == 0.0
  {
  }

  /** Swapping the arguments of the cross product negates it. */
  lemma CrossAnticommutative(a: Vec3, b: Vec3)
    ensures Cross(b, a) == Subtract(ZERO, Cross(a, b))
  {
  }

  /** Subtraction is undone by addition, and a vector minus itself is zero. */
  lemma SubtractAddInverse(a: Vec3, b: Vec3)
    ensures Add(Subtract(a, b), b) == a
    ensures Subtract(a, a) == ZERO
  {
  }

  lemma AddAssociative(a: Vec3, b: Vec3, c: Vec3)
    ensures Add(Add(a, b), c) == Add(a, Add(b, c))
  {
  }

  /** A vector crossed with itself, or with zero, is zero. */
  lemma CrossSelfIsZero(a: Vec3)
    ensures Cross(a, a) == ZERO
    ensures Cross(ZERO, a) == ZERO && Cross(a, ZERO) == ZERO
  {
  }
}
