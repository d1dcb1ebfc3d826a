/** The 4x4 homogeneous transform engine: construction with a silent fallback
    to the identity, the matrix product, the matrix-times-point product, the
    three axis rotations and the transpose.

    Numbers are `real`s, not IEEE doubles. `Math.cos(angle)` and
    `Math.sin(angle)` are not modelled: each rotation takes the pair `(c, s)`
    they would return, and the laws that need `c*c + s*s == 1` say so. */
module Matrices {
  import opened Wrappers
  import opened Points

  /** Row-major entries, `data[i][j]` being row i, column j. */
  datatype Matrix4x4 = Matrix4x4(data: seq<seq<real>>)
  {
    /** The shape every constructed matrix has. */
    predicate Valid() {
      Is4x4(data)
    }
  }

  /** Exactly four rows, each of exactly four entries. */
  predicate Is4x4(rows: seq<seq<real>>) {
    |rows| == 4 && forall i :: 0 <= i < 4 ==> |rows[i]| == 4
  }

  const IdentityRows: seq<seq<real>> :=
    [[1.0, 0.0, 0.0, 0.0],
     [0.0, 1.0, 0.0, 0.0],
     [0.0, 0.0, 1.0, 0.0],
     [0.0, 0.0, 0.0, 1.0]]

  function Identity(): (m: Matrix4x4)
    ensures m.Valid()
    ensures forall i, j :: 0 <= i < 4 && 0 <= j < 4 ==> m.data[i][j] == if i == j then 1.0 else 0.0
  {
    Matrix4x4(IdentityRows)
  }

  /** `new Matrix4x4(data?)`. `None` is a call without an argument. Well-shaped
      data is kept as it is; anything else silently becomes the identity. */
  function New(data: Option<seq<seq<real>>>): (m: Matrix4x4)
    ensures m.Valid()
    ensures data.Some? && Is4x4(data.value) ==> m.data == data.value
    ensures !(data.Some? && Is4x4(data.value)) ==> m == Identity()
  {
    if data.Some? && Is4x4(data.value) then Matrix4x4(data.value) else Identity()
  }

  /** Two well-shaped matrices with the same entries are the same matrix. */
  lemma Ext(a: Matrix4x4, b: Matrix4x4)
    requires a.Valid() && b.Valid()
    requires forall i, j :: 0 <= i < 4 && 0 <= j < 4 ==> a.data[i][j] == b.data[i][j]
    ensures a == b
  {
    forall i | 0 <= i < 4
      ensures a.data[i] == b.data[i]
    {
    }
  }

  // ---------------------------------------------------------------------------
  // Product

  /** `sum` after the first `n` steps of the innermost loop of `multiplyMatrix`:
      the sum over k < n of a[i][k] * b[k][j]. */
  function PartialDot(a: Matrix4x4, b: Matrix4x4, i: nat, j: nat, n: nat): real
    requires a.Valid() && b.Valid() && i < 4 && j < 4 && n <= 4
  {
    if n == 0 then 0.0 else PartialDot(a, b, i, j, n - 1) + a.data[i][n - 1] * b.data[n - 1][j]
  }

  /** The matrix product a·b. */
  function Product(a: Matrix4x4, b: Matrix4x4): Matrix4x4
    requires a.Valid() && b.Valid()
  {
    Matrix4x4(seq(4, i requires 0 <= i < 4 =>
                seq(4, j requires 0 <= j < 4 => PartialDot(a, b, i, j, 4))))
  }

  /** Entry (i, j) of a·b is row i of a times column j of b. */
  lemma ProductAt(a: Matrix4x4, b: Matrix4x4, i: nat, j: nat)
    requires a.Valid() && b.Valid() && i < 4 && j < 4
    ensures Product(a, b).Valid()
    ensures Product(a, b).data[i][j] ==
      a.data[i][0] * b.data[0][j] + a.data[i][1] * b.data[1][j] +
      a.data[i][2] * b.data[2][j] + a.data[i][3] * b.data[3][j]
  {
    assert PartialDot(a, b, i, j, 1) == a.data[i][0] * b.data[0][j];
    assert PartialDot(a, b, i, j, 2) == PartialDot(a, b, i, j, 1) + a.data[i][1] * b.data[1][j];
    assert PartialDot(a, b, i, j, 3) == PartialDot(a, b, i, j, 2) + a.data[i][2] * b.data[2][j];
  }

  /** `Matrix4x4.multiplyMatrix(m1, m2)`: the triple loop accumulating `sum`. */
  method MultiplyMatrix(m1: Matrix4x4, m2: Matrix4x4) returns (r: Matrix4x4)
    requires m1.Valid() && m2.Valid()
    ensures r.Valid()
    ensures r == Product(m1, m2)
  {
    var result: seq<seq<real>> := [];
    for i := 0 to 4
      invariant |result| == i
      invariant forall ii :: 0 <= ii < i ==> |result[ii]| == 4
      invariant forall ii, jj :: 0 <= ii < i && 0 <= jj < 4 ==> result[ii][jj] == PartialDot(m1, m2, ii, jj, 4)
    {
      var row: seq<real> := [];
      for j := 0 to 4
        invariant |row| == j
        invariant forall jj :: 0 <= jj < j ==> row[jj] == PartialDot(m1, m2, i, jj, 4)
      {
        var sum := 0.0;
        for k := 0 to 4
          invariant sum == PartialDot(m1, m2, i, j, k)
        {
          sum := sum + m1.data[i][k] * m2.data[k][j];
        }
        row := row + [sum];
      }
      result := result + [row];
    }
    r := New(Some(result));
    Ext(r, Product(m1, m2));
  }

  // ---------------------------------------------------------------------------
  // Matrix times point

  /** The point as the homogeneous column [x, y, z, 1]. */
  function Homogeneous(p: Point3D): (v: seq<real>)
    ensures |v| == 4 && v[3] == 1.0
  {
    [p.x, p.y, p.z, 1.0]
  }

  /** Row i of m times the column v. */
  function RowTimes(m: Matrix4x4, i: nat, v: seq<real>): real
    requires m.Valid() && i < 4 && |v| == 4
  {
    m.data[i][0] * v[0] + m.data[i][1] * v[1] + m.data[i][2] * v[2] + m.data[i][3] * v[3]
  }

  /** The first three components of m·[x, y, z, 1]; the fourth is dropped. */
  function Transform(m: Matrix4x4, p: Point3D): Point3D
    requires m.Valid()
  {
    var v := Homogeneous(p);
    Point3D(RowTimes(m, 0, v), RowTimes(m, 1, v), RowTimes(m, 2, v))
  }

  /** `Matrix4x4.multiplyPoint(matrix, point)`: fills `result[i]` row by row. */
  method MultiplyPoint(matrix: Matrix4x4, point: Point3D) returns (q: Point3D)
    requires matrix.Valid()
    ensures q == Transform(matrix, point)
  {
    var p := [point.x, point.y, point.z, 1.0];
    var result := [0.0, 0.0, 0.0, 0.0];
    for i := 0 to 4
      invariant |result| == 4
      invariant forall k :: 0 <= k < i ==> result[k] == RowTimes(matrix, k, p)
    {
      result := result[i := matrix.data[i][0] * p[0] + matrix.data[i][1] * p[1] +
                            matrix.data[i][2] * p[2] + matrix.data[i][3] * p[3]];
    }
    q := Point3D(result[0], result[1], result[2]);
  }

  // ---------------------------------------------------------------------------
  // Rotations and transpose

  /** Last row and last column are [0, 0, 0, 1]: no translation, no
      perspective, and the homogeneous coordinate stays 1. */
  predicate IsAffine(m: Matrix4x4)
    requires m.Valid()
  {
    m.data[3] == [0.0, 0.0, 0.0, 1.0] &&
    m.data[0][3] == 0.0 && m.data[1][3] == 0.0 && m.data[2][3] == 0.0
  }

  /** `rotationX(angle)` with c = cos(angle), s = sin(angle). */
  function RotationX(c: real, s: real): (m: Matrix4x4)
    ensures m.Valid() && IsAffine(m)
  {
    New(Some([[1.0, 0.0, 0.0, 0.0],
              [0.0, c, -s, 0.0],
              [0.0, s, c, 0.0],
              [0.0, 0.0, 0.0, 1.0]]))
  }

  /** `rotationY(angle)` with c = cos(angle), s = sin(angle). */
  function RotationY(c: real, s: real): (m: Matrix4x4)
    ensures m.Valid() && IsAffine(m)
  {
    New(Some([[c, 0.0, s, 0.0],
              [0.0, 1.0, 0.0, 0.0],
              [-s, 0.0, c, 0.0],
              [0.0, 0.0, 0.0, 1.0]]))
  }

  /** `rotationZ(angle)` with c = cos(angle), s = sin(angle). */
  function RotationZ(c: real, s: real): (m: Matrix4x4)
    ensures m.Valid() && IsAffine(m)
  {
    New(Some([[c, -s, 0.0, 0.0],
              [s, c, 0.0, 0.0],
              [0.0, 0.0, 1.0, 0.0],
              [0.0, 0.0, 0.0, 1.0]]))
  }

  /** `m.transpose()`. */
  function Transpose(m: Matrix4x4): (t: Matrix4x4)
    requires m.Valid()
    ensures t.Valid()
    ensures forall i, j :: 0 <= i < 4 && 0 <= j < 4 ==> t.data[i][j] == m.data[j][i]
  {
    var d := m.data;
    New(Some([[d[0][0], d[1][0], d[2][0], d[3][0]],
              [d[0][1], d[1][1], d[2][1], d[3][1]],
              [d[0][2], d[1][2], d[2][2], d[3][2]],
              [d[0][3], d[1][3], d[2][3], d[3][3]]]))
  }
}
