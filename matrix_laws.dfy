/** Algebraic laws of the transform engine: what the product, the transpose,
    the point transform and the rotations promise together. */
module MatrixLaws {
  import opened Wrappers
  import opened Points
  import opened Matrices

  /** The constructor called without data yields the identity, and it keeps
      any matrix it is given back unchanged. */
  lemma NewKeepsOrFallsBack(m: Matrix4x4)
    requires m.Valid()
    ensures New(None) == Identity()
    ensures New(Some(m.data)) == m
  {
  }

  lemma IdentityLeftUnit(m: Matrix4x4)
    requires m.Valid()
    ensures Product(Identity(), m) == m
  {
    var p := Product(Identity(), m);
    forall i, j | 0 <= i < 4 && 0 <= j < 4
      ensures p.data[i][j] == m.data[i][j]
    {
      ProductAt(Identity(), m, i, j);
    }
    Ext(p, m);
  }

  lemma IdentityRightUnit(m: Matrix4x4)
    requires m.Valid()
    ensures Product(m, Identity()) == m
  {
    var p := Product(m, Identity());
    forall i, j | 0 <= i < 4 && 0 <= j < 4
      ensures p.data[i][j] == m.data[i][j]
    {
      ProductAt(m, Identity(), i, j);
    }
    Ext(p, m);
  }

  lemma TransposeInvolution(m: Matrix4x4)
    requires m.Valid()
    ensures Transpose(Transpose(m)) == m
  {
    Ext(Transpose(Transpose(m)), m);
  }

  /** Entry (i, j) of (a·b)·c and of a·(b·c), written out over the 16 terms. */
  lemma AssocAt(a: Matrix4x4, b: Matrix4x4, c: Matrix4x4, i: nat, j: nat)
    requires a.Valid() && b.Valid() && c.Valid() && i < 4 && j < 4
    ensures Product(Product(a, b), c).data[i][j] == Product(a, Product(b, c)).data[i][j]
  {
    var ab, bc := Product(a, b), Product(b, c);
    ProductAt(ab, c, i, j);
    ProductAt(a, bc, i, j);
    forall k | 0 <= k < 4
      ensures ab.data[i][k] == a.data[i][0] * b.data[0][k] + a.data[i][1] * b.data[1][k] +
                               a.data[i][2] * b.data[2][k] + a.data[i][3] * b.data[3][k]
      ensures bc.data[k][j] == b.data[k][0] * c.data[0][j] + b.data[k][1] * c.data[1][j] +
                               b.data[k][2] * c.data[2][j] + b.data[k][3] * c.data[3][j]
    {
      ProductAt(a, b, i, k);
      ProductAt(b, c, k, j);
    }
  }

  /** Composition is associative, so a run of key presses can be regrouped. */
  lemma ProductAssociative(a: Matrix4x4, b: Matrix4x4, c: Matrix4x4)
    requires a.Valid() && b.Valid() && c.Valid()
    ensures Product(Product(a, b), c) == Product(a, Product(b, c))
  {
    forall i, j | 0 <= i < 4 && 0 <= j < 4
      ensures Product(Product(a, b), c).data[i][j] == Product(a, Product(b, c)).data[i][j]
    {
      AssocAt(a, b, c, i, j);
    }
    ProductAt(a, b, 0, 0);
    ProductAt(b, c, 0, 0);
    ProductAt(Product(a, b), c, 0, 0);
    ProductAt(a, Product(b, c), 0, 0);
    Ext(Product(Product(a, b), c), Product(a, Product(b, c)));
  }

  /** The starting transform has no translation or perspective part. */
  lemma IdentityAffine()
    ensures Identity().Valid() && IsAffine(Identity())
  {
  }

  /** The product of two affine matrices is affine. */
  lemma ProductAffine(a: Matrix4x4, b: Matrix4x4)
    requires a.Valid() && b.Valid() && IsAffine(a) && IsAffine(b)
    ensures Product(a, b).Valid() && IsAffine(Product(a, b))
  {
    var p := Product(a, b);
    forall i, j | 0 <= i < 4 && 0 <= j < 4
      ensures p.data[i][j] == a.data[i][0] * b.data[0][j] + a.data[i][1] * b.data[1][j] +
                              a.data[i][2] * b.data[2][j] + a.data[i][3] * b.data[3][j]
    {
      ProductAt(a, b, i, j);
    }
    assert p.data[3] == [p.data[3][0], p.data[3][1], p.data[3][2], p.data[3][3]];
  }

  /** Transforming by the identity returns the same point. */
  lemma TransformIdentity(p: Point3D)
    ensures Transform(Identity(), p) == p
  {
  }

  /** Row i of the product applied to p is row i of a applied to b's image of p. */
  lemma TransformProductRow(a: Matrix4x4, b: Matrix4x4, p: Point3D, i: nat)
    requires a.Valid() && b.Valid() && IsAffine(b) && i < 3
    ensures RowTimes(Product(a, b), i, Homogeneous(p)) == RowTimes(a, i, Homogeneous(Transform(b, p)))
  {
    ProductAt(a, b, i, 0);
    ProductAt(a, b, i, 1);
    ProductAt(a, b, i, 2);
    ProductAt(a, b, i, 3);
  }

  /** a·b applies b first, then a: transforming by the product is transforming
      twice, as long as b keeps the homogeneous coordinate at 1. */
  lemma TransformProduct(a: Matrix4x4, b: Matrix4x4, p: Point3D)
    requires a.Valid() && b.Valid() && IsAffine(b)
    ensures Transform(Product(a, b), p) == Transform(a, Transform(b, p))
  {
    TransformProductRow(a, b, p, 0);
    TransformProductRow(a, b, p, 1);
    TransformProductRow(a, b, p, 2);
  }

  // ---------------------------------------------------------------------------
  // Rotations

  /** rotationX fixes x and turns (y, z): y' = y·c − z·s, z' = y·s + z·c. */
  lemma RotationXActs(c: real, s: real, p: Point3D)
    ensures Transform(RotationX(c, s), p) == Point3D(p.x, p.y * c - p.z * s, p.y * s + p.z * c)
  {
  }

  /** rotationY fixes y and turns (x, z): x' = x·c + z·s, z' = −x·s + z·c. */
  lemma RotationYActs(c: real, s: real, p: Point3D)
    ensures Transform(RotationY(c, s), p) == Point3D(p.x * c + p.z * s, p.y, -p.x * s + p.z * c)
  {
  }

  /** rotationZ fixes z and turns (x, y): x' = x·c − y·s, y' = x·s + y·c. */
  lemma RotationZActs(c: real, s: real, p: Point3D)
    ensures Transform(RotationZ(c, s), p) == Point3D(p.x * c - p.y * s, p.x * s + p.y * c, p.z)
  {
  }

  /** The entries the three rotation constructors store. */
  lemma RotationData(c: real, s: real)
    ensures RotationX(c, s).data == [[1.0, 0.0, 0.0, 0.0], [0.0, c, -s, 0.0], [0.0, s, c, 0.0], [0.0, 0.0, 0.0, 1.0]]
    ensures RotationY(c, s).data == [[c, 0.0, s, 0.0], [0.0, 1.0, 0.0, 0.0], [-s, 0.0, c, 0.0], [0.0, 0.0, 0.0, 1.0]]
    ensures RotationZ(c, s).data == [[c, -s, 0.0, 0.0], [s, c, 0.0, 0.0], [0.0, 0.0, 1.0, 0.0], [0.0, 0.0, 0.0, 1.0]]
  {
    assert Is4x4([[1.0, 0.0, 0.0, 0.0], [0.0, c, -s, 0.0], [0.0, s, c, 0.0], [0.0, 0.0, 0.0, 1.0]]);
    assert Is4x4([[c, 0.0, s, 0.0], [0.0, 1.0, 0.0, 0.0], [-s, 0.0, c, 0.0], [0.0, 0.0, 0.0, 1.0]]);
    assert Is4x4([[c, -s, 0.0, 0.0], [s, c, 0.0, 0.0], [0.0, 0.0, 1.0, 0.0], [0.0, 0.0, 0.0, 1.0]]);
  }

  /** The transpose of a rotation is the rotation by the opposite angle
      (cos is even, sin is odd). */
  lemma RotationTransposes(c: real, s: real)
    ensures Transpose(RotationX(c, s)) == RotationX(c, -s)
    ensures Transpose(RotationY(c, s)) == RotationY(c, -s)
    ensures Transpose(RotationZ(c, s)) == RotationZ(c, -s)
  {
    Ext(Transpose(RotationX(c, s)), RotationX(c, -s));
    Ext(Transpose(RotationY(c, s)), RotationY(c, -s));
    Ext(Transpose(RotationZ(c, s)), RotationZ(c, -s));
  }

  /** The rotation by the angle 0, (c, s) = (1, 0), is the identity, about
      every axis. */
  lemma RotationZeroAngle()
    ensures RotationX(1.0, 0.0) == Identity()
    ensures RotationY(1.0, 0.0) == Identity()
    ensures RotationZ(1.0, 0.0) == Identity()
  {
    RotationData(1.0, 0.0);
  }

  /** rotationX(θ)·rotationX(−θ) is the identity, given c² + s² = 1. */
  lemma RotationXUndo(c: real, s: real)
    requires c * c + s * s == 1.0
    ensures Product(RotationX(c, s), RotationX(c, -s)) == Identity()
  {
    var t := -s;
    RotationXAdds(c, t, c, s);
    assert c * c - t * s == 1.0 && t * c + c * s == 0.0;
    RotationZeroAngle();
  }

  /** R·Rᵀ and Rᵀ·R are the identity, given c² + s² = 1. */
  lemma RotationXOrthogonal(c: real, s: real)
    requires c * c + s * s == 1.0
    ensures Product(RotationX(c, s), Transpose(RotationX(c, s))) == Identity()
    ensures Product(Transpose(RotationX(c, s)), RotationX(c, s)) == Identity()
  {
    RotationTransposes(c, s);
    RotationXUndo(c, s);
    var t := -s;
    assert -t == s && c * c + t * t == 1.0;
    RotationXUndo(c, t);
  }

  /** rotationY(θ)·rotationY(−θ) is the identity, given c² + s² = 1. */
  lemma RotationYUndo(c: real, s: real)
    requires c * c + s * s == 1.0
    ensures Product(RotationY(c, s), RotationY(c, -s)) == Identity()
  {
    var t := -s;
    RotationYAdds(c, t, c, s);
    assert c * c - t * s == 1.0 && t * c + c * s == 0.0;
    RotationZeroAngle();
  }

  /** R·Rᵀ and Rᵀ·R are the identity, given c² + s² = 1. */
  lemma RotationYOrthogonal(c: real, s: real)
    requires c * c + s * s == 1.0
    ensures Product(RotationY(c, s), Transpose(RotationY(c, s))) == Identity()
    ensures Product(Transpose(RotationY(c, s)), RotationY(c, s)) == Identity()
  {
    RotationTransposes(c, s);
    RotationYUndo(c, s);
    var t := -s;
    assert -t == s && c * c + t * t == 1.0;
    RotationYUndo(c, t);
  }

  /** rotationZ(θ)·rotationZ(−θ) is the identity, given c² + s² = 1. */
  lemma RotationZUndo(c: real, s: real)
    requires c * c + s * s == 1.0
    ensures Product(RotationZ(c, s), RotationZ(c, -s)) == Identity()
  {
    var t := -s;
    RotationZAdds(c, t, c, s);
    assert c * c - t * s == 1.0 && t * c + c * s == 0.0;
    RotationZeroAngle();
  }

  /** R·Rᵀ and Rᵀ·R are the identity, given c² + s² = 1. */
  lemma RotationZOrthogonal(c: real, s: real)
    requires c * c + s * s == 1.0
    ensures Product(RotationZ(c, s), Transpose(RotationZ(c, s))) == Identity()
    ensures Product(Transpose(RotationZ(c, s)), RotationZ(c, s)) == Identity()
  {
    RotationTransposes(c, s);
    RotationZUndo(c, s);
    var t := -s;
    assert -t == s && c * c + t * t == 1.0;
    RotationZUndo(c, t);
  }

  /** Determinant of the upper-left 3x3 block; for an affine matrix it is the
      determinant of the whole matrix. */
  function Det3(m: Matrix4x4): real
    requires m.Valid()
  {
    var d := m.data;
    d[0][0] * (d[1][1] * d[2][2] - d[1][2] * d[2][1])
    - d[0][1] * (d[1][0] * d[2][2] - d[1][2] * d[2][0])
    + d[0][2] * (d[1][0] * d[2][1] - d[1][1] * d[2][0])
  }

  /** The three rotations preserve orientation and volume. */
  lemma RotationsHaveDeterminantOne(c: real, s: real)
    requires c * c + s * s == 1.0
    ensures Det3(RotationX(c, s)) == 1.0
    ensures Det3(RotationY(c, s)) == 1.0
    ensures Det3(RotationZ(c, s)) == 1.0
  {
  }

  /** Same-axis composition adds angles: left-multiplying rotationX(θ2) onto
      rotationX(θ1) is rotationX(θ1 + θ2), the angle sum written with the
      addition formulas cos(θ1+θ2) = c1·c2 − s1·s2, sin(θ1+θ2) = s1·c2 + c1·s2. */
  lemma RotationXAdds(c1: real, s1: real, c2: real, s2: real)
    ensures Product(RotationX(c2, s2), RotationX(c1, s1)) == RotationX(c1 * c2 - s1 * s2, s1 * c2 + c1 * s2)
  {
    var p := Product(RotationX(c2, s2), RotationX(c1, s1));
    forall i, j | 0 <= i < 4 && 0 <= j < 4
      ensures p.data[i][j] == RotationX(c1 * c2 - s1 * s2, s1 * c2 + c1 * s2).data[i][j]
    {
      ProductAt(RotationX(c2, s2), RotationX(c1, s1), i, j);
    }
    ProductAt(RotationX(c2, s2), RotationX(c1, s1), 0, 0);
    Ext(p, RotationX(c1 * c2 - s1 * s2, s1 * c2 + c1 * s2));
  }

  lemma RotationYAdds(c1: real, s1: real, c2: real, s2: real)
    ensures Product(RotationY(c2, s2), RotationY(c1, s1)) == RotationY(c1 * c2 - s1 * s2, s1 * c2 + c1 * s2)
  {
    var p := Product(RotationY(c2, s2), RotationY(c1, s1));
    forall i, j | 0 <= i < 4 && 0 <= j < 4
      ensures p.data[i][j] == RotationY(c1 * c2 - s1 * s2, s1 * c2 + c1 * s2).data[i][j]
    {
      ProductAt(RotationY(c2, s2), RotationY(c1, s1), i, j);
    }
    ProductAt(RotationY(c2, s2), RotationY(c1, s1), 0, 0);
    Ext(p, RotationY(c1 * c2 - s1 * s2, s1 * c2 + c1 * s2));
  }

  lemma RotationZAdds(c1: real, s1: real, c2: real, s2: real)
    ensures Product(RotationZ(c2, s2), RotationZ(c1, s1)) == RotationZ(c1 * c2 - s1 * s2, s1 * c2 + c1 * s2)
  {
    var p := Product(RotationZ(c2, s2), RotationZ(c1, s1));
    forall i, j | 0 <= i < 4 && 0 <= j < 4
      ensures p.data[i][j] == RotationZ(c1 * c2 - s1 * s2, s1 * c2 + c1 * s2).data[i][j]
    {
      ProductAt(RotationZ(c2, s2), RotationZ(c1, s1), i, j);
    }
    ProductAt(RotationZ(c2, s2), RotationZ(c1, s1), 0, 0);
    Ext(p, RotationZ(c1 * c2 - s1 * s2, s1 * c2 + c1 * s2));
  }
}
