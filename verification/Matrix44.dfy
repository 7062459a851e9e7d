/** 4x4 matrices of math3d, over exact reals: sixteen numbers, column after column. */
module Matrix44 {

  type Matrix = m: seq<real> | |m| == 16 witness seq(16, i => 0.0)

  const IDENTITY: Matrix := [1.0, 0.0, 0.0, 0.0, 0.0, 1.0, 0.0, 0.0, 0.0, 0.0, 1.0, 0.0, 0.0, 0.0, 0.0, 1.0]

  /** Entry r of column c. */
  function At(m: Matrix, c: nat, r: nat): real
    requires c < 4 && r < 4
  {
    m[4 * c + r]
  }

  lemma EntriesMakeMatrix(a: Matrix, b: Matrix)
    requires forall c, r :: 0 <= c < 4 && 0 <= r < 4 ==> At(a, c, r) == At(b, c, r)
    ensures a == b
  {
    forall n | 0 <= n < 16
      ensures a[n] == b[n]
    {
      assert At(a, n / 4, n % 4) == At(b, n / 4, n % 4);
    }
  }

  /** The source divides once and multiplies by the reciprocal. */
  function Quotient(x: real, d: real): real
    requires d != 0.0
  {
    x * (1.0 / d)
  }

  datatype Line = Line(x: real, y: real, z: real, w: real) {
    function Dot(l: Line): real { x * l.x + y * l.y + z * l.z + w * l.w }
    function Over(d: real): Line
      requires d != 0.0
    {
      Line(Quotient(x, d), Quotient(y, d), Quotient(z, d), Quotient(w, d))
    }
    function Negated(): Line { Line(-x, -y, -z, -w) }
  }

  function Column(m: Matrix, c: nat): Line
    requires c < 4
  {
    Line(At(m, c, 0), At(m, c, 1), At(m, c, 2), At(m, c, 3))
  }

  function Row(m: Matrix, r: nat): Line
    requires r < 4
  {
    Line(At(m, 0, r), At(m, 1, r), At(m, 2, r), At(m, 3, r))
  }

  function Cell(a: Matrix, b: Matrix, r: nat, c: nat): real
    requires r < 4 && c < 4
  {
    Row(a, r).Dot(Column(b, c))
  }

  function Multiply(a: Matrix, b: Matrix): Matrix {
    seq(16, n requires 0 <= n < 16 => Cell(a, b, n % 4, n / 4))
  }

  lemma ProductEntry(a: Matrix, b: Matrix, c: nat, r: nat)
    requires c < 4 && r < 4
    ensures At(Multiply(a, b), c, r) == Cell(a, b, r, c)
  {
    hide Cell;
  }

  lemma CellsMakeProduct(p: Matrix, a: Matrix, b: Matrix)
    requires forall r, c :: 0 <= r < 4 && 0 <= c < 4 ==> At(p, c, r) == Cell(a, b, r, c)
    ensures p == Multiply(a, b)
  {
    hide Cell;
    EntriesMakeMatrix(p, Multiply(a, b));
  }

  // ---------- transforming a vector ----------

  function Transform(m: Matrix, v: Line): Line {
    Line(Row(m, 0).Dot(v), Row(m, 1).Dot(v), Row(m, 2).Dot(v), Row(m, 3).Dot(v))
  }

  /** m3dTransformVector4 */
  method TransformVector4(vOut: array<real>, v: array<real>, m: array<real>)
    requires vOut.Length == 4 && v.Length == 4 && m.Length == 16 && vOut != v && vOut != m
    modifies vOut
    ensures vOut[..] == Entries(Transform(m[..], LineIn(v[..])))
  {
    DotExpands(m[..], v[..], 0);
    DotExpands(m[..], v[..], 1);
    DotExpands(m[..], v[..], 2);
    DotExpands(m[..], v[..], 3);
    ghost var t := Transform(m[..], LineIn(v[..]));
    hide Line.Dot, Row, LineIn;
    vOut[0] := m[0] * v[0] + m[4] * v[1] + m[8] * v[2] + m[12] * v[3];
    vOut[1] := m[1] * v[0] + m[5] * v[1] + m[9] * v[2] + m[13] * v[3];
    vOut[2] := m[2] * v[0] + m[6] * v[1] + m[10] * v[2] + m[14] * v[3];
    vOut[3] := m[3] * v[0] + m[7] * v[1] + m[11] * v[2] + m[15] * v[3];
    assert vOut[0] == t.x && vOut[1] == t.y && vOut[2] == t.z && vOut[3] == t.w;
    assert vOut[..] == [vOut[0], vOut[1], vOut[2], vOut[3]];
  }

  function LineIn(s: seq<real>): Line
    requires |s| == 4
  {
    Line(s[0], s[1], s[2], s[3])
  }

  function Entries(l: Line): seq<real> { [l.x, l.y, l.z, l.w] }

  lemma DotExpands(m: Matrix, v: seq<real>, r: nat)
    requires r < 4 && |v| == 4
    ensures Row(m, r).Dot(LineIn(v)) == m[r] * v[0] + m[4 + r] * v[1] + m[8 + r] * v[2] + m[12 + r] * v[3]
  {
  }

  /** Column c of a product is the transformed column c of the second matrix. */
  lemma ProductColumn(a: Matrix, b: Matrix, c: nat)
    requires c < 4
    ensures Column(Multiply(a, b), c) == Transform(a, Column(b, c))
  {
    ProductEntry(a, b, c, 0);
    ProductEntry(a, b, c, 1);
    ProductEntry(a, b, c, 2);
    ProductEntry(a, b, c, 3);
    var l := Line(Cell(a, b, 0, c), Cell(a, b, 1, c), Cell(a, b, 2, c), Cell(a, b, 3, c));
    assert Column(Multiply(a, b), c) == l by {
      hide Multiply, At, Cell;
    }
    hide Multiply, Column, At, Line.Dot, Row;
  }

  lemma ColumnsMakeMatrix(a: Matrix, b: Matrix)
    requires Column(a, 0) == Column(b, 0) && Column(a, 1) == Column(b, 1)
    requires Column(a, 2) == Column(b, 2) && Column(a, 3) == Column(b, 3)
    ensures a == b
  {
    forall c, r | 0 <= c < 4 && 0 <= r < 4
      ensures At(a, c, r) == At(b, c, r)
    {
      assert Column(a, c) == Column(b, c);
      hide At;
    }
    EntriesMakeMatrix(a, b);
  }

  lemma DotOfSum(l: Line, a: Line, b: Line, c: Line, d: Line, v: Line)
    ensures l.Dot(Line(a.Dot(v), b.Dot(v), c.Dot(v), d.Dot(v)))
         == Line(l.Dot(Line(a.x, b.x, c.x, d.x)), l.Dot(Line(a.y, b.y, c.y, d.y)),
                 l.Dot(Line(a.z, b.z, c.z, d.z)), l.Dot(Line(a.w, b.w, c.w, d.w))).Dot(v)
  {
    LeftSum(l, a, b, c, d, v, Line(a.Dot(v), b.Dot(v), c.Dot(v), d.Dot(v)));
    RightSum(l, a, b, c, d, v, Line(l.Dot(Line(a.x, b.x, c.x, d.x)), l.Dot(Line(a.y, b.y, c.y, d.y)),
                                    l.Dot(Line(a.z, b.z, c.z, d.z)), l.Dot(Line(a.w, b.w, c.w, d.w))));
    hide Line.Dot;
    SumIdentity(l.x, l.y, l.z, l.w, a.x, a.y, a.z, a.w, b.x, b.y, b.z, b.w, c.x, c.y, c.z, c.w, d.x, d.y, d.z, d.w,
                v.x, v.y, v.z, v.w);
  }

  lemma LeftSum(l: Line, a: Line, b: Line, c: Line, d: Line, v: Line, t: Line)
    requires t == Line(a.Dot(v), b.Dot(v), c.Dot(v), d.Dot(v))
    ensures l.Dot(t) == l.x * (a.x * v.x + a.y * v.y + a.z * v.z + a.w * v.w)
                        + l.y * (b.x * v.x + b.y * v.y + b.z * v.z + b.w * v.w)
                        + l.z * (c.x * v.x + c.y * v.y + c.z * v.z + c.w * v.w)
                        + l.w * (d.x * v.x + d.y * v.y + d.z * v.z + d.w * v.w)
  {
    SameTimes(l.x, t.x, a.x * v.x + a.y * v.y + a.z * v.z + a.w * v.w);
    SameTimes(l.y, t.y, b.x * v.x + b.y * v.y + b.z * v.z + b.w * v.w);
    SameTimes(l.z, t.z, c.x * v.x + c.y * v.y + c.z * v.z + c.w * v.w);
    SameTimes(l.w, t.w, d.x * v.x + d.y * v.y + d.z * v.z + d.w * v.w);
  }

  lemma RightSum(l: Line, a: Line, b: Line, c: Line, d: Line, v: Line, s: Line)
    requires s == Line(l.Dot(Line(a.x, b.x, c.x, d.x)), l.Dot(Line(a.y, b.y, c.y, d.y)),
                       l.Dot(Line(a.z, b.z, c.z, d.z)), l.Dot(Line(a.w, b.w, c.w, d.w)))
    ensures s.Dot(v) == v.x * (l.x * a.x + l.y * b.x + l.z * c.x + l.w * d.x)
                        + v.y * (l.x * a.y + l.y * b.y + l.z * c.y + l.w * d.y)
                        + v.z * (l.x * a.z + l.y * b.z + l.z * c.z + l.w * d.z)
                        + v.w * (l.x * a.w + l.y * b.w + l.z * c.w + l.w * d.w)
  {
    SameTimes(v.x, s.x, l.x * a.x + l.y * b.x + l.z * c.x + l.w * d.x);
    SameTimes(v.y, s.y, l.x * a.y + l.y * b.y + l.z * c.y + l.w * d.y);
    SameTimes(v.z, s.z, l.x * a.z + l.y * b.z + l.z * c.z + l.w * d.z);
    SameTimes(v.w, s.w, l.x * a.w + l.y * b.w + l.z * c.w + l.w * d.w);
  }

  lemma SameTimes(k: real, x: real, y: real)
    requires x == y
    ensures k * x == k * y
  {
  }

  lemma SumIdentity(i: real, j: real, k: real, l: real, ax: real, ay: real, az: real, aw: real,
                    bx: real, by0: real, bz: real, bw: real, cx: real, cy: real, cz: real, cw: real,
                    dx: real, dy: real, dz: real, dw: real, x: real, y: real, z: real, w: real)
    ensures i * (ax * x + ay * y + az * z + aw * w) + j * (bx * x + by0 * y + bz * z + bw * w)
            + k * (cx * x + cy * y + cz * z + cw * w) + l * (dx * x + dy * y + dz * z + dw * w)
         == x * (i * ax + j * bx + k * cx + l * dx) + y * (i * ay + j * by0 + k * cy + l * dy)
            + z * (i * az + j * bz + k * cz + l * dz) + w * (i * aw + j * bw + k * cw + l * dw)
  {
  }

  /** Transforming by a product is transforming by the second matrix and then by the first. */
  lemma TransformTwice(a: Matrix, b: Matrix, v: Line)
    ensures Transform(Multiply(a, b), v) == Transform(a, Transform(b, v))
  {
    forall r | 0 <= r < 4
      ensures Row(Multiply(a, b), r).Dot(v) == Row(a, r).Dot(Transform(b, v))
    {
      DotOfSum(Row(a, r), Row(b, 0), Row(b, 1), Row(b, 2), Row(b, 3), v);
      ProductRow(a, b, r);
      ColumnRows(b, 0);
      ColumnRows(b, 1);
      ColumnRows(b, 2);
      ColumnRows(b, 3);
      hide Multiply, Column, Row, At, Line.Dot;
    }
    hide Multiply, Column, Row, At, Line.Dot;
  }

  lemma ColumnRows(b: Matrix, c: nat)
    requires c < 4
    ensures Column(b, 0) == Line(Row(b, 0).x, Row(b, 1).x, Row(b, 2).x, Row(b, 3).x)
    ensures Column(b, 1) == Line(Row(b, 0).y, Row(b, 1).y, Row(b, 2).y, Row(b, 3).y)
    ensures Column(b, 2) == Line(Row(b, 0).z, Row(b, 1).z, Row(b, 2).z, Row(b, 3).z)
    ensures Column(b, 3) == Line(Row(b, 0).w, Row(b, 1).w, Row(b, 2).w, Row(b, 3).w)
  {
    hide At;
  }

  lemma ProductRow(a: Matrix, b: Matrix, r: nat)
    requires r < 4
    ensures Row(Multiply(a, b), r) == Line(Row(a, r).Dot(Column(b, 0)), Row(a, r).Dot(Column(b, 1)),
                                           Row(a, r).Dot(Column(b, 2)), Row(a, r).Dot(Column(b, 3)))
  {
    ProductEntry(a, b, 0, r);
    ProductEntry(a, b, 1, r);
    ProductEntry(a, b, 2, r);
    ProductEntry(a, b, 3, r);
    hide Multiply, Column, At, Line.Dot;
  }

  lemma MultiplyAssociates(a: Matrix, b: Matrix, c: Matrix)
    ensures Multiply(Multiply(a, b), c) == Multiply(a, Multiply(b, c))
  {
    forall k: nat | k < 4
      ensures Column(Multiply(Multiply(a, b), c), k) == Column(Multiply(a, Multiply(b, c)), k)
    {
      ProductColumn(Multiply(a, b), c, k);
      ProductColumn(a, Multiply(b, c), k);
      ProductColumn(b, c, k);
      TransformTwice(a, b, Column(c, k));
      hide Multiply, Column, Transform;
    }
    hide Multiply, Column, Transform;
    ColumnsMakeMatrix(Multiply(Multiply(a, b), c), Multiply(a, Multiply(b, c)));
  }

  lemma IdentityTransforms(v: Line)
    ensures Transform(IDENTITY, v) == v
  {
  }

  lemma IdentityIsUnit(m: Matrix)
    ensures Multiply(IDENTITY, m) == m && Multiply(m, IDENTITY) == m
  {
    forall k: nat | k < 4
      ensures Column(Multiply(IDENTITY, m), k) == Column(m, k)
      ensures Column(Multiply(m, IDENTITY), k) == Column(m, k)
    {
      ProductColumn(IDENTITY, m, k);
      IdentityTransforms(Column(m, k));
      ProductColumn(m, IDENTITY, k);
      UnitColumn(m, k);
      hide Multiply, Column, Transform, IDENTITY;
    }
    hide Multiply, Column, Transform, IDENTITY;
    ColumnsMakeMatrix(Multiply(IDENTITY, m), m);
    ColumnsMakeMatrix(Multiply(m, IDENTITY), m);
  }

  lemma MultiplyScales(a: real, b: real)
    ensures Multiply(IDENTITY[0 := a], IDENTITY[0 := b]) == IDENTITY[0 := a * b]
  {
    hide Multiply, Transform, Column, IDENTITY;
    var x, y, z := IDENTITY[0 := a], IDENTITY[0 := b], IDENTITY[0 := a * b];
    ScaleColumns(b);
    ScaleColumns(a * b);
    ScaleTransforms(a, Column(y, 0));
    ScaleTransforms(a, Column(y, 1));
    ScaleTransforms(a, Column(y, 2));
    ScaleTransforms(a, Column(y, 3));
    ProductColumn(x, y, 0);
    ProductColumn(x, y, 1);
    ProductColumn(x, y, 2);
    ProductColumn(x, y, 3);
    ColumnsMakeMatrix(Multiply(x, y), z);
  }

  lemma ScaleColumns(a: real)
    ensures var m := IDENTITY[0 := a];
            && Column(m, 0) == Line(a, 0.0, 0.0, 0.0) && Column(m, 1) == Line(0.0, 1.0, 0.0, 0.0)
            && Column(m, 2) == Line(0.0, 0.0, 1.0, 0.0) && Column(m, 3) == Line(0.0, 0.0, 0.0, 1.0)
  {
  }

  lemma ScaleTransforms(a: real, v: Line)
    ensures Transform(IDENTITY[0 := a], v) == Line(a * v.x, v.y, v.z, v.w)
  {
  }

  lemma UnitColumn(m: Matrix, k: nat)
    requires k < 4
    ensures Transform(m, Column(IDENTITY, k)) == Column(m, k)
  {
    UnitColumns(m);
    hide Column, Transform, IDENTITY;
    if k == 0 {
    } else if k == 1 {
    } else if k == 2 {
    } else {
    }
  }

  lemma UnitColumns(m: Matrix)
    ensures Transform(m, Column(IDENTITY, 0)) == Column(m, 0) && Transform(m, Column(IDENTITY, 1)) == Column(m, 1)
    ensures Transform(m, Column(IDENTITY, 2)) == Column(m, 2) && Transform(m, Column(IDENTITY, 3)) == Column(m, 3)
  {
  }

  // ---------- the multiplication of the source ----------

  /** The body of the loop of m3dMatrixMultiply44: row i of the product. */
  method FillRow(product: array<real>, a: array<real>, b: array<real>, i: nat)
    requires product.Length == 16 && a.Length == 16 && b.Length == 16 && product != b && i < 4
    modifies product
    ensures forall c :: 0 <= c < 4 ==> product[4 * c + i] == Cell(old(a[..]), b[..], i, c)
    ensures forall k :: 0 <= k < 16 && k != i && k != 4 + i && k != 8 + i && k != 12 + i ==>
              product[k] == old(product[k])
  {
    hide Line.Dot;
    ghost var x, y := a[..], b[..];
    var row := Line(a[i], a[4 + i], a[8 + i], a[12 + i]);
    assert row == Row(x, i);
    product[i] := row.Dot(Line(b[0], b[1], b[2], b[3]));
    assert product[i] == Cell(x, y, i, 0);
    product[4 + i] := row.Dot(Line(b[4], b[5], b[6], b[7]));
    assert product[4 + i] == Cell(x, y, i, 1);
    product[8 + i] := row.Dot(Line(b[8], b[9], b[10], b[11]));
    assert product[8 + i] == Cell(x, y, i, 2);
    product[12 + i] := row.Dot(Line(b[12], b[13], b[14], b[15]));
    assert product[12 + i] == Cell(x, y, i, 3);
    assert b[..] == y;
  }

  /** m3dMatrixMultiply44. The product may take the place of the first factor: each row is read before it is written. */
  method MatrixMultiply44(product: array<real>, a: array<real>, b: array<real>)
    requires product.Length == 16 && a.Length == 16 && b.Length == 16 && product != b
    modifies product
    ensures product[..] == Multiply(old(a[..]), b[..])
  {
    hide Cell, Multiply;
    ghost var x, y := a[..], b[..];
    for i := 0 to 4
      invariant b[..] == y && forall k :: 0 <= k < 16 && k % 4 >= i ==> a[k] == x[k]
      invariant forall r, c :: 0 <= r < i && 0 <= c < 4 ==> product[4 * c + r] == Cell(x, y, r, c)
    {
      CellsOfRow(a[..], x, y, i);
      FillRow(product, a, b, i);
    }
    RawCells(product[..], x, y);
  }

  lemma CellsOfRow(a: Matrix, x: Matrix, b: Matrix, i: nat)
    requires i < 4 && a[i] == x[i] && a[4 + i] == x[4 + i] && a[8 + i] == x[8 + i] && a[12 + i] == x[12 + i]
    ensures forall c :: 0 <= c < 4 ==> Cell(a, b, i, c) == Cell(x, b, i, c)
  {
  }

  lemma RawCells(p: Matrix, a: Matrix, b: Matrix)
    requires forall r, c :: 0 <= r < 4 && 0 <= c < 4 ==> p[4 * c + r] == Cell(a, b, r, c)
    ensures p == Multiply(a, b)
  {
    CellsMakeProduct(p, a, b);
  }

  // ---------- determinants ----------

  /** The x-th of the numbers 0 to 3 other than i. */
  function Other(i: nat, x: nat): (k: nat)
    requires i < 4 && x < 3
    ensures k < 4 && k != i
  {
    if x < i then x else x + 1
  }

  function Det2(a: real, b: real, c: real, d: real): real { a * d - c * b }

  function Det3(a: real, b: real, c: real, d: real, e: real, f: real, g: real, h: real, i: real): real {
    a * Det2(e, f, h, i) - b * Det2(d, f, g, i) + c * Det2(d, e, g, h)
  }

  lemma Det3Transposed(a: real, b: real, c: real, d: real, e: real, f: real, g: real, h: real, i: real)
    ensures Det3(a, b, c, d, e, f, g, h, i) == Det3(a, d, g, b, e, h, c, f, i)
  {
  }

  lemma Det3Cycles(a: real, b: real, c: real, d: real, e: real, f: real, g: real, h: real, i: real)
    ensures Det3(a, b, c, d, e, f, g, h, i) == Det3(g, h, i, a, b, c, d, e, f)
  {
  }

  lemma Det3Swaps(a: real, b: real, c: real, d: real, e: real, f: real, g: real, h: real, i: real)
    ensures Det3(d, e, f, a, b, c, g, h, i) == -Det3(a, b, c, d, e, f, g, h, i)
  {
  }

  /** The determinant without line i and position j. */
  function Minor(m: Matrix, i: nat, j: nat): real
    requires i < 4 && j < 4
  {
    var r, s, t := Other(i, 0), Other(i, 1), Other(i, 2);
    var u, v, w := Other(j, 0), Other(j, 1), Other(j, 2);
    Det3(At(m, r, u), At(m, r, v), At(m, r, w), At(m, s, u), At(m, s, v), At(m, s, w),
         At(m, t, u), At(m, t, v), At(m, t, w))
  }

  function Cofactor(m: Matrix, i: nat, j: nat): real
    requires i < 4 && j < 4
  {
    if (i + j) % 2 == 1 then -Minor(m, i, j) else Minor(m, i, j)
  }

  function Det(m: Matrix): real {
    At(m, 0, 0) * Cofactor(m, 0, 0) + At(m, 0, 1) * Cofactor(m, 0, 1)
    + At(m, 0, 2) * Cofactor(m, 0, 2) + At(m, 0, 3) * Cofactor(m, 0, 3)
  }

  /** The inverse the source computes: the transposed cofactors over the determinant. */
  function Inverse(m: Matrix): Matrix
    requires Det(m) != 0.0
  {
    seq(16, n requires 0 <= n < 16 => Quotient(Cofactor(m, n % 4, n / 4), Det(m)))
  }

  // ---------- cofactor expansion ----------

  /** The line that is orthogonal to three others. */
  function Cross(a: Line, b: Line, c: Line): Line {
    Line(Det3(a.y, a.z, a.w, b.y, b.z, b.w, c.y, c.z, c.w),
         -Det3(a.x, a.z, a.w, b.x, b.z, b.w, c.x, c.z, c.w),
         Det3(a.x, a.y, a.w, b.x, b.y, b.w, c.x, c.y, c.w),
         -Det3(a.x, a.y, a.z, b.x, b.y, b.z, c.x, c.y, c.z))
  }

  /** Exchanging the outer line with the first of the cross product changes the sign; the 2x2 determinants of the
      other two lines enter as plain numbers. */
  lemma ExchangeFirst(a: Line, b: Line, n01: real, n02: real, n03: real, n12: real, n13: real, n23: real)
    ensures a.x * (b.y * n23 - b.z * n13 + b.w * n12) - a.y * (b.x * n23 - b.z * n03 + b.w * n02)
            + a.z * (b.x * n13 - b.y * n03 + b.w * n01) - a.w * (b.x * n12 - b.y * n02 + b.z * n01)
         == -(b.x * (a.y * n23 - a.z * n13 + a.w * n12) - b.y * (a.x * n23 - a.z * n03 + a.w * n02)
              + b.z * (a.x * n13 - a.y * n03 + a.w * n01) - b.w * (a.x * n12 - a.y * n02 + a.z * n01))
  {
  }

  lemma Exchange(a: Line, b: Line, c: Line, d: Line)
    ensures a.Dot(Cross(b, c, d)) == -b.Dot(Cross(a, c, d))
  {
    hide Det2;
    ExchangeFirst(a, b, Det2(c.x, c.y, d.x, d.y), Det2(c.x, c.z, d.x, d.z), Det2(c.x, c.w, d.x, d.w),
                  Det2(c.y, c.z, d.y, d.z), Det2(c.y, c.w, d.y, d.w), Det2(c.z, c.w, d.z, d.w));
  }

  lemma CrossCycles(a: Line, b: Line, c: Line)
    ensures Cross(a, b, c) == Cross(c, a, b)
  {
    Det3Cycles(a.y, a.z, a.w, b.y, b.z, b.w, c.y, c.z, c.w);
    Det3Cycles(a.x, a.z, a.w, b.x, b.z, b.w, c.x, c.z, c.w);
    Det3Cycles(a.x, a.y, a.w, b.x, b.y, b.w, c.x, c.y, c.w);
    Det3Cycles(a.x, a.y, a.z, b.x, b.y, b.z, c.x, c.y, c.z);
    hide Det3;
  }

  lemma CrossSwaps(a: Line, b: Line, c: Line)
    ensures Cross(b, a, c) == Cross(a, b, c).Negated()
  {
    Det3Swaps(a.y, a.z, a.w, b.y, b.z, b.w, c.y, c.z, c.w);
    Det3Swaps(a.x, a.z, a.w, b.x, b.z, b.w, c.x, c.z, c.w);
    Det3Swaps(a.x, a.y, a.w, b.x, b.y, b.w, c.x, c.y, c.w);
    Det3Swaps(a.x, a.y, a.z, b.x, b.y, b.z, c.x, c.y, c.z);
    hide Det3;
  }

  lemma CrossIsOrthogonal(a: Line, b: Line, c: Line)
    ensures a.Dot(Cross(a, b, c)) == 0.0 && b.Dot(Cross(a, b, c)) == 0.0 && c.Dot(Cross(a, b, c)) == 0.0
  {
    Exchange(a, a, b, c);
    Exchange(b, b, c, a);
    Exchange(c, c, a, b);
    CrossCycles(a, b, c);
    CrossCycles(c, a, b);
    hide Cross, Line.Dot;
  }

  /** Expansion along any of four lines gives the same determinant. */
  lemma SameDeterminant(a: Line, b: Line, c: Line, d: Line)
    ensures b.Dot(Cross(a, c, d)) == -a.Dot(Cross(b, c, d))
    ensures c.Dot(Cross(a, b, d)) == a.Dot(Cross(b, c, d))
    ensures d.Dot(Cross(a, b, c)) == -a.Dot(Cross(b, c, d))
  {
    Exchange(b, a, c, d);
    Exchange(c, a, b, d);
    CrossSwaps(b, c, d);
    NegatedDot(a, Cross(b, c, d));
    Exchange(d, a, b, c);
    CrossCycles(b, c, d);
    hide Cross, Line.Dot, Line.Negated;
  }

  function CofactorLine(m: Matrix, j: nat): Line
    requires j < 4
  {
    Line(Cofactor(m, j, 0), Cofactor(m, j, 1), Cofactor(m, j, 2), Cofactor(m, j, 3))
  }

  lemma CofactorsAreCross(m: Matrix, j: nat)
    requires j < 4
    ensures var c := Cross(Column(m, Other(j, 0)), Column(m, Other(j, 1)), Column(m, Other(j, 2)));
            CofactorLine(m, j) == if j % 2 == 0 then c else c.Negated()
  {
  }

  lemma NegatedDot(a: Line, b: Line)
    ensures a.Dot(b.Negated()) == -a.Dot(b)
  {
  }

  /** Line i against the cofactors of line j: the determinant if they are the same, else zero. */
  lemma ExpandLines(m: Matrix, i: nat, j: nat)
    requires i < 4 && j < 4
    ensures Column(m, i).Dot(CofactorLine(m, j)) == if i == j then Det(m) else 0.0
  {
    var a, b, c, d := Column(m, 0), Column(m, 1), Column(m, 2), Column(m, 3);
    var p, q, r := Column(m, Other(j, 0)), Column(m, Other(j, 1)), Column(m, Other(j, 2));
    hide CofactorLine, Cross, Column, Line.Dot, Line.Negated, Cofactor;
    FirstLine(m);
    CofactorsAreCross(m, j);
    CofactorsAreCross(m, 0);
    CrossIsOrthogonal(p, q, r);
    SameDeterminant(a, b, c, d);
    NegatedDot(Column(m, i), Cross(p, q, r));
    hide Det;
  }

  lemma FirstLine(m: Matrix)
    ensures Det(m) == Column(m, 0).Dot(CofactorLine(m, 0))
  {
  }

  function Transpose(m: Matrix): Matrix {
    seq(16, n requires 0 <= n < 16 => At(m, n % 4, n / 4))
  }

  lemma TransposedEntry(m: Matrix, c: nat, r: nat)
    requires c < 4 && r < 4
    ensures At(Transpose(m), c, r) == At(m, r, c)
  {
  }

  lemma CofactorTransposed(m: Matrix, i: nat, j: nat)
    requires i < 4 && j < 4
    ensures Cofactor(Transpose(m), i, j) == Cofactor(m, j, i)
  {
    var r, s, t := Other(j, 0), Other(j, 1), Other(j, 2);
    var u, v, w := Other(i, 0), Other(i, 1), Other(i, 2);
    forall x: nat, y: nat | x < 4 && y < 4
      ensures At(Transpose(m), x, y) == At(m, y, x)
    {
      TransposedEntry(m, x, y);
    }
    Det3Transposed(At(m, r, u), At(m, r, v), At(m, r, w), At(m, s, u), At(m, s, v), At(m, s, w),
                   At(m, t, u), At(m, t, v), At(m, t, w));
    hide At, Det3, Other, Transpose;
  }

  /** Expanding sixteen numbers along the first line or along the first position is the same: both sides come down
      to the same 2x2 determinants. */
  lemma ExpansionsAgree(a: real, b: real, c: real, d: real, e: real, f: real, g: real, h: real,
                        i: real, j: real, k: real, l: real, m: real, n: real, o: real, p: real)
    ensures a * Det3(f, g, h, j, k, l, n, o, p) - b * Det3(e, g, h, i, k, l, m, o, p)
            + c * Det3(e, f, h, i, j, l, m, n, p) - d * Det3(e, f, g, i, j, k, m, n, o)
         == a * Det3(f, g, h, j, k, l, n, o, p) - e * Det3(b, c, d, j, k, l, n, o, p)
            + i * Det3(b, c, d, f, g, h, n, o, p) - m * Det3(b, c, d, f, g, h, j, k, l)
  {
    Det3Transposed(e, g, h, i, k, l, m, o, p);
    Det3Transposed(e, f, h, i, j, l, m, n, p);
    Det3Transposed(e, f, g, i, j, k, m, n, o);
    Det2Symmetric(f, g, j, k);
    Det2Symmetric(f, g, n, o);
    Det2Symmetric(f, h, j, l);
    Det2Symmetric(f, h, n, p);
    Det2Symmetric(g, h, k, l);
    Det2Symmetric(g, h, o, p);
    Det2Symmetric(j, k, n, o);
    Det2Symmetric(j, l, n, p);
    Det2Symmetric(k, l, o, p);
    hide Det2;
  }

  lemma Det2Symmetric(a: real, b: real, c: real, d: real)
    ensures Det2(a, b, c, d) == Det2(a, c, b, d)
  {
  }

  lemma DetTransposed(m: Matrix)
    ensures Det(Transpose(m)) == Det(m)
  {
    hide Transpose, Cofactor, At;
    CofactorTransposed(m, 0, 0);
    CofactorTransposed(m, 0, 1);
    CofactorTransposed(m, 0, 2);
    CofactorTransposed(m, 0, 3);
    TransposedEntry(m, 0, 0);
    TransposedEntry(m, 0, 1);
    TransposedEntry(m, 0, 2);
    TransposedEntry(m, 0, 3);
    FirstLineOrPosition(m);
  }

  lemma FirstLineOrPosition(m: Matrix)
    ensures Det(m) == At(m, 0, 0) * Cofactor(m, 0, 0) + At(m, 1, 0) * Cofactor(m, 1, 0)
                      + At(m, 2, 0) * Cofactor(m, 2, 0) + At(m, 3, 0) * Cofactor(m, 3, 0)
  {
    ExpansionsAgree(At(m, 0, 0), At(m, 0, 1), At(m, 0, 2), At(m, 0, 3), At(m, 1, 0), At(m, 1, 1), At(m, 1, 2),
                    At(m, 1, 3), At(m, 2, 0), At(m, 2, 1), At(m, 2, 2), At(m, 2, 3), At(m, 3, 0), At(m, 3, 1),
                    At(m, 3, 2), At(m, 3, 3));
    hide At, Det3;
  }

  // ---------- the inverse ----------

  lemma IdentityEntry(c: nat, r: nat)
    requires c < 4 && r < 4
    ensures At(IDENTITY, c, r) == if r == c then 1.0 else 0.0
  {
    if c == 0 {
    } else if c == 1 {
    } else if c == 2 {
    } else {
    }
  }

  /** Every matrix with a determinant other than zero times its inverse is the identity, from either side. */
  lemma InverseIsTwoSided(m: Matrix)
    requires Det(m) != 0.0
    ensures Multiply(Inverse(m), m) == IDENTITY && Multiply(m, Inverse(m)) == IDENTITY
  {
    forall r, c | 0 <= r < 4 && 0 <= c < 4
      ensures Cell(Inverse(m), m, r, c) == (if r == c then 1.0 else 0.0)
      ensures Cell(m, Inverse(m), r, c) == (if r == c then 1.0 else 0.0)
    {
      LeftCell(m, r, c);
      RightCell(m, r, c);
    }
    forall r, c | 0 <= r < 4 && 0 <= c < 4
      ensures At(IDENTITY, c, r) == if r == c then 1.0 else 0.0
    {
      IdentityEntry(c, r);
    }
    hide Cell, Inverse, Multiply, Det, At, IDENTITY;
    CellsMakeProduct(IDENTITY, Inverse(m), m);
    CellsMakeProduct(IDENTITY, m, Inverse(m));
  }

  lemma DotOver(a: Line, b: Line, d: real)
    requires d != 0.0
    ensures a.Over(d).Dot(b) == Quotient(b.Dot(a), d) && b.Dot(a.Over(d)) == Quotient(b.Dot(a), d)
  {
  }

  lemma Quotients(d: real)
    requires d != 0.0
    ensures Quotient(d, d) == 1.0 && Quotient(0.0, d) == 0.0
  {
  }

  lemma QuotientIs(x: real, d: real, k: real)
    requires d != 0.0 && k == 1.0 / d
    ensures Quotient(x, d) == x * k && Quotient(-x, d) == -x * k
  {
  }

  lemma InverseEntry(m: Matrix, r: nat, c: nat)
    requires Det(m) != 0.0 && r < 4 && c < 4
    ensures At(Inverse(m), c, r) == Quotient(Cofactor(m, r, c), Det(m))
  {
    hide Cofactor, Det, Quotient;
  }

  /** Row r of the inverse is the scaled cofactor line r; column c of it is the scaled cofactor position c. */
  lemma InverseLines(m: Matrix, n: nat)
    requires Det(m) != 0.0 && n < 4
    ensures Row(Inverse(m), n) == CofactorLine(m, n).Over(Det(m))
    ensures Column(Inverse(m), n) == CofactorLine(Transpose(m), n).Over(Det(m))
  {
    forall k | 0 <= k < 4
      ensures At(Inverse(m), k, n) == Quotient(Cofactor(m, n, k), Det(m))
      ensures At(Inverse(m), n, k) == Quotient(Cofactor(Transpose(m), n, k), Det(m))
    {
      InverseEntry(m, n, k);
      InverseEntry(m, k, n);
      CofactorTransposed(m, n, k);
    }
    hide Inverse, Det, Cofactor, At, Transpose, Quotient;
  }

  lemma LeftCell(m: Matrix, r: nat, c: nat)
    requires Det(m) != 0.0 && r < 4 && c < 4
    ensures Cell(Inverse(m), m, r, c) == if r == c then 1.0 else 0.0
  {
    InverseLines(m, r);
    ExpandLines(m, c, r);
    DotOver(CofactorLine(m, r), Column(m, c), Det(m));
    Quotients(Det(m));
    hide Inverse, Det, Row, Column, CofactorLine, Quotient, Line.Dot, Line.Over;
  }

  lemma RightCell(m: Matrix, r: nat, c: nat)
    requires Det(m) != 0.0 && r < 4 && c < 4
    ensures Cell(m, Inverse(m), r, c) == if r == c then 1.0 else 0.0
  {
    var t := Transpose(m);
    TransposedLine(m, r);
    InverseLines(m, c);
    ExpandLines(t, r, c);
    DetTransposed(m);
    DotOver(CofactorLine(t, c), Row(m, r), Det(m));
    Quotients(Det(m));
    hide Inverse, Det, Row, Column, CofactorLine, Quotient, Line.Dot, Line.Over, Transpose;
  }

  lemma TransposedLine(m: Matrix, r: nat)
    requires r < 4
    ensures Column(Transpose(m), r) == Row(m, r)
  {
    TransposedEntry(m, r, 0);
    TransposedEntry(m, r, 1);
    TransposedEntry(m, r, 2);
    TransposedEntry(m, r, 3);
    hide Transpose, At;
  }

  lemma EntriesMakeInverse(x: Matrix, m: Matrix)
    requires Det(m) != 0.0
    requires forall r, c :: 0 <= r < 4 && 0 <= c < 4 ==> At(x, c, r) == Quotient(Cofactor(m, r, c), Det(m))
    ensures x == Inverse(m)
  {
    hide Cofactor, Det, Quotient;
    EntriesMakeMatrix(x, Inverse(m));
  }

  /** A left inverse is the inverse. */
  lemma LeftInverseIsInverse(x: Matrix, m: Matrix)
    requires Det(m) != 0.0 && Multiply(x, m) == IDENTITY
    ensures x == Inverse(m) && Multiply(m, x) == IDENTITY
  {
    InverseIsTwoSided(m);
    MultiplyAssociates(x, m, Inverse(m));
    IdentityIsUnit(x);
    IdentityIsUnit(Inverse(m));
    hide Inverse, Multiply, Det, IDENTITY;
  }

  // ---------- the code ----------

  lemma OtherIs(i: nat, ii: nat)
    requires i < 4 && ii < 4 && i != ii
    ensures Other(i, if ii < i then ii else ii - 1) == ii
  {
  }

  lemma MinorIs(m: Matrix, i: nat, j: nat, mat: array2<real>)
    requires i < 4 && j < 4 && mat.Length0 == 3 && mat.Length1 == 3
    requires forall a, b :: 0 <= a < 3 && 0 <= b < 3 ==> mat[a, b] == At(m, Other(i, a), Other(j, b))
    ensures Minor(m, i, j) == mat[0, 0] * (mat[1, 1] * mat[2, 2] - mat[2, 1] * mat[1, 2])
                              - mat[0, 1] * (mat[1, 0] * mat[2, 2] - mat[2, 0] * mat[1, 2])
                              + mat[0, 2] * (mat[1, 0] * mat[2, 1] - mat[2, 0] * mat[1, 1])
  {
    assert Minor(m, i, j) == Det3(mat[0, 0], mat[0, 1], mat[0, 2], mat[1, 0], mat[1, 1], mat[1, 2],
                                  mat[2, 0], mat[2, 1], mat[2, 2]) by {
      hide Det3, Other, At;
    }
    hide Minor, At, Other;
  }

  /** DetIJ: copy what is left without line i and position j, and expand. */
  method DetIJ(m: array<real>, i: nat, j: nat) returns (ret: real)
    requires m.Length == 16 && i < 4 && j < 4
    ensures ret == Minor(m[..], i, j)
  {
    hide Other, Minor;
    var mat := new real[3, 3];
    var x := 0;
    for ii := 0 to 4
      invariant x == if ii <= i then ii else ii - 1
      invariant forall a, b :: 0 <= a < x && 0 <= b < 3 ==> mat[a, b] == At(m[..], Other(i, a), Other(j, b))
    {
      if ii == i { continue; }
      OtherIs(i, ii);
      var y := 0;
      for jj := 0 to 4
        invariant y == if jj <= j then jj else jj - 1
        invariant forall a, b :: 0 <= a < x && 0 <= b < 3 ==> mat[a, b] == At(m[..], Other(i, a), Other(j, b))
        invariant forall b :: 0 <= b < y ==> mat[x, b] == At(m[..], ii, Other(j, b))
      {
        if jj == j { continue; }
        OtherIs(j, jj);
        mat[x, y] := m[ii * 4 + jj];
        y := y + 1;
      }
      x := x + 1;
    }
    MinorIs(m[..], i, j, mat);
    ret := mat[0, 0] * (mat[1, 1] * mat[2, 2] - mat[2, 1] * mat[1, 2]);
    ret := ret - mat[0, 1] * (mat[1, 0] * mat[2, 2] - mat[2, 0] * mat[1, 2]);
    ret := ret + mat[0, 2] * (mat[1, 0] * mat[2, 1] - mat[2, 0] * mat[1, 1]);
  }

  function Term(m: Matrix, k: nat): real
    requires k < 4
  {
    At(m, 0, k) * Cofactor(m, 0, k)
  }

  /** The first k terms of the expansion along line 0. */
  function Terms(m: Matrix, k: nat): real
    requires k <= 4
  {
    if k == 0 then 0.0 else Terms(m, k - 1) + Term(m, k - 1)
  }

  lemma FourTerms(m: Matrix)
    ensures Terms(m, 4) == Det(m)
  {
    DetIsTerms(m);
    hide Det, Term;
    assert Terms(m, 1) == Term(m, 0);
    assert Terms(m, 2) == Terms(m, 1) + Term(m, 1);
    assert Terms(m, 3) == Terms(m, 2) + Term(m, 2);
  }

  lemma DetIsTerms(m: Matrix)
    ensures Det(m) == Term(m, 0) + Term(m, 1) + Term(m, 2) + Term(m, 3)
  {
    hide At, Cofactor;
  }

  method Determinant(m: array<real>) returns (det: real)
    requires m.Length == 16
    ensures det == Det(m[..])
  {
    hide Minor, Det;
    det := 0.0;
    for i := 0 to 4
      invariant det == Terms(m[..], i)
    {
      var detij := DetIJ(m, 0, i);
      det := det + if i % 2 == 1 then -m[i] * detij else m[i] * detij;
    }
    FourTerms(m[..]);
  }

  /** m3dInvertMatrix44: the result is the inverse of m from both sides. */
  method InvertMatrix44(mInverse: array<real>, m: array<real>)
    requires mInverse.Length == 16 && m.Length == 16 && mInverse != m && Det(m[..]) != 0.0
    modifies mInverse
    ensures mInverse[..] == Inverse(m[..])
    ensures Multiply(mInverse[..], m[..]) == IDENTITY && Multiply(m[..], mInverse[..]) == IDENTITY
  {
    hide Minor, Det, Multiply, Inverse, Quotient, IDENTITY;
    ghost var before := m[..];
    var det := Determinant(m);
    ghost var d := det;
    det := 1.0 / det;
    for i := 0 to 4
      invariant m[..] == before
      invariant forall a, b :: 0 <= a < i && 0 <= b < 4 ==> mInverse[4 * a + b] == Quotient(Cofactor(before, b, a), d)
    {
      for j := 0 to 4
        invariant m[..] == before
        invariant forall a, b :: 0 <= a < i && 0 <= b < 4 ==> mInverse[4 * a + b] == Quotient(Cofactor(before, b, a), d)
        invariant forall b :: 0 <= b < j ==> mInverse[4 * i + b] == Quotient(Cofactor(before, b, i), d)
      {
        var detij := DetIJ(m, j, i);
        mInverse[i * 4 + j] := if (i + j) % 2 == 1 then -detij * det else detij * det;
        QuotientIs(detij, d, det);
      }
    }
    EntriesMakeInverse(mInverse[..], before);
    InverseIsTwoSided(before);
  }
}
