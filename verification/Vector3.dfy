/** Three-component vectors of math3d, over exact reals, and rotations about an axis. */
module Vector3 {

  /** A product, named so that proofs can treat it as one number. */
  function Prod(a: real, b: real): real { a * b }

  function Wedge(a: real, b: real, c: real, d: real): real { a * d - c * b }

  datatype Vec = Vec(x: real, y: real, z: real) {
    function Plus(v: Vec): Vec { Vec(x + v.x, y + v.y, z + v.z) }
    function Minus(v: Vec): Vec { Vec(x - v.x, y - v.y, z - v.z) }
    function Times(k: real): Vec { Vec(Prod(x, k), Prod(y, k), Prod(z, k)) }
    function Negated(): Vec { Vec(-x, -y, -z) }

    /** m3dDotProduct3 */
    function Dot(v: Vec): real { x * v.x + y * v.y + z * v.z }

    /** m3dCrossProduct3; the code writes the second entry as -x * v.z + v.x * z. */
    function Cross(v: Vec): Vec { Vec(Wedge(y, z, v.y, v.z), Wedge(z, x, v.z, v.x), Wedge(x, y, v.x, v.y)) }

    function Over(k: real): Vec
      requires k != 0.0
    {
      Vec(x / k, y / k, z / k)
    }
  }

  const ZERO := Vec(0.0, 0.0, 0.0)
  const EX := Vec(1.0, 0.0, 0.0)
  const EY := Vec(0.0, 1.0, 0.0)
  const EZ := Vec(0.0, 0.0, 1.0)

  /** What sqrt returns for the squared length of v. */
  predicate Root(mag: real, v: Vec) { mag >= 0.0 && mag * mag == v.Dot(v) }

  lemma RootIsZero(mag: real, v: Vec)
    requires Root(mag, v)
    ensures mag == 0.0 <==> v == ZERO
  {
    if mag == 0.0 {
      SquareIsPositive(v.x);
      SquareIsPositive(v.y);
      SquareIsPositive(v.z);
    } else if v == ZERO {
      SquareIsPositive(mag);
    }
  }

  lemma ProductVanishes(x: real, y: real)
    requires x * y == 0.0
    ensures x == 0.0 || y == 0.0
  {
    if x != 0.0 {
      assert y == (x * y) / x;
    }
  }

  lemma SquareIsPositive(x: real)
    ensures x * x >= 0.0 && (x * x == 0.0 ==> x == 0.0)
  {
    if x * x == 0.0 {
      ProductVanishes(x, x);
    }
  }

  lemma UnitRoot(mag: real, v: Vec)
    requires Root(mag, v) && v.Dot(v) == 1.0
    ensures mag == 1.0
  {
    OnlyUnit(mag);
    hide Vec.Dot;
  }

  lemma OnlyUnit(x: real)
    requires x >= 0.0 && x * x == 1.0
    ensures x == 1.0
  {
    assert (x - 1.0) * (x + 1.0) == x * x - 1.0;
    ProductVanishes(x - 1.0, x + 1.0);
  }

  lemma ScaledToUnit(mag: real, v: Vec)
    requires Root(mag, v) && mag != 0.0
    ensures v.Over(mag).Dot(v.Over(mag)) == 1.0
    ensures v.Over(mag).Times(mag) == v
  {
    var n := v.Over(mag);
    Divided(v.x, mag);
    Divided(v.y, mag);
    Divided(v.z, mag);
    DotScales(n, mag, n, mag);
    if mag * mag == 0.0 {
      SquareIsPositive(mag);
    }
    assert n.Times(mag) == v by {
      hide Prod;
    }
    hide Vec.Dot, Prod, Vec.Over;
    Cancel(n.Dot(n), mag * mag, Prod(n.Dot(n), mag * mag));
  }

  lemma Divided(x: real, k: real)
    requires k != 0.0
    ensures Prod(x / k, k) == x
  {
  }

  /** x / k as the source scales: by the reciprocal. */
  lemma ReciprocalScales(v: Vec, k: real)
    requires k != 0.0
    ensures v.Times(1.0 / k) == v.Over(k)
  {
  }

  lemma Cancel(a: real, b: real, p: real)
    requires b != 0.0 && b == p && p == Prod(a, b)
    ensures a == 1.0
  {
    assert (a - 1.0) * b == a * b - b;
    ProductVanishes(a - 1.0, b);
  }

  // ---------- algebra ----------

  lemma Equals(a: real, b: real, c: real, d: real)
    requires a == b && c == d
    ensures a * c == b * d
  {
  }

  lemma DotScales(u: Vec, j: real, v: Vec, k: real)
    ensures u.Times(j).Dot(v.Times(k)) == Prod(u.Dot(v), j * k)
  {
    calc {
      u.Times(j).Dot(v.Times(k));
      (u.x * j) * (v.x * k) + (u.y * j) * (v.y * k) + (u.z * j) * (v.z * k);
      (u.x * v.x + u.y * v.y + u.z * v.z) * (j * k);
      Prod(u.Dot(v), j * k);
    }
  }

  lemma DotSymmetric(u: Vec, v: Vec)
    ensures u.Dot(v) == v.Dot(u)
  {
  }

  lemma CrossSwaps(u: Vec, v: Vec)
    ensures u.Cross(v) == v.Cross(u).Negated()
  {
  }

  lemma TripleTurns(n: Vec, u: Vec, v: Vec)
    ensures u.Dot(n.Cross(v)) == -v.Dot(n.Cross(u))
  {
  }

  lemma CrossIsOrthogonal(u: Vec, v: Vec)
    ensures u.Dot(u.Cross(v)) == 0.0 && v.Dot(u.Cross(v)) == 0.0
    ensures u.Cross(u) == ZERO
  {
    TripleTurns(u, v, v);
  }

  lemma CrossTwice(n: Vec, u: Vec, v: Vec)
    ensures n.Cross(u.Cross(v)) == u.Times(n.Dot(v)).Minus(v.Times(n.Dot(u)))
  {
    var w := u.Cross(v);
    TwicePart(n.x, n.y, n.z, u.x, u.y, u.z, v.x, v.y, v.z, w.y, w.z, n.Dot(u), n.Dot(v));
    TwicePart(n.y, n.z, n.x, u.y, u.z, u.x, v.y, v.z, v.x, w.z, w.x, n.Dot(u), n.Dot(v));
    TwicePart(n.z, n.x, n.y, u.z, u.x, u.y, v.z, v.x, v.y, w.x, w.y, n.Dot(u), n.Dot(v));
    hide Prod, Wedge, Vec.Dot;
  }

  lemma TwicePart(a: real, b: real, c: real, d: real, e: real, f: real, g: real, h: real, i: real,
                  wy: real, wz: real, nu: real, nv: real)
    requires wy == Wedge(f, d, i, g) && wz == Wedge(d, e, g, h)
    requires nu == a * d + b * e + c * f && nv == a * g + b * h + c * i
    ensures Wedge(b, c, wy, wz) == Prod(d, nv) - Prod(g, nu)
  {
  }

  lemma Lagrange(n: Vec, u: Vec, v: Vec)
    ensures n.Cross(u).Dot(n.Cross(v)) == n.Dot(n) * u.Dot(v) - n.Dot(u) * n.Dot(v)
  {
    var p, q := n.Cross(u), n.Cross(v);
    LagrangePart(n.x, n.y, n.z, u.x, u.y, u.z, v.x, v.y, v.z, p.x, p.y, p.z, q.x, q.y, q.z,
                 n.Dot(n), u.Dot(v), n.Dot(u), n.Dot(v));
    hide Wedge, Vec.Dot;
  }

  lemma LagrangePart(a: real, b: real, c: real, d: real, e: real, f: real, g: real, h: real, i: real,
                     px: real, py: real, pz: real, qx: real, qy: real, qz: real, nn: real, uv: real, nu: real, nv: real)
    requires px == Wedge(b, c, e, f) && py == Wedge(c, a, f, d) && pz == Wedge(a, b, d, e)
    requires qx == Wedge(b, c, h, i) && qy == Wedge(c, a, i, g) && qz == Wedge(a, b, g, h)
    requires nn == a * a + b * b + c * c && uv == d * g + e * h + f * i
    requires nu == a * d + b * e + c * f && nv == a * g + b * h + c * i
    ensures px * qx + py * qy + pz * qz == Prod(nn, uv) - Prod(nu, nv)
  {
    LagrangeLeft(a, b, c, d, e, f, g, h, i, px, py, pz, qx, qy, qz);
    LagrangeNumbers(a, b, c, d, e, f, g, h, i);
    hide Prod, Wedge;
  }

  lemma LagrangeLeft(a: real, b: real, c: real, d: real, e: real, f: real, g: real, h: real, i: real,
                     px: real, py: real, pz: real, qx: real, qy: real, qz: real)
    requires px == Wedge(b, c, e, f) && py == Wedge(c, a, f, d) && pz == Wedge(a, b, d, e)
    requires qx == Wedge(b, c, h, i) && qy == Wedge(c, a, i, g) && qz == Wedge(a, b, g, h)
    ensures px * qx + py * qy + pz * qz
         == (b * f - e * c) * (b * i - h * c) + (c * d - f * a) * (c * g - i * a) + (a * e - d * b) * (a * h - g * b)
  {
    Equals(px, b * f - e * c, qx, b * i - h * c);
    Equals(py, c * d - f * a, qy, c * g - i * a);
    Equals(pz, a * e - d * b, qz, a * h - g * b);
    hide Wedge;
  }

  lemma LagrangeNumbers(a: real, b: real, c: real, d: real, e: real, f: real, g: real, h: real, i: real)
    ensures (b * f - e * c) * (b * i - h * c) + (c * d - f * a) * (c * g - i * a) + (a * e - d * b) * (a * h - g * b)
         == Prod(a * a + b * b + c * c, d * g + e * h + f * i) - Prod(a * d + b * e + c * f, a * g + b * h + c * i)
  {
    assert (b * f - e * c) * (b * i - h * c) + (c * d - f * a) * (c * g - i * a) + (a * e - d * b) * (a * h - g * b)
        == (a * a + b * b + c * c) * (d * g + e * h + f * i) - (a * d + b * e + c * f) * (a * g + b * h + c * i);
  }

  /** p c + q s + n k: what a turned vector looks like. */
  function Mix(p: Vec, c: real, q: Vec, s: real, n: Vec, k: real): Vec { p.Times(c).Plus(q.Times(s)).Plus(n.Times(k)) }

  lemma DotOfMix(u: Vec, p: Vec, c: real, q: Vec, s: real, n: Vec, k: real)
    ensures u.Dot(Mix(p, c, q, s, n, k)) == c * u.Dot(p) + s * u.Dot(q) + k * u.Dot(n)
  {
    calc {
      u.Dot(Mix(p, c, q, s, n, k));
      u.x * (p.x * c + q.x * s + n.x * k) + u.y * (p.y * c + q.y * s + n.y * k) + u.z * (p.z * c + q.z * s + n.z * k);
      c * (u.x * p.x + u.y * p.y + u.z * p.z) + s * (u.x * q.x + u.y * q.y + u.z * q.z)
      + k * (u.x * n.x + u.y * n.y + u.z * n.z);
      c * u.Dot(p) + s * u.Dot(q) + k * u.Dot(n);
    }
  }

  lemma CrossOfMix(u: Vec, p: Vec, c: real, q: Vec, s: real, n: Vec, k: real)
    ensures u.Cross(Mix(p, c, q, s, n, k)) == Mix(u.Cross(p), c, u.Cross(q), s, u.Cross(n), k)
  {
    var m, x, y, z := Mix(p, c, q, s, n, k), u.Cross(p), u.Cross(q), u.Cross(n);
    MixedPart(u.y, u.z, p.y, p.z, x.x, c, q.y, q.z, y.x, s, n.y, n.z, z.x, k, m.y, m.z);
    MixedPart(u.z, u.x, p.z, p.x, x.y, c, q.z, q.x, y.y, s, n.z, n.x, z.y, k, m.z, m.x);
    MixedPart(u.x, u.y, p.x, p.y, x.z, c, q.x, q.y, y.z, s, n.x, n.y, z.z, k, m.x, m.y);
    hide Prod, Wedge;
  }

  lemma MixedPart(u: real, v: real, px: real, py: real, p: real, c: real, qx: real, qy: real, q: real, s: real,
                  nx: real, ny: real, n: real, k: real, mx: real, my: real)
    requires p == Wedge(u, v, px, py) && q == Wedge(u, v, qx, qy) && n == Wedge(u, v, nx, ny)
    requires mx == Prod(px, c) + Prod(qx, s) + Prod(nx, k) && my == Prod(py, c) + Prod(qy, s) + Prod(ny, k)
    ensures Wedge(u, v, mx, my) == Prod(p, c) + Prod(q, s) + Prod(n, k)
  {
    assert Wedge(u, v, mx, my) == u * (py * c + qy * s + ny * k) - (px * c + qx * s + nx * k) * v;
  }

  // ---------- rotations ----------

  /** The sine and the cosine of an angle. */
  datatype Angle = Angle(s: real, c: real) {
    function Plus(b: Angle): Angle { Angle(s * b.c + c * b.s, c * b.c - s * b.s) }
    function Negated(): Angle { Angle(-s, c) }
  }

  predicate OnCircle(a: Angle) { a.s * a.s + a.c * a.c == 1.0 }

  /** v turned about the unit vector n: along n it stays, across n it turns in the plane (Rodrigues). */
  function Turn(v: Vec, n: Vec, a: Angle): Vec {
    Mix(v, a.c, n.Cross(v), a.s, n, Prod(1.0 - a.c, n.Dot(v)))
  }

  lemma DotOfTurn(u: Vec, v: Vec, n: Vec, a: Angle)
    ensures u.Dot(Turn(v, n, a)) ==
      Prod(a.c, u.Dot(v)) + Prod(a.s, u.Dot(n.Cross(v))) + Prod(Prod(1.0 - a.c, n.Dot(v)), u.Dot(n))
  {
    hide Vec.Dot, Vec.Cross, Mix;
    DotOfMix(u, v, a.c, n.Cross(v), a.s, n, Prod(1.0 - a.c, n.Dot(v)));
  }

  lemma AxisDotTurn(v: Vec, n: Vec, a: Angle)
    requires n.Dot(n) == 1.0
    ensures n.Dot(Turn(v, n, a)) == n.Dot(v)
  {
    hide Vec.Dot, Vec.Cross, Turn, Prod;
    DotOfTurn(n, v, n, a);
    CrossIsOrthogonal(n, v);
    AlongNumbers(a.c, a.s, n.Dot(v));
  }

  lemma AlongNumbers(c: real, s: real, d: real)
    ensures Prod(c, d) + Prod(s, 0.0) + Prod(Prod(1.0 - c, d), 1.0) == d
  {
  }

  lemma AxisCrossTurn(v: Vec, n: Vec, a: Angle)
    requires n.Dot(n) == 1.0
    ensures n.Cross(Turn(v, n, a)) == Mix(n.Cross(v), a.c, v, -a.s, n, a.s * n.Dot(v))
  {
    hide Vec.Dot, Vec.Cross, Vec.Times, Vec.Minus, Mix, Prod;
    var k := Prod(1.0 - a.c, n.Dot(v));
    CrossOfMix(n, v, a.c, n.Cross(v), a.s, n, k);
    CrossTwice(n, n, v);
    CrossIsOrthogonal(n, n);
    AxisMix(n.Cross(v), a.c, n, n.Dot(v), v, a.s, n.Cross(n.Cross(v)), k);
  }

  lemma AxisMix(p: Vec, c: real, n: Vec, d: real, v: Vec, s: real, q: Vec, k: real)
    requires q == n.Times(d).Minus(v.Times(1.0))
    ensures Mix(p, c, q, s, ZERO, k) == Mix(p, c, v, -s, n, s * d)
  {
    hide Prod;
    AxisPart(n.x, d, v.x, s, k);
    AxisPart(n.y, d, v.y, s, k);
    AxisPart(n.z, d, v.z, s, k);
  }

  lemma AxisPart(n: real, d: real, v: real, s: real, k: real)
    ensures Prod(Prod(n, d) - Prod(v, 1.0), s) + Prod(0.0, k) == Prod(v, -s) + Prod(n, s * d)
  {
    assert (n * d - v) * s == v * -s + n * (s * d);
  }

  lemma TurnKeepsDot(u: Vec, v: Vec, n: Vec, a: Angle)
    requires n.Dot(n) == 1.0 && OnCircle(a)
    ensures Turn(u, n, a).Dot(Turn(v, n, a)) == u.Dot(v)
  {
    hide Vec.Dot, Vec.Cross, Turn, Prod;
    var t, x := Turn(u, n, a), n.Cross(v);
    DotOfTurn(t, v, n, a);
    AxisDotTurn(u, n, a);
    DotSymmetric(t, n);
    VectorDotTurn(u, v, n, a);
    AcrossDotTurn(u, v, n, a);
    TurnNumbers(a.c, a.s, u.Dot(v), n.Dot(u), n.Dot(v), v.Dot(n.Cross(u)), t.Dot(v), t.Dot(x));
  }

  lemma VectorDotTurn(u: Vec, v: Vec, n: Vec, a: Angle)
    ensures Turn(u, n, a).Dot(v) ==
      Prod(a.c, u.Dot(v)) + Prod(a.s, v.Dot(n.Cross(u))) + Prod(Prod(1.0 - a.c, n.Dot(u)), n.Dot(v))
  {
    hide Vec.Dot, Vec.Cross, Turn, Prod;
    DotOfTurn(v, u, n, a);
    DotSymmetric(Turn(u, n, a), v);
    DotSymmetric(u, v);
    DotSymmetric(n, v);
  }

  lemma AcrossDotTurn(u: Vec, v: Vec, n: Vec, a: Angle)
    requires n.Dot(n) == 1.0
    ensures Turn(u, n, a).Dot(n.Cross(v)) ==
      Prod(a.c, -v.Dot(n.Cross(u))) + Prod(a.s, u.Dot(v) - Prod(n.Dot(u), n.Dot(v)))
  {
    hide Vec.Dot, Vec.Cross, Turn, Prod;
    var x := n.Cross(v);
    DotOfTurn(x, u, n, a);
    DotSymmetric(Turn(u, n, a), x);
    DotSymmetric(x, u);
    DotSymmetric(x, n);
    DotSymmetric(x, n.Cross(u));
    TripleTurns(n, u, v);
    LagrangeUnit(n, u, v);
    CrossIsOrthogonal(n, v);
    TimesZero(Prod(1.0 - a.c, n.Dot(u)));
  }

  lemma TimesZero(k: real)
    ensures Prod(k, 0.0) == 0.0
  {
  }

  lemma LagrangeUnit(n: Vec, u: Vec, v: Vec)
    requires n.Dot(n) == 1.0
    ensures n.Cross(u).Dot(n.Cross(v)) == u.Dot(v) - Prod(n.Dot(u), n.Dot(v))
  {
    hide Vec.Dot, Vec.Cross;
    Lagrange(n, u, v);
  }

  lemma TurnNumbers(c: real, s: real, d: real, p: real, q: real, e: real, tv: real, tx: real)
    requires s * s + c * c == 1.0
    requires tv == Prod(c, d) + Prod(s, e) + Prod(Prod(1.0 - c, p), q)
    requires tx == Prod(c, -e) + Prod(s, d - Prod(p, q))
    ensures Prod(c, tv) + Prod(s, tx) + Prod(Prod(1.0 - c, q), p) == d
  {
    Equals(c, c, tv, c * d + s * e + (1.0 - c) * p * q);
    Equals(s, s, tx, c * -e + s * (d - p * q));
    Equals(s * s + c * c, 1.0, d - p * q, d - p * q);
    TurnIdentity(c, s, d, p, q, e);
  }

  lemma TurnIdentity(c: real, s: real, d: real, p: real, q: real, e: real)
    ensures c * (c * d + s * e + (1.0 - c) * p * q) + s * (c * -e + s * (d - p * q)) + (1.0 - c) * q * p
         == (s * s + c * c) * (d - p * q) + p * q
  {
  }

  /** Turning by a and then by b about one axis is turning by the sum. */
  lemma TurnsCompose(v: Vec, n: Vec, a: Angle, b: Angle)
    requires n.Dot(n) == 1.0
    ensures Turn(Turn(v, n, a), n, b) == Turn(v, n, a.Plus(b))
  {
    var w, x, d := Turn(v, n, a), n.Cross(v), n.Dot(v);
    var y := n.Cross(w);
    AxisDotTurn(v, n, a);
    AxisCrossTurn(v, n, a);
    hide Vec.Dot, Vec.Cross, Prod, Angle.Plus;
    ComposePart(v.x, x.x, n.x, d, a, b, w.x, y.x);
    ComposePart(v.y, x.y, n.y, d, a, b, w.y, y.y);
    ComposePart(v.z, x.z, n.z, d, a, b, w.z, y.z);
  }

  lemma ComposePart(v: real, x: real, n: real, d: real, a: Angle, b: Angle, w: real, y: real)
    requires w == Prod(v, a.c) + Prod(x, a.s) + Prod(n, Prod(1.0 - a.c, d))
    requires y == Prod(x, a.c) + Prod(v, -a.s) + Prod(n, a.s * d)
    ensures Prod(w, b.c) + Prod(y, b.s) + Prod(n, Prod(1.0 - b.c, d))
         == Prod(v, a.Plus(b).c) + Prod(x, a.Plus(b).s) + Prod(n, Prod(1.0 - a.Plus(b).c, d))
  {
    ComposedParts(v, x, n, d, a.s, a.c);
    ComposeNumbers(v, x, n, d, a.s, a.c, b.s, b.c, w, y, a.Plus(b).s, a.Plus(b).c);
    hide Prod;
  }

  lemma ComposedParts(v: real, x: real, n: real, d: real, s: real, c: real)
    ensures Prod(v, c) + Prod(x, s) + Prod(n, Prod(1.0 - c, d)) == v * c + x * s + n * ((1.0 - c) * d)
    ensures Prod(x, c) + Prod(v, -s) + Prod(n, s * d) == x * c + v * -s + n * (s * d)
  {
  }

  lemma ComposeNumbers(v: real, x: real, n: real, d: real, s: real, c: real, t: real, e: real,
                       w: real, y: real, st: real, ce: real)
    requires w == v * c + x * s + n * ((1.0 - c) * d) && y == x * c + v * -s + n * (s * d)
    requires st == s * e + c * t && ce == c * e - s * t
    ensures Prod(w, e) + Prod(y, t) + Prod(n, Prod(1.0 - e, d))
         == Prod(v, ce) + Prod(x, st) + Prod(n, Prod(1.0 - ce, d))
  {
    hide Prod;
    ProdOf(w, v * c + x * s + n * ((1.0 - c) * d), e, e);
    ProdOf(y, x * c + v * -s + n * (s * d), t, t);
    ProdOf(v, v, ce, c * e - s * t);
    ProdOf(x, x, st, s * e + c * t);
    AlongAxisIs(n, d, e, e);
    AlongAxisIs(n, d, ce, c * e - s * t);
    ComposeIdentity(v, x, n, d, s, c, t, e);
  }

  lemma ProdOf(a: real, b: real, j: real, k: real)
    requires a == b && j == k
    ensures Prod(a, j) == b * k
  {
  }

  lemma AlongAxisIs(n: real, d: real, j: real, k: real)
    requires j == k
    ensures Prod(n, Prod(1.0 - j, d)) == (n * d) * (1.0 - k)
  {
    assert (1.0 - j) * d == d - d * k;
    assert n * (d - d * k) == (n * d) * (1.0 - k);
  }

  lemma ComposeIdentity(v: real, x: real, n: real, d: real, s: real, c: real, t: real, e: real)
    ensures (v * c + x * s + n * ((1.0 - c) * d)) * e + (x * c + v * -s + n * (s * d)) * t + (n * d) * (1.0 - e)
         == v * (c * e - s * t) + x * (s * e + c * t) + (n * d) * (1.0 - (c * e - s * t))
  {
  }

  lemma CrossOnRight(p: Vec, c: real, q: Vec, s: real, n: Vec, k: real, x: Vec)
    ensures Mix(p, c, q, s, n, k).Cross(x) == Mix(p.Cross(x), c, q.Cross(x), s, n.Cross(x), k)
  {
    CrossOfMix(x, p, c, q, s, n, k);
    CrossSwaps(Mix(p, c, q, s, n, k), x);
    CrossSwaps(p, x);
    CrossSwaps(q, x);
    CrossSwaps(n, x);
    NegatedMix(x.Cross(p), c, x.Cross(q), s, x.Cross(n), k);
    hide Vec.Cross, Mix;
  }

  lemma NegatedMix(p: Vec, c: real, q: Vec, s: real, n: Vec, k: real)
    ensures Mix(p, c, q, s, n, k).Negated() == Mix(p.Negated(), c, q.Negated(), s, n.Negated(), k)
  {
    NegatedTimes(p, c);
    NegatedTimes(q, s);
    NegatedTimes(n, k);
    hide Vec.Times;
  }

  lemma NegatedTimes(v: Vec, k: real)
    ensures v.Negated().Times(k) == v.Times(k).Negated()
  {
  }

  /** The nine cross products between u, n x u, n and v, n x v, n. */
  lemma CrossTable(u: Vec, v: Vec, n: Vec)
    requires n.Dot(n) == 1.0
    ensures var p, q, e := n.Cross(u), n.Cross(v), n.Dot(u.Cross(v));
            && p.Cross(v) == u.Times(n.Dot(v)).Minus(n.Times(u.Dot(v)))
            && u.Cross(q) == n.Times(u.Dot(v)).Minus(v.Times(n.Dot(u)))
            && p.Cross(q) == n.Times(e).Minus(v.Times(0.0))
            && n.Cross(q) == n.Times(n.Dot(v)).Minus(v.Times(1.0))
            && u.Cross(n) == p.Negated()
            && p.Cross(n) == u.Times(1.0).Minus(n.Times(n.Dot(u)))
  {
    var p, q := n.Cross(u), n.Cross(v);
    CrossSwaps(p, v);
    CrossTwice(v, n, u);
    NegatedMinus(n, v.Dot(u), u, v.Dot(n));
    CrossTwice(u, n, v);
    CrossTwice(p, n, v);
    CrossTwice(n, n, v);
    CrossSwaps(u, n);
    CrossSwaps(p, n);
    CrossTwice(n, n, u);
    NegatedMinus(n, n.Dot(u), u, 1.0);
    DotSymmetric(u, v);
    DotSymmetric(n, v);
    DotSymmetric(n, u);
    DotSymmetric(p, v);
    DotSymmetric(p, n);
    CrossIsOrthogonal(n, u);
    TripleCycles(n, u, v);
    hide Vec.Dot, Vec.Cross, Vec.Times, Vec.Minus;
  }

  lemma NegatedMinus(x: Vec, j: real, y: Vec, k: real)
    ensures x.Times(j).Minus(y.Times(k)).Negated() == y.Times(k).Minus(x.Times(j))
  {
  }

  lemma TripleCycles(n: Vec, u: Vec, v: Vec)
    ensures v.Dot(n.Cross(u)) == n.Dot(u.Cross(v))
  {
    TripleTurns(u, n, v);
    CrossSwaps(u, n);
    DotNegated(v, n.Cross(u));
    hide Vec.Dot, Vec.Cross;
  }

  lemma DotNegated(u: Vec, v: Vec)
    ensures u.Dot(v.Negated()) == -u.Dot(v)
  {
  }

  /** n x (u x v) in two ways. */
  lemma AxisAcross(u: Vec, v: Vec, n: Vec)
    requires n.Dot(n) == 1.0
    ensures var w := u.Cross(v);
            && n.Cross(w) == u.Times(n.Dot(v)).Minus(v.Times(n.Dot(u)))
            && n.Times(n.Dot(w)).Minus(w.Times(1.0))
            == Mix(n.Cross(u), n.Dot(v), n.Cross(v), -n.Dot(u), ZERO, 0.0)
  {
    CrossTwice(n, u, v);
    CrossTwice(n, n, u.Cross(v));
    MinusIsMix(u, n.Dot(v), v, n.Dot(u));
    CrossOfMix(n, u, n.Dot(v), v, -n.Dot(u), ZERO, 0.0);
    assert n.Cross(ZERO) == ZERO;
    hide Vec.Dot, Vec.Cross, Vec.Times, Vec.Minus, Mix;
  }

  lemma MinusIsMix(x: Vec, j: real, y: Vec, k: real)
    ensures x.Times(j).Minus(y.Times(k)) == Mix(x, j, y, -k, ZERO, 0.0)
  {
  }

  /** Turning keeps the cross product too: no rotation mirrors. */
  lemma TurnKeepsCross(u: Vec, v: Vec, n: Vec, a: Angle)
    requires n.Dot(n) == 1.0 && OnCircle(a)
    ensures Turn(u, n, a).Cross(Turn(v, n, a)) == Turn(u.Cross(v), n, a)
  {
    var t, w, p, q := Turn(u, n, a), u.Cross(v), n.Cross(u), n.Cross(v);
    var k, k2, e := Prod(1.0 - a.c, n.Dot(u)), Prod(1.0 - a.c, n.Dot(v)), n.Dot(w);
    CrossOfMix(t, v, a.c, q, a.s, n, k2);
    CrossOnRight(u, a.c, p, a.s, n, k, v);
    CrossOnRight(u, a.c, p, a.s, n, k, q);
    CrossOnRight(u, a.c, p, a.s, n, k, n);
    CrossTable(u, v, n);
    AxisAcross(u, v, n);
    CrossIsOrthogonal(n, n);
    hide Vec.Dot, Vec.Cross, Prod;
    var A, B, d := n.Dot(u), n.Dot(v), u.Dot(v);
    CrossPart(u.x, v.x, n.x, p.x, q.x, w.x, A, B, d, e, a, t.Cross(v).x, t.Cross(q).x, t.Cross(n).x, n.Cross(w).x);
    CrossPart(u.y, v.y, n.y, p.y, q.y, w.y, A, B, d, e, a, t.Cross(v).y, t.Cross(q).y, t.Cross(n).y, n.Cross(w).y);
    CrossPart(u.z, v.z, n.z, p.z, q.z, w.z, A, B, d, e, a, t.Cross(v).z, t.Cross(q).z, t.Cross(n).z, n.Cross(w).z);
  }

  lemma CrossPart(u: real, v: real, n: real, p: real, q: real, w: real, A: real, B: real, d: real, e: real, a: Angle,
                  tv: real, tq: real, tn: real, nw: real)
    requires OnCircle(a)
    requires tv == Prod(w, a.c) + Prod(Prod(u, B) - Prod(n, d), a.s) + Prod(q, Prod(1.0 - a.c, A))
    requires tq == Prod(Prod(n, d) - Prod(v, A), a.c) + Prod(Prod(n, e) - Prod(v, 0.0), a.s)
                   + Prod(Prod(n, B) - Prod(v, 1.0), Prod(1.0 - a.c, A))
    requires tn == Prod(-p, a.c) + Prod(Prod(u, 1.0) - Prod(n, A), a.s) + Prod(0.0, Prod(1.0 - a.c, A))
    requires nw == Prod(u, B) - Prod(v, A)
    requires Prod(n, e) - Prod(w, 1.0) == Prod(p, B) + Prod(q, -A) + Prod(0.0, 0.0)
    ensures Prod(tv, a.c) + Prod(tq, a.s) + Prod(tn, Prod(1.0 - a.c, B))
         == Prod(w, a.c) + Prod(nw, a.s) + Prod(n, Prod(1.0 - a.c, e))
  {
    var c, s := a.c, a.s;
    TurnedParts(u, v, n, p, q, w, A, B, d, e, s, c);
    CrossNumbers(u, v, n, p, q, w, A, B, d, e, s, c);
    assert n * e - w == p * B - q * A;
    hide Prod;
  }

  lemma TurnedParts(u: real, v: real, n: real, p: real, q: real, w: real, A: real, B: real, d: real, e: real,
                    s: real, c: real)
    ensures Prod(w, c) + Prod(Prod(u, B) - Prod(n, d), s) + Prod(q, Prod(1.0 - c, A))
         == w * c + (u * B - n * d) * s + q * ((1.0 - c) * A)
    ensures Prod(Prod(n, d) - Prod(v, A), c) + Prod(Prod(n, e) - Prod(v, 0.0), s)
            + Prod(Prod(n, B) - Prod(v, 1.0), Prod(1.0 - c, A))
         == (n * d - v * A) * c + n * e * s + (n * B - v) * ((1.0 - c) * A)
    ensures Prod(-p, c) + Prod(Prod(u, 1.0) - Prod(n, A), s) + Prod(0.0, Prod(1.0 - c, A)) == -p * c + (u - n * A) * s
    ensures Prod(u, B) - Prod(v, A) == u * B - v * A
  {
  }

  lemma CrossNumbers(u: real, v: real, n: real, p: real, q: real, w: real, A: real, B: real, d: real, e: real,
                     s: real, c: real)
    requires s * s + c * c == 1.0 && n * e - w == p * B - q * A
    ensures Prod(w * c + (u * B - n * d) * s + q * ((1.0 - c) * A), c)
            + Prod((n * d - v * A) * c + n * e * s + (n * B - v) * ((1.0 - c) * A), s)
            + Prod(-p * c + (u - n * A) * s, Prod(1.0 - c, B))
         == Prod(w, c) + Prod(u * B - v * A, s) + Prod(n, Prod(1.0 - c, e))
  {
    Equals(c * (1.0 - c), c * (1.0 - c), (q * A - p * B) - w + n * e, 0.0);
    Equals(n * e, n * e, s * s + c * c - 1.0, 0.0);
    assert (w * c + (u * B - n * d) * s + q * ((1.0 - c) * A)) * c
           + ((n * d - v * A) * c + n * e * s + (n * B - v) * ((1.0 - c) * A)) * s
           + (-p * c + (u - n * A) * s) * ((1.0 - c) * B)
        == w * c + (u * B - v * A) * s + n * ((1.0 - c) * e)
           + (c * (1.0 - c)) * ((q * A - p * B) - w + n * e) + (n * e) * (s * s + c * c - 1.0);
  }

  lemma RightHanded()
    ensures EX.Cross(EY) == EZ && EY.Cross(EZ) == EX && EZ.Cross(EX) == EY
  {
  }

  /** What lies across the axis turns by the angle, from the first to the second axis of a right-handed system. */
  lemma TurnIsByAngle(v: Vec, n: Vec, a: Angle)
    requires n.Dot(n) == 1.0 && n.Dot(v) == 0.0
    ensures v.Dot(Turn(v, n, a)) == Prod(a.c, v.Dot(v))
    ensures n.Dot(v.Cross(Turn(v, n, a))) == Prod(a.s, v.Dot(v))
  {
    hide Vec.Dot, Vec.Cross, Prod, Turn;
    DotOfTurn(v, v, n, a);
    CrossIsOrthogonal(n, v);
    DotSymmetric(v, n);
    TimesZero(a.s);
    TimesZero(Prod(1.0 - a.c, 0.0));
    AcrossTurn(v, n, a);
  }

  lemma AcrossTurn(v: Vec, n: Vec, a: Angle)
    requires n.Dot(n) == 1.0 && n.Dot(v) == 0.0
    ensures n.Dot(v.Cross(Turn(v, n, a))) == Prod(a.s, v.Dot(v))
  {
    hide Vec.Dot, Vec.Cross, Mix, Vec.Times, Vec.Minus;
    var x, k := n.Cross(v), Prod(1.0 - a.c, n.Dot(v));
    CrossOfMix(v, v, a.c, x, a.s, n, k);
    DotOfMix(n, v.Cross(v), a.c, v.Cross(x), a.s, v.Cross(n), k);
    CrossIsOrthogonal(v, n);
    CrossTwice(v, n, v);
    DotSymmetric(v, n);
    DotOfDifference(n, v.Dot(v), v);
    NoDot(n);
  }

  lemma DotOfDifference(n: Vec, k: real, v: Vec)
    requires n.Dot(n) == 1.0
    ensures n.Dot(n.Times(k).Minus(v.Times(0.0))) == k
  {
    assert n.Dot(n.Times(k).Minus(v.Times(0.0))) == k * n.Dot(n);
  }

  lemma NoDot(v: Vec)
    ensures v.Dot(ZERO) == 0.0
  {
  }

  // ---------- linear combinations ----------

  lemma MixIsDots(a: Vec, b: Vec, c: Vec, v: Vec)
    ensures Mix(a, v.x, b, v.y, c, v.z)
         == Vec(Vec(a.x, b.x, c.x).Dot(v), Vec(a.y, b.y, c.y).Dot(v), Vec(a.z, b.z, c.z).Dot(v))
  {
  }

  /** A combination with the coordinates of a combination. */
  lemma MixOfMix(a: Vec, b: Vec, c: Vec, p: Vec, j: real, q: Vec, k: real, r: Vec, l: real)
    ensures var v := Mix(p, j, q, k, r, l);
            Mix(a, v.x, b, v.y, c, v.z)
            == Mix(Mix(a, p.x, b, p.y, c, p.z), j, Mix(a, q.x, b, q.y, c, q.z), k, Mix(a, r.x, b, r.y, c, r.z), l)
  {
    var v := Mix(p, j, q, k, r, l);
    MixIsDots(a, b, c, v);
    MixIsDots(a, b, c, p);
    MixIsDots(a, b, c, q);
    MixIsDots(a, b, c, r);
    DotOfMix(Vec(a.x, b.x, c.x), p, j, q, k, r, l);
    DotOfMix(Vec(a.y, b.y, c.y), p, j, q, k, r, l);
    DotOfMix(Vec(a.z, b.z, c.z), p, j, q, k, r, l);
    MixOfEntries(Mix(a, p.x, b, p.y, c, p.z), j, Mix(a, q.x, b, q.y, c, q.z), k, Mix(a, r.x, b, r.y, c, r.z), l);
    hide Vec.Dot, Mix;
  }

  lemma MixOfEntries(p: Vec, j: real, q: Vec, k: real, r: Vec, l: real)
    ensures Mix(p, j, q, k, r, l)
         == Vec(j * p.x + k * q.x + l * r.x, j * p.y + k * q.y + l * r.y, j * p.z + k * q.z + l * r.z)
  {
  }

  // ---------- the rotation of the source ----------

  /** What a rotation matrix of the source does: nothing for an axis of length zero, else turn about the scaled axis. */
  function Rotate(v: Vec, a: Angle, axis: Vec, mag: real): Vec {
    if mag == 0.0 then v else Turn(v, axis.Over(mag), a)
  }

  lemma RotateKeepsDot(u: Vec, v: Vec, a: Angle, axis: Vec, mag: real)
    requires Root(mag, axis) && OnCircle(a)
    ensures Rotate(u, a, axis, mag).Dot(Rotate(v, a, axis, mag)) == u.Dot(v)
  {
    if mag != 0.0 {
      ScaledToUnit(mag, axis);
      TurnKeepsDot(u, v, axis.Over(mag), a);
    }
    hide Vec.Dot, Turn;
  }

  lemma RotateKeepsCross(u: Vec, v: Vec, a: Angle, axis: Vec, mag: real)
    requires Root(mag, axis) && OnCircle(a)
    ensures Rotate(u, a, axis, mag).Cross(Rotate(v, a, axis, mag)) == Rotate(u.Cross(v), a, axis, mag)
  {
    if mag != 0.0 {
      ScaledToUnit(mag, axis);
      TurnKeepsCross(u, v, axis.Over(mag), a);
    }
    hide Vec.Cross, Turn;
  }

  lemma RotateKeepsAxis(a: Angle, axis: Vec, mag: real)
    requires Root(mag, axis)
    ensures Rotate(axis, a, axis, mag) == axis
  {
    if mag != 0.0 {
      ScaledToUnit(mag, axis);
      TurnKeepsAxis(axis.Over(mag), mag, a);
    }
    hide Vec.Dot, Turn;
  }

  lemma TurnKeepsAxis(n: Vec, k: real, a: Angle)
    requires n.Dot(n) == 1.0
    ensures Turn(n.Times(k), n, a) == n.Times(k)
  {
    MinusIsMix(n, k, n, 0.0);
    DotOfMix(n, n, k, n, 0.0, ZERO, 0.0);
    CrossIsOrthogonal(n, n);
    CrossOfMix(n, n, k, n, 0.0, ZERO, 0.0);
    AlongAxis(n, k, a);
    hide Vec.Dot, Vec.Cross, Prod;
  }

  lemma AlongAxis(n: Vec, k: real, a: Angle)
    ensures Mix(n.Times(k), a.c, ZERO, a.s, n, Prod(1.0 - a.c, k)) == n.Times(k)
    ensures Mix(n, k, n, 0.0, ZERO, 0.0) == n.Times(k)
    ensures Mix(ZERO, k, ZERO, 0.0, n.Cross(ZERO), 0.0) == ZERO
  {
  }

  lemma RotationsCompose(v: Vec, axis: Vec, mag: real, a: Angle, b: Angle)
    requires Root(mag, axis)
    ensures Rotate(Rotate(v, a, axis, mag), b, axis, mag) == Rotate(v, a.Plus(b), axis, mag)
  {
    if mag != 0.0 {
      ScaledToUnit(mag, axis);
      TurnsCompose(v, axis.Over(mag), a, b);
    }
    hide Vec.Dot, Turn;
  }

  /** Turning back by the same angle restores the vector. */
  lemma RotationUndone(v: Vec, axis: Vec, mag: real, a: Angle)
    requires Root(mag, axis) && OnCircle(a)
    ensures Rotate(Rotate(v, a, axis, mag), a.Negated(), axis, mag) == v
  {
    RotationsCompose(v, axis, mag, a, a.Negated());
    assert a.Plus(a.Negated()) == Angle(0.0, 1.0);
    if mag != 0.0 {
      NoTurn(v, axis.Over(mag));
    }
    hide Turn, Angle.Plus;
  }

  lemma NoTurn(v: Vec, n: Vec)
    ensures Turn(v, n, Angle(0.0, 1.0)) == v
  {
  }

  /** A rotation is linear: its three columns say what it does to every vector. */
  lemma RotateIsLinear(v: Vec, a: Angle, axis: Vec, mag: real)
    ensures Rotate(v, a, axis, mag)
         == Mix(Rotate(EX, a, axis, mag), v.x, Rotate(EY, a, axis, mag), v.y, Rotate(EZ, a, axis, mag), v.z)
  {
    if mag != 0.0 {
      TurnIsLinear(v, axis.Over(mag), a);
    }
    hide Turn;
  }

  lemma TurnIsLinear(v: Vec, n: Vec, a: Angle)
    ensures Turn(v, n, a) == Mix(Turn(EX, n, a), v.x, Turn(EY, n, a), v.y, Turn(EZ, n, a), v.z)
  {
    PartIsLinear(v.x, v.y, v.z, n.x, n.y, n.z, a.s, a.c);
    PartIsLinear(v.y, v.z, v.x, n.y, n.z, n.x, a.s, a.c);
    PartIsLinear(v.z, v.x, v.y, n.z, n.x, n.y, a.s, a.c);
    TurnColumns(n, a);
    TurnParts(v, n, a);
    hide Turn, Prod, Part, Straight, Skew;
  }

  /** One entry of a turned vector. */
  function Part(vx: real, vy: real, vz: real, x: real, y: real, z: real, s: real, c: real): real {
    vx * c + (y * vz - vy * z) * s + x * ((1.0 - c) * (x * vx + y * vy + z * vz))
  }

  lemma TurnParts(v: Vec, n: Vec, a: Angle)
    ensures Turn(v, n, a) == Vec(Part(v.x, v.y, v.z, n.x, n.y, n.z, a.s, a.c),
                                 Part(v.y, v.z, v.x, n.y, n.z, n.x, a.s, a.c),
                                 Part(v.z, v.x, v.y, n.z, n.x, n.y, a.s, a.c))
  {
    var w, d := n.Cross(v), n.Dot(v);
    PartIs(v.x, v.y, v.z, n.x, n.y, n.z, a.s, a.c, w.x, d);
    PartIs(v.y, v.z, v.x, n.y, n.z, n.x, a.s, a.c, w.y, d);
    PartIs(v.z, v.x, v.y, n.z, n.x, n.y, a.s, a.c, w.z, d);
    hide Prod, Wedge, Vec.Dot, Part;
  }

  lemma PartIs(vx: real, vy: real, vz: real, x: real, y: real, z: real, s: real, c: real, w: real, d: real)
    requires w == Wedge(y, z, vy, vz) && d == x * vx + y * vy + z * vz
    ensures Prod(vx, c) + Prod(w, s) + Prod(x, Prod(1.0 - c, d)) == Part(vx, vy, vz, x, y, z, s, c)
  {
    Equals(w, y * vz - vy * z, s, s);
    Equals(x * (1.0 - c), x * (1.0 - c), d, x * vx + y * vy + z * vz);
  }

  /** An entry of the rotation matrix on the diagonal. */
  function Straight(x: real, c: real): real { (1.0 - c) * (x * x) + c }

  /** An entry of the rotation matrix off the diagonal. */
  function Skew(x: real, y: real, z: real, s: real, c: real): real { (1.0 - c) * (x * y) + z * s }

  lemma PartIsLinear(vx: real, vy: real, vz: real, x: real, y: real, z: real, s: real, c: real)
    ensures Part(vx, vy, vz, x, y, z, s, c)
         == Prod(Straight(x, c), vx) + Prod(Skew(x, y, -z, s, c), vy) + Prod(Skew(z, x, y, s, c), vz)
  {
    Equals(Straight(x, c), (1.0 - c) * (x * x) + c, vx, vx);
    Equals(Skew(x, y, -z, s, c), (1.0 - c) * (x * y) - z * s, vy, vy);
    Equals(Skew(z, x, y, s, c), (1.0 - c) * (z * x) + y * s, vz, vz);
    hide Straight, Skew;
  }

  /** The columns of the rotation matrix. */
  lemma TurnColumns(n: Vec, a: Angle)
    ensures Turn(EX, n, a)
         == Vec(Straight(n.x, a.c), Skew(n.x, n.y, n.z, a.s, a.c), Skew(n.z, n.x, -n.y, a.s, a.c))
    ensures Turn(EY, n, a)
         == Vec(Skew(n.x, n.y, -n.z, a.s, a.c), Straight(n.y, a.c), Skew(n.y, n.z, n.x, a.s, a.c))
    ensures Turn(EZ, n, a)
         == Vec(Skew(n.z, n.x, n.y, a.s, a.c), Skew(n.y, n.z, -n.x, a.s, a.c), Straight(n.z, a.c))
  {
    TurnParts(EX, n, a);
    TurnParts(EY, n, a);
    TurnParts(EZ, n, a);
    UnitParts(n.x, n.y, n.z, a.s, a.c);
    UnitParts(n.y, n.z, n.x, a.s, a.c);
    UnitParts(n.z, n.x, n.y, a.s, a.c);
    hide Turn, Part, Straight, Skew;
  }

  lemma UnitParts(x: real, y: real, z: real, s: real, c: real)
    ensures Part(1.0, 0.0, 0.0, x, y, z, s, c) == Straight(x, c)
    ensures Part(0.0, 1.0, 0.0, x, y, z, s, c) == Skew(x, y, -z, s, c)
    ensures Part(0.0, 0.0, 1.0, x, y, z, s, c) == Skew(z, x, y, s, c)
  {
  }

  /** A rotation of a combination is the combination of the rotated vectors. */
  lemma RotateOfMix(p: Vec, j: real, q: Vec, k: real, r: Vec, l: real, a: Angle, axis: Vec, mag: real)
    ensures Rotate(Mix(p, j, q, k, r, l), a, axis, mag)
         == Mix(Rotate(p, a, axis, mag), j, Rotate(q, a, axis, mag), k, Rotate(r, a, axis, mag), l)
  {
    hide Mix, Rotate;
    var x, y, z := Rotate(EX, a, axis, mag), Rotate(EY, a, axis, mag), Rotate(EZ, a, axis, mag);
    RotateIsLinear(Mix(p, j, q, k, r, l), a, axis, mag);
    RotateIsLinear(p, a, axis, mag);
    RotateIsLinear(q, a, axis, mag);
    RotateIsLinear(r, a, axis, mag);
    MixOfMix(x, y, z, p, j, q, k, r, l);
  }
}
