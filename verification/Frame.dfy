/** GLFrame: a position with a forward and an up direction, moved and rotated in place; the matrices built from it. */
module Frame {
  import opened Vector3
  import M = Matrix44

  // ---------- matrices made of three directions and a position ----------

  function Columns(x: Vec, y: Vec, z: Vec, o: Vec): M.Matrix {
    [x.x, x.y, x.z, 0.0, y.x, y.y, y.z, 0.0, z.x, z.y, z.z, 0.0, o.x, o.y, o.z, 1.0]
  }

  function Rows(x: Vec, y: Vec, z: Vec): M.Matrix {
    Columns(Vec(x.x, y.x, z.x), Vec(x.y, y.y, z.y), Vec(x.z, y.z, z.z), ZERO)
  }

  function Translation(o: Vec): M.Matrix { Columns(EX, EY, EZ, o) }

  function Direction(v: Vec): M.Line { M.Line(v.x, v.y, v.z, 0.0) }

  function Position(v: Vec): M.Line { M.Line(v.x, v.y, v.z, 1.0) }

  /** The 3x3 part of a matrix applied to a vector. */
  function Linear(m: M.Matrix, v: Vec): Vec {
    Mix(Vec(m[0], m[1], m[2]), v.x, Vec(m[4], m[5], m[6]), v.y, Vec(m[8], m[9], m[10]), v.z)
  }

  lemma LinesOfColumns(x: Vec, y: Vec, z: Vec, o: Vec)
    ensures var m := Columns(x, y, z, o);
            && M.Column(m, 0) == Direction(x) && M.Column(m, 1) == Direction(y)
            && M.Column(m, 2) == Direction(z) && M.Column(m, 3) == Position(o)
            && M.Row(m, 0) == M.Line(x.x, y.x, z.x, o.x) && M.Row(m, 1) == M.Line(x.y, y.y, z.y, o.y)
            && M.Row(m, 2) == M.Line(x.z, y.z, z.z, o.z) && M.Row(m, 3) == M.Line(0.0, 0.0, 0.0, 1.0)
  {
  }

  /** What the 4x4 transformation does to a direction is what the inlined 3x3 code does. */
  lemma TransformDirection(m: M.Matrix, v: Vec)
    ensures var t := M.Transform(m, Direction(v)); Vec(t.x, t.y, t.z) == Linear(m, v)
  {
    RowOnDirection(m, v, 0);
    RowOnDirection(m, v, 1);
    RowOnDirection(m, v, 2);
    hide Prod, M.Line.Dot, M.Row;
  }

  lemma RowOnDirection(m: M.Matrix, v: Vec, r: nat)
    requires r < 4
    ensures M.Row(m, r).Dot(Direction(v)) == Prod(m[r], v.x) + Prod(m[4 + r], v.y) + Prod(m[8 + r], v.z)
  {
  }

  lemma ColumnsOnVector(x: Vec, y: Vec, z: Vec, o: Vec, v: Vec, w: real)
    ensures M.Transform(Columns(x, y, z, o), M.Line(v.x, v.y, v.z, w)).w == w
    ensures Linear(Columns(x, y, z, o), v) == Mix(x, v.x, y, v.y, z, v.z)
  {
    LinesOfColumns(x, y, z, o);
    assert M.Line(0.0, 0.0, 0.0, 1.0).Dot(M.Line(v.x, v.y, v.z, w)) == w;
    hide M.Line.Dot, M.Row, M.Column, Mix;
  }

  // ---------- rotation matrices ----------

  function RotationOf(a: Angle, axis: Vec, mag: real): M.Matrix {
    Columns(Rotate(EX, a, axis, mag), Rotate(EY, a, axis, mag), Rotate(EZ, a, axis, mag), ZERO)
  }

  lemma RotationTurns(a: Angle, axis: Vec, mag: real, v: Vec)
    ensures Linear(RotationOf(a, axis, mag), v) == Rotate(v, a, axis, mag)
  {
    ColumnsOnVector(Rotate(EX, a, axis, mag), Rotate(EY, a, axis, mag), Rotate(EZ, a, axis, mag), ZERO, v, 0.0);
    RotateIsLinear(v, a, axis, mag);
    hide Linear, Columns, Rotate, Mix;
  }

  lemma StraightIs(x: real, c: real, oneC: real, xx: real)
    requires oneC == 1.0 - c && xx == x * x
    ensures Straight(x, c) == oneC * xx + c
  {
    Equals(oneC, 1.0 - c, xx, x * x);
  }

  lemma SkewIs(x: real, y: real, z: real, s: real, c: real, oneC: real, xy: real, zs: real)
    requires oneC == 1.0 - c && xy == x * y && zs == z * s
    ensures Skew(x, y, z, s, c) == oneC * xy + zs && Skew(x, y, -z, s, c) == oneC * xy - zs
  {
    Equals(oneC, 1.0 - c, xy, x * y);
  }

  /** m3dLoadIdentity44 */
  method LoadIdentity44(m: array<real>)
    requires m.Length == 16
    modifies m
    ensures m[..] == M.IDENTITY
  {
    for i := 0 to 16
      invariant forall k :: 0 <= k < i ==> m[k] == M.IDENTITY[k]
    {
      m[i] := M.IDENTITY[i];
    }
  }

  /** The four assignments M(r, 0) to M(r, 3) by which the source fills a row. */
  method SetRow(m: array<real>, r: nat, m0: real, m1: real, m2: real, m3: real)
    requires m.Length == 16 && r < 4
    modifies m
    ensures m[r] == m0 && m[4 + r] == m1 && m[8 + r] == m2 && m[12 + r] == m3
    ensures forall k :: 0 <= k < 16 && k % 4 != r ==> m[k] == old(m[k])
  {
    m[r] := m0;
    m[4 + r] := m1;
    m[8 + r] := m2;
    m[12 + r] := m3;
  }

  lemma EntriesMakeColumns(m: array<real>, x: Vec, y: Vec, z: Vec, o: Vec)
    requires m.Length == 16
    requires m[0] == x.x && m[1] == x.y && m[2] == x.z && m[3] == 0.0
    requires m[4] == y.x && m[5] == y.y && m[6] == y.z && m[7] == 0.0
    requires m[8] == z.x && m[9] == z.y && m[10] == z.z && m[11] == 0.0
    requires m[12] == o.x && m[13] == o.y && m[14] == o.z && m[15] == 1.0
    ensures m[..] == Columns(x, y, z, o)
  {
  }

  /** m3dRotationMatrix44; mag is the root that sqrt returns. */
  method RotationMatrix44(m: array<real>, angle: Angle, axis: Vec, mag: real)
    requires m.Length == 16 && Root(mag, axis)
    modifies m
    ensures m[..] == RotationOf(angle, axis, mag)
  {
    var s, c := angle.s, angle.c;
    if mag == 0.0 {
      LoadIdentity44(m);
      return;
    }
    var x, y, z := axis.x / mag, axis.y / mag, axis.z / mag;
    var xx, yy, zz := x * x, y * y, z * z;
    var xy, yz, zx := x * y, y * z, z * x;
    var xs, ys, zs := x * s, y * s, z * s;
    var one_c := 1.0 - c;
    ghost var n := axis.Over(mag);
    TurnColumns(n, angle);
    StraightIs(x, c, one_c, xx);
    StraightIs(y, c, one_c, yy);
    StraightIs(z, c, one_c, zz);
    SkewIs(x, y, z, s, c, one_c, xy, zs);
    SkewIs(y, z, x, s, c, one_c, yz, xs);
    SkewIs(z, x, y, s, c, one_c, zx, ys);
    hide Root, Vec.Dot, Vec.Over, Turn, Straight, Skew, Columns;
    SetRow(m, 0, one_c * xx + c, one_c * xy - zs, one_c * zx + ys, 0.0);
    SetRow(m, 1, one_c * xy + zs, one_c * yy + c, one_c * yz - xs, 0.0);
    SetRow(m, 2, one_c * zx - ys, one_c * yz + xs, one_c * zz + c, 0.0);
    SetRow(m, 3, 0.0, 0.0, 0.0, 1.0);
    EntriesMakeColumns(m, Turn(EX, n, angle), Turn(EY, n, angle), Turn(EZ, n, angle), ZERO);
  }

  function Columns33(x: Vec, y: Vec, z: Vec): seq<real> { [x.x, x.y, x.z, y.x, y.y, y.z, z.x, z.y, z.z] }

  /** m3dLoadIdentity33 */
  method LoadIdentity33(m: array<real>)
    requires m.Length == 9
    modifies m
    ensures m[..] == Columns33(EX, EY, EZ)
  {
    m[0], m[1], m[2], m[3], m[4], m[5], m[6], m[7], m[8] := 1.0, 0.0, 0.0, 0.0, 1.0, 0.0, 0.0, 0.0, 1.0;
    assert m[..] == [m[0], m[1], m[2], m[3], m[4], m[5], m[6], m[7], m[8]];
  }

  /** m3dRotationMatrix33, written out separately by the source. */
  method RotationMatrix33(m: array<real>, angle: Angle, axis: Vec, mag: real)
    requires m.Length == 9 && Root(mag, axis)
    modifies m
    ensures m[..] == Columns33(Rotate(EX, angle, axis, mag), Rotate(EY, angle, axis, mag), Rotate(EZ, angle, axis, mag))
  {
    var s, c := angle.s, angle.c;
    if mag == 0.0 {
      LoadIdentity33(m);
      return;
    }
    var x, y, z := axis.x / mag, axis.y / mag, axis.z / mag;
    var xx, yy, zz := x * x, y * y, z * z;
    var xy, yz, zx := x * y, y * z, z * x;
    var xs, ys, zs := x * s, y * s, z * s;
    var one_c := 1.0 - c;
    ghost var n := axis.Over(mag);
    TurnColumns(n, angle);
    StraightIs(x, c, one_c, xx);
    StraightIs(y, c, one_c, yy);
    StraightIs(z, c, one_c, zz);
    SkewIs(x, y, z, s, c, one_c, xy, zs);
    SkewIs(y, z, x, s, c, one_c, yz, xs);
    SkewIs(z, x, y, s, c, one_c, zx, ys);
    hide Root, Vec.Dot, Vec.Over, Turn, Straight, Skew;
    m[0], m[3], m[6] := one_c * xx + c, one_c * xy - zs, one_c * zx + ys;
    m[1], m[4], m[7] := one_c * xy + zs, one_c * yy + c, one_c * yz - xs;
    m[2], m[5], m[8] := one_c * zx - ys, one_c * yz + xs, one_c * zz + c;
    assert m[..] == [m[0], m[1], m[2], m[3], m[4], m[5], m[6], m[7], m[8]];
  }

  /** m3dRotateVector */
  method RotateVector(p: Vec, m: array<real>, ghost x: Vec, ghost y: Vec, ghost z: Vec) returns (v: Vec)
    requires m.Length == 9 && m[..] == Columns33(x, y, z)
    ensures v == Mix(x, p.x, y, p.y, z, p.z)
  {
    assert m[0] == m[..][0] && m[1] == m[..][1] && m[2] == m[..][2] && m[3] == m[..][3] && m[4] == m[..][4]
        && m[5] == m[..][5] && m[6] == m[..][6] && m[7] == m[..][7] && m[8] == m[..][8];
    v := Vec(m[0] * p.x + m[3] * p.y + m[6] * p.z,
             m[1] * p.x + m[4] * p.y + m[7] * p.z,
             m[2] * p.x + m[5] * p.y + m[8] * p.z);
  }

  /** The 3x3 transformation that the frame inlines. */
  method Inlined(m: array<real>, v: Vec) returns (w: Vec)
    requires m.Length == 16
    ensures w == Linear(m[..], v)
  {
    w := Vec(m[0] * v.x + m[4] * v.y + m[8] * v.z,
             m[1] * v.x + m[5] * v.y + m[9] * v.z,
             m[2] * v.x + m[6] * v.y + m[10] * v.z);
  }

  // ---------- poses and commands ----------

  datatype Pose = Pose(origin: Vec, forward: Vec, up: Vec) {
    function XAxis(): Vec { up.Cross(forward) }

    predicate Orthonormal() { up.Dot(up) == 1.0 && forward.Dot(forward) == 1.0 && up.Dot(forward) == 0.0 }

    /** A vector of the frame seen from the world. */
    function Across(v: Vec): Vec { Mix(XAxis(), v.x, up, v.y, forward, v.z) }

    function Moved(v: Vec): Pose { this.(origin := origin.Plus(v)) }
  }

  const DEFAULT := Pose(ZERO, Vec(0.0, 0.0, -1.0), EY)

  /** The updates of the frame; mag is what sqrt returns for the axis of a rotation. */
  datatype Command =
    | TranslateWorld(v: Vec)
    | TranslateLocal(v: Vec)
    | MoveForward(delta: real)
    | MoveUp(delta: real)
    | MoveRight(delta: real)
    | RotateWorld(angle: Angle, axis: Vec, mag: real)
    | RotateLocal(angle: Angle, axis: Vec, mag: real)
    | RotateLocalX(angle: Angle, mag: real)
    | RotateLocalY(angle: Angle, mag: real)
    | RotateLocalZ(angle: Angle, mag: real)
    | Normalize(magUp: real, magForward: real)

  /** The axis of a rotation, in world terms. */
  function AxisOf(p: Pose, c: Command): Vec {
    match c
    case RotateWorld(_, axis, _) => axis
    case RotateLocal(_, axis, _) => p.Across(axis)
    case RotateLocalX(_, _) => p.XAxis()
    case RotateLocalY(_, _) => p.up
    case RotateLocalZ(_, _) => p.forward
    case _ => ZERO
  }

  /** Angles are on the circle, mag is the square root, and Normalize has something to normalise. */
  ghost predicate Possible(p: Pose, c: Command) {
    match c
    case RotateWorld(angle, _, mag) => OnCircle(angle) && Root(mag, AxisOf(p, c))
    case RotateLocal(angle, _, mag) => OnCircle(angle) && Root(mag, AxisOf(p, c))
    case RotateLocalX(angle, mag) => OnCircle(angle) && Root(mag, AxisOf(p, c))
    case RotateLocalY(angle, mag) => OnCircle(angle) && Root(mag, AxisOf(p, c))
    case RotateLocalZ(angle, mag) => OnCircle(angle) && Root(mag, AxisOf(p, c))
    case Normalize(magUp, magForward) =>
      Root(magUp, p.up) && Root(magForward, p.XAxis().Cross(p.up)) && magUp != 0.0 && magForward != 0.0
    case _ => true
  }

  function Turned(p: Pose, angle: Angle, axis: Vec, mag: real): Pose {
    Pose(p.origin, Rotate(p.forward, angle, axis, mag), Rotate(p.up, angle, axis, mag))
  }

  function Step(p: Pose, c: Command): Pose
    requires c.Normalize? ==> c.magUp != 0.0 && c.magForward != 0.0
  {
    match c
    case TranslateWorld(v) => p.Moved(v)
    case TranslateLocal(v) => p.Moved(p.forward.Times(v.z)).Moved(p.up.Times(v.y)).Moved(p.XAxis().Times(v.x))
    case MoveForward(d) => p.Moved(p.forward.Times(d))
    case MoveUp(d) => p.Moved(p.up.Times(d))
    case MoveRight(d) => p.Moved(p.XAxis().Times(d))
    case RotateWorld(angle, _, mag) => Turned(p, angle, AxisOf(p, c), mag)
    case RotateLocal(angle, _, mag) => Turned(p, angle, AxisOf(p, c), mag)
    case RotateLocalX(angle, mag) => Turned(p, angle, AxisOf(p, c), mag)
    case RotateLocalY(angle, mag) => p.(forward := Rotate(p.forward, angle, p.up, mag))
    case RotateLocalZ(angle, mag) => p.(up := Rotate(p.up, angle, p.forward, mag))
    case Normalize(magUp, magForward) =>
      Pose(p.origin, p.XAxis().Cross(p.up).Times(1.0 / magForward), p.up.Times(1.0 / magUp))
  }

  lemma TurningKeepsOrthonormal(p: Pose, angle: Angle, axis: Vec, mag: real)
    requires p.Orthonormal() && OnCircle(angle) && Root(mag, axis)
    ensures Turned(p, angle, axis, mag).Orthonormal()
    ensures Turned(p, angle, axis, mag).XAxis() == Rotate(p.XAxis(), angle, axis, mag)
  {
    RotateKeepsDot(p.up, p.up, angle, axis, mag);
    RotateKeepsDot(p.forward, p.forward, angle, axis, mag);
    RotateKeepsDot(p.up, p.forward, angle, axis, mag);
    RotateKeepsCross(p.up, p.forward, angle, axis, mag);
    hide Vec.Dot, Vec.Cross, Rotate, Root;
  }

  /** A rotation about the own up or forward axis moves only the other one, yet turns the whole frame. */
  lemma LocalTurnsWholeFrame(p: Pose, c: Command)
    requires (c.RotateLocalY? || c.RotateLocalZ?) && Possible(p, c)
    ensures Step(p, c) == Turned(p, c.angle, AxisOf(p, c), c.mag)
  {
    RotateKeepsAxis(c.angle, AxisOf(p, c), c.mag);
    hide Rotate, Root;
  }

  lemma NormalizedIsOrthonormal(p: Pose, magUp: real, magForward: real)
    requires Possible(p, Normalize(magUp, magForward))
    ensures Step(p, Normalize(magUp, magForward)).Orthonormal()
  {
    var f := p.XAxis().Cross(p.up);
    ScaledToUnit(magUp, p.up);
    ScaledToUnit(magForward, f);
    ReciprocalScales(p.up, magUp);
    ReciprocalScales(f, magForward);
    CrossIsOrthogonal(p.XAxis(), p.up);
    DotScales(p.up, 1.0 / magUp, f, 1.0 / magForward);
    hide Vec.Dot, Vec.Cross, Vec.Over, Vec.Times;
    assert Prod(0.0, (1.0 / magUp) * (1.0 / magForward)) == 0.0;
  }

  /** In an orthonormal frame the axis of a local rotation has length one, so the code never scales it. */
  lemma LocalAxisIsUnit(p: Pose, c: Command)
    requires p.Orthonormal() && (c.RotateLocalX? || c.RotateLocalY? || c.RotateLocalZ?) && Possible(p, c)
    ensures c.mag == 1.0
  {
    Lagrange(p.up, p.forward, p.forward);
    DotSymmetric(p.up, p.forward);
    hide Vec.Dot, Vec.Cross, Root;
    UnitRoot(c.mag, AxisOf(p, c));
  }

  /** Normalising an orthonormal frame leaves it as it is. */
  lemma NormalizeIsIdempotent(p: Pose, magUp: real, magForward: real)
    requires p.Orthonormal() && Possible(p, Normalize(magUp, magForward))
    ensures Step(p, Normalize(magUp, magForward)) == p
  {
    hide Vec.Dot, Vec.Cross, Root, Vec.Times, Vec.Minus;
    ForwardAgain(p);
    UnitRoot(magUp, p.up);
    UnitRoot(magForward, p.forward);
    TimesOne(p.up);
    TimesOne(p.forward);
  }

  lemma ForwardAgain(p: Pose)
    requires p.Orthonormal()
    ensures p.XAxis().Cross(p.up) == p.forward
  {
    CrossTwice(p.up, p.up, p.forward);
    CrossSwaps(p.up, p.XAxis());
    hide Vec.Dot, Vec.Cross;
  }

  lemma TimesOne(v: Vec)
    ensures v.Times(1.0 / 1.0) == v
  {
  }

  /** Each command keeps the frame orthonormal. */
  lemma StepKeepsOrthonormal(p: Pose, c: Command)
    requires p.Orthonormal() && Possible(p, c)
    ensures Step(p, c).Orthonormal()
  {
    match c
    case RotateWorld(angle, _, mag) => TurningKeepsOrthonormal(p, angle, AxisOf(p, c), mag);
    case RotateLocal(angle, _, mag) => TurningKeepsOrthonormal(p, angle, AxisOf(p, c), mag);
    case RotateLocalX(angle, mag) => TurningKeepsOrthonormal(p, angle, AxisOf(p, c), mag);
    case RotateLocalY(angle, mag) =>
      LocalTurnsWholeFrame(p, c);
      TurningKeepsOrthonormal(p, angle, AxisOf(p, c), mag);
    case RotateLocalZ(angle, mag) =>
      LocalTurnsWholeFrame(p, c);
      TurningKeepsOrthonormal(p, angle, AxisOf(p, c), mag);
    case Normalize(magUp, magForward) => NormalizedIsOrthonormal(p, magUp, magForward);
    case _ =>
  }

  /** Every run from p to q whose commands are all possible where they are given. */
  ghost predicate Reaches(p: Pose, run: seq<Command>, q: Pose)
    decreases |run|
  {
    if run == [] then p == q else Possible(p, run[0]) && Reaches(Step(p, run[0]), run[1..], q)
  }

  /** Safety over whole runs: whatever the commands, the frame stays orthonormal. */
  lemma {:induction false} RunKeepsOrthonormal(p: Pose, run: seq<Command>, q: Pose)
    requires p.Orthonormal() && Reaches(p, run, q)
    ensures q.Orthonormal()
    decreases |run|
  {
    if run != [] {
      StepKeepsOrthonormal(p, run[0]);
      RunKeepsOrthonormal(Step(p, run[0]), run[1..], q);
    }
  }

  /** Normalize has no division by zero exactly when up and forward are independent. */
  lemma NormalizeNeedsIndependence(p: Pose, magUp: real, magForward: real)
    requires Root(magUp, p.up) && Root(magForward, p.XAxis().Cross(p.up))
    ensures magUp != 0.0 && magForward != 0.0 <==> p.XAxis() != ZERO
  {
    var x := p.XAxis();
    RootIsZero(magUp, p.up);
    RootIsZero(magForward, x.Cross(p.up));
    CrossIsOrthogonal(p.up, p.forward);
    DotSymmetric(x, p.up);
    OrthogonalCross(x, p.up);
    ZeroCross(p.forward);
    ZeroCross(p.up);
    hide Root, Vec.Dot, Vec.Cross;
  }

  lemma OrthogonalCross(x: Vec, u: Vec)
    requires x.Dot(u) == 0.0
    ensures x.Cross(u) == ZERO <==> x == ZERO || u == ZERO
  {
    Lagrange(x, u, u);
    LengthVanishes(x);
    LengthVanishes(u);
    LengthVanishes(x.Cross(u));
    VanishingProduct(x.Cross(u).Dot(x.Cross(u)), x.Dot(x), u.Dot(u), x.Dot(u));
    hide Vec.Dot, Vec.Cross;
  }

  lemma VanishingProduct(c: real, a: real, b: real, d: real)
    requires d == 0.0 && c == a * b - d * d
    ensures c == 0.0 <==> a == 0.0 || b == 0.0
  {
    assert d * d == 0.0;
    if a * b == 0.0 {
      ProductVanishes(a, b);
    }
  }

  lemma ZeroCross(v: Vec)
    ensures ZERO.Cross(v) == ZERO
  {
  }

  lemma LengthVanishes(v: Vec)
    ensures v.Dot(v) == 0.0 <==> v == ZERO
  {
    SquareIsPositive(v.x);
    SquareIsPositive(v.y);
    SquareIsPositive(v.z);
  }

  // ---------- coordinates ----------

  function ToWorld(p: Pose, v: Vec): Vec { p.Across(v).Plus(p.origin) }

  function RotationPart(p: Pose): M.Matrix { Columns(p.XAxis(), p.up, p.forward, ZERO) }

  lemma RotationPartDet(p: Pose)
    ensures M.Det(RotationPart(p)) == p.XAxis().Dot(p.XAxis())
  {
    DetOfColumns(p.XAxis(), p.up, p.forward, ZERO);
    hide M.Det, Columns, Vec.Dot;
  }

  lemma DetOfColumns(x: Vec, y: Vec, z: Vec, o: Vec)
    ensures M.Det(Columns(x, y, z, o)) == x.Dot(y.Cross(z))
  {
    var m, w := Columns(x, y, z, o), y.Cross(z);
    MinorsOfColumns(x, y, z, o);
    Equals(x.x, x.x, M.Minor(m, 0, 0), w.x);
    Equals(x.y, x.y, M.Minor(m, 0, 1), -w.y);
    Equals(x.z, x.z, M.Minor(m, 0, 2), w.z);
    hide Vec.Cross, M.Minor, M.Det3;
  }

  lemma MinorsOfColumns(x: Vec, y: Vec, z: Vec, o: Vec)
    ensures var m, w := Columns(x, y, z, o), y.Cross(z);
            M.Minor(m, 0, 0) == w.x && M.Minor(m, 0, 1) == -w.y && M.Minor(m, 0, 2) == w.z
  {
    AffineDet(y.y, y.z, z.y, z.z, o.y, o.z);
    AffineDet(y.x, y.z, z.x, z.z, o.x, o.z);
    AffineDet(y.x, y.y, z.x, z.y, o.x, o.y);
    WedgeSwaps(y.x, y.z, z.x, z.z);
    hide M.Det3, Wedge;
  }

  lemma AffineDet(a: real, b: real, c: real, d: real, e: real, f: real)
    ensures M.Det3(a, b, 0.0, c, d, 0.0, e, f, 1.0) == Wedge(a, b, c, d)
  {
  }

  lemma WedgeSwaps(a: real, b: real, c: real, d: real)
    ensures Wedge(a, b, c, d) == -Wedge(b, a, d, c)
  {
  }

  /** World to local, by the inverse that m3dInvertMatrix44 computes. */
  function ToLocal(p: Pose, w: Vec): Vec
    requires M.Det(RotationPart(p)) != 0.0
  {
    Linear(M.Inverse(RotationPart(p)), w.Minus(p.origin))
  }

  /** The rotation part is inverted exactly when up and forward are independent. */
  lemma Invertible(p: Pose)
    ensures M.Det(RotationPart(p)) != 0.0 <==> p.XAxis() != ZERO
  {
    RotationPartDet(p);
    LengthVanishes(p.XAxis());
    hide M.Det, RotationPart, Vec.Dot, Vec.Cross;
  }

  lemma InverseOnBothSides(p: Pose, v: Vec)
    requires M.Det(RotationPart(p)) != 0.0
    ensures Linear(M.Inverse(RotationPart(p)), p.Across(v)) == v
    ensures p.Across(Linear(M.Inverse(RotationPart(p)), v)) == v
  {
    var r := RotationPart(p);
    var i := M.Inverse(r);
    M.InverseIsTwoSided(r);
    M.TransformTwice(i, r, Direction(v));
    M.TransformTwice(r, i, Direction(v));
    M.IdentityTransforms(Direction(v));
    TransformDirection(r, v);
    TransformDirection(i, v);
    TransformDirection(i, p.Across(v));
    var l := Linear(i, v);
    TransformDirection(r, l);
    ColumnsOnVector(p.XAxis(), p.up, p.forward, ZERO, v, 0.0);
    ColumnsOnVector(p.XAxis(), p.up, p.forward, ZERO, l, 0.0);
    ColumnsOnVector(p.XAxis(), p.up, p.forward, ZERO, l, M.Transform(i, Direction(v)).w);
    hide M.Inverse, M.Multiply, M.Transform, M.Det, M.IDENTITY, Columns, Linear, Mix, Vec.Cross;
  }

  /** Local and world coordinates are inverse to each other. */
  lemma CoordinatesRoundTrip(p: Pose, v: Vec)
    requires M.Det(RotationPart(p)) != 0.0
    ensures ToLocal(p, ToWorld(p, v)) == v && ToWorld(p, ToLocal(p, v)) == v
  {
    assert p.Across(v).Plus(p.origin).Minus(p.origin) == p.Across(v);
    assert v.Minus(p.origin).Plus(p.origin) == v;
    InverseOnBothSides(p, v);
    InverseOnBothSides(p, v.Minus(p.origin));
    hide M.Inverse, M.Det, RotationPart, Linear, Pose.Across;
  }

  /** In an orthonormal frame the local coordinates are the projections on the three axes. */
  lemma LocalIsProjection(p: Pose, w: Vec)
    requires p.Orthonormal()
    ensures M.Det(RotationPart(p)) == 1.0
    ensures var d := w.Minus(p.origin); ToLocal(p, w) == Vec(d.Dot(p.XAxis()), d.Dot(p.up), d.Dot(p.forward))
  {
    RotationPartDet(p);
    XAxisIsUnit(p);
    var l := ToLocal(p, w);
    var d := w.Minus(p.origin);
    InverseOnBothSides(p, d);
    AxesReadBack(p, l);
    DotSymmetric(d, p.XAxis());
    DotSymmetric(d, p.up);
    DotSymmetric(d, p.forward);
    hide M.Inverse, M.Det, RotationPart, Linear, Pose.Across, Vec.Dot, Vec.Cross;
  }

  lemma XAxisIsUnit(p: Pose)
    requires p.Orthonormal()
    ensures p.XAxis().Dot(p.XAxis()) == 1.0 && p.XAxis().Dot(p.up) == 0.0 && p.XAxis().Dot(p.forward) == 0.0
  {
    Lagrange(p.up, p.forward, p.forward);
    CrossIsOrthogonal(p.up, p.forward);
    DotSymmetric(p.XAxis(), p.up);
    DotSymmetric(p.XAxis(), p.forward);
    hide Vec.Dot, Vec.Cross;
  }

  lemma AxesReadBack(p: Pose, v: Vec)
    requires p.Orthonormal()
    ensures p.XAxis().Dot(p.Across(v)) == v.x && p.up.Dot(p.Across(v)) == v.y && p.forward.Dot(p.Across(v)) == v.z
  {
    XAxisIsUnit(p);
    var x := p.XAxis();
    DotOfMix(x, x, v.x, p.up, v.y, p.forward, v.z);
    DotOfMix(p.up, x, v.x, p.up, v.y, p.forward, v.z);
    DotOfMix(p.forward, x, v.x, p.up, v.y, p.forward, v.z);
    DotSymmetric(x, p.up);
    DotSymmetric(x, p.forward);
    DotSymmetric(p.up, p.forward);
    hide Vec.Dot, Vec.Cross, Mix;
  }

  /** An orthonormal frame moves every pair of points rigidly. */
  lemma RigidMotion(p: Pose, u: Vec, v: Vec)
    requires p.Orthonormal()
    ensures p.Across(u).Dot(p.Across(v)) == u.Dot(v)
  {
    var x, w := p.XAxis(), p.Across(u);
    AxesReadBack(p, u);
    DotOfMix(w, x, v.x, p.up, v.y, p.forward, v.z);
    DotSymmetric(w, x);
    DotSymmetric(w, p.up);
    DotSymmetric(w, p.forward);
    hide Vec.Cross, Mix;
  }

  lemma OrthonormalIsRigid(q: Pose, u: Vec, v: Vec)
    requires q.Orthonormal()
    ensures M.Det(RotationPart(q)) == 1.0
    ensures ToLocal(q, ToWorld(q, u)) == u && ToWorld(q, ToLocal(q, u)) == u
    ensures var d := ToWorld(q, u).Minus(ToWorld(q, v)); d.Dot(d) == u.Minus(v).Dot(u.Minus(v))
  {
    LocalIsProjection(q, u);
    CoordinatesRoundTrip(q, u);
    RigidMotion(q, u.Minus(v), u.Minus(v));
    AcrossMinus(q, u, v);
    hide M.Det, RotationPart, ToLocal, ToWorld, Pose.Across, Vec.Dot, Pose.Orthonormal;
  }

  lemma DefaultIsOrthonormal()
    ensures DEFAULT.Orthonormal()
  {
  }

  /** From the default frame, after any run: the local and world coordinates stay inverse, distances stay the same. */
  lemma RunsStayRigid(run: seq<Command>, q: Pose, u: Vec, v: Vec)
    requires Reaches(DEFAULT, run, q)
    ensures M.Det(RotationPart(q)) == 1.0
    ensures ToLocal(q, ToWorld(q, u)) == u && ToWorld(q, ToLocal(q, u)) == u
    ensures var d := ToWorld(q, u).Minus(ToWorld(q, v)); d.Dot(d) == u.Minus(v).Dot(u.Minus(v))
  {
    hide Reaches, Pose.Orthonormal, DEFAULT, M.Det, RotationPart, ToLocal, ToWorld, Vec.Dot;
    DefaultIsOrthonormal();
    RunKeepsOrthonormal(DEFAULT, run, q);
    OrthonormalIsRigid(q, u, v);
  }

  lemma AcrossMinus(p: Pose, u: Vec, v: Vec)
    ensures p.Across(u.Minus(v)) == ToWorld(p, u).Minus(ToWorld(p, v))
  {
    TimesMinus(p.XAxis(), u.x, v.x);
    TimesMinus(p.up, u.y, v.y);
    TimesMinus(p.forward, u.z, v.z);
    hide Vec.Times, Vec.Cross;
  }

  lemma TimesMinus(a: Vec, j: real, k: real)
    ensures a.Times(j - k) == a.Times(j).Minus(a.Times(k))
  {
  }

  // ---------- what the commands do ----------

  /** A move goes along the own axes: the new origin is the point that had the local coordinates of the move. The
      directions stay. */
  lemma MovesAreLocal(p: Pose, d: real)
    ensures Step(p, MoveRight(d)) == p.(origin := ToWorld(p, Vec(d, 0.0, 0.0)))
    ensures Step(p, MoveUp(d)) == p.(origin := ToWorld(p, Vec(0.0, d, 0.0)))
    ensures Step(p, MoveForward(d)) == p.(origin := ToWorld(p, Vec(0.0, 0.0, d)))
  {
    hide Vec.Cross;
  }

  /** From the default frame: forward is down the z axis, and right, the way the code takes it, down the x axis. */
  lemma DefaultMoves(d: real)
    ensures Step(DEFAULT, MoveForward(d)).origin == Vec(0.0, 0.0, -d)
    ensures Step(DEFAULT, MoveUp(d)).origin == Vec(0.0, d, 0.0)
    ensures Step(DEFAULT, MoveRight(d)).origin == Vec(-d, 0.0, 0.0)
  {
  }

  lemma TranslationsMove(p: Pose, v: Vec)
    ensures Step(p, TranslateLocal(v)) == p.(origin := ToWorld(p, v))
    ensures Step(p, TranslateWorld(v)) == p.(origin := Vec(p.origin.x + v.x, p.origin.y + v.y, p.origin.z + v.z))
  {
    hide Vec.Cross;
  }

  /** The axis of a rotation in local terms. */
  function LocalAxis(c: Command): Vec {
    match c
    case RotateLocal(_, axis, _) => axis
    case RotateLocalX(_, _) => EX
    case RotateLocalY(_, _) => EY
    case RotateLocalZ(_, _) => EZ
    case _ => ZERO
  }

  predicate TurnsLocally(c: Command) { c.RotateLocal? || c.RotateLocalX? || c.RotateLocalY? || c.RotateLocalZ? }

  /** A rotation in the world turns what the frame shows of a vector; a local rotation turns the vector first, about
      the axis that it names in local coordinates. */
  lemma RotationsAreWorldOrLocal(p: Pose, c: Command, v: Vec)
    requires p.Orthonormal() && Possible(p, c)
    ensures c.RotateWorld? ==> Step(p, c).Across(v) == Rotate(p.Across(v), c.angle, c.axis, c.mag)
    ensures TurnsLocally(c) ==> Step(p, c).Across(v) == p.Across(Rotate(v, c.angle, LocalAxis(c), c.mag))
    ensures c.RotateWorld? || TurnsLocally(c) ==> Step(p, c).origin == p.origin
  {
    hide Pose.Orthonormal, Rotate, Root, Mix, Vec.Cross, Pose.Across;
    if c.RotateWorld? {
      TurnedAcross(p, c.angle, c.axis, c.mag, v);
    } else if TurnsLocally(c) {
      AxesAcross(p);
      StepTurns(p, c);
      TurnedAcross(p, c.angle, AxisOf(p, c), c.mag, v);
      RotatedAcross(p, v, c.angle, LocalAxis(c), c.mag);
    }
  }

  lemma AxesAcross(p: Pose)
    ensures p.Across(EX) == p.XAxis() && p.Across(EY) == p.up && p.Across(EZ) == p.forward
  {
    hide Vec.Times, Vec.Cross;
    OneTime(p.XAxis());
    OneTime(p.up);
    OneTime(p.forward);
  }

  lemma StepTurns(p: Pose, c: Command)
    requires TurnsLocally(c) && Possible(p, c)
    ensures Step(p, c) == Turned(p, c.angle, AxisOf(p, c), c.mag) && OnCircle(c.angle) && Root(c.mag, AxisOf(p, c))
  {
    hide Rotate, Root, OnCircle;
    if c.RotateLocalY? || c.RotateLocalZ? { LocalTurnsWholeFrame(p, c); }
  }

  lemma TurnedAcross(p: Pose, angle: Angle, axis: Vec, mag: real, v: Vec)
    requires p.Orthonormal() && OnCircle(angle) && Root(mag, axis)
    ensures Turned(p, angle, axis, mag).Across(v) == Rotate(p.Across(v), angle, axis, mag)
  {
    hide Pose.Orthonormal, Rotate, Root, Mix, Vec.Cross, OnCircle;
    TurningKeepsOrthonormal(p, angle, axis, mag);
    RotateOfMix(p.XAxis(), v.x, p.up, v.y, p.forward, v.z, angle, axis, mag);
  }

  /** Turning a vector in local coordinates is turning what the frame shows of it about what it shows of the axis. */
  lemma RotatedAcross(p: Pose, v: Vec, angle: Angle, axis: Vec, mag: real)
    requires p.Orthonormal()
    ensures Rotate(p.Across(v), angle, p.Across(axis), mag) == p.Across(Rotate(v, angle, axis, mag))
  {
    if mag != 0.0 {
      hide Turn, Pose.Orthonormal, Pose.Across;
      AcrossOver(p, axis, mag);
      TurnAcross(p, v, axis.Over(mag), angle);
    }
  }

  lemma AcrossOver(p: Pose, v: Vec, k: real)
    requires k != 0.0
    ensures p.Across(v.Over(k)) == p.Across(v).Over(k)
  {
    hide Vec.Cross, Mix, Pose.Across;
    AcrossTimes(p, v, 1.0 / k);
    ReciprocalScales(v, k);
    ReciprocalScales(p.Across(v), k);
  }

  lemma AcrossTimes(p: Pose, v: Vec, k: real)
    ensures p.Across(v.Times(k)) == p.Across(v).Times(k)
  {
    hide Vec.Cross, Mix, Vec.Times;
    MixOfMix(p.XAxis(), p.up, p.forward, v, k, ZERO, 0.0, ZERO, 0.0);
    OnlyFirst(v, k);
    OnlyFirst(Mix(p.XAxis(), v.x, p.up, v.y, p.forward, v.z), k);
    NothingAcross(p.XAxis(), p.up, p.forward);
  }

  lemma OnlyFirst(v: Vec, k: real)
    ensures Mix(v, k, ZERO, 0.0, ZERO, 0.0) == v.Times(k)
  {
  }

  lemma NothingAcross(a: Vec, b: Vec, c: Vec)
    ensures Mix(a, 0.0, b, 0.0, c, 0.0) == ZERO
  {
  }

  lemma TurnAcross(p: Pose, v: Vec, n: Vec, angle: Angle)
    requires p.Orthonormal()
    ensures Turn(p.Across(v), p.Across(n), angle) == p.Across(Turn(v, n, angle))
  {
    hide Pose.Orthonormal, Mix, Vec.Cross, Vec.Dot, Prod;
    var k := Prod(1.0 - angle.c, n.Dot(v));
    RigidMotion(p, n, v);
    CrossAcross(p, n, v);
    MixOfMix(p.XAxis(), p.up, p.forward, v, angle.c, n.Cross(v), angle.s, n, k);
  }

  /** An orthonormal frame is right-handed, so it keeps cross products. */
  lemma CrossAcross(p: Pose, u: Vec, v: Vec)
    requires p.Orthonormal()
    ensures p.Across(u).Cross(p.Across(v)) == p.Across(u.Cross(v))
  {
    hide Pose.Orthonormal, Mix, Vec.Cross;
    var x, y, z, w := p.XAxis(), p.up, p.forward, p.Across(u);
    AxesCross(p);
    CrossOfMix(w, x, v.x, y, v.y, z, v.z);
    CrossOnRight(x, u.x, y, u.y, z, u.z, x);
    CrossOnRight(x, u.x, y, u.y, z, u.z, y);
    CrossOnRight(x, u.x, y, u.y, z, u.z, z);
    CrossParts(x, y, z, u, v, w.Cross(x), w.Cross(y), w.Cross(z));
  }

  lemma AxesCross(p: Pose)
    requires p.Orthonormal()
    ensures var x, y, z := p.XAxis(), p.up, p.forward;
            && x.Cross(x) == ZERO && y.Cross(y) == ZERO && z.Cross(z) == ZERO
            && x.Cross(y) == z && y.Cross(z) == x && z.Cross(x) == y
            && y.Cross(x) == z.Negated() && z.Cross(y) == x.Negated() && x.Cross(z) == y.Negated()
  {
    hide Vec.Dot, Vec.Cross, Vec.Times;
    var x, y, z := p.XAxis(), p.up, p.forward;
    CrossIsOrthogonal(x, x);
    CrossIsOrthogonal(y, y);
    CrossIsOrthogonal(z, z);
    ForwardAgain(p);
    CrossTwice(z, y, z);
    DotSymmetric(y, z);
    OneTime(y);
    OneTime(z);
    CrossSwaps(y, x);
    CrossSwaps(z, y);
    CrossSwaps(x, z);
  }

  lemma OneTime(v: Vec)
    ensures v.Times(1.0) == v && v.Times(0.0) == ZERO
  {
  }

  lemma CrossParts(x: Vec, y: Vec, z: Vec, u: Vec, v: Vec, wx: Vec, wy: Vec, wz: Vec)
    requires wx == Mix(ZERO, u.x, z.Negated(), u.y, y, u.z)
    requires wy == Mix(z, u.x, ZERO, u.y, x.Negated(), u.z)
    requires wz == Mix(y.Negated(), u.x, x, u.y, ZERO, u.z)
    ensures Mix(wx, v.x, wy, v.y, wz, v.z) == Mix(x, u.Cross(v).x, y, u.Cross(v).y, z, u.Cross(v).z)
  {
    hide Prod, Wedge;
    CrossEntry(x.x, y.x, z.x, u, v, wx.x, wy.x, wz.x);
    CrossEntry(x.y, y.y, z.y, u, v, wx.y, wy.y, wz.y);
    CrossEntry(x.z, y.z, z.z, u, v, wx.z, wy.z, wz.z);
  }

  lemma CrossEntry(x: real, y: real, z: real, u: Vec, v: Vec, wx: real, wy: real, wz: real)
    requires wx == Prod(0.0, u.x) + Prod(-z, u.y) + Prod(y, u.z)
    requires wy == Prod(z, u.x) + Prod(0.0, u.y) + Prod(-x, u.z)
    requires wz == Prod(-y, u.x) + Prod(x, u.y) + Prod(0.0, u.z)
    ensures Prod(wx, v.x) + Prod(wy, v.y) + Prod(wz, v.z)
         == Prod(x, u.Cross(v).x) + Prod(y, u.Cross(v).y) + Prod(z, u.Cross(v).z)
  {
    hide Prod, Wedge;
    TwoTerms(u.x, z, u.y, y, u.z);
    TwoTerms(u.y, x, u.z, z, u.x);
    TwoTerms(u.z, y, u.x, x, u.y);
    ProdOf(wx, y * u.z - z * u.y, v.x, v.x);
    ProdOf(wy, z * u.x - x * u.z, v.y, v.y);
    ProdOf(wz, x * u.y - y * u.x, v.z, v.z);
    WedgeIs(x, u.y, u.z, v.y, v.z);
    WedgeIs(y, u.z, u.x, v.z, v.x);
    WedgeIs(z, u.x, u.y, v.x, v.y);
    CrossIdentity(x, y, z, u.x, u.y, u.z, v.x, v.y, v.z);
  }

  lemma TwoTerms(a: real, b: real, c: real, d: real, e: real)
    ensures Prod(0.0, a) + Prod(-b, c) + Prod(d, e) == d * e - b * c
  {
  }

  lemma WedgeIs(x: real, a: real, b: real, c: real, d: real)
    ensures Prod(x, Wedge(a, b, c, d)) == x * (a * d - c * b)
  {
  }

  lemma CrossIdentity(x: real, y: real, z: real, a: real, b: real, c: real, d: real, e: real, f: real)
    ensures (y * c - z * b) * d + (z * a - x * c) * e + (x * b - y * a) * f
         == x * (b * f - e * c) + y * (c * d - f * a) + z * (a * e - d * b)
  {
  }

  /** Normalize keeps the direction of up and of the right axis, and the plane of up and forward. */
  lemma NormalizeKeepsDirections(p: Pose, magUp: real, magForward: real)
    requires Possible(p, Normalize(magUp, magForward))
    ensures var q := Step(p, Normalize(magUp, magForward));
            && q.origin == p.origin && q.up.Times(magUp) == p.up
            && q.forward.Times(magForward)
               == p.forward.Times(p.up.Dot(p.up)).Minus(p.up.Times(p.up.Dot(p.forward)))
  {
    hide Vec.Dot, Vec.Cross, Vec.Times, Vec.Over, Vec.Minus;
    var f := p.XAxis().Cross(p.up);
    ScaledToUnit(magUp, p.up);
    ScaledToUnit(magForward, f);
    ReciprocalScales(p.up, magUp);
    ReciprocalScales(f, magForward);
    CrossSwaps(p.XAxis(), p.up);
    CrossTwice(p.up, p.up, p.forward);
    NegatedMinus(p.up, p.up.Dot(p.forward), p.forward, p.up.Dot(p.up));
  }

  // ---------- the camera ----------

  function CameraRotation(p: Pose): M.Matrix {
    var z := p.forward.Negated();
    Rows(p.up.Cross(z), p.up, z)
  }

  function Camera(p: Pose): M.Matrix { M.Multiply(CameraRotation(p), Translation(p.origin.Negated())) }

  /** The matrix that GLFrustum builds from a frame. */
  function FrustumMatrix(p: Pose): M.Matrix {
    var z := p.forward.Negated();
    Columns(p.up.Cross(z), p.up, z, p.origin)
  }

  lemma TranslateBack(x: Vec, y: Vec, z: Vec, o: Vec)
    ensures M.Multiply(Translation(o.Negated()), Columns(x, y, z, o)) == Columns(x, y, z, ZERO)
  {
    var t, m, r := Translation(o.Negated()), Columns(x, y, z, o), Columns(x, y, z, ZERO);
    LinesOfColumns(x, y, z, o);
    LinesOfColumns(x, y, z, ZERO);
    LinesOfColumns(EX, EY, EZ, o.Negated());
    M.ProductColumn(t, m, 0);
    M.ProductColumn(t, m, 1);
    M.ProductColumn(t, m, 2);
    M.ProductColumn(t, m, 3);
    Shifted(o, M.Line(x.x, x.y, x.z, 0.0));
    Shifted(o, M.Line(y.x, y.y, y.z, 0.0));
    Shifted(o, M.Line(z.x, z.y, z.z, 0.0));
    Shifted(o, M.Line(o.x, o.y, o.z, 1.0));
    hide M.Multiply, M.Column, M.Transform, Columns;
    M.ColumnsMakeMatrix(M.Multiply(t, m), r);
  }

  lemma Shifted(o: Vec, l: M.Line)
    ensures M.Transform(Translation(o.Negated()), l) == M.Line(l.x - o.x * l.w, l.y - o.y * l.w, l.z - o.z * l.w, l.w)
  {
    LinesOfColumns(EX, EY, EZ, o.Negated());
    hide M.Row, M.Column, Columns;
  }

  /** The nine dot products of three directions. */
  lemma RowsTimesColumns(x: Vec, y: Vec, z: Vec)
    ensures M.Multiply(Rows(x, y, z), Columns(x, y, z, ZERO))
         == Columns(Vec(x.Dot(x), y.Dot(x), z.Dot(x)), Vec(x.Dot(y), y.Dot(y), z.Dot(y)),
                    Vec(x.Dot(z), y.Dot(z), z.Dot(z)), ZERO)
  {
    var t, m := Rows(x, y, z), Columns(x, y, z, ZERO);
    var r := Columns(Vec(x.Dot(x), y.Dot(x), z.Dot(x)), Vec(x.Dot(y), y.Dot(y), z.Dot(y)),
                     Vec(x.Dot(z), y.Dot(z), z.Dot(z)), ZERO);
    LinesOfColumns(x, y, z, ZERO);
    LinesOfColumns(Vec(x.Dot(x), y.Dot(x), z.Dot(x)), Vec(x.Dot(y), y.Dot(y), z.Dot(y)),
                   Vec(x.Dot(z), y.Dot(z), z.Dot(z)), ZERO);
    M.ProductColumn(t, m, 0);
    M.ProductColumn(t, m, 1);
    M.ProductColumn(t, m, 2);
    M.ProductColumn(t, m, 3);
    RowsOn(x, y, z, x, 0.0);
    RowsOn(x, y, z, y, 0.0);
    RowsOn(x, y, z, z, 0.0);
    RowsOn(x, y, z, ZERO, 1.0);
    NoDot(x);
    NoDot(y);
    NoDot(z);
    hide M.Multiply, M.Column, M.Transform, Columns, Rows, Vec.Dot;
    M.ColumnsMakeMatrix(M.Multiply(t, m), r);
  }

  lemma RowsOn(x: Vec, y: Vec, z: Vec, v: Vec, w: real)
    ensures M.Transform(Rows(x, y, z), M.Line(v.x, v.y, v.z, w)) == M.Line(x.Dot(v), y.Dot(v), z.Dot(v), w)
  {
    LinesOfColumns(Vec(x.x, y.x, z.x), Vec(x.y, y.y, z.y), Vec(x.z, y.z, z.z), ZERO);
    hide M.Row, M.Column, Columns;
  }

  /** The camera shows a point by its offsets from the origin along the axes: the up axis as it is, the two others
      turned round, so that what lies ahead has a negative z. */
  lemma CameraSees(p: Pose, w: Vec)
    ensures var d := w.Minus(p.origin);
            M.Transform(Camera(p), Position(w))
            == Position(Vec(-p.XAxis().Dot(d), p.up.Dot(d), -p.forward.Dot(d)))
  {
    hide Rows, M.Multiply, M.Transform, Translation, Vec.Dot, Vec.Cross;
    var z := p.forward.Negated();
    var d := w.Minus(p.origin);
    M.TransformTwice(Rows(p.up.Cross(z), p.up, z), Translation(p.origin.Negated()), Position(w));
    Shifted(p.origin, Position(w));
    RowsOn(p.up.Cross(z), p.up, z, d, 1.0);
    CrossNegated(p.up, p.forward);
    DotNegated(d, p.XAxis());
    DotNegated(d, p.forward);
    DotSymmetric(p.XAxis(), d);
    DotSymmetric(p.XAxis().Negated(), d);
    DotSymmetric(p.forward, d);
    DotSymmetric(z, d);
    assert M.Line(w.x - p.origin.x * 1.0, w.y - p.origin.y * 1.0, w.z - p.origin.z * 1.0, 1.0) == Position(d);
  }

  lemma CrossNegated(u: Vec, v: Vec)
    ensures u.Cross(v.Negated()) == u.Cross(v).Negated()
  {
  }

  lemma CameraTimesFrustum(p: Pose, x: Vec, z: Vec)
    requires z == p.forward.Negated() && x == p.up.Cross(z)
    ensures M.Multiply(Camera(p), FrustumMatrix(p))
         == Columns(Vec(x.Dot(x), p.up.Dot(x), z.Dot(x)), Vec(x.Dot(p.up), p.up.Dot(p.up), z.Dot(p.up)),
                    Vec(x.Dot(z), p.up.Dot(z), z.Dot(z)), ZERO)
  {
    M.MultiplyAssociates(Rows(x, p.up, z), Translation(p.origin.Negated()), FrustumMatrix(p));
    TranslateBack(x, p.up, z, p.origin);
    RowsTimesColumns(x, p.up, z);
    hide M.Multiply, Rows, Columns, Translation, Vec.Dot, Vec.Cross;
  }

  /** The camera matrix undoes the frustum's matrix exactly when the frame is orthonormal. */
  lemma CameraUndoesFrustum(p: Pose)
    ensures M.Multiply(Camera(p), FrustumMatrix(p)) == M.IDENTITY <==> p.Orthonormal()
  {
    var z := p.forward.Negated();
    var x := p.up.Cross(z);
    CameraTimesFrustum(p, x, z);
    if p.Orthonormal() {
      NegatedForward(p);
      XAxisIsUnit(p.(forward := z));
      DotSymmetric(p.up, x);
      DotSymmetric(z, x);
      DotSymmetric(z, p.up);
    } else if M.Multiply(Camera(p), FrustumMatrix(p)) == M.IDENTITY {
      UnitColumnsOnly(Vec(x.Dot(x), p.up.Dot(x), z.Dot(x)), Vec(x.Dot(p.up), p.up.Dot(p.up), z.Dot(p.up)),
                      Vec(x.Dot(z), p.up.Dot(z), z.Dot(z)));
      NegatedForward(p);
    }
    hide Camera, FrustumMatrix, Vec.Dot, Vec.Cross;
  }

  lemma UnitColumnsOnly(x: Vec, y: Vec, z: Vec)
    requires Columns(x, y, z, ZERO) == M.IDENTITY
    ensures x == EX && y == EY && z == EZ
  {
    var m := Columns(x, y, z, ZERO);
    assert m[0] == M.IDENTITY[0] && m[1] == M.IDENTITY[1] && m[2] == M.IDENTITY[2];
    assert m[4] == M.IDENTITY[4] && m[5] == M.IDENTITY[5] && m[6] == M.IDENTITY[6];
    assert m[8] == M.IDENTITY[8] && m[9] == M.IDENTITY[9] && m[10] == M.IDENTITY[10];
  }

  lemma NegatedForward(p: Pose)
    ensures p.(forward := p.forward.Negated()).Orthonormal() == p.Orthonormal()
  {
  }

  /** After any run from the default frame the two matrices are inverse to each other on both sides. */
  lemma RunsKeepCameraInverse(run: seq<Command>, q: Pose)
    requires Reaches(DEFAULT, run, q)
    ensures M.Multiply(Camera(q), FrustumMatrix(q)) == M.IDENTITY
    ensures M.Multiply(FrustumMatrix(q), Camera(q)) == M.IDENTITY
  {
    hide Reaches, Pose.Orthonormal, DEFAULT, Camera, FrustumMatrix;
    DefaultIsOrthonormal();
    RunKeepsOrthonormal(DEFAULT, run, q);
    CameraUndoesFrustum(q);
    FrustumDet(q);
    M.LeftInverseIsInverse(Camera(q), FrustumMatrix(q));
  }

  lemma FrustumDet(p: Pose)
    requires p.Orthonormal()
    ensures M.Det(FrustumMatrix(p)) == 1.0
  {
    var z := p.forward.Negated();
    var x := p.up.Cross(z);
    NegatedForward(p);
    XAxisIsUnit(p.(forward := z));
    DetOfColumns(x, p.up, z, p.origin);
    hide M.Det, Columns, Vec.Dot, Vec.Cross, Pose.Orthonormal;
  }

  // ---------- the class ----------

  /** m3dSetMatrixColumn44 copies four numbers from a vector of three: the fourth is whatever lies behind it. */
  method SetMatrixColumn44(dst: array<real>, src: Vec, column: nat)
    requires dst.Length == 16 && column < 4
    modifies dst
    ensures dst[4 * column] == src.x && dst[4 * column + 1] == src.y && dst[4 * column + 2] == src.z
    ensures forall k :: 0 <= k < 16 && k / 4 != column ==> dst[k] == old(dst[k])
  {
    dst[4 * column] := src.x;
    dst[4 * column + 1] := src.y;
    dst[4 * column + 2] := src.z;
    dst[4 * column + 3] := *;
  }

  class GLFrame {
    var vOrigin: Vec
    var vForward: Vec
    var vUp: Vec

    constructor ()
      ensures Now() == DEFAULT
    {
      vOrigin := Vec(0.0, 0.0, 0.0);
      vUp := Vec(0.0, 1.0, 0.0);
      vForward := Vec(0.0, 0.0, -1.0);
    }

    function Now(): Pose
      reads this
    {
      Pose(vOrigin, vForward, vUp)
    }

    method MoveForward(delta: real)
      modifies `vOrigin
      ensures Now() == Step(old(Now()), Command.MoveForward(delta))
    {
      vOrigin := Vec(vOrigin.x + vForward.x * delta, vOrigin.y + vForward.y * delta, vOrigin.z + vForward.z * delta);
    }

    method MoveUp(delta: real)
      modifies `vOrigin
      ensures Now() == Step(old(Now()), Command.MoveUp(delta))
    {
      vOrigin := Vec(vOrigin.x + vUp.x * delta, vOrigin.y + vUp.y * delta, vOrigin.z + vUp.z * delta);
    }

    method MoveRight(delta: real)
      modifies `vOrigin
      ensures Now() == Step(old(Now()), Command.MoveRight(delta))
    {
      var vCross := vUp.Cross(vForward);
      vOrigin := Vec(vOrigin.x + vCross.x * delta, vOrigin.y + vCross.y * delta, vOrigin.z + vCross.z * delta);
    }

    method TranslateWorld(v: Vec)
      modifies `vOrigin
      ensures Now() == Step(old(Now()), Command.TranslateWorld(v))
    {
      vOrigin := Vec(vOrigin.x + v.x, vOrigin.y + v.y, vOrigin.z + v.z);
    }

    method TranslateLocal(v: Vec)
      modifies `vOrigin
      ensures Now() == Step(old(Now()), Command.TranslateLocal(v))
    {
      hide Vec.Cross, Vec.Times, Vec.Plus;
      MoveForward(v.z);
      MoveUp(v.y);
      MoveRight(v.x);
    }

    method GetMatrix(matrix: array<real>, rotationOnly: bool)
      requires matrix.Length == 16
      modifies matrix
      ensures matrix[..] == Columns(Now().XAxis(), vUp, vForward, if rotationOnly then ZERO else vOrigin)
    {
      hide Vec.Cross, Columns;
      var vXAxis := vUp.Cross(vForward);
      SetMatrixColumn44(matrix, vXAxis, 0);
      matrix[3] := 0.0;
      SetMatrixColumn44(matrix, vUp, 1);
      matrix[7] := 0.0;
      SetMatrixColumn44(matrix, vForward, 2);
      matrix[11] := 0.0;
      SetLastColumn(matrix, rotationOnly);
      EntriesMakeColumns(matrix, vXAxis, vUp, vForward, if rotationOnly then ZERO else vOrigin);
    }

    /** The end of GetMatrix. */
    method SetLastColumn(matrix: array<real>, rotationOnly: bool)
      requires matrix.Length == 16
      modifies matrix
      ensures var o := if rotationOnly then ZERO else vOrigin;
              matrix[12] == o.x && matrix[13] == o.y && matrix[14] == o.z && matrix[15] == 1.0
      ensures forall k :: 0 <= k < 12 ==> matrix[k] == old(matrix[k])
    {
      if rotationOnly {
        matrix[12] := 0.0;
        matrix[13] := 0.0;
        matrix[14] := 0.0;
      } else {
        SetMatrixColumn44(matrix, vOrigin, 3);
      }
      matrix[15] := 1.0;
    }

    method GetCameraMatrix(m: array<real>, rotationOnly: bool)
      requires m.Length == 16
      modifies m
      ensures m[..] == if rotationOnly then CameraRotation(Now()) else Camera(Now())
    {
      hide Vec.Cross, Columns, M.Multiply;
      var z := Vec(-vForward.x, -vForward.y, -vForward.z);
      var x := vUp.Cross(z);
      SetRow(m, 0, x.x, x.y, x.z, 0.0);
      SetRow(m, 1, vUp.x, vUp.y, vUp.z, 0.0);
      SetRow(m, 2, z.x, z.y, z.z, 0.0);
      SetRow(m, 3, 0.0, 0.0, 0.0, 1.0);
      EntriesMakeColumns(m, Vec(x.x, vUp.x, z.x), Vec(x.y, vUp.y, z.y), Vec(x.z, vUp.z, z.z), ZERO);
      if rotationOnly {
        return;
      }
      var trans, product := new real[16], new real[16];
      TranslationMatrix44(trans, -vOrigin.x, -vOrigin.y, -vOrigin.z);
      M.MatrixMultiply44(product, m, trans);
      forall i | 0 <= i < 16 {
        m[i] := product[i];
      }
      assert m[..] == product[..];
    }

    method RotateLocalY(angle: Angle, mag: real)
      requires Possible(Now(), Command.RotateLocalY(angle, mag))
      modifies `vForward
      ensures Now() == Step(old(Now()), Command.RotateLocalY(angle, mag))
    {
      hide Rotate, Linear, RotationOf, Root;
      var rotMat := new real[16];
      RotationMatrix44(rotMat, angle, vUp, mag);
      RotationTurns(angle, vUp, mag, vForward);
      vForward := Inlined(rotMat, vForward);
    }

    method RotateLocalZ(angle: Angle, mag: real)
      requires Possible(Now(), Command.RotateLocalZ(angle, mag))
      modifies `vUp
      ensures Now() == Step(old(Now()), Command.RotateLocalZ(angle, mag))
    {
      hide Rotate, Linear, RotationOf, Root;
      var rotMat := new real[16];
      RotationMatrix44(rotMat, angle, vForward, mag);
      RotationTurns(angle, vForward, mag, vUp);
      vUp := Inlined(rotMat, vUp);
    }

    method RotateLocalX(angle: Angle, mag: real)
      requires Possible(Now(), Command.RotateLocalX(angle, mag))
      modifies `vForward, `vUp
      ensures Now() == Step(old(Now()), Command.RotateLocalX(angle, mag))
    {
      hide Rotate, Root, Vec.Cross, Columns33, Mix;
      var rotMat := new real[9];
      var localX := vUp.Cross(vForward);
      RotationMatrix33(rotMat, angle, localX, mag);
      ghost var x, y, z :=
        Rotate(EX, angle, localX, mag), Rotate(EY, angle, localX, mag), Rotate(EZ, angle, localX, mag);
      RotateIsLinear(vUp, angle, localX, mag);
      RotateIsLinear(vForward, angle, localX, mag);
      var rotVec := RotateVector(vUp, rotMat, x, y, z);
      vUp := rotVec;
      rotVec := RotateVector(vForward, rotMat, x, y, z);
      vForward := rotVec;
    }

    method RotateWorld(angle: Angle, axis: Vec, mag: real)
      requires OnCircle(angle) && Root(mag, axis)
      modifies `vForward, `vUp
      ensures Now() == Turned(old(Now()), angle, axis, mag)
    {
      hide Rotate, Linear, RotationOf, Root;
      var rotMat := new real[16];
      RotationMatrix44(rotMat, angle, axis, mag);
      RotationTurns(angle, axis, mag, vUp);
      RotationTurns(angle, axis, mag, vForward);
      var newVect := Inlined(rotMat, vUp);
      vUp := newVect;
      newVect := Inlined(rotMat, vForward);
      vForward := newVect;
    }

    method RotateLocal(angle: Angle, axis: Vec, mag: real)
      requires Possible(Now(), Command.RotateLocal(angle, axis, mag))
      modifies `vForward, `vUp
      ensures Now() == Step(old(Now()), Command.RotateLocal(angle, axis, mag))
    {
      hide Rotate, Root, Pose.Across;
      var vWorldVect := LocalToWorld(axis, true);
      RotateWorld(angle, vWorldVect, mag);
    }

    method Normalize(magUp: real, magForward: real)
      requires Possible(Now(), Command.Normalize(magUp, magForward))
      modifies `vForward, `vUp
      ensures Now() == Step(old(Now()), Command.Normalize(magUp, magForward)) && Now().Orthonormal()
    {
      hide Vec.Cross, Vec.Dot, Root;
      NormalizedIsOrthonormal(Now(), magUp, magForward);
      var vCross := vUp.Cross(vForward);
      vForward := vCross.Cross(vUp);
      var scaleUp := 1.0 / magUp;
      vUp := vUp.Times(scaleUp);
      var scaleForward := 1.0 / magForward;
      vForward := vForward.Times(scaleForward);
    }

    method LocalToWorld(vLocal: Vec, rotOnly: bool) returns (vWorld: Vec)
      ensures vWorld == if rotOnly then Now().Across(vLocal) else ToWorld(Now(), vLocal)
    {
      hide Vec.Cross, Columns, Linear, Mix;
      var rotMat := new real[16];
      GetMatrix(rotMat, true);
      vWorld := Inlined(rotMat, vLocal);
      ColumnsOnVector(Now().XAxis(), vUp, vForward, ZERO, vLocal, 0.0);
      if !rotOnly {
        vWorld := Vec(vWorld.x + vOrigin.x, vWorld.y + vOrigin.y, vWorld.z + vOrigin.z);
      }
    }

    /** The division by the determinant needs independent up and forward directions. */
    method WorldToLocal(vWorld: Vec) returns (vLocal: Vec)
      requires Now().XAxis() != ZERO
      ensures M.Det(RotationPart(Now())) != 0.0
      ensures vLocal == ToLocal(Now(), vWorld) && ToWorld(Now(), vLocal) == vWorld
    {
      hide Vec.Cross, Columns, Linear, M.Det, M.Inverse, M.Multiply, M.IDENTITY, Pose.Across;
      var vNewWorld := Vec(vWorld.x - vOrigin.x, vWorld.y - vOrigin.y, vWorld.z - vOrigin.z);
      var rotMat, invMat := new real[16], new real[16];
      GetMatrix(rotMat, true);
      Invertible(Now());
      M.InvertMatrix44(invMat, rotMat);
      vLocal := Inlined(invMat, vNewWorld);
      CoordinatesRoundTrip(Now(), vWorld);
    }
  }

  /** m3dTranslationMatrix44 */
  method TranslationMatrix44(m: array<real>, x: real, y: real, z: real)
    requires m.Length == 16
    modifies m
    ensures m[..] == Translation(Vec(x, y, z))
  {
    LoadIdentity44(m);
    m[12], m[13], m[14] := x, y, z;
    assert m[..] == Translation(Vec(x, y, z));
  }

  /** The matrix part of GLFrustum::Transform; for an orthonormal frame the camera matrix undoes it. */
  method FrustumTransform(camera: GLFrame, rotMat: array<real>)
    requires rotMat.Length == 16
    modifies rotMat
    ensures rotMat[..] == FrustumMatrix(camera.Now())
    ensures camera.Now().Orthonormal() ==> M.Multiply(Camera(camera.Now()), rotMat[..]) == M.IDENTITY
  {
    hide Vec.Cross, Columns, Camera, M.Multiply, M.IDENTITY, Vec.Dot, Pose.Orthonormal;
    var vForward := Vec(-camera.vForward.x, -camera.vForward.y, -camera.vForward.z);
    var vUp, vOrigin := camera.vUp, camera.vOrigin;
    var vCross := vUp.Cross(vForward);
    SetColumns(rotMat, vCross, vUp, vForward, vOrigin);
    CameraUndoesFrustum(camera.Now());
  }

  /** The sixteen assignments of GLFrustum::Transform. */
  method SetColumns(rotMat: array<real>, vCross: Vec, vUp: Vec, vForward: Vec, vOrigin: Vec)
    requires rotMat.Length == 16
    modifies rotMat
    ensures rotMat[..] == Columns(vCross, vUp, vForward, vOrigin)
  {
    hide Columns;
    rotMat[0], rotMat[1], rotMat[2] := vCross.x, vCross.y, vCross.z;
    rotMat[3] := 0.0;
    rotMat[4], rotMat[5], rotMat[6] := vUp.x, vUp.y, vUp.z;
    rotMat[7] := 0.0;
    rotMat[8], rotMat[9], rotMat[10] := vForward.x, vForward.y, vForward.z;
    rotMat[11] := 0.0;
    rotMat[12] := vOrigin.x;
    rotMat[13] := vOrigin.y;
    rotMat[14] := vOrigin.z;
    rotMat[15] := 1.0;
    EntriesMakeColumns(rotMat, vCross, vUp, vForward, vOrigin);
  }
}
