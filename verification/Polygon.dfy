/** The polygon algorithms of the OBJ loaders: the convexity test and the triangulation from the top. */
module Polygon {
  import opened Sequences
  import opened Vector3

  // ---------- sign changes ----------

  /** Sign: zero counts as positive. */
  predicate Negative(x: real) { x < 0.0 }

  /** How often neighbours in the sequence differ. */
  function Changes(s: seq<bool>): nat {
    if |s| < 2 then 0 else Changes(s[..|s| - 1]) + Unit(s[|s| - 2] != s[|s| - 1])
  }

  /** The same round the cycle. */
  function CyclicChanges(s: seq<bool>): nat {
    if s == [] then 0 else Changes(s) + Unit(s[|s| - 1] != s[0])
  }

  lemma {:induction false} ChangesParity(s: seq<bool>)
    requires s != []
    ensures Changes(s) % 2 == Unit(s[0] != s[|s| - 1])
  {
    if |s| > 1 {
      ChangesParity(s[..|s| - 1]);
    }
  }

  /** Round a cycle the sign changes an even number of times, so one uncounted pair cannot cross the threshold. */
  lemma {:induction false} MissedPairIsHarmless(s: seq<bool>)
    ensures CyclicChanges(s) % 2 == 0
    ensures Changes(s) <= 2 <==> CyclicChanges(s) <= 2
  {
    if s != [] {
      ChangesParity(s);
    }
  }

  function Rotated<T>(s: seq<T>): (t: seq<T>)
    ensures |t| == |s|
  {
    if s == [] then [] else s[1..] + [s[0]]
  }

  lemma {:induction false} ChangesFromFront(s: seq<bool>)
    requires |s| >= 2
    ensures Changes(s) == Unit(s[0] != s[1]) + Changes(s[1..])
  {
    if |s| > 2 {
      ChangesFromFront(s[..|s| - 1]);
      assert s[..|s| - 1][1..] == s[1..][..|s| - 2];
    }
  }

  lemma RotationKeepsChanges(s: seq<bool>)
    ensures CyclicChanges(Rotated(s)) == CyclicChanges(s)
  {
    if |s| >= 2 {
      ChangesFromFront(s);
      assert Rotated(s)[..|s| - 1] == s[1..];
    }
  }

  // ---------- the convexity test ----------

  /** The direction of edge i, which leads from the corner before corner i to corner i, along one coordinate; the code
      takes the difference the other way round. */
  predicate SignAt(x: seq<real>, i: nat)
    requires i < |x|
  {
    if i == 0 then Negative(x[|x| - 1] - x[0]) else Negative(x[i - 1] - x[i])
  }

  function Signs(x: seq<real>): (s: seq<bool>)
    ensures |s| == |x| && forall i :: 0 <= i < |x| ==> s[i] == SignAt(x, i)
  {
    seq(|x|, i requires 0 <= i < |x| => SignAt(x, i))
  }

  function XOf(p: seq<Vec>): (x: seq<real>)
    ensures |x| == |p| && forall i :: 0 <= i < |p| ==> x[i] == p[i].x
  {
    seq(|p|, i requires 0 <= i < |p| => p[i].x)
  }

  function YOf(p: seq<Vec>): (y: seq<real>)
    ensures |y| == |p| && forall i :: 0 <= i < |p| ==> y[i] == p[i].y
  {
    seq(|p|, i requires 0 <= i < |p| => p[i].y)
  }

  /** Round the polygon neither coordinate changes its direction more than twice. */
  predicate TwoTurns(p: seq<Vec>) {
    |p| < 4 || (CyclicChanges(Signs(XOf(p))) <= 2 && CyclicChanges(Signs(YOf(p))) <= 2)
  }

  function Corners(vList: seq<nat>, vertices: seq<Vec>): (p: seq<Vec>)
    requires forall i :: 0 <= i < |vList| ==> vList[i] < |vertices|
    ensures |p| == |vList| && forall i :: 0 <= i < |p| ==> p[i] == vertices[vList[i]]
  {
    seq(|vList|, i requires 0 <= i < |vList| => vertices[vList[i]])
  }

  lemma SignsRotate(x: seq<real>)
    ensures Signs(Rotated(x)) == Rotated(Signs(x))
  {
    hide Signs, Rotated, Negative;
    var n := |x|;
    forall i: nat | i < n
      ensures Signs(Rotated(x))[i] == Rotated(Signs(x))[i]
    {
      RotatedAt(x, i);
      RotatedAt(x, if i == 0 then n - 1 else i - 1);
      RotatedAt(Signs(x), i);
    }
  }

  lemma RotatedAt<T>(s: seq<T>, i: nat)
    requires i < |s|
    ensures Rotated(s)[i] == s[if i == |s| - 1 then 0 else i + 1]
  {
  }

  lemma TestIgnoresRotation(p: seq<Vec>)
    ensures TwoTurns(Rotated(p)) == TwoTurns(p)
  {
    assert XOf(Rotated(p)) == Rotated(XOf(p)) && YOf(Rotated(p)) == Rotated(YOf(p));
    SignsRotate(XOf(p));
    SignsRotate(YOf(p));
    hide XOf, YOf, Signs;
    RotationKeepsChanges(Signs(XOf(p)));
    RotationKeepsChanges(Signs(YOf(p)));
    hide Changes, CyclicChanges, Rotated;
  }

  lemma RotatedSlices<T>(p: seq<T>, k: nat)
    requires 0 < k <= |p|
    ensures Rotated(p[k - 1..] + p[..k - 1]) == p[k..] + p[..k]
  {
    var q := p[k - 1..] + p[..k - 1];
    assert q[0] == p[k - 1] && q[1..] == p[k..] + p[..k - 1];
  }

  /** The same answer for every cyclic rotation of the list. */
  lemma {:induction false} TestIgnoresStart(p: seq<Vec>, k: nat)
    requires k <= |p|
    ensures TwoTurns(p[k..] + p[..k]) == TwoTurns(p)
  {
    hide TwoTurns, Rotated;
    if k == 0 {
      assert p[0..] + p[..0] == p;
    } else {
      TestIgnoresStart(p, k - 1);
      TestIgnoresRotation(p[k - 1..] + p[..k - 1]);
      RotatedSlices(p, k);
    }
  }

  lemma NoChanges(s: seq<bool>)
    requires |s| == 1
    ensures Changes(s) == 0
  {
  }

  lemma OneMore(s: seq<bool>, i: nat)
    requires 0 < i < |s|
    ensures Changes(s[..i + 1]) == Changes(s[..i]) + Unit(s[i - 1] != s[i])
  {
    assert s[..i + 1][..i] == s[..i];
  }

  lemma FirstEdge(vList: seq<nat>, vertices: seq<Vec>)
    requires vList != [] && forall i :: 0 <= i < |vList| ==> vList[i] < |vertices|
    ensures var p, v, w := Corners(vList, vertices), vertices[vList[|vList| - 1]], vertices[vList[0]];
            Signs(XOf(p))[0] == Negative(v.x - w.x) && Signs(YOf(p))[0] == Negative(v.y - w.y)
  {
    hide Negative, Signs, XOf, YOf, Corners;
  }

  lemma LaterEdge(vList: seq<nat>, vertices: seq<Vec>, i: nat)
    requires 0 < i < |vList| && forall i :: 0 <= i < |vList| ==> vList[i] < |vertices|
    ensures var p, v, w := Corners(vList, vertices), vertices[vList[i - 1]], vertices[vList[i]];
            Signs(XOf(p))[i] == Negative(v.x - w.x) && Signs(YOf(p))[i] == Negative(v.y - w.y)
  {
    hide Negative, Signs, XOf, YOf, Corners;
  }

  method IsPolygonConvex(vList: seq<nat>, vertices: seq<Vec>) returns (r: bool)
    requires forall i :: 0 <= i < |vList| ==> vList[i] < |vertices|
    ensures r == TwoTurns(Corners(vList, vertices))
  {
    hide Changes, CyclicChanges, Signs, SignAt, XOf, YOf, Corners, Negative;
    if |vList| < 4 {
      return true;
    }
    ghost var p := Corners(vList, vertices);
    ghost var xs, ys := Signs(XOf(p)), Signs(YOf(p));
    NoChanges(xs[..1]);
    NoChanges(ys[..1]);
    FirstEdge(vList, vertices);
    var n := |vList|;
    var xCh, yCh := 0, 0;
    var a, b := new real[2], new real[2];
    a[0] := vertices[vList[n - 1]].x - vertices[vList[0]].x;
    a[1] := vertices[vList[n - 1]].y - vertices[vList[0]].y;
    for i := 0 to n - 1
      invariant xCh == Changes(xs[..i + 1]) && yCh == Changes(ys[..i + 1])
      invariant Negative(a[0]) == xs[i] && Negative(a[1]) == ys[i]
    {
      LaterEdge(vList, vertices, i + 1);
      OneMore(xs, i + 1);
      OneMore(ys, i + 1);
      b[0] := vertices[vList[i]].x - vertices[vList[i + 1]].x;
      b[1] := vertices[vList[i]].y - vertices[vList[i + 1]].y;
      if Negative(a[0]) != Negative(b[0]) {
        xCh := xCh + 1;
      }
      if Negative(a[1]) != Negative(b[1]) {
        yCh := yCh + 1;
      }
      a[0] := b[0];
      a[1] := b[1];
    }
    assert xs[..n] == xs && ys[..n] == ys;
    MissedPairIsHarmless(xs);
    MissedPairIsHarmless(ys);
    r := xCh <= 2 && yCh <= 2;
  }

  /** At corner i the path stops to go right, or begins to. */
  predicate TurnsInX(p: seq<Vec>, i: nat)
    requires i < |p|
  {
    var a, b, c := p[if i == 0 then |p| - 1 else i - 1], p[i], p[if i == |p| - 1 then 0 else i + 1];
    a.x - b.x < 0.0 <==> b.x - c.x >= 0.0
  }

  predicate TurnsInY(p: seq<Vec>, i: nat)
    requires i < |p|
  {
    var a, b, c := p[if i == 0 then |p| - 1 else i - 1], p[i], p[if i == |p| - 1 then 0 else i + 1];
    a.y - b.y < 0.0 <==> b.y - c.y >= 0.0
  }

  /** The next in the cycle differs. */
  predicate DiffersAt(s: seq<bool>, i: nat)
    requires i < |s|
  {
    s[i] != s[if i == |s| - 1 then 0 else i + 1]
  }

  ghost function Places(s: seq<bool>, n: nat): set<nat>
    requires n <= |s|
  {
    set i | 0 <= i < n && DiffersAt(s, i)
  }

  lemma {:induction false} ChangesAreCounted(s: seq<bool>, n: nat)
    requires n < |s|
    ensures Changes(s[..n + 1]) == |Places(s, n)|
  {
    hide Changes;
    if n == 0 {
      NoChanges(s[..1]);
      assert Places(s, 0) == {};
    } else {
      ChangesAreCounted(s, n - 1);
      OneMore(s, n);
      assert Places(s, n) == if s[n - 1] != s[n] then Places(s, n - 1) + {n - 1} else Places(s, n - 1);
    }
  }

  lemma CyclicChangesAreCounted(s: seq<bool>)
    requires s != []
    ensures CyclicChanges(s) == |Places(s, |s|)|
  {
    hide Changes;
    var n := |s| - 1;
    ChangesAreCounted(s, n);
    assert s[..n + 1] == s;
    assert Places(s, |s|) == if s[n] != s[0] then Places(s, n) + {n} else Places(s, n);
  }

  /** What the test decides, counted corner by corner. */
  lemma TestCountsCorners(p: seq<Vec>)
    requires |p| >= 4
    ensures TwoTurns(p) <==>
              |set i | 0 <= i < |p| && TurnsInX(p, i)| <= 2 && |set i | 0 <= i < |p| && TurnsInY(p, i)| <= 2
  {
    hide CyclicChanges;
    var x, y := Signs(XOf(p)), Signs(YOf(p));
    CyclicChangesAreCounted(x);
    CyclicChangesAreCounted(y);
    assert Places(x, |p|) == set i | 0 <= i < |p| && TurnsInX(p, i);
    assert Places(y, |p|) == set i | 0 <= i < |p| && TurnsInY(p, i);
  }

  /** The turn at corner b of the path a, b, c: positive to the left. */
  function TurnAt(a: Vec, b: Vec, c: Vec): real { (b.x - a.x) * (c.y - b.y) - (b.y - a.y) * (c.x - b.x) }

  /** The test is not convexity: a polygon that turns left at three corners and right at the fourth passes. */
  lemma DentIsAccepted()
    ensures exists a, b, c, d ::
      && TwoTurns([a, b, c, d]) && TurnAt(d, a, b) > 0.0 && TurnAt(a, b, c) > 0.0 && TurnAt(b, c, d) > 0.0
      && TurnAt(c, d, a) < 0.0
  {
    var a, b, c, d := Vec(0.0, 0.0, 0.0), Vec(4.0, 0.0, 0.0), Vec(4.0, 4.0, 0.0), Vec(3.0, 1.0, 0.0);
    var p := [a, b, c, d];
    assert XOf(p) == [0.0, 4.0, 4.0, 3.0] && YOf(p) == [0.0, 0.0, 4.0, 1.0];
    assert Signs(XOf(p)) == [false, true, false, false] && Signs(YOf(p)) == [false, false, true, false];
    FourSigns(Signs(XOf(p)));
    FourSigns(Signs(YOf(p)));
    assert TwoTurns([a, b, c, d]);
    assert TurnAt(d, a, b) == 4.0;
  }

  lemma FourSigns(s: seq<bool>)
    requires |s| == 4
    ensures CyclicChanges(s) == Unit(s[0] != s[1]) + Unit(s[1] != s[2]) + Unit(s[2] != s[3]) + Unit(s[3] != s[0])
  {
    assert s[..3][..2] == s[..2] && s[..2][..1] == s[..1];
    assert Changes(s[..2]) == Unit(s[0] != s[1]);
    assert Changes(s[..3]) == Changes(s[..2]) + Unit(s[1] != s[2]);
  }

  // ---------- convex polygons pass ----------

  function Next(p: seq<Vec>, i: nat): nat
    requires i < |p|
  {
    if i == |p| - 1 then 0 else i + 1
  }

  function Before(p: seq<Vec>, i: nat): nat
    requires i < |p|
  {
    if i == 0 then |p| - 1 else i - 1
  }

  ghost predicate OneSided(p: seq<Vec>, side: real) {
    forall i: nat, j: nat :: i < |p| && j < |p| ==> side * TurnAt(p[i], p[Next(p, i)], p[j]) >= 0.0
  }

  ghost predicate Turning(p: seq<Vec>, side: real) {
    forall i: nat :: i < |p| ==> side * TurnAt(p[Before(p, i)], p[i], p[Next(p, i)]) > 0.0
  }

  ghost predicate Simple(p: seq<Vec>) {
    forall i: nat, j: nat :: i < j < |p| ==> p[i].x != p[j].x || p[i].y != p[j].y
  }

  /** Seen from every edge all corners lie on one side, every corner is a real turn to that side, and no corner
      coincides with another in the plane; side is 1 for the left and -1 for the right. */
  ghost predicate Convex(p: seq<Vec>, side: real) {
    (side == 1.0 || side == -1.0) && OneSided(p, side) && Turning(p, side) && Simple(p)
  }

  /** Not all corners lie on one line. */
  ghost predicate Spread(p: seq<Vec>, side: real) {
    exists i: nat, j: nat :: i < |p| && j < |p| && side * TurnAt(p[i], p[Next(p, i)], p[j]) > 0.0
  }

  /** The same with corners on straight sides. */
  ghost predicate WeaklyConvex(p: seq<Vec>, side: real) {
    (side == 1.0 || side == -1.0) && OneSided(p, side) && Simple(p) && Spread(p, side)
  }

  lemma ConvexIsWeaklyConvex(p: seq<Vec>, side: real)
    requires Convex(p, side) && p != []
    ensures WeaklyConvex(p, side)
  {
    hide TurnAt;
    var i := Before(p, 0);
    assert side * TurnAt(p[Before(p, 0)], p[0], p[Next(p, 0)]) > 0.0 && Next(p, i) == 0;
  }

  lemma ProductSign(x: real, y: real)
    ensures x >= 0.0 && y >= 0.0 ==> x * y >= 0.0
    ensures x > 0.0 && y > 0.0 ==> x * y > 0.0
  {
  }

  /** (a, b) leads to a corner and (c, d) away from it, first forwards and then not: nothing on the inner side of both
      lies further forward. */
  lemma PeakIsFurthest(a: real, b: real, c: real, d: real, x: real, y: real, side: real)
    requires a > 0.0 && c <= 0.0 && side * (a * y - b * x) >= 0.0 && side * (c * y - d * x) >= 0.0
    requires side * (a * d - b * c) > 0.0
    ensures x <= 0.0
  {
    PeakNumbers(a, b, c, d, x, y, side);
    Balance(-c, side * (a * y - b * x), a, side * (c * y - d * x), x, side * (a * d - b * c));
  }

  lemma PeakNumbers(a: real, b: real, c: real, d: real, x: real, y: real, side: real)
    ensures Prod(-c, side * (a * y - b * x)) + Prod(a, side * (c * y - d * x)) == -Prod(x, side * (a * d - b * c))
  {
    assert (-c) * (side * (a * y - b * x)) + a * (side * (c * y - d * x)) == -(x * (side * (a * d - b * c)));
  }

  lemma Balance(c: real, p: real, a: real, q: real, x: real, r: real)
    requires c >= 0.0 && p >= 0.0 && a >= 0.0 && q >= 0.0 && r > 0.0 && Prod(c, p) + Prod(a, q) == -Prod(x, r)
    ensures x <= 0.0
  {
    ProductSign(c, p);
    ProductSign(a, q);
    ProductSign(x, r);
  }

  /** The direction s[i] leads forwards to corner i, the next one does not lead on. */
  predicate Fall(s: seq<bool>, i: nat)
    requires i < |s|
  {
    s[i] && !s[if i == |s| - 1 then 0 else i + 1]
  }

  function Falls(s: seq<bool>): nat {
    if |s| < 2 then 0 else Falls(s[..|s| - 1]) + Unit(s[|s| - 2] && !s[|s| - 1])
  }

  /** Forwards and backwards changes alternate. */
  lemma {:induction false} ChangesAlternate(s: seq<bool>)
    requires s != []
    ensures Changes(s) == 2 * Falls(s) + Unit(s[|s| - 1]) - Unit(s[0])
  {
    if |s| > 1 {
      ChangesAlternate(s[..|s| - 1]);
    }
  }

  lemma {:induction false} AFall(s: seq<bool>) returns (i: nat)
    requires Falls(s) >= 1
    ensures i < |s| - 1 && s[i] && !s[i + 1]
  {
    i := |s| - 2;
    if !(s[i] && !s[i + 1]) {
      i := AFall(s[..|s| - 1]);
    }
  }

  /** More than two changes round the cycle: there are two places where it falls. */
  lemma {:induction false} TwoFalls(s: seq<bool>) returns (i: nat, j: nat)
    requires CyclicChanges(s) > 2
    ensures i < j < |s| && Fall(s, i) && Fall(s, j)
  {
    ChangesAlternate(s);
    if s[|s| - 1] && !s[0] {
      i := AFall(s);
      j := |s| - 1;
    } else {
      i, j := TwoLinearFalls(s);
    }
  }

  lemma {:induction false} TwoLinearFalls(s: seq<bool>) returns (i: nat, j: nat)
    requires Falls(s) >= 2
    ensures i < j < |s| - 1 && s[i] && !s[i + 1] && s[j] && !s[j + 1]
  {
    j := |s| - 2;
    if s[j] && !s[j + 1] {
      i := AFall(s[..|s| - 1]);
    } else {
      i, j := TwoLinearFalls(s[..|s| - 1]);
    }
  }

  lemma TurnFromCorner(a: Vec, b: Vec, c: Vec)
    ensures TurnAt(a, b, c) == (b.x - a.x) * (c.y - b.y) - (b.y - a.y) * (c.x - b.x)
    ensures TurnAt(a, b, c) == (b.x - a.x) * (c.y - a.y) - (b.y - a.y) * (c.x - a.x)
  {
  }

  /** (a, b) leads forwards and (c, d) straight back: what is on the inner side of both is on their line. */
  lemma BackOnLine(a: real, b: real, c: real, d: real, x: real, y: real, side: real)
    requires a > 0.0 && c < 0.0 && a * d - b * c == 0.0 && (side == 1.0 || side == -1.0)
    requires side * (a * y - b * x) >= 0.0 && side * (c * y - d * x) >= 0.0
    ensures a * y - b * x == 0.0
  {
    var p, q := side * (a * y - b * x), side * (c * y - d * x);
    assert a * q == c * p by {
      BackNumbers(a, b, c, d, x, y, side);
    }
    if p > 0.0 {
      ProductSign(a, q);
      ProductSign(-c, p);
    }
  }

  lemma BackNumbers(a: real, b: real, c: real, d: real, x: real, y: real, side: real)
    requires a * d - b * c == 0.0
    ensures a * (side * (c * y - d * x)) == c * (side * (a * y - b * x))
  {
    assert a * (side * (c * y - d * x)) - c * (side * (a * y - b * x)) == -(side * x) * (a * d - b * c);
  }

  /** Two vectors along one that leads forwards make no turn. */
  lemma NoTurnOnLine(a: real, b: real, x: real, y: real, z: real, w: real)
    requires a > 0.0 && a * y - b * x == 0.0 && a * w - b * z == 0.0
    ensures x * w - y * z == 0.0
  {
    assert a * (x * w - y * z) == x * (a * w - b * z) - z * (a * y - b * x);
    ProductVanishes(a, x * w - y * z);
  }

  /** Where the path goes straight back, all corners are on its line. */
  lemma BackIsFlat(p: seq<Vec>, side: real, i: nat, j: nat)
    requires (side == 1.0 || side == -1.0) && OneSided(p, side) && i < |p| && j < |p|
    requires var u, v, w := p[Before(p, i)], p[i], p[Next(p, i)];
             u.x < v.x && w.x < v.x && TurnAt(u, v, w) == 0.0
    ensures TurnAt(p[Before(p, i)], p[i], p[j]) == 0.0
  {
    var u, v, w, t := p[Before(p, i)], p[i], p[Next(p, i)], p[j];
    assert Next(p, Before(p, i)) == i;
    assert side * TurnAt(u, v, t) >= 0.0 && side * TurnAt(v, w, t) >= 0.0;
    TurnFromCorner(v, w, t);
    hide OneSided;
    BackOnLine(v.x - u.x, v.y - u.y, w.x - v.x, w.y - v.y, t.x - v.x, t.y - v.y, side);
  }

  /** A corner where the x direction turns from right to not right is a real turn. */
  lemma FallTurns(p: seq<Vec>, side: real, i: nat)
    requires WeaklyConvex(p, side) && i < |p| && Fall(Signs(XOf(p)), i)
    ensures side * TurnAt(p[Before(p, i)], p[i], p[Next(p, i)]) > 0.0
  {
    hide Signs, XOf, Fall, TurnAt, Spread;
    var u, v, w := p[Before(p, i)], p[i], p[Next(p, i)];
    FallDirections(XOf(p), i);
    assert Next(p, Before(p, i)) == i && side * TurnAt(u, v, w) >= 0.0;
    if TurnAt(u, v, w) == 0.0 {
      assert i < Next(p, i) || Next(p, i) < i;
      assert v.x != w.x || v.y != w.y;
      Straight(u, v, w);
      NotFlat(p, side, i);
    }
  }

  /** Where the path goes straight back, the corners are not spread. */
  lemma NotFlat(p: seq<Vec>, side: real, i: nat)
    requires (side == 1.0 || side == -1.0) && OneSided(p, side) && i < |p|
    requires var u, v, w := p[Before(p, i)], p[i], p[Next(p, i)];
             u.x < v.x && w.x < v.x && TurnAt(u, v, w) == 0.0
    ensures !Spread(p, side)
  {
    hide TurnAt, OneSided;
    forall k: nat, l: nat | k < |p| && l < |p|
      ensures side * TurnAt(p[k], p[Next(p, k)], p[l]) == 0.0
    {
      BackIsFlat(p, side, i, k);
      BackIsFlat(p, side, i, Next(p, k));
      BackIsFlat(p, side, i, l);
      FlatTurn(p[Before(p, i)], p[i], p[k], p[Next(p, k)], p[l]);
    }
  }

  lemma Straight(u: Vec, v: Vec, w: Vec)
    requires u.x < v.x && w.x <= v.x && TurnAt(u, v, w) == 0.0 && (v.x != w.x || v.y != w.y)
    ensures w.x < v.x
  {
    if w.x == v.x { ProductVanishes(v.x - u.x, w.y - v.y); }
  }

  lemma FlatTurn(u: Vec, v: Vec, a: Vec, b: Vec, c: Vec)
    requires u.x < v.x && TurnAt(u, v, a) == 0.0 && TurnAt(u, v, b) == 0.0 && TurnAt(u, v, c) == 0.0
    ensures TurnAt(a, b, c) == 0.0
  {
    FlatStep(u, v, a, b);
    FlatStep(u, v, b, c);
    NoTurnOnLine(v.x - u.x, v.y - u.y, b.x - a.x, b.y - a.y, c.x - b.x, c.y - b.y);
  }

  lemma FlatStep(u: Vec, v: Vec, a: Vec, b: Vec)
    requires TurnAt(u, v, a) == 0.0 && TurnAt(u, v, b) == 0.0
    ensures (v.x - u.x) * (b.y - a.y) - (v.y - u.y) * (b.x - a.x) == 0.0
  {
  }

  /** The corner where the x direction turns from right to not right is the rightmost. */
  lemma RightmostX(p: seq<Vec>, side: real, i: nat, j: nat)
    requires WeaklyConvex(p, side) && i < |p| && j < |p|
    requires Fall(Signs(XOf(p)), i)
    ensures p[j].x <= p[i].x && (p[j].x == p[i].x ==> side * (p[j].y - p[i].y) >= 0.0)
  {
    hide Signs, XOf, Fall, TurnAt, Spread, Simple;
    assert Next(p, Before(p, i)) == i;
    FallTurns(p, side, i);
    FallDirections(XOf(p), i);
    PeakCorner(p[Before(p, i)], p[i], p[Next(p, i)], p[j], side);
  }

  lemma FallDirections(x: seq<real>, i: nat)
    requires i < |x| && Fall(Signs(x), i)
    ensures x[if i == 0 then |x| - 1 else i - 1] < x[i] && x[if i == |x| - 1 then 0 else i + 1] <= x[i]
  {
    hide Signs;
  }

  /** The path leads forwards from u to v and not from v to w; t is on the inner side of both edges. */
  lemma PeakCorner(u: Vec, v: Vec, w: Vec, t: Vec, side: real)
    requires side == 1.0 || side == -1.0
    requires side * TurnAt(u, v, t) >= 0.0 && side * TurnAt(v, w, t) >= 0.0 && side * TurnAt(u, v, w) > 0.0
    requires u.x < v.x && w.x <= v.x
    ensures t.x <= v.x && (t.x == v.x ==> side * (t.y - v.y) >= 0.0)
  {
    TurnFromCorner(u, v, t);
    TurnFromCorner(v, w, t);
    TurnFromCorner(u, v, w);
    hide TurnAt;
    var a, b, c, d, x, y := v.x - u.x, v.y - u.y, w.x - v.x, w.y - v.y, t.x - v.x, t.y - v.y;
    PeakIsFurthest(a, b, c, d, x, y, side);
    if x == 0.0 {
      AboveEdge(a, b, y, side);
    }
  }

  lemma AboveEdge(a: real, b: real, y: real, side: real)
    requires a > 0.0 && side * (a * y - b * 0.0) >= 0.0
    ensures side * y >= 0.0
  {
    if side * y < 0.0 {
      ProductSign(a, -(side * y));
      assert side * (a * y - b * 0.0) == -(a * -(side * y));
    }
  }

  lemma ConvexTurnsTwiceInX(p: seq<Vec>, side: real)
    requires WeaklyConvex(p, side)
    ensures CyclicChanges(Signs(XOf(p))) <= 2
  {
    hide Signs, XOf, Fall, TurnAt, OneSided, Spread, CyclicChanges;
    if CyclicChanges(Signs(XOf(p))) > 2 {
      var i, j := TwoFalls(Signs(XOf(p)));
      assert p[i].x != p[j].x || p[i].y != p[j].y;
      RightmostX(p, side, i, j);
      RightmostX(p, side, j, i);
      SameHeight(p[i].y, p[j].y, side);
    }
  }

  lemma SameHeight(a: real, b: real, side: real)
    requires (side == 1.0 || side == -1.0) && side * (a - b) >= 0.0 && side * (b - a) >= 0.0
    ensures a == b
  {
  }

  function Swapped(v: Vec): Vec { Vec(v.y, v.x, v.z) }

  function AllSwapped(p: seq<Vec>): (q: seq<Vec>)
    ensures |q| == |p| && forall i :: 0 <= i < |p| ==> q[i] == Swapped(p[i])
  {
    seq(|p|, i requires 0 <= i < |p| => Swapped(p[i]))
  }

  lemma SwappedTurn(a: Vec, b: Vec, c: Vec, side: real)
    ensures -side * TurnAt(Swapped(a), Swapped(b), Swapped(c)) == side * TurnAt(a, b, c)
  {
  }

  lemma SwappedIsConvex(p: seq<Vec>, side: real)
    requires Convex(p, side)
    ensures Convex(AllSwapped(p), -side)
  {
    SwappedIsOneSided(p, side);
    SwappedIsTurning(p, side);
  }

  lemma SwappedIsOneSided(p: seq<Vec>, side: real)
    requires OneSided(p, side)
    ensures OneSided(AllSwapped(p), -side)
  {
    hide AllSwapped, TurnAt;
    var q := AllSwapped(p);
    forall i: nat, j: nat | i < |p| && j < |p|
      ensures -side * TurnAt(q[i], q[Next(q, i)], q[j]) >= 0.0
    {
      assert side * TurnAt(p[i], p[Next(p, i)], p[j]) >= 0.0;
      SwappedTurn(p[i], p[Next(p, i)], p[j], side);
    }
  }

  lemma SwappedIsTurning(p: seq<Vec>, side: real)
    requires Turning(p, side)
    ensures Turning(AllSwapped(p), -side)
  {
    hide AllSwapped, TurnAt;
    var q := AllSwapped(p);
    forall i: nat | i < |p|
      ensures -side * TurnAt(q[Before(q, i)], q[i], q[Next(q, i)]) > 0.0
    {
      assert side * TurnAt(p[Before(p, i)], p[i], p[Next(p, i)]) > 0.0;
      SwappedTurn(p[Before(p, i)], p[i], p[Next(p, i)], side);
    }
  }

  lemma SwappedIsWeaklyConvex(p: seq<Vec>, side: real)
    requires WeaklyConvex(p, side)
    ensures WeaklyConvex(AllSwapped(p), -side)
  {
    SwappedIsOneSided(p, side);
    hide OneSided, AllSwapped, TurnAt;
    var q := AllSwapped(p);
    var k: nat, l: nat :| k < |p| && l < |p| && side * TurnAt(p[k], p[Next(p, k)], p[l]) > 0.0;
    SwappedTurn(p[k], p[Next(p, k)], p[l], side);
    assert -side * TurnAt(q[k], q[Next(q, k)], q[l]) > 0.0;
  }

  /** Every convex polygon passes the test, whichever way round it is listed, also with corners on straight sides. */
  lemma ConvexIsAccepted(p: seq<Vec>, side: real)
    requires WeaklyConvex(p, side)
    ensures TwoTurns(p)
  {
    hide WeaklyConvex, Signs, CyclicChanges;
    ConvexTurnsTwiceInX(p, side);
    SwappedIsWeaklyConvex(p, side);
    ConvexTurnsTwiceInX(AllSwapped(p), -side);
    assert XOf(AllSwapped(p)) == YOf(p);
  }
}
