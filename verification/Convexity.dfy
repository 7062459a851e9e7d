/** Where a polygon turns to the same side at every corner, the sign-change test decides whether it is convex. */
module Convexity {
  import opened Sequences
  import opened Vector3
  import opened Polygon

  /** How far v bends from u to the left, in the plane. */
  function Bend(u: Vec, v: Vec): real { u.x * v.y - u.y * v.x }

  // ---------- directions in one half of the plane ----------

  /** From u to v it is a turn to the left, or half a round from straight up to straight down. */
  predicate Ahead(u: Vec, v: Vec) {
    Bend(u, v) > 0.0 || (u.x == 0.0 && v.x == 0.0 && u.y > 0.0 && v.y < 0.0)
  }

  predicate Right(u: Vec) { u.x > 0.0 }

  lemma ThreeDirections(d: Vec, u: Vec, v: Vec)
    ensures Prod(u.x, Bend(d, v)) == Prod(d.x, Bend(u, v)) + Prod(v.x, Bend(d, u))
  {
    assert u.x * Bend(d, v) == d.x * Bend(u, v) + v.x * Bend(d, u);
  }

  lemma TurnBack(u: Vec, v: Vec)
    ensures Bend(v, u) == -Bend(u, v)
  {
  }

  lemma Signed(x: real, y: real)
    ensures x > 0.0 && y > 0.0 ==> Prod(x, y) > 0.0
    ensures x >= 0.0 && y >= 0.0 ==> Prod(x, y) >= 0.0
    ensures x <= 0.0 && y >= 0.0 ==> Prod(x, y) <= 0.0
    ensures x >= 0.0 && y <= 0.0 ==> Prod(x, y) <= 0.0
    ensures x <= 0.0 && y <= 0.0 ==> Prod(x, y) >= 0.0
    ensures Prod(x, y) == 0.0 ==> x == 0.0 || y == 0.0
  {
    if x != 0.0 && y != 0.0 {
      assert Prod(x, y) != 0.0 by {
        if Prod(x, y) == 0.0 { ProductVanishes(x, y); }
      }
    }
  }

  lemma Upright(u: Vec, v: Vec)
    ensures u.x == 0.0 ==> Bend(u, v) == -Prod(u.y, v.x)
    ensures v.x == 0.0 ==> Bend(u, v) == Prod(u.x, v.y)
  {
  }

  /** Within one half of the plane turns to the left add up to one. */
  lemma AheadOn(u: Vec, v: Vec, w: Vec)
    requires Right(u) == Right(v) == Right(w) && Ahead(u, v) && Bend(v, w) > 0.0
    ensures Ahead(u, w)
  {
    hide Bend, Prod;
    ThreeDirections(u, v, w);
    Upright(u, v);
    Upright(v, w);
    Signed(v.y, w.x);
    Signed(u.x, v.y);
    Signed(u.x, Bend(v, w));
    Signed(w.x, Bend(u, v));
    Signed(v.x, Bend(u, w));
    Signed(u.y, v.x);
    Signed(v.x, w.y);
  }

  /** Seen from a direction in the one half, those in the other half never go back to the left side. */
  lemma NoReturn(d: Vec, u: Vec, v: Vec)
    requires Right(u) == Right(v) != Right(d) && Ahead(u, v) && Bend(d, u) < 0.0
    ensures Bend(d, v) <= 0.0
  {
    hide Bend, Prod;
    ThreeDirections(d, u, v);
    Upright(d, u);
    Signed(d.x, u.y);
    Signed(d.x, Bend(u, v));
    Signed(v.x, Bend(d, u));
    Signed(u.x, Bend(d, v));
  }

  // ---------- a closed round of directions ----------

  ghost predicate Turns(e: seq<Vec>) {
    forall i :: 0 < i < |e| ==> Bend(e[i - 1], e[i]) > 0.0
  }

  function Halves(e: seq<Vec>): (s: seq<bool>)
    ensures |s| == |e| && forall i :: 0 <= i < |e| ==> s[i] == Right(e[i])
  {
    seq(|e|, i requires 0 <= i < |e| => Right(e[i]))
  }

  ghost predicate SameHalf(s: seq<bool>, a: nat, b: nat)
    requires b < |s|
  {
    forall k :: a <= k <= b ==> s[k] == s[b]
  }

  lemma {:induction false} StretchIsAhead(e: seq<Vec>, a: nat, b: nat)
    requires Turns(e) && a < b < |e| && SameHalf(Halves(e), a, b)
    ensures Ahead(e[a], e[b])
    decreases b
  {
    hide Bend, Ahead;
    assert Bend(e[b - 1], e[b]) > 0.0;
    var s := Halves(e);
    assert s[a] == s[b] && s[b - 1] == s[b];
    if a < b - 1 {
      StretchIsAhead(e, a, b - 1);
      AheadOn(e[a], e[b - 1], e[b]);
    } else {
      TurnIsAhead(e[a], e[b]);
    }
  }

  lemma TurnIsAhead(u: Vec, v: Vec)
    requires Bend(u, v) > 0.0
    ensures Ahead(u, v)
  {
  }

  lemma {:induction false} ChangesBetween(s: seq<bool>, i: nat, j: nat)
    requires i <= j < |s|
    ensures Changes(s[..j + 1]) >= Changes(s[..i + 1]) + Unit(s[i] != s[j])
    decreases j
  {
    if i < j {
      ChangesBetween(s, i, j - 1);
      OneMore(s, j);
    }
  }

  lemma ThreeChanges(s: seq<bool>, i: nat, j: nat, k: nat, l: nat)
    requires i < j < k < l < |s| && s[i] != s[j] && s[j] != s[k] && s[k] != s[l]
    ensures Changes(s) >= 3
  {
    ChangesBetween(s, i, j);
    ChangesBetween(s, j, k);
    ChangesBetween(s, k, l);
    ChangesBetween(s, l, |s| - 1);
    assert s[..|s|] == s;
  }

  /** In a round with two changes of half, a place in the half of the ends is in one stretch with one of them. */
  lemma StretchToEnd(s: seq<bool>, a: nat)
    requires 0 < a < |s| - 1 && Changes(s) <= 2 && s[0] == s[|s| - 1] == s[a]
    ensures SameHalf(s, 0, a) || SameHalf(s, a, |s| - 1)
  {
    if !SameHalf(s, 0, a) && !SameHalf(s, a, |s| - 1) {
      var k :| 0 <= k <= a && s[k] != s[a];
      var l :| a <= l <= |s| - 1 && s[l] != s[|s| - 1];
      ThreeChanges(s, 0, k, a, l);
    }
  }

  /** Once an edge leads to the right side of the first one, no later edge leads to its left side. */
  lemma NoSecondRise(e: seq<Vec>, a: nat, c: nat)
    requires |e| >= 3 && Turns(e) && e[|e| - 1] == e[0] && Changes(Halves(e)) <= 2
    requires 0 < a < c < |e| - 1 && Bend(e[0], e[a]) < 0.0
    ensures Bend(e[0], e[c]) <= 0.0
  {
    hide Bend, Ahead, Changes, Right;
    var s, n := Halves(e), |e| - 1;
    AheadTurns(e, a);
    AheadTurns(e, c);
    if s[a] == s[0] {
      StretchToEnd(s, a);
      if SameHalf(s, 0, a) {
        StretchIsAhead(e, 0, a);
      } else {
        assert SameHalf(s, c, n);
        StretchIsAhead(e, c, n);
      }
    } else if s[c] == s[0] {
      StretchToEnd(s, c);
      StretchIsAhead(e, c, n);
    } else {
      if !SameHalf(s, a, c) {
        var k :| a <= k <= c && s[k] != s[c];
        ThreeChanges(s, 0, a, k, c);
      }
      StretchIsAhead(e, a, c);
      NoReturn(e[0], e[a], e[c]);
    }
  }

  lemma AheadTurns(e: seq<Vec>, a: nat)
    requires a < |e| && e[|e| - 1] == e[0]
    ensures Ahead(e[0], e[a]) ==> Bend(e[0], e[a]) >= 0.0
    ensures Ahead(e[a], e[|e| - 1]) ==> Bend(e[0], e[a]) <= 0.0
  {
  }

  // ---------- heights over the first edge ----------

  predicate Sinks(h: seq<real>, i: nat)
    requires 0 < i < |h|
  {
    h[i] < h[i - 1]
  }

  predicate Rises(h: seq<real>, i: nat)
    requires 0 < i < |h|
  {
    h[i] > h[i - 1]
  }

  /** Heights that begin and end at zero, leave it upwards and come back from above, and never rise after they have
      sunk, are positive in between. */
  lemma PositiveBetween(h: seq<real>, j: nat)
    requires |h| >= 3 && h[0] == 0.0 && h[|h| - 1] == 0.0 && Rises(h, 1) && Sinks(h, |h| - 1)
    requires forall a, c :: 0 < a < c < |h| && Sinks(h, a) ==> !Rises(h, c)
    requires 0 < j < |h| - 1
    ensures h[j] > 0.0
  {
    if a :| 0 < a <= j && Sinks(h, a) {
      SinksOn(h, j, |h| - 2);
    } else {
      RisesUpTo(h, 1, j);
    }
  }

  lemma {:induction false} SinksOn(h: seq<real>, i: nat, j: nat)
    requires i <= j < |h| && forall c :: i < c < |h| ==> !Rises(h, c)
    ensures h[j] <= h[i]
    decreases j
  {
    if i < j {
      assert !Rises(h, j);
      SinksOn(h, i, j - 1);
    }
  }

  lemma {:induction false} RisesUpTo(h: seq<real>, i: nat, j: nat)
    requires i <= j < |h| && forall c :: i < c <= j ==> !Sinks(h, c)
    ensures h[i] <= h[j]
    decreases j
  {
    if i < j {
      assert !Sinks(h, j);
      RisesUpTo(h, i, j - 1);
    }
  }

  /** The edges in order, the first of them, which leads to corner 0, once more at the end. */
  function Round(p: seq<Vec>): (e: seq<Vec>)
    requires p != []
    ensures |e| == |p| + 1 && e[0] == e[|p|] == p[0].Minus(p[|p| - 1])
    ensures forall i :: 0 < i < |p| ==> e[i] == p[i].Minus(p[i - 1])
  {
    seq(|p| + 1, i requires 0 <= i <= |p| =>
      if i == 0 || i == |p| then p[0].Minus(p[|p| - 1]) else p[i].Minus(p[i - 1]))
  }

  lemma TurnAtCorner(a: Vec, b: Vec, c: Vec, t: Vec)
    ensures TurnAt(a, b, c) == Bend(b.Minus(a), c.Minus(b))
    ensures TurnAt(a, b, t) - TurnAt(a, b, c) == Bend(b.Minus(a), t.Minus(c))
    ensures TurnAt(a, b, b) == 0.0 && TurnAt(a, b, a) == 0.0
  {
  }

  lemma RoundTurns(p: seq<Vec>)
    requires |p| >= 2 && Turning(p, 1.0)
    ensures Turns(Round(p))
  {
    hide TurnAt, Bend, Round;
    var e, n := Round(p), |p|;
    forall i | 0 < i < |e|
      ensures Bend(e[i - 1], e[i]) > 0.0
    {
      var k := i - 1;
      assert 1.0 * TurnAt(p[Before(p, k)], p[k], p[Next(p, k)]) > 0.0;
      TurnAtCorner(p[Before(p, k)], p[k], p[Next(p, k)], p[k]);
    }
  }

  lemma RoundHalves(p: seq<Vec>)
    requires p != []
    ensures Halves(Round(p)) == Signs(XOf(p)) + [Signs(XOf(p))[0]]
  {
    hide Round, Halves, Signs, XOf;
    var s, t, e := Halves(Round(p)), Signs(XOf(p)), Round(p);
    forall i | 0 <= i < |s|
      ensures s[i] == (t + [t[0]])[i]
    {
    }
  }

  lemma ClosedChanges(s: seq<bool>)
    requires s != []
    ensures Changes(s + [s[0]]) == CyclicChanges(s)
  {
    assert (s + [s[0]])[..|s|] == s;
  }

  /** How far the corners lie on the inner side of the edge that leads to corner 0. */
  function Heights(p: seq<Vec>): (h: seq<real>)
    requires p != []
    ensures |h| == |p| && forall i :: 0 <= i < |p| ==> h[i] == TurnAt(p[|p| - 1], p[0], p[i])
  {
    seq(|p|, i requires 0 <= i < |p| => TurnAt(p[|p| - 1], p[0], p[i]))
  }

  lemma HeightSteps(p: seq<Vec>, i: nat)
    requires 0 < i < |p|
    ensures Heights(p)[i] - Heights(p)[i - 1] == Bend(Round(p)[0], Round(p)[i])
    ensures Heights(p)[0] == 0.0 && Heights(p)[|p| - 1] == 0.0
  {
    hide TurnAt, Bend, Round, Heights;
    TurnAtCorner(p[|p| - 1], p[0], p[i - 1], p[i]);
  }

  lemma FewHalves(p: seq<Vec>)
    requires |p| >= 3 && CyclicChanges(Signs(XOf(p))) <= 2
    ensures Changes(Halves(Round(p))) <= 2
  {
    RoundHalves(p);
    ClosedChanges(Signs(XOf(p)));
    hide *;
  }

  lemma NoSecondRiseInHeights(p: seq<Vec>, a: nat, c: nat)
    requires |p| >= 3 && Turns(Round(p)) && Changes(Halves(Round(p))) <= 2
    requires 0 < a < c < |p| && Sinks(Heights(p), a)
    ensures !Rises(Heights(p), c)
  {
    hide Changes, Halves, Turns, Heights, Bend, Round;
    HeightSteps(p, a);
    HeightSteps(p, c);
    NoSecondRise(Round(p), a, c);
  }

  /** All other corners lie on the inner side of the edge that leads to corner 0. */
  lemma FirstEdgeOutside(p: seq<Vec>, j: nat)
    requires |p| >= 3 && Turning(p, 1.0) && CyclicChanges(Signs(XOf(p))) <= 2 && 0 < j < |p| - 1
    ensures TurnAt(p[|p| - 1], p[0], p[j]) > 0.0
  {
    hide Signs, XOf, CyclicChanges, TurnAt, Turning, Changes, Halves, Turns, Round, Rises, Sinks;
    var h, n := Heights(p), |p|;
    assert Turns(Round(p)) && Changes(Halves(Round(p))) <= 2 by {
      RoundTurns(p);
      FewHalves(p);
    }
    OuterSteps(p);
    forall a: nat, c: nat | 0 < a < c < n && Sinks(h, a)
      ensures !Rises(h, c)
    {
      NoSecondRiseInHeights(p, a, c);
    }
    PositiveBetween(h, j);
  }

  lemma OuterSteps(p: seq<Vec>)
    requires |p| >= 3 && Turns(Round(p))
    ensures var h := Heights(p);
            h[0] == 0.0 && h[|p| - 1] == 0.0 && Rises(h, 1) && Sinks(h, |p| - 1)
  {
    hide TurnAt, Turns, Round, Heights, Bend;
    OuterTurns(p);
    HeightSteps(p, 1);
    HeightSteps(p, |p| - 1);
  }

  lemma OuterTurns(p: seq<Vec>)
    requires |p| >= 3 && Turns(Round(p))
    ensures Bend(Round(p)[0], Round(p)[1]) > 0.0 && Bend(Round(p)[0], Round(p)[|p| - 1]) < 0.0
  {
    hide Bend, Round;
    var e, n := Round(p), |p|;
    assert Bend(e[1 - 1], e[1]) > 0.0 && Bend(e[n - 1], e[n]) > 0.0;
    TurnBack(e[n - 1], e[n]);
  }

  // ---------- every edge ----------

  function From<T>(p: seq<T>, k: nat): (q: seq<T>)
    requires k <= |p|
    ensures |q| == |p| && forall i :: 0 <= i < |p| ==> q[i] == p[if i < |p| - k then k + i else k + i - |p|]
  {
    p[k..] + p[..k]
  }

  lemma TurningFrom(p: seq<Vec>, k: nat)
    requires k < |p| && Turning(p, 1.0)
    ensures Turning(From(p, k), 1.0)
  {
    hide TurnAt, From;
    var q := From(p, k);
    forall i: nat | i < |q|
      ensures 1.0 * TurnAt(q[Before(q, i)], q[i], q[Next(q, i)]) > 0.0
    {
      var c := if i < |p| - k then k + i else k + i - |p|;
      assert 1.0 * TurnAt(p[Before(p, c)], p[c], p[Next(p, c)]) > 0.0;
    }
  }

  /** Every corner off an edge lies on the inner side of the edge. */
  lemma EdgeOutside(p: seq<Vec>, i: nat, j: nat)
    requires |p| >= 3 && Turning(p, 1.0) && TwoTurns(p) && i < |p| && j < |p| && j != i && j != Next(p, i)
    ensures TurnAt(p[i], p[Next(p, i)], p[j]) > 0.0
  {
    hide TurnAt, Signs, XOf, YOf, CyclicChanges;
    var k, n := Next(p, i), |p|;
    var q := From(p, k);
    TurningFrom(p, k);
    TestIgnoresStart(p, k);
    FewChanges(q);
    var l := if j >= k then j - k else j - k + n;
    assert q[l] == p[j] && q[0] == p[k] && q[n - 1] == p[i];
    FirstEdgeOutside(q, l);
  }

  lemma FewChanges(p: seq<Vec>)
    requires |p| >= 3 && TwoTurns(p)
    ensures CyclicChanges(Signs(XOf(p))) <= 2
  {
    hide XOf, YOf, Signs;
    if |p| == 3 {
      var s := Signs(XOf(p));
      AtMost(s);
      MissedPairIsHarmless(s);
    }
  }

  lemma {:induction false} AtMost(s: seq<bool>)
    requires s != []
    ensures Changes(s) <= |s| - 1
  {
    if |s| > 1 {
      AtMost(s[..|s| - 1]);
    }
  }

  lemma LeftTurningIsConvex(p: seq<Vec>)
    requires Turning(p, 1.0) && TwoTurns(p)
    ensures Convex(p, 1.0)
  {
    hide TurnAt, TwoTurns;
    if 0 < |p| < 3 {
      assert 1.0 * TurnAt(p[Before(p, 0)], p[0], p[Next(p, 0)]) > 0.0;
      TurnAtCorner(p[Before(p, 0)], p[0], p[0], p[0]);
    } else if |p| >= 3 {
      forall i: nat, j: nat | i < |p| && j < |p|
        ensures 1.0 * TurnAt(p[i], p[Next(p, i)], p[j]) >= 0.0
      {
        TurnAtCorner(p[i], p[Next(p, i)], p[j], p[j]);
        if j != i && j != Next(p, i) { EdgeOutside(p, i, j); }
      }
      forall i: nat, j: nat | i < j < |p|
        ensures p[i].x != p[j].x || p[i].y != p[j].y
      {
        Apart(p, i, j);
      }
    }
  }

  lemma Apart(p: seq<Vec>, i: nat, j: nat)
    requires |p| >= 3 && Turning(p, 1.0) && TwoTurns(p) && i < j < |p|
    ensures p[i].x != p[j].x || p[i].y != p[j].y
  {
    hide TurnAt, TwoTurns;
    if p[i].x == p[j].x && p[i].y == p[j].y {
      if j == Next(p, i) {
        assert 1.0 * TurnAt(p[Before(p, i)], p[i], p[Next(p, i)]) > 0.0;
        SameSpot(p[Before(p, i)], p[i], p[i], p[j]);
      } else {
        EdgeOutside(p, i, j);
        SameSpot(p[i], p[Next(p, i)], p[i], p[j]);
      }
    }
  }

  lemma SameSpot(a: Vec, b: Vec, c: Vec, d: Vec)
    requires c.x == d.x && c.y == d.y
    ensures TurnAt(a, b, c) == TurnAt(a, b, d)
    ensures TurnAt(a, b, b) == 0.0 && TurnAt(a, b, a) == 0.0
  {
  }

  /** For a polygon that turns to one side at every corner the test is exact, whichever way round it is listed. */
  lemma TestIsExact(p: seq<Vec>, side: real)
    requires (side == 1.0 || side == -1.0) && Turning(p, side)
    ensures TwoTurns(p) <==> Convex(p, side)
  {
    hide TwoTurns, Convex, Turning;
    if Convex(p, side) {
      if p != [] {
        ConvexIsWeaklyConvex(p, side);
        ConvexIsAccepted(p, side);
      } else {
        NothingIsAccepted();
      }
    } else if TwoTurns(p) {
      if side == 1.0 {
        LeftTurningIsConvex(p);
      } else {
        var q := AllSwapped(p);
        SwappedIsTurning(p, side);
        SwappedTest(p);
        LeftTurningIsConvex(q);
        SwappedIsConvex(q, 1.0);
        SwappedTwice(p);
      }
    }
  }

  lemma NothingIsAccepted()
    ensures TwoTurns([])
  {
  }

  lemma SwappedTwice(p: seq<Vec>)
    ensures AllSwapped(AllSwapped(p)) == p
  {
  }

  lemma SwappedTest(p: seq<Vec>)
    requires TwoTurns(p)
    ensures TwoTurns(AllSwapped(p))
  {
    hide Signs, CyclicChanges;
    assert XOf(AllSwapped(p)) == YOf(p) && YOf(AllSwapped(p)) == XOf(p);
  }

  /** So among the polygons that the test accepts, the strictly convex ones are those that turn to one side. */
  lemma AcceptedIsConvex(p: seq<Vec>, side: real)
    requires (side == 1.0 || side == -1.0) && TwoTurns(p)
    ensures Convex(p, side) <==> Turning(p, side)
  {
    hide TwoTurns, OneSided, Simple;
    if Turning(p, side) { TestIsExact(p, side); }
  }
}
