/** The triangulation of the older OBJ loader: cut off the highest vertex with its two nearest neighbours. */
module Triangulation {
  import opened Sequences
  import opened Vector3

  datatype Triangle = Triangle(vert1: nat, vert2: nat, vert3: nat)

  function Abs(x: real): real { if x < 0.0 then -x else x }

  /** The sum of the distances along the three axes. */
  function Distance(u: Vec, v: Vec): real { Abs(u.x - v.x) + Abs(u.y - v.y) + Abs(u.z - v.z) }

  /** Nothing is nearer to a point than itself, and the distance is the same both ways. */
  lemma DistanceIsMetric(u: Vec, v: Vec)
    ensures Distance(u, v) >= 0.0 && (Distance(u, v) == 0.0 <==> u == v)
    ensures Distance(u, v) == Distance(v, u)
  {
  }

  /** v lies in the box that u and w span. */
  predicate Between(u: Vec, v: Vec, w: Vec) {
    && (u.x <= v.x <= w.x || w.x <= v.x <= u.x)
    && (u.y <= v.y <= w.y || w.y <= v.y <= u.y)
    && (u.z <= v.z <= w.z || w.z <= v.z <= u.z)
  }

  /** On every way along the axes that never turns back, distances add up. */
  lemma DistanceAdds(u: Vec, v: Vec, w: Vec)
    requires Between(u, v, w)
    ensures Distance(u, w) == Distance(u, v) + Distance(v, w)
  {
  }

  /** And along each axis they are what they are on the line. */
  lemma DistanceAlongAxes(u: Vec, k: real)
    requires k >= 0.0
    ensures Distance(u, Vec(u.x + k, u.y, u.z)) == k
    ensures Distance(u, Vec(u.x, u.y + k, u.z)) == k
    ensures Distance(u, Vec(u.x, u.y, u.z + k)) == k
  {
  }

  ghost predicate Indexes(s: seq<nat>, m: seq<Vec>) { forall i :: 0 <= i < |s| ==> s[i] < |m| }

  // ---------- what a triangulation is ----------

  ghost predicate Highest(s: seq<nat>, m: seq<Vec>, i: nat)
    requires Indexes(s, m)
  {
    i < |s| && forall k :: 0 <= k < |s| ==> m[s[k]].y <= m[s[i]].y
  }

  /** Positions j and k are the two nearest to a: nobody else is nearer than either of them. */
  ghost predicate TwoNearest(rest: seq<nat>, m: seq<Vec>, a: nat, j: nat, k: nat)
    requires Indexes(rest, m) && a < |m|
  {
    && j < |rest| && k < |rest| && j != k
    && forall l :: 0 <= l < |rest| && l != j && l != k ==>
      Distance(m[a], m[rest[l]]) >= Distance(m[a], m[rest[j]]) &&
      Distance(m[a], m[rest[l]]) >= Distance(m[a], m[rest[k]])
  }

  /** t cuts off the highest vertex, at position i, with its two nearest among the others, at j and k. */
  ghost predicate Cuts(s: seq<nat>, m: seq<Vec>, t: Triangle, i: nat, j: nat, k: nat)
    requires Indexes(s, m)
  {
    && Highest(s, m, i) && TwoNearest(Without(s, i), m, s[i], j, k)
    && t == Triangle(s[i], Without(s, i)[j], Without(s, i)[k])
  }

  ghost predicate CutsTo(s: seq<nat>, m: seq<Vec>, t: Triangle, rest: seq<nat>)
    requires Indexes(s, m)
  {
    exists i: nat, j: nat, k: nat :: Cuts(s, m, t, i, j, k) && rest == Without(s, i)
  }

  /** ts cuts s down to rest, one vertex at a time. */
  ghost predicate CutsDown(s: seq<nat>, m: seq<Vec>, ts: seq<Triangle>, rest: seq<nat>)
    requires Indexes(s, m)
    decreases |ts|
  {
    if ts == [] then rest == s
    else exists mid :: Indexes(mid, m) && CutsDown(s, m, ts[..|ts| - 1], mid) && CutsTo(mid, m, ts[|ts| - 1], rest)
  }

  /** ts cuts s down to three vertices, which are the last triangle. */
  ghost predicate Triangulates(s: seq<nat>, m: seq<Vec>, ts: seq<Triangle>)
    requires Indexes(s, m)
  {
    exists rest :: |rest| == 3 && ts != [] && ts[|ts| - 1] == Triangle(rest[0], rest[1], rest[2])
                   && CutsDown(s, m, ts[..|ts| - 1], rest)
  }

  predicate Corner(t: Triangle, v: nat) { v == t.vert1 || v == t.vert2 || v == t.vert3 }

  ghost predicate Covered(ts: seq<Triangle>, v: nat) { exists n :: 0 <= n < |ts| && Corner(ts[n], v) }

  lemma NoCuts(s: seq<nat>, m: seq<Vec>)
    requires Indexes(s, m)
    ensures CutsDown(s, m, [], s)
  {
  }

  lemma NothingCut(s: seq<nat>, m: seq<Vec>, rest: seq<nat>)
    requires Indexes(s, m) && CutsDown(s, m, [], rest)
    ensures rest == s && forall v :: !Covered([], v)
  {
  }

  lemma CutsAppend(s: seq<nat>, m: seq<Vec>, ts: seq<Triangle>, mid: seq<nat>, t: Triangle, rest: seq<nat>)
    requires Indexes(s, m) && Indexes(mid, m) && CutsDown(s, m, ts, mid) && CutsTo(mid, m, t, rest)
    ensures CutsDown(s, m, ts + [t], rest)
  {
    hide CutsTo;
    assert (ts + [t])[..|ts|] == ts;
  }

  lemma LastCut(s: seq<nat>, m: seq<Vec>, ts: seq<Triangle>, rest: seq<nat>) returns (mid: seq<nat>)
    requires Indexes(s, m) && CutsDown(s, m, ts, rest) && ts != []
    ensures Indexes(mid, m) && CutsDown(s, m, ts[..|ts| - 1], mid) && CutsTo(mid, m, ts[|ts| - 1], rest)
  {
    hide CutsTo;
    mid :| Indexes(mid, m) && CutsDown(s, m, ts[..|ts| - 1], mid) && CutsTo(mid, m, ts[|ts| - 1], rest);
  }

  lemma LastTriangle(s: seq<nat>, m: seq<Vec>, ts: seq<Triangle>, rest: seq<nat>)
    requires Indexes(s, m) && CutsDown(s, m, ts, rest) && |rest| == 3
    ensures Triangulates(s, m, ts + [Triangle(rest[0], rest[1], rest[2])])
  {
    hide CutsDown;
    assert (ts + [Triangle(rest[0], rest[1], rest[2])])[..|ts|] == ts;
  }

  lemma CoveredAppend(ts: seq<Triangle>, t: Triangle)
    ensures forall v :: Covered(ts + [t], v) <==> Covered(ts, v) || Corner(t, v)
  {
    forall v
      ensures Covered(ts + [t], v) <==> Covered(ts, v) || Corner(t, v)
    {
      if Covered(ts, v) {
        var n :| 0 <= n < |ts| && Corner(ts[n], v);
        assert Corner((ts + [t])[n], v);
      }
      if Corner(t, v) {
        assert Corner((ts + [t])[|ts|], v);
      }
      if Covered(ts + [t], v) && !Corner(t, v) {
        var n :| 0 <= n < |ts| + 1 && Corner((ts + [t])[n], v);
        assert Corner(ts[n], v);
      }
    }
  }

  lemma SplitOff(s: seq<nat>, i: nat)
    requires i < |s|
    ensures forall v :: v in s <==> v == s[i] || v in Without(s, i)
  {
    forall v
      ensures v in s <==> v == s[i] || v in Without(s, i)
    {
      if v in s {
        var k :| 0 <= k < |s| && s[k] == v;
        if k < i {
          assert Without(s, i)[k] == v;
        } else if k > i {
          assert Without(s, i)[k - 1] == v;
        }
      }
    }
  }

  /** One cut: the apex is gone, the two others stay. */
  lemma CutCovers(s: seq<nat>, m: seq<Vec>, t: Triangle, rest: seq<nat>)
    requires Indexes(s, m) && CutsTo(s, m, t, rest)
    ensures |rest| == |s| - 1
    ensures forall v :: v in s <==> v in rest || Corner(t, v)
  {
    var i: nat, j: nat, k: nat :| Cuts(s, m, t, i, j, k) && rest == Without(s, i);
    SplitOff(s, i);
    assert t.vert2 in rest && t.vert3 in rest;
    hide Highest, TwoNearest, Without;
  }

  lemma {:induction false} CutsCover(s: seq<nat>, m: seq<Vec>, ts: seq<Triangle>, rest: seq<nat>)
    requires Indexes(s, m) && CutsDown(s, m, ts, rest)
    ensures |rest| == |s| - |ts|
    ensures forall v :: v in s <==> v in rest || Covered(ts, v)
    decreases |ts|
  {
    hide Indexes, CutsTo, CutsDown, Covered, Corner;
    if ts != [] {
      var before, t := ts[..|ts| - 1], ts[|ts| - 1];
      var mid := LastCut(s, m, ts, rest);
      CutsCover(s, m, before, mid);
      CutCovers(mid, m, t, rest);
      CoveredAppend(before, t);
      assert ts == before + [t];
    } else {
      NothingCut(s, m, rest);
    }
  }

  lemma ThreeLeft(rest: seq<nat>)
    requires |rest| == 3
    ensures forall v :: v in rest <==> Corner(Triangle(rest[0], rest[1], rest[2]), v)
  {
    assert rest == [rest[0], rest[1], rest[2]];
  }

  /** n vertices give n - 2 triangles; they cover every vertex and use no other. */
  lemma TrianglesCover(s: seq<nat>, m: seq<Vec>, ts: seq<Triangle>)
    requires Indexes(s, m) && Triangulates(s, m, ts)
    ensures |ts| == |s| - 2
    ensures forall v :: v in s <==> Covered(ts, v)
  {
    hide Indexes, CutsDown;
    var rest :| |rest| == 3 && ts != [] && ts[|ts| - 1] == Triangle(rest[0], rest[1], rest[2])
                && CutsDown(s, m, ts[..|ts| - 1], rest);
    CutsCover(s, m, ts[..|ts| - 1], rest);
    CoveredAppend(ts[..|ts| - 1], ts[|ts| - 1]);
    assert ts == ts[..|ts| - 1] + [ts[|ts| - 1]];
    ThreeLeft(rest);
    hide Covered, Corner;
  }

  /** v is no higher than the first vertex of t, and not nearer to it than either of the others, unless it is one. */
  predicate Behind(m: seq<Vec>, t: Triangle, v: nat) {
    t.vert1 < |m| && t.vert2 < |m| && t.vert3 < |m| && v < |m| &&
    var a := m[t.vert1];
    && m[v].y <= a.y
    && (!Corner(t, v) ==> Distance(a, m[v]) >= Distance(a, m[t.vert2]) && Distance(a, m[v]) >= Distance(a, m[t.vert3]))
  }

  /** What is still there when triangle n is cut off: its corners, those of later triangles, and the rest. */
  ghost predicate StillThere(ts: seq<Triangle>, rest: seq<nat>, n: nat, v: nat) {
    v in rest || exists k :: n <= k < |ts| && Corner(ts[k], v)
  }

  lemma CutIsBehind(s: seq<nat>, m: seq<Vec>, t: Triangle, rest: seq<nat>, v: nat)
    requires Indexes(s, m) && CutsTo(s, m, t, rest) && v in s
    ensures Behind(m, t, v)
  {
    var i: nat, j: nat, k: nat :| Cuts(s, m, t, i, j, k) && rest == Without(s, i);
    SplitOff(s, i);
    assert t.vert2 in rest && t.vert3 in rest;
    if v != s[i] {
      var l :| 0 <= l < |rest| && rest[l] == v;
      assert l == j || l == k || !Corner(t, v) || v == t.vert2 || v == t.vert3;
    }
    hide Distance, Without;
  }

  lemma {:induction false} CutsAreBehind(s: seq<nat>, m: seq<Vec>, ts: seq<Triangle>, rest: seq<nat>, n: nat, v: nat)
    requires Indexes(s, m) && CutsDown(s, m, ts, rest) && n < |ts| && StillThere(ts, rest, n, v)
    ensures Behind(m, ts[n], v)
    decreases |ts|
  {
    hide Indexes, CutsTo, CutsDown, Corner, Behind;
    var before, t := ts[..|ts| - 1], ts[|ts| - 1];
    var mid := LastCut(s, m, ts, rest);
    CutCovers(mid, m, t, rest);
    if n == |before| {
      CutIsBehind(mid, m, t, rest, v);
    } else {
      if v !in mid {
        var k :| n <= k < |ts| && Corner(ts[k], v);
        assert before[k] == ts[k];
      }
      CutsAreBehind(s, m, before, mid, n, v);
    }
  }

  /** The triangles of a run go down: the first vertex of each is at least as high as all that later triangles use, and
      of these only its two others are allowed to be nearest to it. */
  lemma TrianglesDescend(s: seq<nat>, m: seq<Vec>, ts: seq<Triangle>, n: nat, k: nat, v: nat)
    requires Indexes(s, m) && Triangulates(s, m, ts) && n < k < |ts| && Corner(ts[k], v)
    ensures ts[n].vert1 < |m| && ts[n].vert2 < |m| && ts[n].vert3 < |m| && v < |m|
    ensures var a := m[ts[n].vert1];
      && m[v].y <= a.y
      && (v != ts[n].vert1 && v != ts[n].vert2 && v != ts[n].vert3 ==>
            Distance(a, m[v]) >= Distance(a, m[ts[n].vert2]) && Distance(a, m[v]) >= Distance(a, m[ts[n].vert3]))
  {
    hide Indexes, CutsDown, Distance;
    var rest :| |rest| == 3 && ts != [] && ts[|ts| - 1] == Triangle(rest[0], rest[1], rest[2])
                && CutsDown(s, m, ts[..|ts| - 1], rest);
    ThreeLeft(rest);
    var before := ts[..|ts| - 1];
    assert k < |before| ==> before[k] == ts[k];
    assert v in rest || k < |before|;
    CutsAreBehind(s, m, before, rest, n, v);
  }

  ghost predicate ThreeCorners(t: Triangle) { t.vert1 != t.vert2 && t.vert2 != t.vert3 && t.vert1 != t.vert3 }

  lemma CutHasThreeCorners(s: seq<nat>, m: seq<Vec>, t: Triangle, rest: seq<nat>)
    requires Indexes(s, m) && Distinct(s) && CutsTo(s, m, t, rest)
    ensures ThreeCorners(t) && Distinct(rest)
  {
    var i: nat, j: nat, k: nat :| Cuts(s, m, t, i, j, k) && rest == Without(s, i);
    DistinctWithout(s, i);
    assert t.vert2 in rest && t.vert3 in rest;
    hide Highest, Without;
  }

  lemma {:induction false} CutsHaveThreeCorners(s: seq<nat>, m: seq<Vec>, ts: seq<Triangle>, rest: seq<nat>)
    requires Indexes(s, m) && Distinct(s) && CutsDown(s, m, ts, rest)
    ensures Distinct(rest) && forall n :: 0 <= n < |ts| ==> ThreeCorners(ts[n])
    decreases |ts|
  {
    hide Indexes, CutsTo, CutsDown, ThreeCorners, Distinct;
    if ts == [] {
      NothingCut(s, m, rest);
    } else {
      var before, t := ts[..|ts| - 1], ts[|ts| - 1];
      var mid := LastCut(s, m, ts, rest);
      CutsHaveThreeCorners(s, m, before, mid);
      CutHasThreeCorners(mid, m, t, rest);
      assert forall n :: 0 <= n < |before| ==> ts[n] == before[n];
    }
  }

  /** Distinct vertices give triangles with three distinct corners. */
  lemma TrianglesHaveThreeCorners(s: seq<nat>, m: seq<Vec>, ts: seq<Triangle>)
    requires Indexes(s, m) && Triangulates(s, m, ts) && Distinct(s)
    ensures forall n :: 0 <= n < |ts| ==> ThreeCorners(ts[n])
  {
    hide Indexes, CutsDown;
    var rest :| |rest| == 3 && ts != [] && ts[|ts| - 1] == Triangle(rest[0], rest[1], rest[2])
                && CutsDown(s, m, ts[..|ts| - 1], rest);
    CutsHaveThreeCorners(s, m, ts[..|ts| - 1], rest);
    assert rest[0] != rest[1] && rest[1] != rest[2] && rest[0] != rest[2];
  }

  // ---------- the code ----------

  method FindHighest(vertices: seq<nat>, m: seq<Vec>) returns (highestYIndex: nat)
    requires Indexes(vertices, m) && vertices != []
    ensures Highest(vertices, m, highestYIndex)
  {
    var highestY := m[vertices[0]];
    highestYIndex := 0;
    for i := 0 to |vertices|
      invariant highestYIndex < |vertices| && highestY == m[vertices[highestYIndex]]
      invariant forall k :: 0 <= k < i ==> m[vertices[k]].y <= highestY.y
    {
      if m[vertices[i]].y > highestY.y {
        highestY := m[vertices[i]];
        highestYIndex := i;
      }
    }
  }

  /** The two nearest of all but the last vertex to the last one. */
  method FindTwoNearest(vertices: seq<nat>, m: seq<Vec>) returns (near1Index: nat, near2Index: nat)
    requires Indexes(vertices, m) && |vertices| >= 3
    ensures TwoNearest(vertices[..|vertices| - 1], m, vertices[|vertices| - 1], near1Index, near2Index)
    ensures near1Index < |vertices| - 1 && near2Index < |vertices| - 1
  {
    hide Distance;
    var highestY := m[vertices[|vertices| - 1]];
    near1Index := 0;
    var near1Distance := Distance(highestY, m[vertices[0]]);
    near2Index := 1;
    var near2Distance := Distance(highestY, m[vertices[1]]);
    for i := 2 to |vertices| - 1
      invariant near1Index < i && near2Index < i && near1Index != near2Index
      invariant near1Distance == Distance(highestY, m[vertices[near1Index]])
      invariant near2Distance == Distance(highestY, m[vertices[near2Index]])
      invariant forall l :: 0 <= l < i && l != near1Index && l != near2Index ==>
        Distance(highestY, m[vertices[l]]) >= near1Distance && Distance(highestY, m[vertices[l]]) >= near2Distance
    {
      var candidateDistance := Distance(highestY, m[vertices[i]]);
      if candidateDistance < near1Distance && candidateDistance < near2Distance {
        if near1Distance < near2Distance {
          near2Index := i;
          near2Distance := candidateDistance;
        } else {
          near1Index := i;
          near1Distance := candidateDistance;
        }
      } else if candidateDistance < near1Distance {
        near1Index := i;
        near1Distance := candidateDistance;
      } else if candidateDistance < near2Distance {
        near2Index := i;
        near2Distance := candidateDistance;
      }
    }
  }

  /** The body of the loop: the highest vertex goes to the end, makes a triangle and is erased. */
  method CutHighest(list: seq<nat>, m: seq<Vec>) returns (t: Triangle, vertices: seq<nat>)
    requires Indexes(list, m) && |list| > 3
    ensures Indexes(vertices, m) && |vertices| == |list| - 1 && CutsTo(list, m, t, vertices)
  {
    hide Highest, TwoNearest, CutsTo;
    var highestYIndex := FindHighest(list, m);
    ghost var i := highestYIndex;
    HighestInside(list, m, i);
    MovedToEnd(list, i);
    vertices := list + [list[highestYIndex]];
    vertices := vertices[..highestYIndex] + vertices[highestYIndex + 1..];
    highestYIndex := |vertices| - 1;
    assert vertices[..highestYIndex] == Without(list, i);
    var near1Index, near2Index := FindTwoNearest(vertices, m);
    t := Triangle(vertices[highestYIndex], vertices[near1Index], vertices[near2Index]);
    vertices := vertices[..highestYIndex] + vertices[highestYIndex + 1..];
    assert vertices == Without(list, i);
    CutMade(list, m, t, i, near1Index, near2Index);
  }

  lemma HighestInside(s: seq<nat>, m: seq<Vec>, i: nat)
    requires Indexes(s, m) && Highest(s, m, i)
    ensures i < |s|
  {
  }

  /** tList is the list that the triangles are appended to. */
  method Triangulate(tList: seq<Triangle>, list: seq<nat>, m: seq<Vec>) returns (r: seq<Triangle>)
    requires Indexes(list, m) && |list| >= 3
    ensures tList <= r && Triangulates(list, m, r[|tList|..])
  {
    hide CutsTo, CutsDown, Triangulates;
    NoCuts(list, m);
    var vertices := list;
    r := tList;
    ghost var ts: seq<Triangle> := [];
    while |vertices| > 3
      invariant Indexes(vertices, m) && |vertices| >= 3 && r == tList + ts && CutsDown(list, m, ts, vertices)
    {
      var t, rest := CutHighest(vertices, m);
      r := r + [t];
      CutsAppend(list, m, ts, vertices, t, rest);
      ts := ts + [t];
      vertices := rest;
    }
    r := r + [Triangle(vertices[0], vertices[1], vertices[2])];
    assert r[|tList|..] == ts + [Triangle(vertices[0], vertices[1], vertices[2])];
    LastTriangle(list, m, ts, vertices);
  }

  lemma MovedToEnd(s: seq<nat>, i: nat)
    requires i < |s|
    ensures (s + [s[i]])[..i] + (s + [s[i]])[i + 1..] == Without(s, i) + [s[i]]
  {
  }

  lemma CutMade(s: seq<nat>, m: seq<Vec>, t: Triangle, i: nat, j: nat, k: nat)
    requires Indexes(s, m) && Highest(s, m, i) && TwoNearest(Without(s, i), m, s[i], j, k)
    requires t == Triangle(s[i], Without(s, i)[j], Without(s, i)[k])
    ensures CutsTo(s, m, t, Without(s, i))
  {
    assert Cuts(s, m, t, i, j, k);
  }
}
