/** GLTriangleBatch: triangles are submitted corner by corner; nearly equal corners share one stored vertex. */
module TriangleBatch {
  import opened Vector3

  datatype Tex = Tex(s: real, t: real)

  datatype Corner = Corner(pos: Vec, norm: Vec, tex: Tex)

  const E := 0.00001

  /** m3dCloseEnough */
  predicate CloseEnough(a: real, b: real) { (if a - b < 0.0 then b - a else a - b) < E }

  /** Two corners are the same vertex: all eight numbers are close. */
  predicate Close(a: Corner, b: Corner) {
    && CloseEnough(a.pos.x, b.pos.x) && CloseEnough(a.pos.y, b.pos.y) && CloseEnough(a.pos.z, b.pos.z)
    && CloseEnough(a.norm.x, b.norm.x) && CloseEnough(a.norm.y, b.norm.y) && CloseEnough(a.norm.z, b.norm.z)
    && CloseEnough(a.tex.s, b.tex.s) && CloseEnough(a.tex.t, b.tex.t)
  }

  // ---------- the mesh of a list of corners ----------

  datatype Mesh = Mesh(stored: seq<Corner>, indexes: seq<nat>)

  /** The first stored vertex that is close to c, or the length. */
  function Match(stored: seq<Corner>, c: Corner, from: nat): (i: nat)
    requires from <= |stored|
    ensures from <= i <= |stored| && (i < |stored| ==> Close(stored[i], c))
    ensures forall j :: from <= j < i ==> !Close(stored[j], c)
    decreases |stored| - from
  {
    if from < |stored| && !Close(stored[from], c) then Match(stored, c, from + 1) else from
  }

  function Add(m: Mesh, c: Corner): Mesh {
    var i := Match(m.stored, c, 0);
    Mesh(if i == |m.stored| then m.stored + [c] else m.stored, m.indexes + [i])
  }

  function Build(cs: seq<Corner>): Mesh {
    if cs == [] then Mesh([], []) else Add(Build(cs[..|cs| - 1]), cs[|cs| - 1])
  }

  /** Corner k is drawn from the earliest stored vertex that is close to it. */
  predicate Drawn(m: Mesh, c: Corner, i: nat) {
    i < |m.stored| && Close(m.stored[i], c) && forall j :: 0 <= j < i ==> !Close(m.stored[j], c)
  }

  /** Stored vertex i is corner k itself, and no earlier corner uses it or a later vertex. */
  predicate Stored(m: Mesh, cs: seq<Corner>, i: nat, k: nat) {
    && i < |m.stored| && k < |cs| <= |m.indexes| && m.stored[i] == cs[k] && m.indexes[k] == i
    && forall l :: 0 <= l < k ==> m.indexes[l] < i
  }

  ghost predicate FirstUsed(m: Mesh, cs: seq<Corner>, i: nat) { exists k :: Stored(m, cs, i, k) }

  /** The mesh is the list of corners, each close vertex stored once, at its first use. */
  ghost predicate Represents(m: Mesh, cs: seq<Corner>) {
    && |m.indexes| == |cs|
    && (forall k :: 0 <= k < |cs| ==> Drawn(m, cs[k], m.indexes[k]))
    && (forall i, j :: 0 <= i < j < |m.stored| ==> !Close(m.stored[i], m.stored[j]))
    && (forall i :: 0 <= i < |m.stored| ==> FirstUsed(m, cs, i))
  }

  /** The mesh agrees with the plain list of corners, and has no more vertices than corners. */
  lemma {:induction false} BuildRepresents(cs: seq<Corner>)
    ensures Represents(Build(cs), cs) && |Build(cs).stored| <= |cs|
  {
    if cs != [] {
      var cs', c := cs[..|cs| - 1], cs[|cs| - 1];
      BuildRepresents(cs');
      AddRepresents(Build(cs'), cs', c);
      assert cs == cs' + [c];
    }
  }

  lemma AddRepresents(m: Mesh, cs: seq<Corner>, c: Corner)
    requires Represents(m, cs)
    ensures Represents(Add(m, c), cs + [c])
  {
    var r, n := Add(m, c), |cs|;
    var i := Match(m.stored, c, 0);
    CloseIsReflexive(c);
    hide Close, Match;
    forall k | 0 <= k < n
      ensures Drawn(r, cs[k], r.indexes[k]) && r.indexes[k] < |m.stored|
    {
      assert Drawn(m, cs[k], m.indexes[k]);
    }
    assert Drawn(r, c, i);
    forall j: nat | j < |m.stored|
      ensures FirstUsed(r, cs + [c], j)
    {
      assert FirstUsed(m, cs, j);
      var k :| Stored(m, cs, j, k);
      assert Stored(r, cs + [c], j, k);
    }
    if i == |m.stored| {
      assert Stored(r, cs + [c], i, n);
    }
  }

  /** What the mesh is worth to the reader: corner k is drawn within 0.00001 of where it was submitted, in each of the
      eight numbers. */
  lemma DrawnWithinTolerance(cs: seq<Corner>, k: nat)
    requires k < |cs|
    ensures var m, c := Build(cs), cs[k];
            |m.indexes| == |cs| && m.indexes[k] < |m.stored| &&
            var v := m.stored[m.indexes[k]];
            && -0.00001 < v.pos.x - c.pos.x < 0.00001 && -0.00001 < v.pos.y - c.pos.y < 0.00001
            && -0.00001 < v.pos.z - c.pos.z < 0.00001 && -0.00001 < v.norm.x - c.norm.x < 0.00001
            && -0.00001 < v.norm.y - c.norm.y < 0.00001 && -0.00001 < v.norm.z - c.norm.z < 0.00001
            && -0.00001 < v.tex.s - c.tex.s < 0.00001 && -0.00001 < v.tex.t - c.tex.t < 0.00001
  {
    BuildRepresents(cs);
    hide Build;
    assert Drawn(Build(cs), cs[k], Build(cs).indexes[k]);
  }

  /** And no two vertices are stored that could be one: they differ by 0.00001 or more in one of the eight numbers. */
  lemma StoredAreApart(cs: seq<Corner>, i: nat, j: nat)
    requires i < j < |Build(cs).stored|
    ensures var v, w := Build(cs).stored[i], Build(cs).stored[j];
            || v.pos.x - w.pos.x <= -0.00001 || v.pos.x - w.pos.x >= 0.00001
            || v.pos.y - w.pos.y <= -0.00001 || v.pos.y - w.pos.y >= 0.00001
            || v.pos.z - w.pos.z <= -0.00001 || v.pos.z - w.pos.z >= 0.00001
            || v.norm.x - w.norm.x <= -0.00001 || v.norm.x - w.norm.x >= 0.00001
            || v.norm.y - w.norm.y <= -0.00001 || v.norm.y - w.norm.y >= 0.00001
            || v.norm.z - w.norm.z <= -0.00001 || v.norm.z - w.norm.z >= 0.00001
            || v.tex.s - w.tex.s <= -0.00001 || v.tex.s - w.tex.s >= 0.00001
            || v.tex.t - w.tex.t <= -0.00001 || v.tex.t - w.tex.t >= 0.00001
  {
    BuildRepresents(cs);
    hide Build;
    assert !Close(Build(cs).stored[i], Build(cs).stored[j]);
  }

  /** Nothing else represents the list: the vertices, their order and every index are determined. */
  lemma {:induction false} OnlyBuildRepresents(m: Mesh, cs: seq<Corner>)
    requires Represents(m, cs)
    ensures m == Build(cs)
    decreases |cs|
  {
    hide Close, Match, Represents, Build, Stored, Drawn;
    if cs == [] {
      NothingStored(m);
    } else {
      var n, last := |cs| - 1, |m.stored| - 1;
      var k := LastCorner(m, cs);
      var c, i := cs[n], m.indexes[n];
      var before := Mesh(if k == n then m.stored[..last] else m.stored, m.indexes[..n]);
      PrefixRepresents(m, cs, k);
      OnlyBuildRepresents(before, cs[..n]);
      AddLast(m, before, c);
      BuildUnfolds(cs);
    }
  }

  lemma BuildUnfolds(cs: seq<Corner>)
    requires cs != []
    ensures Build(cs) == Add(Build(cs[..|cs| - 1]), cs[|cs| - 1])
  {
  }

  lemma NothingStored(m: Mesh)
    requires Represents(m, [])
    ensures m == Build([])
  {
    assert m.stored == [] || FirstUsed(m, [], |m.stored| - 1);
  }

  lemma LastCorner(m: Mesh, cs: seq<Corner>) returns (k: nat)
    requires Represents(m, cs) && cs != []
    ensures var n, last := |cs| - 1, |m.stored| - 1;
            && |m.indexes| == |cs| && m.indexes[n] <= last && k <= n && Stored(m, cs, last, k)
            && Match(if k == n then m.stored[..last] else m.stored, cs[n], 0) == m.indexes[n]
            && (k == n ==> m.indexes[n] == last && m.stored[last] == cs[n])
  {
    hide Close;
    var n, last := |cs| - 1, |m.stored| - 1;
    assert Drawn(m, cs[n], m.indexes[n]);
    assert FirstUsed(m, cs, last);
    k :| Stored(m, cs, last, k);
    MatchIs(if k == n then m.stored[..last] else m.stored, cs[n], m.indexes[n]);
  }

  lemma AddLast(m: Mesh, before: Mesh, c: Corner)
    requires m.indexes != [] && m.stored != []
    requires before.indexes == m.indexes[..|m.indexes| - 1]
    requires Match(before.stored, c, 0) == m.indexes[|m.indexes| - 1]
    requires if before.stored == m.stored then m.indexes[|m.indexes| - 1] < |m.stored|
             else before.stored == m.stored[..|m.stored| - 1] && m.stored[|m.stored| - 1] == c
                  && m.indexes[|m.indexes| - 1] == |m.stored| - 1
    ensures Add(before, c) == m
  {
    hide Close, Match;
    assert m.indexes == before.indexes + [m.indexes[|m.indexes| - 1]];
    if before.stored != m.stored {
      assert m.stored == before.stored + [c];
    }
  }

  lemma MatchIs(stored: seq<Corner>, c: Corner, i: nat)
    requires i <= |stored| && (i < |stored| ==> Close(stored[i], c))
    requires forall j :: 0 <= j < i ==> !Close(stored[j], c)
    ensures Match(stored, c, 0) == i
  {
    hide Close;
  }

  /** Without its last corner, given where the last vertex was first used. */
  lemma PrefixRepresents(m: Mesh, cs: seq<Corner>, k: nat)
    requires Represents(m, cs) && cs != [] && m.stored != [] && Stored(m, cs, |m.stored| - 1, k)
    ensures var n := |cs| - 1;
            Represents(Mesh(if k == n then m.stored[..|m.stored| - 1] else m.stored, m.indexes[..n]), cs[..n])
  {
    var n, last := |cs| - 1, |m.stored| - 1;
    var before := Mesh(if k == n then m.stored[..last] else m.stored, m.indexes[..n]);
    hide Close;
    forall l | 0 <= l < n
      ensures Drawn(before, cs[l], before.indexes[l])
    {
      assert Drawn(m, cs[l], m.indexes[l]);
    }
    forall j: nat | j < |before.stored|
      ensures FirstUsed(before, cs[..n], j)
    {
      assert FirstUsed(m, cs, j);
      var l :| Stored(m, cs, j, l);
      assert Stored(before, cs[..n], j, l);
    }
  }

  lemma CloseIsReflexive(c: Corner)
    ensures Close(c, c)
  {
  }

  lemma CloseIs(a: Corner, b: Corner)
    ensures Close(a, b)
        <==> CloseEnough(a.pos.x, b.pos.x) && CloseEnough(a.pos.y, b.pos.y) && CloseEnough(a.pos.z, b.pos.z)
             && CloseEnough(a.norm.x, b.norm.x) && CloseEnough(a.norm.y, b.norm.y) && CloseEnough(a.norm.z, b.norm.z)
             && CloseEnough(a.tex.s, b.tex.s) && CloseEnough(a.tex.t, b.tex.t)
  {
  }

  lemma AddToBuild(m: Mesh, cs: seq<Corner>, c: Corner)
    requires m == Build(cs)
    ensures Build(cs + [c]) == Add(m, c)
  {
    hide Close, Match;
    assert (cs + [c])[..|cs|] == cs;
  }

  lemma NothingBuilt()
    ensures Build([]) == Mesh([], [])
  {
  }

  // ---------- the class ----------

  function Zip(verts: seq<Vec>, norms: seq<Vec>, tex: seq<Tex>): (cs: seq<Corner>)
    requires |verts| == |norms| == |tex|
    ensures |cs| == |verts| && forall i :: 0 <= i < |cs| ==> cs[i] == Corner(verts[i], norms[i], tex[i])
  {
    seq(|verts|, i requires 0 <= i < |verts| => Corner(verts[i], norms[i], tex[i]))
  }

  /** A vertex normal as m3dNormalizeVector3 leaves it; mag is the root that sqrt returns. */
  function Normalized(v: Vec, mag: real): Vec
    requires mag != 0.0
  {
    v.Times(1.0 / mag)
  }

  /** The three corners of a triangle as they are stored. */
  function Corners(verts: seq<Vec>, norms: seq<Vec>, tex: seq<Tex>, mags: seq<real>): seq<Corner>
    requires |verts| >= 3 && |norms| >= 3 && |tex| >= 3 && |mags| == 3
    requires mags[0] != 0.0 && mags[1] != 0.0 && mags[2] != 0.0
  {
    [Corner(verts[0], Normalized(norms[0], mags[0]), tex[0]),
     Corner(verts[1], Normalized(norms[1], mags[1]), tex[1]),
     Corner(verts[2], Normalized(norms[2], mags[2]), tex[2])]
  }

  class GLTriangleBatch {
    var pIndexes: array<nat>
    var pVerts: array<Vec>
    var pNorms: array<Vec>
    var pTexCoords: array<Tex>
    var nMaxIndexes: nat
    var nNumIndexes: nat
    var nNumVerts: nat
    ghost var submitted: seq<Corner>

    /** The stored vertices. */
    ghost function Vertices(): (s: seq<Corner>)
      reads this, pVerts, pNorms, pTexCoords
      requires nNumVerts <= pVerts.Length && nNumVerts <= pNorms.Length && nNumVerts <= pTexCoords.Length
      ensures |s| == nNumVerts
    {
      Zip(pVerts[..nNumVerts], pNorms[..nNumVerts], pTexCoords[..nNumVerts])
    }

    ghost function Contents(): Mesh
      reads this, pIndexes, pVerts, pNorms, pTexCoords
      requires nNumVerts <= pVerts.Length && nNumVerts <= pNorms.Length && nNumVerts <= pTexCoords.Length
      requires nNumIndexes <= pIndexes.Length
    {
      Mesh(Vertices(), pIndexes[..nNumIndexes])
    }

    /** The index is stored in sixteen bits, so the capacity must not exceed them. */
    ghost predicate Valid()
      reads this, pIndexes, pVerts, pNorms, pTexCoords
    {
      && pVerts != pNorms
      && pIndexes.Length == pVerts.Length == pNorms.Length == pTexCoords.Length == nMaxIndexes <= 65536
      && nNumVerts <= nNumIndexes <= nMaxIndexes
      && Contents() == Build(submitted)
    }

    ghost function Repr(): set<object>
      reads this
    {
      {this, pIndexes, pVerts, pNorms, pTexCoords}
    }

    constructor ()
      ensures Valid() && fresh(Repr()) && submitted == [] && nMaxIndexes == 0
    {
      pIndexes := new nat[0];
      pVerts := new Vec[0];
      pNorms := new Vec[0];
      pTexCoords := new Tex[0];
      nMaxIndexes := 0;
      nNumIndexes := 0;
      nNumVerts := 0;
      submitted := [];
    }

    method BeginMesh(nMaxVerts: nat)
      requires nMaxVerts <= 65536
      modifies this
      ensures Valid() && submitted == [] && nMaxIndexes == nMaxVerts && nNumIndexes == 0
      ensures fresh(pIndexes) && fresh(pVerts) && fresh(pNorms) && fresh(pTexCoords)
    {
      hide Close, Match, Zip, Build;
      NothingBuilt();
      nMaxIndexes := nMaxVerts;
      nNumIndexes := 0;
      nNumVerts := 0;
      pIndexes := new nat[nMaxIndexes];
      pVerts := new Vec[nMaxIndexes];
      pNorms := new Vec[nMaxIndexes];
      pTexCoords := new Tex[nMaxIndexes];
      submitted := [];
      assert Vertices() == [] && pIndexes[..0] == [];
    }

    /** The search for a stored vertex that is close in all eight numbers. */
    method FindMatch(vert: Vec, norm: Vec, tex: Tex) returns (iMatch: nat)
      requires Valid()
      ensures iMatch == Match(Vertices(), Corner(vert, norm, tex), 0)
    {
      hide Close, Match, Build, Zip;
      ghost var c := Corner(vert, norm, tex);
      iMatch := 0;
      while iMatch < nNumVerts
        invariant 0 <= iMatch <= nNumVerts
        invariant forall j :: 0 <= j < iMatch ==> !Close(Vertices()[j], c)
      {
        CloseIs(Vertices()[iMatch], c);
        if CloseEnough(pVerts[iMatch].x, vert.x) && CloseEnough(pVerts[iMatch].y, vert.y)
           && CloseEnough(pVerts[iMatch].z, vert.z) && CloseEnough(pNorms[iMatch].x, norm.x)
           && CloseEnough(pNorms[iMatch].y, norm.y) && CloseEnough(pNorms[iMatch].z, norm.z)
           && CloseEnough(pTexCoords[iMatch].s, tex.s) && CloseEnough(pTexCoords[iMatch].t, tex.t)
        {
          break;
        }
        iMatch := iMatch + 1;
      }
      MatchIs(Vertices(), c, iMatch);
    }

    /** One round of the loop over the three vertices: a match adds an index only. Only the other path asks for room:
        a full batch drops a new vertex, but would store the index of a known one behind its buffer. */
    method AddVertex(vert: Vec, norm: Vec, tex: Tex)
      requires Valid()
      requires nNumIndexes < nMaxIndexes || Match(Vertices(), Corner(vert, norm, tex), 0) == nNumVerts
      modifies this`nNumIndexes, this`nNumVerts, this`submitted, pIndexes, pVerts, pNorms, pTexCoords
      ensures Valid()
      ensures old(nNumIndexes) < nMaxIndexes ==>
        nNumIndexes == old(nNumIndexes) + 1 && submitted == old(submitted) + [Corner(vert, norm, tex)]
      ensures old(nNumIndexes) == nMaxIndexes ==>
        nNumIndexes == old(nNumIndexes) && submitted == old(submitted)
    {
      hide Close, Match, Build, Zip;
      var iMatch := FindMatch(vert, norm, tex);
      if iMatch < nNumVerts {
        AddKnown(iMatch, Corner(vert, norm, tex));
      }
      if iMatch == nNumVerts && nNumVerts < nMaxIndexes && nNumIndexes < nMaxIndexes {
        AddNew(vert, norm, tex);
      }
    }

    method AddKnown(iMatch: nat, ghost c: Corner)
      requires Valid() && iMatch == Match(Vertices(), c, 0) < nNumVerts && nNumIndexes < nMaxIndexes
      modifies this`nNumIndexes, this`submitted, pIndexes
      ensures Valid() && nNumIndexes == old(nNumIndexes) + 1 && submitted == old(submitted) + [c]
    {
      hide Close, Match, Build, Zip;
      AddToBuild(Contents(), submitted, c);
      StoreIndex(iMatch);
      submitted := submitted + [c];
    }

    method AddNew(vert: Vec, norm: Vec, tex: Tex)
      requires Valid() && Match(Vertices(), Corner(vert, norm, tex), 0) == nNumVerts && nNumIndexes < nMaxIndexes
      modifies this`nNumIndexes, this`nNumVerts, this`submitted, pIndexes, pVerts, pNorms, pTexCoords
      ensures Valid() && nNumIndexes == old(nNumIndexes) + 1
      ensures submitted == old(submitted) + [Corner(vert, norm, tex)]
    {
      hide Close, Match, Build, Zip;
      AddToBuild(Contents(), submitted, Corner(vert, norm, tex));
      StoreVertex(vert, norm, tex);
      StoreIndex(nNumVerts - 1);
      submitted := submitted + [Corner(vert, norm, tex)];
    }

    /** The index is cut to sixteen bits. */
    method StoreIndex(i: nat)
      requires nNumIndexes < pIndexes.Length && i < 65536
      requires nNumVerts <= pVerts.Length && nNumVerts <= pNorms.Length && nNumVerts <= pTexCoords.Length
      modifies this`nNumIndexes, pIndexes
      ensures nNumIndexes == old(nNumIndexes) + 1
      ensures Contents() == old(Contents().(indexes := Contents().indexes + [i]))
    {
      hide Zip;
      pIndexes[nNumIndexes] := i % 65536;
      nNumIndexes := nNumIndexes + 1;
    }

    method StoreVertex(vert: Vec, norm: Vec, tex: Tex)
      requires nNumVerts < pVerts.Length && nNumVerts < pNorms.Length && nNumVerts < pTexCoords.Length
      requires pVerts != pNorms && nNumIndexes <= pIndexes.Length
      modifies this`nNumVerts, pVerts, pNorms, pTexCoords
      ensures nNumVerts == old(nNumVerts) + 1 && nNumVerts <= pVerts.Length
      ensures nNumVerts <= pNorms.Length && nNumVerts <= pTexCoords.Length
      ensures Contents() == old(Contents().(stored := Contents().stored + [Corner(vert, norm, tex)]))
    {
      hide Zip;
      pVerts[nNumVerts] := vert;
      pNorms[nNumVerts] := norm;
      pTexCoords[nNumVerts] := tex;
      nNumVerts := nNumVerts + 1;
      assert forall i :: 0 <= i < |Vertices()| ==> Vertices()[i] == (old(Vertices()) + [Corner(vert, norm, tex)])[i];
    }

    method AddTriangle(verts: array<Vec>, vNorms: array<Vec>, vTexCoords: array<Tex>, mags: seq<real>)
      requires Valid() && nNumIndexes + 3 <= nMaxIndexes
      requires verts.Length >= 3 && vNorms.Length >= 3 && vTexCoords.Length >= 3
      requires verts != vNorms && pVerts !in {verts, vNorms} && pNorms !in {verts, vNorms} && pTexCoords != vTexCoords
      requires |mags| == 3 && forall k :: 0 <= k < 3 ==> mags[k] != 0.0 && Root(mags[k], vNorms[k])
      modifies this`nNumIndexes, this`nNumVerts, this`submitted, pIndexes, pVerts, pNorms, pTexCoords, vNorms
      ensures Valid() && nNumIndexes == old(nNumIndexes) + 3
      ensures submitted == old(submitted + Corners(verts[..], vNorms[..], vTexCoords[..], mags))
      ensures vNorms[..] == old(NormalizedFirst(vNorms[..], mags))
    {
      hide Build, Root, Vec.Times, Zip;
      vNorms[0] := vNorms[0].Times(1.0 / mags[0]);
      vNorms[1] := vNorms[1].Times(1.0 / mags[1]);
      vNorms[2] := vNorms[2].Times(1.0 / mags[2]);
      assert vNorms[..] == old(NormalizedFirst(vNorms[..], mags));
      for iVertex := 0 to 3
        invariant Valid() && nNumIndexes == old(nNumIndexes) + iVertex
        invariant vNorms[..] == old(NormalizedFirst(vNorms[..], mags))
        invariant submitted == old(submitted) + old(Corners(verts[..], vNorms[..], vTexCoords[..], mags))[..iVertex]
      {
        AddVertex(verts[iVertex], vNorms[iVertex], vTexCoords[iVertex]);
      }
    }
  }

  function NormalizedFirst(norms: seq<Vec>, mags: seq<real>): seq<Vec>
    requires |norms| >= 3 && |mags| == 3 && mags[0] != 0.0 && mags[1] != 0.0 && mags[2] != 0.0
  {
    [Normalized(norms[0], mags[0]), Normalized(norms[1], mags[1]), Normalized(norms[2], mags[2])] + norms[3..]
  }

  /** What a reader of the batch may rely on: it is the submitted list, drawn from distinct vertices. */
  lemma BatchRepresents(b: GLTriangleBatch)
    requires b.Valid()
    ensures Represents(b.Contents(), b.submitted)
    ensures |b.submitted| == b.nNumIndexes
    ensures forall k :: 0 <= k < b.nNumIndexes ==> b.pIndexes[k] < b.nNumVerts
  {
    BuildRepresents(b.submitted);
    hide Build, Close, GLTriangleBatch.Vertices;
    var m := b.Contents();
    forall k | 0 <= k < b.nNumIndexes
      ensures b.pIndexes[k] < b.nNumVerts
    {
      assert Drawn(m, b.submitted[k], m.indexes[k]);
    }
  }

  // ---------- where the buffers are too small ----------

  /** One round of the loop over the vertices as written: a match stores its index without a look at the capacity. */
  function Submit(m: Mesh, capacity: nat, c: Corner): Mesh {
    var i := Match(m.stored, c, 0);
    if i < |m.stored| then Mesh(m.stored, m.indexes + [i])
    else if |m.stored| < capacity && |m.indexes| < capacity then Mesh(m.stored + [c], m.indexes + [i])
    else m
  }

  function SubmitAll(cs: seq<Corner>, capacity: nat): Mesh {
    if cs == [] then Mesh([], []) else Submit(SubmitAll(cs[..|cs| - 1], capacity), capacity, cs[|cs| - 1])
  }

  /** All indexes are inside the buffer. */
  predicate Inside(m: Mesh, capacity: nat) { |m.indexes| <= capacity }

  predicate Known(m: Mesh, c: Corner) { Match(m.stored, c, 0) < |m.stored| }

  lemma {:induction false} FilledAsBuilt(cs: seq<Corner>, capacity: nat)
    requires |cs| <= capacity
    ensures SubmitAll(cs, capacity) == Build(cs) && |Build(cs).stored| <= |Build(cs).indexes| == |cs|
  {
    hide Match;
    if cs != [] {
      FilledAsBuilt(cs[..|cs| - 1], capacity);
    }
  }

  /** The batch at the time when it is full. */
  function Full(cs: seq<Corner>, capacity: nat): Mesh {
    Build(cs[..if |cs| < capacity then |cs| else capacity])
  }

  /** No corner that comes after the batch is full is close to a stored vertex. */
  ghost predicate NoneKnown(cs: seq<Corner>, capacity: nat) {
    forall k :: capacity <= k < |cs| ==> !Known(Full(cs, capacity), cs[k])
  }

  /** However many corners are submitted, the batch stays inside its buffers exactly if none of those that come after
      it is full is known. */
  lemma {:induction false} StaysInside(cs: seq<Corner>, capacity: nat)
    ensures Inside(SubmitAll(cs, capacity), capacity) <==> NoneKnown(cs, capacity)
    ensures Inside(SubmitAll(cs, capacity), capacity) ==> SubmitAll(cs, capacity) == Full(cs, capacity)
  {
    hide Match, Build, Known;
    if |cs| <= capacity {
      FilledAsBuilt(cs, capacity);
      assert cs[..|cs|] == cs;
    } else {
      var before := cs[..|cs| - 1];
      StaysInside(before, capacity);
      FilledAsBuilt(cs[..capacity], capacity);
      assert before[..capacity] == cs[..capacity];
      OneMoreKnown(cs, capacity);
      SubmitToFull(SubmitAll(before, capacity), capacity, cs[|cs| - 1]);
      hide NoneKnown, Submit;
    }
  }

  lemma OneMoreKnown(cs: seq<Corner>, capacity: nat)
    requires |cs| > capacity
    ensures NoneKnown(cs, capacity)
            <==> NoneKnown(cs[..|cs| - 1], capacity) && !Known(Full(cs, capacity), cs[|cs| - 1])
  {
    hide Known, Build;
    var before := cs[..|cs| - 1];
    assert before[..capacity] == cs[..capacity];
    assert forall k :: capacity <= k < |before| ==> before[k] == cs[k];
  }

  lemma SubmitToFull(m: Mesh, capacity: nat, c: Corner)
    requires |m.indexes| >= capacity
    ensures if Known(m, c) then |Submit(m, capacity, c).indexes| == |m.indexes| + 1 else Submit(m, capacity, c) == m
  {
  }

  /** So a full batch is left by every corner that it has seen before. */
  lemma RepetitionLeaves(cs: seq<Corner>, k: nat)
    requires k < |cs|
    ensures !Inside(SubmitAll(cs + [cs[k]], |cs|), |cs|)
    ensures |SubmitAll(cs + [cs[k]], |cs|).indexes| == |cs| + 1
  {
    BuildRepresents(cs);
    FilledAsBuilt(cs, |cs|);
    var m := Build(cs);
    assert Drawn(m, cs[k], m.indexes[k]);
    assert (cs + [cs[k]])[..|cs|] == cs;
    hide Build, Close;
  }

  /** What AddVertex asks for is what keeps its round inside the buffers, no more. */
  lemma VertexRoomIsExact(b: GLTriangleBatch, c: Corner)
    requires b.Valid()
    ensures var m := b.Contents();
            Inside(Submit(m, b.nMaxIndexes, c), b.nMaxIndexes)
            <==> b.nNumIndexes < b.nMaxIndexes || Match(b.Vertices(), c, 0) == b.nNumVerts
  {
  }

  // ---------- the generators ----------

  /** The four corners that a generator computes for one cell, with the roots of its normals. */
  datatype Patch = Patch(corners: seq<Corner>, mags: seq<real>) {
    predicate Proper() {
      |corners| == |mags| == 4 && forall k :: 0 <= k < 4 ==> mags[k] != 0.0 && Root(mags[k], corners[k].norm)
    }

    function Stored(k: nat): Corner
      requires Proper() && k < 4
    {
      corners[k].(norm := Normalized(corners[k].norm, mags[k]))
    }

    /** The two triangles of the cell. */
    function Triangles(): (cs: seq<Corner>)
      requires Proper()
      ensures |cs| == 6
    {
      [Stored(0), Stored(1), Stored(2), Stored(1), Stored(3), Stored(2)]
    }
  }

  /** A surface: the cell in row i and column j. */
  type Surface = (nat, nat) -> Patch

  ghost predicate Proper(patch: Surface, rows: nat, cols: nat) {
    forall i: nat, j: nat :: i < rows && j < cols ==> patch(i, j).Proper()
  }

  /** The corners of the first cols cells of row i. */
  ghost function RowOf(patch: Surface, i: nat, cols: nat): (cs: seq<Corner>)
    requires Proper(patch, i + 1, cols)
    ensures |cs| == 6 * cols
  {
    if cols == 0 then [] else RowOf(patch, i, cols - 1) + patch(i, cols - 1).Triangles()
  }

  /** The corners of the first rows rows. */
  ghost function RowsOf(patch: Surface, rows: nat, cols: nat): (cs: seq<Corner>)
    requires Proper(patch, rows, cols)
    ensures |cs| == CellCount(rows, cols)
  {
    if rows == 0 then [] else RowsOf(patch, rows - 1, cols) + RowOf(patch, rows - 1, cols)
  }

  function CellCount(rows: nat, cols: nat): nat { if rows == 0 then 0 else CellCount(rows - 1, cols) + 6 * cols }

  lemma {:induction false} CellCountIs(rows: nat, cols: nat)
    ensures CellCount(rows, cols) == rows * cols * 6
  {
    if rows > 0 {
      CellCountIs(rows - 1, cols);
      assert rows * cols == (rows - 1) * cols + cols;
    }
  }

  lemma {:induction false} CellCountGrows(i: nat, rows: nat, cols: nat)
    requires i <= rows
    ensures CellCount(i, cols) <= CellCount(rows, cols)
  {
    if i < rows {
      CellCountGrows(i, rows - 1, cols);
    }
  }

  lemma UnitNormal(v: Vec, mag: real)
    requires mag != 0.0 && Root(mag, v)
    ensures Root(1.0, Normalized(v, mag)) && Normalized(Normalized(v, mag), 1.0) == Normalized(v, mag)
  {
    ScaledToUnit(mag, v);
    ReciprocalScales(v, mag);
  }

  /** What the copying between the two triangles of a cell leaves. */
  function Rearranged<T>(s: seq<T>): seq<T>
    requires |s| == 4
  {
    [s[1], s[3], s[2], s[3]]
  }

  method Rearrange<T>(a: array<T>)
    requires a.Length == 4
    modifies a
    ensures a[..] == Rearranged(old(a[..]))
  {
    a[0] := a[1];
    a[1] := a[3];
    assert a[..] == [a[0], a[1], a[2], a[3]];
  }

  lemma TwoTriangles(p: Patch, verts: seq<Vec>, norms: seq<Vec>, tex: seq<Tex>)
    requires p.Proper() && |verts| == |norms| == |tex| == 4
    requires forall k :: 0 <= k < 4 ==> p.corners[k] == Corner(verts[k], norms[k], tex[k])
    ensures var norms2, mags2 := Rearranged(NormalizedFirst(norms, p.mags[..3])), [1.0, p.mags[3], 1.0];
            && (forall k :: 0 <= k < 3 ==> Root(mags2[k], norms2[k]))
            && Corners(verts, norms, tex, p.mags[..3]) + Corners(Rearranged(verts), norms2, Rearranged(tex), mags2)
            == p.Triangles()
  {
    UnitNormal(norms[1], p.mags[1]);
    UnitNormal(norms[2], p.mags[2]);
    hide Root, Normalized;
  }

  /** The body of the inner loop of each generator: two triangles share the corners of a cell. */
  method AddCell(batch: GLTriangleBatch, p: Patch)
    requires batch.Valid() && p.Proper() && batch.nNumIndexes + 6 <= batch.nMaxIndexes
    modifies batch`nNumIndexes, batch`nNumVerts, batch`submitted
    modifies batch.pIndexes, batch.pVerts, batch.pNorms, batch.pTexCoords
    ensures batch.Valid() && batch.nNumIndexes == old(batch.nNumIndexes) + 6
    ensures batch.submitted == old(batch.submitted) + p.Triangles()
  {
    hide Build, Root, Vec.Times, GLTriangleBatch.Valid, Corners, NormalizedFirst, Rearranged;
    var vVertex := new Vec[4](i requires 0 <= i < 4 && |p.corners| == 4 => p.corners[i].pos);
    var vNormal := new Vec[4](i requires 0 <= i < 4 && |p.corners| == 4 => p.corners[i].norm);
    var vTexture := new Tex[4](i requires 0 <= i < 4 && |p.corners| == 4 => p.corners[i].tex);
    AddPair(batch, p, vVertex, vNormal, vTexture);
  }

  method AddPair(batch: GLTriangleBatch, p: Patch, vVertex: array<Vec>, vNormal: array<Vec>, vTexture: array<Tex>)
    requires batch.Valid() && p.Proper() && batch.nNumIndexes + 6 <= batch.nMaxIndexes
    requires vVertex.Length == vNormal.Length == vTexture.Length == 4 && vVertex != vNormal
    requires batch.pVerts !in {vVertex, vNormal} && batch.pNorms !in {vVertex, vNormal} && batch.pTexCoords != vTexture
    requires forall k :: 0 <= k < 4 ==> p.corners[k] == Corner(vVertex[k], vNormal[k], vTexture[k])
    modifies batch`nNumIndexes, batch`nNumVerts, batch`submitted
    modifies batch.pIndexes, batch.pVerts, batch.pNorms, batch.pTexCoords, vVertex, vNormal, vTexture
    ensures batch.Valid() && batch.nNumIndexes == old(batch.nNumIndexes) + 6
    ensures batch.submitted == old(batch.submitted) + p.Triangles()
  {
    hide Build, Root, Vec.Times, GLTriangleBatch.Valid, Corners, NormalizedFirst, Rearranged;
    TwoTriangles(p, vVertex[..], vNormal[..], vTexture[..]);
    batch.AddTriangle(vVertex, vNormal, vTexture, p.mags[..3]);
    Rearrange(vVertex);
    Rearrange(vNormal);
    Rearrange(vTexture);
    batch.AddTriangle(vVertex, vNormal, vTexture, [1.0, p.mags[3], 1.0]);
  }

  lemma RowUnfolds(patch: Surface, i: nat, j: nat, cols: nat)
    requires j < cols && Proper(patch, i + 1, cols)
    ensures RowOf(patch, i, j + 1) == RowOf(patch, i, j) + patch(i, j).Triangles()
  {
  }

  /** The nested loops of a generator. */
  method AddSurface(batch: GLTriangleBatch, patch: Surface, rows: nat, cols: nat)
    requires batch.Valid() && batch.submitted == [] && batch.nNumIndexes == 0 && Proper(patch, rows, cols)
    requires CellCount(rows, cols) <= batch.nMaxIndexes
    modifies batch`nNumIndexes, batch`nNumVerts, batch`submitted
    modifies batch.pIndexes, batch.pVerts, batch.pNorms, batch.pTexCoords
    ensures batch.Valid() && batch.nNumIndexes == CellCount(rows, cols)
    ensures batch.submitted == RowsOf(patch, rows, cols)
  {
    hide GLTriangleBatch.Valid, CellCount, RowsOf, RowOf;
    EmptyRows(patch, rows, cols);
    for i := 0 to rows
      invariant batch.Valid() && batch.nNumIndexes == CellCount(i, cols)
      invariant batch.submitted == RowsOf(patch, i, cols)
    {
      CellCountGrows(i + 1, rows, cols);
      RowsUnfold(patch, i, cols);
      EmptyRow(patch, i);
      for j := 0 to cols
        invariant batch.Valid() && batch.nNumIndexes == CellCount(i, cols) + 6 * j
        invariant batch.submitted == RowsOf(patch, i, cols) + RowOf(patch, i, j)
      {
        RowUnfolds(patch, i, j, cols);
        AddCell(batch, patch(i, j));
      }
    }
  }

  lemma EmptyRows(patch: Surface, rows: nat, cols: nat)
    requires Proper(patch, rows, cols)
    ensures RowsOf(patch, 0, cols) == [] && CellCount(0, cols) == 0
  {
  }

  lemma EmptyRow(patch: Surface, i: nat)
    ensures RowOf(patch, i, 0) == []
  {
  }

  lemma RowsUnfold(patch: Surface, i: nat, cols: nat)
    requires Proper(patch, i + 1, cols)
    ensures RowsOf(patch, i + 1, cols) == RowsOf(patch, i, cols) + RowOf(patch, i, cols)
    ensures CellCount(i + 1, cols) == CellCount(i, cols) + 6 * cols
  {
  }

  /** gltMakeTorus: the ring has one cell more than numMinor says; the declared capacity is filled exactly. */
  method MakeTorus(batch: GLTriangleBatch, numMajor: nat, numMinor: nat, patch: Surface)
    requires numMajor * (numMinor + 1) * 6 <= 65536 && Proper(patch, numMajor, numMinor + 1)
    modifies batch
    ensures batch.Valid() && batch.nNumIndexes == batch.nMaxIndexes == numMajor * (numMinor + 1) * 6
    ensures batch.submitted == RowsOf(patch, numMajor, numMinor + 1)
  {
    CellCountIs(numMajor, numMinor + 1);
    batch.BeginMesh(numMajor * (numMinor + 1) * 6);
    AddSurface(batch, patch, numMajor, numMinor + 1);
  }

  /** gltMakeSphere, gltMakeDisk and gltMakeCylinder share these loops and this capacity. */
  method MakeStacks(batch: GLTriangleBatch, slices: nat, stacks: nat, patch: Surface)
    requires slices * stacks * 6 <= 65536 && Proper(patch, stacks, slices)
    modifies batch
    ensures batch.Valid() && batch.nNumIndexes == batch.nMaxIndexes == slices * stacks * 6
    ensures batch.submitted == RowsOf(patch, stacks, slices)
  {
    CellCountIs(stacks, slices);
    assert stacks * slices * 6 == slices * stacks * 6;
    batch.BeginMesh(slices * stacks * 6);
    AddSurface(batch, patch, stacks, slices);
  }
}
