/** GLMatrixStack and the traversal of RenderVisitorOpenGL1: what every geometry is drawn with. */
module RenderVisitor {
  import opened Sequences
  import M = Matrix44

  // ---------- the matrix stack ----------

  datatype StackError = NoError | Overflow | Underflow

  class GLMatrixStack {
    var lastError: StackError
    const stackDepth: nat
    var stackPointer: nat
    const pStack: array<M.Matrix>

    constructor (depth: nat)
      requires depth > 0
      ensures Valid() && fresh(pStack) && stackDepth == depth && Live() == [M.IDENTITY] && lastError == NoError
    {
      stackDepth := depth;
      pStack := new M.Matrix[depth];
      stackPointer := 0;
      lastError := NoError;
      new;
      pStack[0] := M.IDENTITY;
    }

    predicate Sized() reads this { pStack.Length == stackDepth && stackPointer <= stackDepth }

    predicate Valid() reads this { Sized() && stackPointer < stackDepth }

    /** The matrices from the bottom to the top. */
    function Live(): (s: seq<M.Matrix>)
      requires Valid()
      reads this, pStack
      ensures |s| == stackPointer + 1
    {
      pStack[..stackPointer + 1]
    }

    function Top(): M.Matrix
      requires Valid()
      reads this, pStack
    {
      pStack[stackPointer]
    }

    /** The guard lets the pointer reach stackDepth: with one matrix missing to the full depth the copy would land
        behind the array, and the overflow is reported only past that. Everywhere else the push is safe. */
    method PushMatrix()
      requires Sized() && stackPointer + 1 != stackDepth
      modifies this`stackPointer, this`lastError, pStack
      ensures old(Valid()) ==> Valid() && Live() == old(Live() + [Top()]) && lastError == old(lastError)
      ensures !old(Valid()) ==>
                stackPointer == old(stackPointer) && lastError == Overflow && pStack[..] == old(pStack[..])
    {
      if stackPointer < stackDepth {
        stackPointer := stackPointer + 1;
        pStack[stackPointer] := pStack[stackPointer - 1];
      } else {
        lastError := Overflow;
      }
    }

    method PopMatrix()
      requires Valid()
      modifies this`stackPointer, this`lastError
      ensures Valid()
      ensures old(stackPointer) > 0 ==> Live() == old(Live()[..stackPointer]) && lastError == old(lastError)
      ensures old(stackPointer) == 0 ==> Live() == old(Live()) && lastError == Underflow
    {
      if stackPointer > 0 {
        stackPointer := stackPointer - 1;
      } else {
        lastError := Underflow;
      }
    }

    method LoadMatrix(m: M.Matrix)
      requires Valid()
      modifies pStack
      ensures Live() == old(Live())[stackPointer := m]
    {
      pStack[stackPointer] := m;
    }

    method MultMatrix(m: M.Matrix)
      requires Valid()
      modifies pStack
      ensures Live() == old(Live())[stackPointer := M.Multiply(old(Top()), m)]
    {
      var temp := pStack[stackPointer];
      pStack[stackPointer] := M.Multiply(temp, m);
    }
  }

  // ---------- scenes ----------

  datatype Node =
    | Group(children: seq<Node>)
    | Light(children: seq<Node>)
    | Transform(matrix: M.Matrix, children: seq<Node>)
    | Camera(view: M.Matrix, projection: M.Matrix, children: seq<Node>)
    | Geometry(id: nat, visible: bool)

  /** How many Transform and Camera nodes are nested. */
  function Depth(n: Node): nat {
    match n
    case Geometry(_, _) => 0
    case Group(children) => DepthOfAll(children)
    case Light(children) => DepthOfAll(children)
    case Transform(_, children) => 1 + DepthOfAll(children)
    case Camera(_, _, children) => 1 + DepthOfAll(children)
  }

  function DepthOfAll(ns: seq<Node>): nat {
    if ns == [] then 0 else Max(Depth(ns[0]), DepthOfAll(ns[1..]))
  }

  /** How many Camera nodes are nested. */
  function Cameras(n: Node): nat {
    match n
    case Geometry(_, _) => 0
    case Group(children) => CamerasOfAll(children)
    case Light(children) => CamerasOfAll(children)
    case Transform(_, children) => CamerasOfAll(children)
    case Camera(_, _, children) => 1 + CamerasOfAll(children)
  }

  function CamerasOfAll(ns: seq<Node>): nat {
    if ns == [] then 0 else Max(Cameras(ns[0]), CamerasOfAll(ns[1..]))
  }

  // ---------- what is drawn ----------

  /** A geometry with the tops of the two stacks and with the model-view matrix that OpenGL has loaded. */
  datatype Draw = Draw(id: nat, modelView: M.Matrix, projection: M.Matrix, current: M.Matrix)

  datatype Rendered = Rendered(draws: seq<Draw>, current: M.Matrix)

  function Render(n: Node, mv: M.Matrix, proj: M.Matrix, current: M.Matrix): Rendered
    decreases n, 0
  {
    match n
    case Geometry(id, visible) => Rendered(if visible then [Draw(id, mv, proj, current)] else [], current)
    case Group(children) => RenderAll(children, mv, proj, current)
    case Light(children) => RenderAll(children, mv, proj, current)
    case Transform(matrix, children) =>
      var top := M.Multiply(mv, matrix);
      RenderAll(children, top, proj, top)
    case Camera(view, projection, children) =>
      RenderAll(children, view, projection, view).(current := mv)
  }

  function RenderAll(ns: seq<Node>, mv: M.Matrix, proj: M.Matrix, current: M.Matrix): Rendered
    decreases ns, 1
  {
    if ns == [] then Rendered([], current)
    else
      var first := Render(ns[0], mv, proj, current);
      var rest := RenderAll(ns[1..], mv, proj, first.current);
      Rendered(first.draws + rest.draws, rest.current)
  }

  // ---------- the visitor ----------

  class Visitor {
    const modelView: GLMatrixStack
    const projection: GLMatrixStack
    /** The model-view matrix that OpenGL has loaded. */
    var current: M.Matrix
    var drawn: seq<Draw>

    constructor (depth: nat)
      requires depth > 0
      ensures Valid() && fresh(Repr()) && drawn == [] && modelView.stackDepth == projection.stackDepth == depth
      ensures modelView.Live() == [M.IDENTITY] && projection.Live() == [M.IDENTITY]
    {
      modelView := new GLMatrixStack(depth);
      projection := new GLMatrixStack(depth);
      current := M.IDENTITY;
      drawn := [];
    }

    predicate Valid()
      reads this, modelView, projection
    {
      && modelView.Valid() && projection.Valid()
      && modelView != projection && modelView.pStack != projection.pStack
    }

    ghost function Repr(): set<object> { {this, modelView, projection, modelView.pStack, projection.pStack} }

    predicate Room(depth: nat, cameras: nat)
      reads this, modelView, projection
    {
      modelView.stackPointer + depth < modelView.stackDepth && projection.stackPointer + cameras < projection.stackDepth
    }

    /** Both stacks are as they were, without an error, and the run has drawn r. */
    twostate predicate Done(r: Rendered)
      requires old(Valid()) && Valid()
      reads this, modelView, projection, modelView.pStack, projection.pStack
    {
      && modelView.Live() == old(modelView.Live()) && projection.Live() == old(projection.Live())
      && modelView.lastError == old(modelView.lastError) && projection.lastError == old(projection.lastError)
      && drawn == old(drawn) + r.draws && current == r.current
    }

    method Accept(n: Node)
      requires Valid() && Room(Depth(n), Cameras(n))
      modifies Repr()
      ensures Valid() && Done(Render(n, old(modelView.Top()), old(projection.Top()), old(current)))
      decreases n, 1
    {
      match n
      case Geometry(id, visible) => VisitGeometry(id, visible);
      case Group(children) => TraverseChildren(children);
      case Light(children) => TraverseChildren(children);
      case Transform(matrix, children) => VisitTransform(matrix, children);
      case Camera(view, proj, children) => VisitCamera(view, proj, children);
    }

    method VisitGeometry(id: nat, visible: bool)
      requires Valid()
      modifies this`drawn
      ensures Valid() && Done(Render(Geometry(id, visible), modelView.Top(), projection.Top(), current))
    {
      if !visible {
        return;
      }
      drawn := drawn + [Draw(id, modelView.Top(), projection.Top(), current)];
    }

    method TraverseChildren(ns: seq<Node>)
      requires Valid() && Room(DepthOfAll(ns), CamerasOfAll(ns))
      modifies Repr()
      ensures Valid() && Done(RenderAll(ns, old(modelView.Top()), old(projection.Top()), old(current)))
      decreases ns, 2
    {
      hide M.Multiply, Render, RenderAll;
      ghost var mv, proj := modelView.Top(), projection.Top();
      ghost var all := RenderAll(ns, mv, proj, current);
      for i := 0 to |ns|
        invariant Valid()
        invariant modelView.Live() == old(modelView.Live()) && projection.Live() == old(projection.Live())
        invariant modelView.lastError == old(modelView.lastError) && projection.lastError == old(projection.lastError)
        invariant var rest := RenderAll(ns[i..], mv, proj, current);
                  old(drawn) + all.draws == drawn + rest.draws && all.current == rest.current
      {
        DepthAt(ns, i);
        RenderUnfolds(ns, i, mv, proj, current);
        Accept(ns[i]);
      }
      RenderNothing(ns[|ns|..], mv, proj, current);
    }

    method VisitTransform(matrix: M.Matrix, children: seq<Node>)
      requires Valid() && Room(1 + DepthOfAll(children), CamerasOfAll(children))
      modifies Repr()
      ensures Valid()
      ensures Done(Render(Transform(matrix, children), old(modelView.Top()), old(projection.Top()), old(current)))
      decreases Transform(matrix, children), 0
    {
      hide M.Multiply, RenderAll;
      modelView.PushMatrix();
      modelView.MultMatrix(matrix);
      current := modelView.Top();
      TraverseChildren(children);
      modelView.PopMatrix();
    }

    method VisitCamera(view: M.Matrix, proj: M.Matrix, children: seq<Node>)
      requires Valid() && Room(1 + DepthOfAll(children), 1 + CamerasOfAll(children))
      modifies Repr()
      ensures Valid()
      ensures Done(Render(Camera(view, proj, children), old(modelView.Top()), old(projection.Top()), old(current)))
      decreases Camera(view, proj, children), 0
    {
      hide M.Multiply, RenderAll;
      EnterCamera(view, proj);
      TraverseChildren(children);
      LeaveCamera();
    }

    method EnterCamera(view: M.Matrix, proj: M.Matrix)
      requires Valid() && Room(1, 1)
      modifies Repr()
      ensures Valid() && drawn == old(drawn) && current == view
      ensures modelView.Live() == old(modelView.Live()) + [view] && modelView.lastError == old(modelView.lastError)
      ensures projection.Live() == old(projection.Live()) + [proj] && projection.lastError == old(projection.lastError)
    {
      PushBoth();
      modelView.LoadMatrix(view);
      projection.LoadMatrix(proj);
      current := modelView.Top();
    }

    method PushBoth()
      requires Valid() && Room(1, 1)
      modifies Repr()
      ensures Valid() && drawn == old(drawn) && current == old(current)
      ensures modelView.Live() == old(modelView.Live() + [modelView.Top()])
      ensures projection.Live() == old(projection.Live() + [projection.Top()])
      ensures modelView.lastError == old(modelView.lastError) && projection.lastError == old(projection.lastError)
    {
      modelView.PushMatrix();
      projection.PushMatrix();
    }

    method LeaveCamera()
      requires Valid() && modelView.stackPointer > 0 && projection.stackPointer > 0
      modifies Repr()
      ensures Valid() && drawn == old(drawn) && current == modelView.Top()
      ensures modelView.Live() == old(modelView.Live()[..modelView.stackPointer])
      ensures projection.Live() == old(projection.Live()[..projection.stackPointer])
      ensures modelView.lastError == old(modelView.lastError) && projection.lastError == old(projection.lastError)
    {
      projection.PopMatrix();
      modelView.PopMatrix();
      current := modelView.Top();
    }
  }

  lemma {:induction false} DepthAt(ns: seq<Node>, i: nat)
    requires i < |ns|
    ensures Depth(ns[i]) <= DepthOfAll(ns) && Cameras(ns[i]) <= CamerasOfAll(ns)
  {
    if i > 0 {
      DepthAt(ns[1..], i - 1);
    }
  }

  lemma RenderUnfolds(ns: seq<Node>, i: nat, mv: M.Matrix, proj: M.Matrix, current: M.Matrix)
    requires i < |ns|
    ensures var first := Render(ns[i], mv, proj, current);
            var rest := RenderAll(ns[i + 1..], mv, proj, first.current);
            RenderAll(ns[i..], mv, proj, current) == Rendered(first.draws + rest.draws, rest.current)
  {
    assert ns[i..][0] == ns[i] && ns[i..][1..] == ns[i + 1..];
  }

  lemma RenderNothing(ns: seq<Node>, mv: M.Matrix, proj: M.Matrix, current: M.Matrix)
    requires ns == []
    ensures RenderAll(ns, mv, proj, current) == Rendered([], current)
  {
  }

  // ---------- accumulated transforms ----------

  /** A visible geometry with its ancestors from the root down. */
  datatype Leaf = Leaf(id: nat, path: seq<Node>)

  function Leaves(n: Node, path: seq<Node>): seq<Leaf>
    decreases n, 0
  {
    match n
    case Geometry(id, visible) => if visible then [Leaf(id, path)] else []
    case Group(children) => LeavesOfAll(children, path + [n])
    case Light(children) => LeavesOfAll(children, path + [n])
    case Transform(_, children) => LeavesOfAll(children, path + [n])
    case Camera(_, _, children) => LeavesOfAll(children, path + [n])
  }

  function LeavesOfAll(ns: seq<Node>, path: seq<Node>): seq<Leaf>
    decreases ns, 1
  {
    if ns == [] then [] else Leaves(ns[0], path) + LeavesOfAll(ns[1..], path)
  }

  /** The nearest Camera on the path, or -1. */
  function LastCamera(path: seq<Node>): (c: int)
    ensures -1 <= c < |path| && (c >= 0 ==> path[c].Camera?)
    ensures forall k :: c < k < |path| ==> !path[k].Camera?
  {
    if path == [] then -1 else if path[|path| - 1].Camera? then |path| - 1 else LastCamera(path[..|path| - 1])
  }

  /** m times the Transform matrices of the path, in root-to-leaf order. */
  function Product(m: M.Matrix, path: seq<Node>): M.Matrix {
    if path == [] then m
    else
      var before, last := Product(m, path[..|path| - 1]), path[|path| - 1];
      if last.Transform? then M.Multiply(before, last.matrix) else before
  }

  /** What a geometry below the path must be drawn with: the view matrix of the nearest Camera, else the matrix at the
      root, times the Transforms below it. */
  function Accumulated(path: seq<Node>, top: M.Matrix): M.Matrix {
    var c := LastCamera(path);
    if c < 0 then Product(top, path) else Product(path[c].view, path[c + 1..])
  }

  function NearestProjection(path: seq<Node>, top: M.Matrix): M.Matrix {
    var c := LastCamera(path);
    if c < 0 then top else path[c].projection
  }

  lemma AccumulatedStep(path: seq<Node>, n: Node, mv: M.Matrix, proj: M.Matrix)
    ensures var p := path + [n];
            && Accumulated(p, mv) == (if n.Camera? then n.view
                                      else if n.Transform? then M.Multiply(Accumulated(path, mv), n.matrix)
                                      else Accumulated(path, mv))
            && NearestProjection(p, proj) == if n.Camera? then n.projection else NearestProjection(path, proj)
  {
    hide M.Multiply, LastCamera, Product;
    var p, c := path + [n], LastCamera(path);
    LastCameraStep(path, n);
    if n.Camera? {
      NoProduct(n.view, p[|path| + 1..]);
    } else if c >= 0 {
      assert p[c + 1..] == path[c + 1..] + [n];
      ProductStep(path[c].view, path[c + 1..], n);
    } else {
      ProductStep(mv, path, n);
    }
  }

  lemma LastCameraStep(path: seq<Node>, n: Node)
    ensures LastCamera(path + [n]) == if n.Camera? then |path| else LastCamera(path)
  {
    assert (path + [n])[..|path|] == path;
  }

  lemma NoProduct(m: M.Matrix, path: seq<Node>)
    requires path == []
    ensures Product(m, path) == m
  {
  }

  lemma ProductStep(m: M.Matrix, path: seq<Node>, n: Node)
    ensures Product(m, path + [n])
         == if n.Transform? then M.Multiply(Product(m, path), n.matrix) else Product(m, path)
  {
    hide M.Multiply;
    assert (path + [n])[..|path|] == path;
  }

  /** The draws are the leaves in order, each with the matrices of its path. */
  ghost predicate Shows(draws: seq<Draw>, leaves: seq<Leaf>, mv: M.Matrix, proj: M.Matrix) {
    |draws| == |leaves| && forall i :: 0 <= i < |draws| ==>
      && draws[i].id == leaves[i].id
      && draws[i].modelView == Accumulated(leaves[i].path, mv)
      && draws[i].projection == NearestProjection(leaves[i].path, proj)
  }

  lemma ShowsAppend(d: seq<Draw>, l: seq<Leaf>, d2: seq<Draw>, l2: seq<Leaf>, mv: M.Matrix, proj: M.Matrix)
    requires Shows(d, l, mv, proj) && Shows(d2, l2, mv, proj)
    ensures Shows(d + d2, l + l2, mv, proj)
  {
    hide Accumulated, NearestProjection;
  }

  /** At every geometry the tops are the accumulated matrices of its path. */
  lemma {:induction false} RenderShows(n: Node, path: seq<Node>, mv: M.Matrix, proj: M.Matrix, current: M.Matrix)
    ensures Shows(Render(n, Accumulated(path, mv), NearestProjection(path, proj), current).draws,
                  Leaves(n, path), mv, proj)
    decreases n, 0
  {
    AccumulatedStep(path, n, mv, proj);
    hide M.Multiply, Accumulated, NearestProjection, RenderAll, LeavesOfAll, Shows;
    match n
    case Geometry(id, visible) => OneShown(id, visible, path, mv, proj, current);
    case Group(children) => RenderAllShows(children, path + [n], mv, proj, current);
    case Light(children) => RenderAllShows(children, path + [n], mv, proj, current);
    case Transform(matrix, children) =>
      RenderAllShows(children, path + [n], mv, proj, Accumulated(path + [n], mv));
    case Camera(view, _, children) => RenderAllShows(children, path + [n], mv, proj, view);
  }

  lemma OneShown(id: nat, visible: bool, path: seq<Node>, mv: M.Matrix, proj: M.Matrix, current: M.Matrix)
    ensures Shows(Render(Geometry(id, visible), Accumulated(path, mv), NearestProjection(path, proj), current).draws,
                  Leaves(Geometry(id, visible), path), mv, proj)
  {
  }

  lemma {:induction false} RenderAllShows(ns: seq<Node>, path: seq<Node>, mv: M.Matrix, proj: M.Matrix,
                                          current: M.Matrix)
    ensures Shows(RenderAll(ns, Accumulated(path, mv), NearestProjection(path, proj), current).draws,
                  LeavesOfAll(ns, path), mv, proj)
    decreases ns, 1
  {
    hide M.Multiply, Accumulated, NearestProjection, Render, Leaves;
    if ns != [] {
      var first := Render(ns[0], Accumulated(path, mv), NearestProjection(path, proj), current);
      var rest := RenderAll(ns[1..], Accumulated(path, mv), NearestProjection(path, proj), first.current);
      RenderShows(ns[0], path, mv, proj, current);
      RenderAllShows(ns[1..], path, mv, proj, first.current);
      hide Shows;
      ShowsAppend(first.draws, Leaves(ns[0], path), rest.draws, LeavesOfAll(ns[1..], path), mv, proj);
    }
  }

  /** A vertex taken through the Transform matrices of a path, from the leaf to the root. */
  function Upwards(path: seq<Node>, v: M.Line): M.Line {
    if path == [] then v
    else
      var last := path[|path| - 1];
      Upwards(path[..|path| - 1], if last.Transform? then M.Transform(last.matrix, v) else v)
  }

  /** Applying the accumulated matrix is applying the matrices one after the other, from leaf to root. */
  lemma {:induction false} ProductAppliesUpwards(m: M.Matrix, path: seq<Node>, v: M.Line)
    ensures M.Transform(Product(m, path), v) == M.Transform(m, Upwards(path, v))
    decreases |path|
  {
    hide M.Multiply, M.Transform;
    if path != [] {
      var before, last := path[..|path| - 1], path[|path| - 1];
      if last.Transform? {
        M.TransformTwice(Product(m, before), last.matrix, v);
        ProductAppliesUpwards(m, before, M.Transform(last.matrix, v));
      } else {
        ProductAppliesUpwards(m, before, v);
      }
    }
  }

  lemma AccumulatedAppliesUpwards(path: seq<Node>, top: M.Matrix, v: M.Line)
    ensures var c := LastCamera(path);
            M.Transform(Accumulated(path, top), v) ==
            M.Transform(if c < 0 then top else path[c].view, Upwards(path[c + 1..], v))
  {
    hide M.Transform, Product, Upwards, LastCamera;
    var c := LastCamera(path);
    ProductAppliesUpwards(if c < 0 then top else path[c].view, path[c + 1..], v);
    assert c < 0 ==> path[c + 1..] == path;
  }

  /** A whole scene: every visible geometry is drawn once, in order, with the matrices of its path. */
  lemma SceneShows(n: Node, mv: M.Matrix, proj: M.Matrix, current: M.Matrix)
    ensures Shows(Render(n, mv, proj, current).draws, Leaves(n, []), mv, proj)
  {
    RenderShows(n, [], mv, proj, current);
    hide Shows, Render, Leaves;
    assert Accumulated([], mv) == mv && NearestProjection([], proj) == proj;
  }

  // ---------- the matrix that OpenGL has loaded ----------

  /** Every geometry is drawn with the matrix on the top of the stack. */
  ghost predicate AllCurrent(draws: seq<Draw>) {
    forall i :: 0 <= i < |draws| ==> draws[i].current == draws[i].modelView
  }

  /** VisitTransform loads its matrix but does not load the old one again; only VisitCamera does. So after a Transform
      the loaded matrix is stale until the next Camera or Transform. */
  predicate StaleAfter(n: Node, stale: bool)
    decreases n, 0
  {
    match n
    case Geometry(_, _) => stale
    case Group(children) => StaleAfterAll(children, stale)
    case Light(children) => StaleAfterAll(children, stale)
    case Transform(_, _) => true
    case Camera(_, _, _) => false
  }

  predicate StaleAfterAll(ns: seq<Node>, stale: bool)
    decreases ns, 1
  {
    if ns == [] then stale else StaleAfterAll(ns[1..], StaleAfter(ns[0], stale))
  }

  /** No visible geometry comes while the loaded matrix is stale. */
  predicate NeverStale(n: Node, stale: bool)
    decreases n, 0
  {
    match n
    case Geometry(_, visible) => visible ==> !stale
    case Group(children) => NeverStaleAll(children, stale)
    case Light(children) => NeverStaleAll(children, stale)
    case Transform(_, children) => NeverStaleAll(children, false)
    case Camera(_, _, children) => NeverStaleAll(children, false)
  }

  predicate NeverStaleAll(ns: seq<Node>, stale: bool)
    decreases ns, 1
  {
    ns == [] || (NeverStale(ns[0], stale) && NeverStaleAll(ns[1..], StaleAfter(ns[0], stale)))
  }

  lemma AppendCurrent(d: seq<Draw>, e: seq<Draw>)
    ensures AllCurrent(d + e) <==> AllCurrent(d) && AllCurrent(e)
  {
    if AllCurrent(d + e) {
      assert forall i :: 0 <= i < |d| ==> (d + e)[i] == d[i];
      assert forall i :: 0 <= i < |e| ==> (d + e)[|d| + i] == e[i];
    }
  }

  lemma {:induction false} NeverStaleIsCurrent(n: Node, stale: bool, mv: M.Matrix, proj: M.Matrix, current: M.Matrix)
    requires NeverStale(n, stale) && (!stale ==> current == mv)
    ensures var r := Render(n, mv, proj, current);
            AllCurrent(r.draws) && (!StaleAfter(n, stale) ==> r.current == mv)
    decreases n, 0
  {
    hide M.Multiply, RenderAll, NeverStaleAll, StaleAfterAll;
    match n
    case Geometry(_, _) =>
    case Group(children) => NeverStaleAreCurrent(children, stale, mv, proj, current);
    case Light(children) => NeverStaleAreCurrent(children, stale, mv, proj, current);
    case Transform(matrix, children) =>
      NeverStaleAreCurrent(children, false, M.Multiply(mv, matrix), proj, M.Multiply(mv, matrix));
    case Camera(view, projection, children) => NeverStaleAreCurrent(children, false, view, projection, view);
  }

  lemma {:induction false} NeverStaleAreCurrent(ns: seq<Node>, stale: bool, mv: M.Matrix, proj: M.Matrix,
                                                current: M.Matrix)
    requires NeverStaleAll(ns, stale) && (!stale ==> current == mv)
    ensures var r := RenderAll(ns, mv, proj, current);
            AllCurrent(r.draws) && (!StaleAfterAll(ns, stale) ==> r.current == mv)
    decreases ns, 1
  {
    hide M.Multiply, Render, NeverStale, StaleAfter;
    if ns != [] {
      var first := Render(ns[0], mv, proj, current);
      var rest := RenderAll(ns[1..], mv, proj, first.current);
      NeverStaleIsCurrent(ns[0], stale, mv, proj, current);
      NeverStaleAreCurrent(ns[1..], StaleAfter(ns[0], stale), mv, proj, first.current);
      AppendCurrent(first.draws, rest.draws);
    }
  }

  /** The identity with its first entry replaced. */
  function Scale(k: real): M.Matrix { M.IDENTITY[0 := k] }

  lemma ScalesMultiply(a: real, b: real)
    ensures M.Multiply(Scale(a), Scale(b)) == Scale(a * b)
  {
    M.MultiplyScales(a, b);
  }

  /** The same scene with every Transform doubling and every Camera looking from the origin. */
  function Doubled(n: Node): Node {
    match n
    case Geometry(_, _) => n
    case Group(children) => Group(AllDoubled(children))
    case Light(children) => Light(AllDoubled(children))
    case Transform(_, children) => Transform(Scale(2.0), AllDoubled(children))
    case Camera(_, _, children) => Camera(Scale(1.0), Scale(1.0), AllDoubled(children))
  }

  function AllDoubled(ns: seq<Node>): seq<Node> {
    if ns == [] then [] else [Doubled(ns[0])] + AllDoubled(ns[1..])
  }

  /** In the doubled scene a stale matrix is always too large, so the draws are right only without stale geometry. */
  lemma {:induction false} DoubledShowsStale(n: Node, stale: bool, a: real, c: real, proj: M.Matrix) returns (d: real)
    requires a > 0.0 && if stale then c > a else c == a
    ensures var r := Render(Doubled(n), Scale(a), proj, Scale(c));
            && r.current == Scale(d) && (if StaleAfter(n, stale) then d > a else d == a)
            && (AllCurrent(r.draws) <==> NeverStale(n, stale))
    decreases n, 0
  {
    hide M.Multiply, M.IDENTITY, RenderAll, AllDoubled, NeverStaleAll, StaleAfterAll;
    match n
    case Geometry(id, visible) =>
      d := c;
      ScalesDiffer(a, c);
      OneDraw(Draw(id, Scale(a), proj, Scale(c)));
    case Group(children) => d := DoubledShowAllStale(children, stale, a, c, proj);
    case Light(children) => d := DoubledShowAllStale(children, stale, a, c, proj);
    case Transform(_, children) =>
      ScalesMultiply(a, 2.0);
      d := DoubledShowAllStale(children, false, a * 2.0, a * 2.0, proj);
    case Camera(_, _, children) =>
      var _ := DoubledShowAllStale(children, false, 1.0, 1.0, Scale(1.0));
      d := a;
  }

  lemma OneDraw(d: Draw)
    ensures AllCurrent([d]) <==> d.current == d.modelView
  {
    if AllCurrent([d]) {
      assert [d][0] == d;
    }
  }

  lemma ScalesDiffer(a: real, c: real)
    ensures Scale(a) == Scale(c) <==> a == c
  {
    assert Scale(a)[0] == a && Scale(c)[0] == c;
  }

  lemma {:induction false} DoubledShowAllStale(ns: seq<Node>, stale: bool, a: real, c: real, proj: M.Matrix)
    returns (d: real)
    requires a > 0.0 && if stale then c > a else c == a
    ensures var r := RenderAll(AllDoubled(ns), Scale(a), proj, Scale(c));
            && r.current == Scale(d) && (if StaleAfterAll(ns, stale) then d > a else d == a)
            && (AllCurrent(r.draws) <==> NeverStaleAll(ns, stale))
    decreases ns, 1
  {
    hide M.Multiply, M.IDENTITY, Render, Doubled, NeverStale, StaleAfter, Scale;
    if ns == [] {
      d := c;
    } else {
      var e := DoubledShowsStale(ns[0], stale, a, c, proj);
      d := DoubledShowAllStale(ns[1..], StaleAfter(ns[0], stale), a, e, proj);
      var first := Render(Doubled(ns[0]), Scale(a), proj, Scale(c));
      var rest := RenderAll(AllDoubled(ns[1..]), Scale(a), proj, first.current);
      DoubledUnfolds(ns, Scale(a), proj, Scale(c));
      AppendCurrent(first.draws, rest.draws);
    }
  }

  lemma DoubledUnfolds(ns: seq<Node>, mv: M.Matrix, proj: M.Matrix, current: M.Matrix)
    requires ns != []
    ensures var first := Render(Doubled(ns[0]), mv, proj, current);
            var rest := RenderAll(AllDoubled(ns[1..]), mv, proj, first.current);
            RenderAll(AllDoubled(ns), mv, proj, current) == Rendered(first.draws + rest.draws, rest.current)
  {
    hide Render, Doubled;
    assert AllDoubled(ns)[1..] == AllDoubled(ns[1..]);
  }

  /** The same tree with other matrices. */
  predicate SameShape(n: Node, m: Node) {
    match n
    case Geometry(_, _) => m == n
    case Group(children) => m.Group? && SameShapes(children, m.children)
    case Light(children) => m.Light? && SameShapes(children, m.children)
    case Transform(_, children) => m.Transform? && SameShapes(children, m.children)
    case Camera(_, _, children) => m.Camera? && SameShapes(children, m.children)
  }

  predicate SameShapes(ns: seq<Node>, ms: seq<Node>) {
    |ns| == |ms| && (ns == [] || (SameShape(ns[0], ms[0]) && SameShapes(ns[1..], ms[1..])))
  }

  lemma {:induction false} DoubledHasShape(n: Node)
    ensures SameShape(n, Doubled(n))
    decreases n, 0
  {
    hide AllDoubled, SameShapes;
    if !n.Geometry? {
      AllDoubledHaveShape(n.children);
    }
  }

  lemma {:induction false} AllDoubledHaveShape(ns: seq<Node>)
    ensures SameShapes(ns, AllDoubled(ns))
    decreases ns, 1
  {
    hide Doubled, SameShape;
    if ns != [] {
      DoubledHasShape(ns[0]);
      AllDoubledHaveShape(ns[1..]);
      assert AllDoubled(ns)[1..] == AllDoubled(ns[1..]);
    }
  }

  lemma {:induction false} ShapeDecides(n: Node, m: Node, stale: bool)
    requires SameShape(n, m)
    ensures StaleAfter(m, stale) == StaleAfter(n, stale) && NeverStale(m, stale) == NeverStale(n, stale)
    decreases n, 0
  {
    hide SameShapes, StaleAfterAll, NeverStaleAll;
    if !n.Geometry? {
      ShapesDecide(n.children, m.children, stale);
      ShapesDecide(n.children, m.children, false);
    }
  }

  lemma {:induction false} ShapesDecide(ns: seq<Node>, ms: seq<Node>, stale: bool)
    requires SameShapes(ns, ms)
    ensures StaleAfterAll(ms, stale) == StaleAfterAll(ns, stale) && NeverStaleAll(ms, stale) == NeverStaleAll(ns, stale)
    decreases ns, 1
  {
    hide SameShape, StaleAfter, NeverStale;
    if ns != [] {
      ShapeDecides(ns[0], ms[0], stale);
      ShapesDecide(ns[1..], ms[1..], StaleAfter(ns[0], stale));
    }
  }

  /** A scene is drawn with the accumulated matrices, whatever its matrices are, exactly when no visible geometry
      follows a Transform without a Camera or another Transform in between. */
  lemma DrawnAsAccumulated(n: Node)
    ensures NeverStale(n, false) <==>
            forall m, mv, proj :: SameShape(n, m) ==> AllCurrent(Render(m, mv, proj, mv).draws)
  {
    hide Render, NeverStale, SameShape, Doubled, AllCurrent, M.IDENTITY, M.Multiply;
    if NeverStale(n, false) {
      forall m, mv, proj | SameShape(n, m)
        ensures AllCurrent(Render(m, mv, proj, mv).draws)
      {
        ShapeDecides(n, m, false);
        NeverStaleIsCurrent(m, false, mv, proj, mv);
      }
    } else {
      DoubledHasShape(n);
      var _ := DoubledShowsStale(n, false, 1.0, 1.0, Scale(1.0));
      assert !AllCurrent(Render(Doubled(n), Scale(1.0), Scale(1.0), Scale(1.0)).draws);
    }
  }

  // ---------- where the stacks are too small ----------

  /** The two stack pointers of a visit, and whether every matrix read or written so far was inside its array. */
  datatype Pointers = Pointers(modelView: nat, projection: nat, inside: bool)

  /** PushMatrix as written; it accesses the matrix at the new pointer, as everything up to the pop does. */
  function Pushed(pointer: nat, depth: nat): nat { if pointer < depth then pointer + 1 else pointer }

  function Popped(pointer: nat): nat { if pointer > 0 then pointer - 1 else pointer }

  /** A visit with stacks of the depths d and e, whatever the room. */
  function Walk(n: Node, w: Pointers, d: nat, e: nat): Pointers
    decreases n, 0
  {
    match n
    case Geometry(_, _) => w
    case Group(children) => WalkAll(children, w, d, e)
    case Light(children) => WalkAll(children, w, d, e)
    case Transform(_, children) =>
      var mv := Pushed(w.modelView, d);
      var r := WalkAll(children, Pointers(mv, w.projection, w.inside && mv < d), d, e);
      r.(modelView := Popped(r.modelView))
    case Camera(_, _, children) =>
      var mv, proj := Pushed(w.modelView, d), Pushed(w.projection, e);
      var r := WalkAll(children, Pointers(mv, proj, w.inside && mv < d && proj < e), d, e);
      Pointers(Popped(r.modelView), Popped(r.projection), r.inside)
  }

  function WalkAll(ns: seq<Node>, w: Pointers, d: nat, e: nat): Pointers
    decreases ns, 1
  {
    if ns == [] then w else WalkAll(ns[1..], Walk(ns[0], w, d, e), d, e)
  }

  lemma {:induction false} OutsideForGood(n: Node, w: Pointers, d: nat, e: nat)
    requires !w.inside
    ensures !Walk(n, w, d, e).inside
    decreases n, 0
  {
    match n
    case Geometry(_, _) =>
    case Group(children) => AllOutsideForGood(children, w, d, e);
    case Light(children) => AllOutsideForGood(children, w, d, e);
    case Transform(_, children) =>
      AllOutsideForGood(children, Pointers(Pushed(w.modelView, d), w.projection, false), d, e);
    case Camera(_, _, children) =>
      AllOutsideForGood(children, Pointers(Pushed(w.modelView, d), Pushed(w.projection, e), false), d, e);
  }

  lemma {:induction false} AllOutsideForGood(ns: seq<Node>, w: Pointers, d: nat, e: nat)
    requires !w.inside
    ensures !WalkAll(ns, w, d, e).inside
    decreases ns, 1
  {
    if ns != [] {
      OutsideForGood(ns[0], w, d, e);
      AllOutsideForGood(ns[1..], Walk(ns[0], w, d, e), d, e);
    }
  }

  predicate Fits(w: Pointers, d: nat, e: nat, depth: nat, cameras: nat) {
    w.modelView + depth < d && w.projection + cameras < e
  }

  /** A visit stays inside the two arrays exactly if the nested Transform and Camera nodes fit, and then it puts both
      pointers back. */
  lemma {:induction false} WalkStaysInside(n: Node, w: Pointers, d: nat, e: nat)
    requires w.inside && w.modelView < d && w.projection < e
    ensures Walk(n, w, d, e).inside <==> Fits(w, d, e, Depth(n), Cameras(n))
    ensures Walk(n, w, d, e).inside ==> Walk(n, w, d, e) == w
    decreases n, 0
  {
    match n
    case Geometry(_, _) =>
    case Group(children) => WalkAllStaysInside(children, w, d, e);
    case Light(children) => WalkAllStaysInside(children, w, d, e);
    case Transform(_, children) =>
      var u := Pointers(w.modelView + 1, w.projection, w.modelView + 1 < d);
      if u.inside { WalkAllStaysInside(children, u, d, e); } else { AllOutsideForGood(children, u, d, e); }
    case Camera(_, _, children) =>
      var u := Pointers(w.modelView + 1, w.projection + 1, w.modelView + 1 < d && w.projection + 1 < e);
      if u.inside { WalkAllStaysInside(children, u, d, e); } else { AllOutsideForGood(children, u, d, e); }
  }

  lemma {:induction false} WalkAllStaysInside(ns: seq<Node>, w: Pointers, d: nat, e: nat)
    requires w.inside && w.modelView < d && w.projection < e
    ensures WalkAll(ns, w, d, e).inside <==> Fits(w, d, e, DepthOfAll(ns), CamerasOfAll(ns))
    ensures WalkAll(ns, w, d, e).inside ==> WalkAll(ns, w, d, e) == w
    decreases ns, 1
  {
    if ns != [] {
      WalkStaysInside(ns[0], w, d, e);
      if Walk(ns[0], w, d, e).inside {
        WalkAllStaysInside(ns[1..], w, d, e);
      } else {
        AllOutsideForGood(ns[1..], Walk(ns[0], w, d, e), d, e);
      }
    }
  }

  /** What Accept asks for is what keeps it inside its arrays, no more. */
  lemma RoomIsExact(v: Visitor, n: Node)
    requires v.Valid()
    ensures var w := Pointers(v.modelView.stackPointer, v.projection.stackPointer, true);
            v.Room(Depth(n), Cameras(n)) <==> Walk(n, w, v.modelView.stackDepth, v.projection.stackDepth).inside
  {
    WalkStaysInside(n, Pointers(v.modelView.stackPointer, v.projection.stackPointer, true),
                    v.modelView.stackDepth, v.projection.stackDepth);
    hide Walk, Depth, Cameras;
  }

  /** k nested Transforms. */
  function Chain(k: nat): Node {
    if k == 0 then Geometry(0, true) else Transform(M.IDENTITY, [Chain(k - 1)])
  }

  /** From new stacks of depth d, k nested Transforms stay inside exactly if k < d: the d-th push writes behind the
      array. */
  lemma ChainsReachTheEnd(k: nat, d: nat)
    requires d > 0
    ensures Walk(Chain(k), Pointers(0, 0, true), d, d).inside <==> k < d
  {
    ChainDepth(k);
    WalkStaysInside(Chain(k), Pointers(0, 0, true), d, d);
    hide Walk, Chain;
  }

  lemma {:induction false} ChainDepth(k: nat)
    ensures Depth(Chain(k)) == k && Cameras(Chain(k)) == 0
  {
    if k > 0 {
      ChainDepth(k - 1);
      var ns := [Chain(k - 1)];
      assert ns[1..] == [] && DepthOfAll(ns) == Max(k - 1, DepthOfAll([])) && CamerasOfAll(ns) == Max(0, 0);
    }
  }
}
