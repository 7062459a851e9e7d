/** The interleavings of the critical sections of static_mem_pool, over any number of threads and pools. */
module PoolSteps {
  import opened Sequences
  import opened StaticMemPool

  type Addr = nat

  datatype Option<T> = None | Some(value: T)

  /** What a thread is doing between two critical sections: nothing, on its way to the system after it found the free
      list of a pool empty, or holding the lock of the pool set with the first done pools recycled. */
  datatype Phase = Idle | Wanting(pool: nat) | Recycling(pool: nat, done: nat)

  /** The free list of every pool, the blocks that clients hold with their pools, and the system's ledger of what it
      gave out and did not get back. */
  datatype State = State(free: seq<seq<Addr>>, held: map<Addr, nat>, owned: set<Addr>, phases: map<nat, Phase>)

  /** The critical sections; got is what the system answers, None a failure. */
  datatype Step =
    | PopFree(t: nat, pool: nat)
    | AskSystem(t: nat, got: Option<Addr>)
    | RecycleNext(t: nat)
    | AskAgain(t: nat, got: Option<Addr>)
    | PutBack(t: nat, block: Addr)

  /** No thread holds the lock of the pool set. */
  ghost predicate SetUnlocked(s: State) { forall t :: t in s.phases ==> !s.phases[t].Recycling? }

  /** The system never gives out what it has given out already. */
  ghost predicate Answer(s: State, got: Option<Addr>) { got.Some? ==> got.value !in s.owned }

  ghost predicate Enabled(s: State, step: Step) {
    step.t in s.phases &&
    var phase := s.phases[step.t];
    match step
    case PopFree(_, pool) => phase == Idle && pool < |s.free|
    case AskSystem(_, got) => phase.Wanting? && SetUnlocked(s) && Answer(s, got)
    case RecycleNext(_) => phase.Recycling? && phase.done < |s.free|
    case AskAgain(_, got) => phase.Recycling? && phase.done == |s.free| && Answer(s, got)
    case PutBack(_, block) => phase == Idle && block in s.held && s.held[block] < |s.free|
  }

  function Elements(s: seq<Addr>): set<Addr> { set a | a in s }

  ghost function Given(s: State, t: nat, pool: nat, a: Addr): State {
    State(s.free, s.held[a := pool], s.owned + {a}, s.phases[t := Idle])
  }

  ghost function Popped(s: State, t: nat, pool: nat): State
    requires pool < |s.free|
  {
    var list := s.free[pool];
    if list == [] then s.(phases := s.phases[t := Wanting(pool)])
    else s.(free := s.free[pool := list[1..]], held := s.held[list[0] := pool])
  }

  ghost function RecycledOne(s: State, t: nat, pool: nat, k: nat): State
    requires k < |s.free|
  {
    var list := s.free[k];
    State(s.free[k := Evens(list)], s.held, s.owned - Elements(Odds(list)), s.phases[t := Recycling(pool, k + 1)])
  }

  ghost function Put(s: State, block: Addr): State
    requires block in s.held && s.held[block] < |s.free|
  {
    var pool := s.held[block];
    s.(free := s.free[pool := [block] + s.free[pool]], held := s.held - {block})
  }

  ghost function Apply(s: State, step: Step): State
    requires Enabled(s, step)
  {
    var phase := s.phases[step.t];
    match step
    case PopFree(t, pool) => Popped(s, t, pool)
    case AskSystem(t, got) =>
      if got.Some? then Given(s, t, phase.pool, got.value) else s.(phases := s.phases[t := Recycling(phase.pool, 0)])
    case RecycleNext(t) => RecycledOne(s, t, phase.pool, phase.done)
    case AskAgain(t, got) =>
      if got.Some? then Given(s, t, phase.pool, got.value) else s.(phases := s.phases[t := Idle])
    case PutBack(t, block) => Put(s, block)
  }

  // ---------- the invariant ----------

  ghost predicate InList(s: State, p: nat, a: Addr) { p < |s.free| && a in s.free[p] }

  ghost predicate Listed(s: State, a: Addr) { exists p :: InList(s, p, a) }

  /** Every block that the system gave out is held by one client or stands once in one free list, and nobody has a
      block that went back. */
  ghost predicate Placed(s: State) {
    && (forall p :: 0 <= p < |s.free| ==> Distinct(s.free[p]))
    && (forall p, q, a :: InList(s, p, a) && InList(s, q, a) ==> p == q)
    && (forall p, a :: InList(s, p, a) ==> a in s.owned && a !in s.held)
    && (forall a :: a in s.held ==> a in s.owned && s.held[a] < |s.free|)
    && (forall a :: a in s.owned ==> a in s.held || Listed(s, a))
  }

  /** One thread at most has the lock of the pool set, and the pools that threads work for exist. */
  ghost predicate Locked(s: State) {
    && (forall t, u :: t in s.phases && u in s.phases && s.phases[t].Recycling? && s.phases[u].Recycling? ==> t == u)
    && (forall t :: t in s.phases && s.phases[t] != Idle ==> s.phases[t].pool < |s.free|)
  }

  /** Where the lists are the same, so are the places. */
  lemma SameLists(s: State, r: State)
    requires Placed(s) && r.free == s.free && r.held == s.held && r.owned == s.owned
    ensures Placed(r)
  {
    forall a | a in r.owned && a !in r.held
      ensures Listed(r, a)
    {
      var p :| InList(s, p, a);
      assert InList(r, p, a);
    }
    assert forall p: nat, a :: InList(r, p, a) ==> InList(s, p, a);
  }

  lemma PopKeepsPlaces(s: State, t: nat, pool: nat)
    requires Placed(s) && pool < |s.free|
    ensures Placed(Popped(s, t, pool))
  {
    hide Evens, Odds;
    var r, list := Popped(s, t, pool), s.free[pool];
    if list == [] {
      SameLists(s, r);
    } else {
      assert InList(s, pool, list[0]);
      forall p: nat, a | InList(r, p, a)
        ensures InList(s, p, a) && a != list[0]
      {
        assert a in s.free[p];
      }
      forall a | a in r.owned && a !in r.held
        ensures Listed(r, a)
      {
        var p :| InList(s, p, a);
        assert InList(r, p, a);
      }
    }
  }

  lemma GivenKeepsPlaces(s: State, t: nat, pool: nat, a: Addr)
    requires Placed(s) && a !in s.owned && pool < |s.free|
    ensures Placed(Given(s, t, pool, a))
  {
    hide Evens, Odds;
    var r := Given(s, t, pool, a);
    assert forall p: nat, b :: InList(r, p, b) ==> InList(s, p, b);
    forall b | b in r.owned && b !in r.held
      ensures Listed(r, b)
    {
      var p :| InList(s, p, b);
      assert InList(r, p, b);
    }
  }

  lemma RecycleKeepsPlaces(s: State, t: nat, pool: nat, k: nat)
    requires Placed(s) && k < |s.free|
    ensures Placed(RecycledOne(s, t, pool, k))
    ensures Elements(Odds(s.free[k])) <= s.owned
  {
    var r, list := RecycledOne(s, t, pool, k), s.free[k];
    EvensAndOdds(list);
    hide Evens, Odds, Distinct;
    forall a | a in Odds(list)
      ensures a in s.owned && a !in s.held
    {
      assert InList(s, k, a);
    }
    forall p: nat, a | InList(r, p, a)
      ensures InList(s, p, a) && a !in Odds(list)
    {
      assert a in s.free[p];
      if a in Odds(list) {
        assert InList(s, k, a);
      }
    }
    forall a | a in r.owned && a !in r.held
      ensures Listed(r, a)
    {
      var p :| InList(s, p, a);
      assert InList(r, p, a);
    }
  }

  lemma PutKeepsPlaces(s: State, block: Addr)
    requires Placed(s) && block in s.held
    ensures s.held[block] < |s.free| && Placed(Put(s, block))
  {
    hide Evens, Odds;
    var r, pool := Put(s, block), s.held[block];
    forall p: nat, a | InList(r, p, a)
      ensures if a == block then p == pool else InList(s, p, a)
    {
      assert p != pool || a != block ==> a in s.free[p] && InList(s, p, a);
    }
    assert block !in s.free[pool] by {
      assert !InList(s, pool, block);
    }
    assert InList(r, pool, block);
    forall a | a in r.owned && a !in r.held
      ensures Listed(r, a)
    {
      if a != block {
        var p :| InList(s, p, a);
        assert InList(r, p, a);
      }
    }
  }

  ghost predicate Invariant(s: State) { Placed(s) && Locked(s) }

  lemma StepKeepsInvariant(s: State, step: Step)
    requires Invariant(s) && Enabled(s, step)
    ensures Invariant(Apply(s, step))
  {
    var phase := s.phases[step.t];
    match step
    case PopFree(t, pool) => PopKeepsPlaces(s, t, pool);
    case AskSystem(t, got) =>
      if got.Some? {
        GivenKeepsPlaces(s, t, phase.pool, got.value);
      } else {
        SameLists(s, Apply(s, step));
      }
    case RecycleNext(t) => RecycleKeepsPlaces(s, t, phase.pool, phase.done);
    case AskAgain(t, got) =>
      if got.Some? {
        GivenKeepsPlaces(s, t, phase.pool, got.value);
      } else {
        SameLists(s, Apply(s, step));
      }
    case PutBack(t, block) => PutKeepsPlaces(s, block);
    hide Placed, Evens, Odds;
  }

  ghost predicate Reaches(s: State, run: seq<Step>, r: State)
    decreases |run|
  {
    if run == [] then s == r else Enabled(s, run[0]) && Reaches(Apply(s, run[0]), run[1..], r)
  }

  /** Before the first allocation: empty lists, idle threads. */
  ghost predicate Start(s: State) {
    && (forall p :: 0 <= p < |s.free| ==> s.free[p] == []) && s.held == map[] && s.owned == {}
    && forall t :: t in s.phases ==> s.phases[t] == Idle
  }

  /** Every interleaving keeps every block in exactly one place. */
  lemma {:induction false} RunKeepsInvariant(s: State, run: seq<Step>, r: State)
    requires Invariant(s) && Reaches(s, run, r)
    ensures Invariant(r)
    decreases |run|
  {
    if run != [] {
      StepKeepsInvariant(s, run[0]);
      hide Invariant;
      RunKeepsInvariant(Apply(s, run[0]), run[1..], r);
    }
  }

  /** No interleaving hands out a block twice, gives the system a block that it does not own, or loses one. */
  lemma EveryBlockHasOnePlace(s: State, run: seq<Step>, r: State, a: Addr)
    requires Start(s) && Reaches(s, run, r)
    ensures a in r.owned <==> a in r.held || Listed(r, a)
    ensures !(a in r.held && Listed(r, a))
    ensures forall p: nat, q: nat, i: nat, j: nat ::
      p < |r.free| && q < |r.free| && i < |r.free[p]| && j < |r.free[q]| && r.free[p][i] == a && r.free[q][j] == a
      ==> p == q && i == j
    ensures forall t, k :: t in r.phases && r.phases[t].Recycling? && k == r.phases[t].done < |r.free| ==>
      Elements(Odds(r.free[k])) <= r.owned
  {
    StartIsInvariant(s);
    RunKeepsInvariant(s, run, r);
    forall p: nat, q: nat, i: nat, j: nat
      | p < |r.free| && q < |r.free| && i < |r.free[p]| && j < |r.free[q]| && r.free[p][i] == a && r.free[q][j] == a
      ensures p == q && i == j
    {
      assert InList(r, p, a) && InList(r, q, a);
      assert Distinct(r.free[p]);
    }
    forall k: nat | k < |r.free|
      ensures Elements(Odds(r.free[k])) <= r.owned
    {
      RecycleKeepsPlaces(r, 0, 0, k);
    }
    hide Evens, Odds, Reaches;
  }

  lemma StartIsInvariant(s: State)
    requires Start(s)
    ensures Invariant(s)
  {
    assert forall p: nat, a :: !InList(s, p, a);
  }

  // ---------- what a run did to a block ----------

  /** The system answers with the block. */
  ghost predicate Gives(step: Step, a: Addr) { (step.AskSystem? || step.AskAgain?) && step.got == Some(a) }

  /** The client that the system gives a block holds it, for the pool that it asked for; nothing else changes. */
  lemma AnswerIsHeld(s: State, step: Step, a: Addr)
    requires Enabled(s, step) && Gives(step, a)
    ensures var r := Apply(s, step);
      && a in r.owned && a in r.held && r.held[a] == s.phases[step.t].pool && r.phases[step.t] == Idle
      && r.free == s.free && r.owned - {a} == s.owned && r.held - {a} == s.held - {a}
      && r.phases - {step.t} == s.phases - {step.t}
  {
  }

  ghost predicate Runs(s: State, run: seq<Step>)
    decreases |run|
  {
    run == [] || (Enabled(s, run[0]) && Runs(Apply(s, run[0]), run[1..]))
  }

  /** The state before the step i of a run, or its last one. */
  ghost function StateAt(s: State, run: seq<Step>, i: nat): State
    requires Runs(s, run) && i <= |run|
    decreases |run|
  {
    if i == 0 then s else StateAt(Apply(s, run[0]), run[1..], i - 1)
  }

  lemma {:induction false} StepsAreEnabled(s: State, run: seq<Step>, i: nat)
    requires Runs(s, run) && i < |run|
    ensures Enabled(StateAt(s, run, i), run[i])
    decreases |run|
  {
    if i > 0 {
      StepsAreEnabled(Apply(s, run[0]), run[1..], i - 1);
    }
  }

  /** A step of recycling gives the block back to the system. */
  ghost predicate TakesBack(s: State, step: Step, a: Addr) {
    && step.RecycleNext? && Enabled(s, step)
    && a in Odds(s.free[s.phases[step.t].done])
  }

  /** A thread gets the block for a pool, out of its free list or from the system. */
  ghost predicate Gets(s: State, step: Step, a: Addr, k: nat) {
    && Enabled(s, step)
    && match step
       case PopFree(_, pool) => pool == k && s.free[k] != [] && s.free[k][0] == a
       case _ => Gives(step, a) && s.phases[step.t].pool == k
  }

  /** No step from i on takes the block back. */
  ghost predicate StaysOwned(s: State, run: seq<Step>, i: nat, a: Addr)
    requires Runs(s, run)
  {
    forall j :: i <= j < |run| ==> !TakesBack(StateAt(s, run, j), run[j], a)
  }

  /** No client deallocates the block from step i on. */
  ghost predicate StaysHeld(run: seq<Step>, i: nat, a: Addr) {
    forall j :: i <= j < |run| ==> !(run[j].PutBack? && run[j].block == a)
  }

  ghost predicate OwnedSince(s: State, run: seq<Step>, i: nat, a: Addr)
    requires Runs(s, run)
  {
    i < |run| && Gives(run[i], a) && StaysOwned(s, run, i + 1, a)
  }

  ghost predicate HeldSince(s: State, run: seq<Step>, i: nat, a: Addr, k: nat)
    requires Runs(s, run)
  {
    i < |run| && Gets(StateAt(s, run, i), run[i], a, k) && StaysHeld(run, i + 1, a)
  }

  /** What one step does to the ledger and to the clients. */
  lemma StepMovesBlock(s: State, step: Step, a: Addr, k: nat)
    requires Invariant(s) && Enabled(s, step)
    ensures var r := Apply(s, step);
      && (a in r.owned <==> Gives(step, a) || (a in s.owned && !TakesBack(s, step, a)))
      && (a in r.held && r.held[a] == k <==>
          Gets(s, step, a, k) || (a in s.held && s.held[a] == k && !(step.PutBack? && step.block == a)))
  {
    if step.PopFree? && s.free[step.pool] != [] {
      assert InList(s, step.pool, s.free[step.pool][0]);
    }
    hide Evens, Odds, Locked, Distinct;
  }

  /** A run without its first step. */
  lemma OneStepLess(s: State, run: seq<Step>, i: nat, a: Addr, k: nat)
    requires Runs(s, run) && run != []
    ensures var m, rest := Apply(s, run[0]), run[1..];
      && (StaysOwned(s, run, i + 1, a) <==> StaysOwned(m, rest, i, a))
      && (StaysOwned(s, run, 0, a) <==> !TakesBack(s, run[0], a) && StaysOwned(m, rest, 0, a))
      && (StaysHeld(run, i + 1, a) <==> StaysHeld(rest, i, a))
      && (StaysHeld(run, 0, a) <==> !(run[0].PutBack? && run[0].block == a) && StaysHeld(rest, 0, a))
      && (OwnedSince(s, run, i + 1, a) <==> OwnedSince(m, rest, i, a))
      && (OwnedSince(s, run, 0, a) <==> Gives(run[0], a) && StaysOwned(m, rest, 0, a))
      && (HeldSince(s, run, i + 1, a, k) <==> HeldSince(m, rest, i, a, k))
      && (HeldSince(s, run, 0, a, k) <==> Gets(s, run[0], a, k) && StaysHeld(rest, 0, a))
  {
    hide Enabled, Apply, Gives, TakesBack, Gets;
    var m, rest := Apply(s, run[0]), run[1..];
    forall j: nat | j < |rest|
      ensures StateAt(s, run, j + 1) == StateAt(m, rest, j) && run[j + 1] == rest[j]
    {
    }
    assert forall j: nat | 1 <= j < |run| :: run[j] == rest[j - 1] && StateAt(s, run, j) == StateAt(m, rest, j - 1);
  }

  /** The ledger lists exactly the blocks that the run got from the system and did not recycle since. */
  lemma {:induction false} OwnedIsGiven(s: State, run: seq<Step>, r: State, a: Addr)
    requires Invariant(s) && Reaches(s, run, r)
    ensures Runs(s, run)
    ensures a in r.owned <==> (exists i: nat :: OwnedSince(s, run, i, a)) || (a in s.owned && StaysOwned(s, run, 0, a))
    decreases |run|
  {
    if run != [] {
      var m, rest := Apply(s, run[0]), run[1..];
      StepMovesBlock(s, run[0], a, 0);
      StepKeepsInvariant(s, run[0]);
      hide Invariant, Enabled, Apply, Gives, TakesBack, OwnedSince, StaysOwned;
      OwnedIsGiven(m, rest, r, a);
      OneStepLess(s, run, 0, a, 0);
      if i: nat :| OwnedSince(m, rest, i, a) {
        OneStepLess(s, run, i, a, 0);
      }
      if i: nat :| OwnedSince(s, run, i, a) {
        if i > 0 {
          OneStepLess(s, run, i - 1, a, 0);
        }
      }
    }
  }

  /** A client holds a block for a pool exactly if one got it for that pool and none deallocated it since. */
  lemma {:induction false} HeldIsHandedOut(s: State, run: seq<Step>, r: State, a: Addr, k: nat)
    requires Invariant(s) && Reaches(s, run, r)
    ensures Runs(s, run)
    ensures a in r.held && r.held[a] == k <==>
      (exists i: nat :: HeldSince(s, run, i, a, k)) || (a in s.held && s.held[a] == k && StaysHeld(run, 0, a))
    decreases |run|
  {
    if run != [] {
      var m, rest := Apply(s, run[0]), run[1..];
      StepMovesBlock(s, run[0], a, k);
      StepKeepsInvariant(s, run[0]);
      hide Invariant, Enabled, Apply, Gets, HeldSince, StaysHeld;
      HeldIsHandedOut(m, rest, r, a, k);
      OneStepLess(s, run, 0, a, k);
      if i: nat :| HeldSince(m, rest, i, a, k) {
        OneStepLess(s, run, i, a, k);
      }
      if i: nat :| HeldSince(s, run, i, a, k) {
        if i > 0 {
          OneStepLess(s, run, i - 1, a, k);
        }
      }
    }
  }

  /** From the start: what the system gave and did not get back, and what clients got and did not put back. */
  lemma RunsHandOut(s: State, run: seq<Step>, r: State, a: Addr, k: nat)
    requires Start(s) && Reaches(s, run, r)
    ensures Runs(s, run)
    ensures a in r.owned <==> exists i: nat :: OwnedSince(s, run, i, a)
    ensures a in r.held && r.held[a] == k <==> exists i: nat :: HeldSince(s, run, i, a, k)
  {
    StartIsInvariant(s);
    OwnedIsGiven(s, run, r, a);
    HeldIsHandedOut(s, run, r, a, k);
    hide Enabled, Apply, Invariant, OwnedSince, HeldSince, StaysHeld, StaysOwned;
  }

  // ---------- the steps are those of the pools ----------

  /** The addresses of blocks. */
  ghost function Named(name: Block -> Addr, bs: seq<Block>): (s: seq<Addr>)
    ensures |s| == |bs| && forall i :: 0 <= i < |bs| ==> s[i] == name(bs[i])
  {
    seq(|bs|, i requires 0 <= i < |bs| => name(bs[i]))
  }

  lemma NamedHalves(name: Block -> Addr, bs: seq<Block>)
    ensures Named(name, Evens(bs)) == Evens(Named(name, bs)) && Named(name, Odds(bs)) == Odds(Named(name, bs))
  {
  }

  /** The first section of allocate on a pool is the step PopFree on its free list. */
  method PopStep(pool: Pool, ghost name: Block -> Addr, ghost s: State, ghost t: nat, ghost k: nat)
    returns (r: Block?)
    requires pool.Valid() && k < |s.free| && s.free[k] == Named(name, pool.free)
    modifies pool
    ensures pool.Valid() && Popped(s, t, k).free == s.free[k := Named(name, pool.free)]
    ensures r == null ==> Popped(s, t, k) == s.(phases := s.phases[t := Wanting(k)])
    ensures r != null ==> Popped(s, t, k).held == s.held[name(r) := k] && Popped(s, t, k).phases == s.phases
    ensures Popped(s, t, k).owned == s.owned
  {
    ghost var before := pool.free;
    assert before != [] ==> Named(name, before)[1..] == Named(name, before[1..]);
    r := pool.Pop();
    assert s.free == s.free[k := s.free[k]];
  }

  /** deallocate is the step PutBack; that the client holds the block keeps it from being in the list already. */
  method PutStep(pool: Pool, block: Block, ghost name: Block -> Addr, ghost s: State, ghost k: nat)
    requires pool.Valid() && k < |s.free| && s.free[k] == Named(name, pool.free)
    requires Placed(s) && name(block) in s.held && s.held[name(block)] == k
    modifies pool, block
    ensures pool.Valid() && Put(s, name(block)).free == s.free[k := Named(name, pool.free)]
    ensures Put(s, name(block)) == s.(free := Put(s, name(block)).free, held := s.held - {name(block)})
  {
    ghost var before := pool.free;
    if block in before {
      ghost var i :| 0 <= i < |before| && before[i] == block;
      assert s.free[k][i] == name(block) && InList(s, k, name(block));
    }
    assert Named(name, [block] + before) == [name(block)] + Named(name, before);
    pool.Deallocate(block);
  }

  /** recycle is the step RecycleNext. */
  method RecycleStep(pool: Pool, ghost name: Block -> Addr, ghost s: State, ghost t: nat, ghost p: nat, ghost k: nat)
    returns (released: seq<Block>)
    requires pool.Valid() && k < |s.free| && s.free[k] == Named(name, pool.free)
    modifies pool`free, pool.free
    ensures pool.Valid() && RecycledOne(s, t, p, k).free == s.free[k := Named(name, pool.free)]
    ensures RecycledOne(s, t, p, k).owned == s.owned - Elements(Named(name, released))
    ensures RecycledOne(s, t, p, k).held == s.held
    ensures RecycledOne(s, t, p, k).phases == s.phases[t := Recycling(p, k + 1)]
    ensures released == Odds(old(pool.free)) && pool.free == Evens(old(pool.free))
  {
    hide Evens, Odds;
    NamedHalves(name, pool.free);
    released := pool.Recycle();
  }

  /** The pools, with their free blocks among blocks, are those of the state. */
  ghost predicate Mirrors(pools: seq<Pool>, blocks: set<Block>, name: Block -> Addr, s: State)
    reads pools, blocks
  {
    && |pools| == |s.free|
    && forall k :: 0 <= k < |pools| ==> Mirrored(pools[k], blocks, name, s.free[k])
  }

  ghost predicate Mirrored(pool: Pool, blocks: set<Block>, name: Block -> Addr, list: seq<Addr>)
    reads pool, blocks
  {
    (forall b :: b in pool.free ==> b in blocks) && pool.Valid() && list == Named(name, pool.free)
  }

  lemma {:induction false} OneStepMore(s: State, run: seq<Step>, m: State, step: Step)
    requires Reaches(s, run, m) && Enabled(m, step)
    ensures Reaches(s, run + [step], Apply(m, step))
    decreases |run|
  {
    hide Enabled, Apply;
    if run == [] {
      assert run + [step] == [step];
    } else {
      assert (run + [step])[1..] == run[1..] + [step];
      OneStepMore(Apply(s, run[0]), run[1..], m, step);
    }
  }

  /** Different free lists share no block. */
  lemma ListsAreApart(pools: seq<Pool>, blocks: set<Block>, name: Block -> Addr, s: State, i: nat, j: nat)
    requires Mirrors(pools, blocks, name, s) && Placed(s) && i < |pools| && j < |pools| && i != j
    ensures forall b :: b in pools[i].free ==> b !in pools[j].free
  {
    hide Evens, Odds;
    assert Mirrored(pools[i], blocks, name, s.free[i]) && Mirrored(pools[j], blocks, name, s.free[j]);
    forall b | b in pools[i].free
      ensures b !in pools[j].free
    {
      assert name(b) in s.free[i] && InList(s, i, name(b));
      assert b in pools[j].free ==> name(b) in s.free[j] && InList(s, j, name(b));
    }
  }

  lemma EvensAreInside(bs: seq<Block>)
    ensures forall b :: b in Evens(bs) ==> b in bs
  {
  }

  /** One turn of the loop over all pools: the step RecycleNext of the thread that holds the lock of the pool set. */
  method RecycleNextPool(pools: seq<Pool>, i: nat, ghost blocks: set<Block>, ghost name: Block -> Addr,
                         ghost s: State, ghost t: nat)
    returns (ghost r: State)
    requires Distinct(pools) && i < |pools| && Mirrors(pools, blocks, name, s) && Placed(s)
    requires t in s.phases && s.phases[t].Recycling? && s.phases[t].done == i
    modifies pools[i], pools[i].free
    ensures Enabled(s, RecycleNext(t)) && r == Apply(s, RecycleNext(t)) && Mirrors(pools, blocks, name, r) && Placed(r)
    ensures forall k :: 0 <= k < |pools| ==>
      pools[k].free == if k == i then Evens(old(pools[k].free)) else old(pools[k].free)
  {
    hide Evens, Odds;
    forall k: nat | k < |pools| && k != i
      ensures pools[k] != pools[i] && forall b: Block :: b in pools[i].free ==> b !in pools[k].free
    {
      ListsAreApart(pools, blocks, name, s, i, k);
    }
    assert Mirrored(pools[i], blocks, name, s.free[i]);
    RecycleKeepsPlaces(s, t, s.phases[t].pool, i);
    EvensAreInside(pools[i].free);
    hide Placed, Elements;
    r := Apply(s, RecycleNext(t));
    var released := RecycleStep(pools[i], name, s, t, s.phases[t].pool, i);
    forall k | 0 <= k < |pools|
      ensures Mirrored(pools[k], blocks, name, r.free[k])
    {
      if k == i {
        assert Mirrored(pools[i], blocks, name, r.free[i]);
      } else {
        assert old(Mirrored(pools[k], blocks, name, s.free[k]));
        ghost var free := pools[k].free;
        assert old(Chained(free, null)) && free == old(pools[k].free);
        forall j {:trigger free[j].next} | 0 <= j < |free|
          ensures free[j].next == old(free[j].next)
        {
          assert free[j] in free && free[j] !in old(pools[i].free);
        }
      }
    }
  }

  /** The state after a thread, alone, recycled the first n pools. */
  ghost function AfterTurns(s: State, t: nat, pool: nat, n: nat): (r: State)
    requires n <= |s.free|
    ensures |r.free| == |s.free|
  {
    if n == 0 then s else RecycledOne(AfterTurns(s, t, pool, n - 1), t, pool, n - 1)
  }

  /** Recycling the first n lists gives the block back. */
  ghost predicate InOdds(s: State, n: nat, a: Addr)
    requires n <= |s.free|
  {
    exists k :: 0 <= k < n && a in Odds(s.free[k])
  }

  /** One more list. */
  lemma OneMoreHalved(s: State, n: nat, a: Addr)
    requires n < |s.free|
    ensures InOdds(s, n + 1, a) <==> InOdds(s, n, a) || a in Elements(Odds(s.free[n]))
  {
    hide Odds;
  }

  /** Lists are halved, and every second block of each leaves the ledger. */
  lemma {:induction false} TurnsHalve(s: State, t: nat, pool: nat, n: nat)
    requires Placed(s) && n <= |s.free| && t in s.phases && s.phases[t] == Recycling(pool, 0)
    ensures var r := AfterTurns(s, t, pool, n);
      && Placed(r) && r.held == s.held && r.phases == s.phases[t := Recycling(pool, n)]
      && (forall k :: 0 <= k < |s.free| ==> r.free[k] == if k < n then Evens(s.free[k]) else s.free[k])
      && forall a :: a in r.owned <==> a in s.owned && !InOdds(s, n, a)
  {
    hide Evens, Odds, InOdds, Placed, Elements;
    if n == 0 {
      forall a
        ensures !InOdds(s, 0, a)
      {
        NoneHalved(s, a);
      }
    } else {
      TurnsHalve(s, t, pool, n - 1);
      RecycleKeepsPlaces(AfterTurns(s, t, pool, n - 1), t, pool, n - 1);
      forall a
        ensures InOdds(s, n, a) <==> InOdds(s, n - 1, a) || a in Elements(Odds(s.free[n - 1]))
      {
        OneMoreHalved(s, n - 1, a);
      }
    }
  }

  lemma NoneHalved(s: State, a: Addr)
    ensures !InOdds(s, 0, a)
  {
  }

  /** One turn more is the next step. */
  lemma NextTurn(s: State, t: nat, pool: nat, n: nat)
    requires Placed(s) && n < |s.free| && t in s.phases && s.phases[t] == Recycling(pool, 0)
    ensures var m := AfterTurns(s, t, pool, n);
      && Placed(m) && t in m.phases && m.phases[t] == Recycling(pool, n)
      && Enabled(m, RecycleNext(t)) && Apply(m, RecycleNext(t)) == AfterTurns(s, t, pool, n + 1)
  {
    hide Evens, Odds, Placed, InOdds;
    TurnsHalve(s, t, pool, n);
  }

  /** The turns are a run. */
  lemma {:induction false} TurnsAreSteps(s: State, t: nat, pool: nat, n: nat)
    requires Placed(s) && n <= |s.free| && t in s.phases && s.phases[t] == Recycling(pool, 0)
    ensures Reaches(s, seq(n, _ => RecycleNext(t)), AfterTurns(s, t, pool, n))
  {
    if n > 0 {
      TurnsAreSteps(s, t, pool, n - 1);
      hide Placed, Enabled, Apply, AfterTurns, Reaches;
      NextTurn(s, t, pool, n - 1);
      OneStepMore(s, seq(n - 1, _ => RecycleNext(t)), AfterTurns(s, t, pool, n - 1), RecycleNext(t));
      assert seq(n, _ => RecycleNext(t)) == seq(n - 1, _ => RecycleNext(t)) + [RecycleNext(t)];
    }
  }

  /** static_mem_pool_set::recycle, with no other thread in between. */
  method RecycleAll(pools: seq<Pool>, ghost blocks: set<Block>, ghost name: Block -> Addr,
                    ghost s: State, ghost t: nat, ghost pool: nat)
    requires Distinct(pools) && Mirrors(pools, blocks, name, s) && Placed(s) && t in s.phases
    requires s.phases[t] == Recycling(pool, 0)
    modifies pools, blocks
    ensures |pools| == |s.free| && Mirrors(pools, blocks, name, AfterTurns(s, t, pool, |pools|))
    ensures forall k :: 0 <= k < |pools| ==> pools[k].free == Evens(old(pools[k].free))
  {
    hide Evens, Odds, Placed, Enabled, Apply, RecycledOne;
    assert |pools| == |s.free| && AfterTurns(s, t, pool, 0) == s;
    hide Mirrored, AfterTurns;
    var i := 0;
    while i < |pools|
      invariant i <= |pools| == |s.free|
      invariant Mirrors(pools, blocks, name, AfterTurns(s, t, pool, i))
      invariant forall k :: 0 <= k < |pools| ==>
        pools[k].free == if k < i then Evens(old(pools[k].free)) else old(pools[k].free)
    {
      NextTurn(s, t, pool, i);
      assert pools[i].free == old(pools[i].free);
      ghost var r := RecycleNextPool(pools, i, blocks, name, AfterTurns(s, t, pool, i), t);
      i := i + 1;
    }
  }

  /** The steps of the second section of allocate, with no other thread in between. */
  lemma SectionIsRun(s: State, t: nat, first: Option<Addr>, second: Option<Addr>) returns (run: seq<Step>, r: State)
    requires Invariant(s) && SetUnlocked(s) && t in s.phases && s.phases[t].Wanting? && Answer(s, first)
    requires second.Some? ==> second.value !in s.owned || InOdds(s, |s.free|, second.value)
    ensures var pool, got := s.phases[t].pool, if first.Some? then first else second;
      && Reaches(s, run, r) && r.phases == s.phases[t := Idle] && |r.free| == |s.free|
      && r.held == (if got.Some? then s.held[got.value := pool] else s.held)
      && (got.Some? ==> got.value in r.owned)
      && r.free == if first.Some? then s.free else
           AfterTurns(s.(phases := s.phases[t := Recycling(pool, 0)]), t, pool, |s.free|).free
  {
    hide Evens, Odds;
    var pool, step := s.phases[t].pool, AskSystem(t, first);
    assert Enabled(s, step);
    run, r := [step], Apply(s, step);
    assert run[1..] == [];
    if first.None? {
      SameLists(s, r);
      var n, again, m := |s.free|, AskAgain(t, second), r;
      TurnsHalve(m, t, pool, n);
      TurnsAreSteps(m, t, pool, n);
      var turns, e := seq(n, _ => RecycleNext(t)), AfterTurns(m, t, pool, n);
      hide Placed, AfterTurns, Reaches;
      assert Enabled(e, again);
      OneStepMore(m, turns, e, again);
      run, r := [step] + (turns + [again]), Apply(e, again);
      FirstStep(s, step, turns + [again], r);
    }
  }

  lemma FirstStep(s: State, step: Step, rest: seq<Step>, r: State)
    requires Enabled(s, step) && Reaches(Apply(s, step), rest, r)
    ensures Reaches(s, [step] + rest, r)
  {
    assert ([step] + rest)[1..] == rest;
  }

  /** The second section of allocate, with no other thread in between: first is the answer of the system, second the one
      after the recycling. The client gets the first that is no failure, and the steps of the section are a run. */
  method AllocSys(pools: seq<Pool>, first: Block?, second: Block?, ghost blocks: set<Block>,
                  ghost name: Block -> Addr, ghost s: State, ghost t: nat)
    returns (r: Block?, ghost run: seq<Step>, ghost m: State)
    requires Distinct(pools) && Mirrors(pools, blocks, name, s) && Invariant(s) && SetUnlocked(s)
    requires t in s.phases && s.phases[t].Wanting?
    requires first != null ==> name(first) !in s.owned
    requires second != null ==> |pools| == |s.free| && (name(second) !in s.owned || InOdds(s, |pools|, name(second)))
    modifies pools, blocks
    ensures r == if first != null then first else second
    ensures Reaches(s, run, m) && Mirrors(pools, blocks, name, m) && m.phases == s.phases[t := Idle]
    ensures m.held == if r == null then s.held else s.held[name(r) := s.phases[t].pool]
    ensures r != null ==> name(r) in m.owned
    ensures forall k :: 0 <= k < |pools| ==>
      pools[k].free == if first != null then old(pools[k].free) else Evens(old(pools[k].free))
  {
    hide Evens, Odds, Placed, Distinct;
    r := first;
    run, m := SectionIsRun(s, t, Answered(name, first), Answered(name, second));
    if r == null {
      ghost var start := s.(phases := s.phases[t := Recycling(s.phases[t].pool, 0)]);
      SameLists(s, start);
      RecycleAll(pools, blocks, name, start, t, s.phases[t].pool);
      r := second;
    }
  }

  function Answered(name: Block -> Addr, r: Block?): Option<Addr> { if r == null then None else Some(name(r)) }
}
