/** Whole runs: collector steps interleaved with what programs do. */
module GcRun {
  import opened LuaHeap
  import opened GcMark
  import opened GcState
  import opened GcPropagate
  import opened GcAtomic
  import opened GcFinish
  import opened GcCycle
  import opened GcSweep
  import opened GcUpval
  import opened GcUpdate
  import opened GcStore
  import opened GcSweepRoot
  import opened GcSweepStep
  import opened GcStep
  import opened GcAlloc

  // ----- putting a value on the stack of the running thread -----

  function Push(g: State, v: Val): State
    requires g.running in g.objs
  {
    SetStack(g, g.running, g.objs[g.running].stack + [v])
  }

  lemma PushedLive(g: State, t: Ref, v: Val)
    requires LiveClosed(g) && IsLive(g, t) && AllLive(g, ValRefs(v))
    ensures AllLive(g, StackRefs(g.objs[t].stack + [v]))
  {
    var st := g.objs[t].stack + [v];
    assert st[..|st| - 1] == g.objs[t].stack;
    assert AllLive(g, Kids(g, t));
    assert forall x :: x in StackRefs(g.objs[t].stack) ==> x in Kids(g, t);
  }

  lemma PushedBelow(g: State, t: Ref, n: nat)
    requires UpvalsOk(g) && t in g.objs && n >= |g.objs[t].stack|
    ensures OpenBelow(g, t, n)
  {
    assert OpenListOk(g, t);
    assert forall u :: u in g.objs[t].openupval ==> OpenAt(g, u, t);
  }

  lemma PushKeeps(g: State, v: Val)
    requires Inv(g) && AllLive(g, ValRefs(v))
    ensures Inv(Push(g, v)) && Push(g, v).objs.Keys == g.objs.Keys
    ensures forall x :: IsLive(g, x) ==> IsLive(Push(g, v), x)
  {
    var t := g.running;
    assert t in Roots(g);
    PushedLive(g, t, v);
    PushedBelow(g, t, |g.objs[t].stack + [v]|);
    SetStackKeeps(g, t, g.objs[t].stack + [v]);
    SetStackLive(g, t, g.objs[t].stack + [v]);
  }

  lemma SetStackLive(g: State, t: Ref, st: seq<Val>)
    requires t in g.objs
    ensures SetStack(g, t, st).objs.Keys == g.objs.Keys
    ensures forall x :: IsLive(g, x) ==> IsLive(SetStack(g, t, st), x)
  {
  }

  // ----- GCSfinalize -----

  /** GCTM up to the call of the finalizer: the first waiting userdata goes back
      to the list, white, and onto the stack of the running thread. */
  function ReturnUdata(g: State): State
    requires g.main in g.rootgc && g.tmudata != [] && g.tmudata[0] in g.objs
  {
    var u := g.tmudata[0];
    LinkUdata(SetColor(g, u, White(g.cur)).(tmudata := g.tmudata[1..]), u)
  }

  function CallGCTM(g: State): State
    requires g.main in g.rootgc && g.running in g.objs && g.tmudata != [] && g.tmudata[0] in g.objs
  {
    var u := g.tmudata[0];
    if g.objs[u].hasgc then Push(ReturnUdata(g), Obj(u)) else ReturnUdata(g)
  }

  lemma ReturnUdataCells(g: State)
    requires Kinds(g) && g.main in g.rootgc && g.tmudata != [] && g.tmudata[0] in g.objs
    ensures var h := ReturnUdata(g);
            && SameCells(g, h) && Kinds(h)
            && h.rootgc == SplitAtMain(g).0 + [g.tmudata[0]] + SplitAtMain(g).1
  {
    hide LinkUdata, SplitAtMain;
    var u := g.tmudata[0];
    LinkUdataLinks(g, SetColor(g, u, White(g.cur)).(tmudata := g.tmudata[1..]), u);
    assert forall q :: q in g.objs ==> Shaped(g.objs[q]);
  }

  lemma ReturnUdataLists(g: State)
    requires RootsOk(g) && RootListOk(g) && Kinds(g) && g.tmudata != [] && g.tmudata[0] in g.objs
    ensures RootsOk(ReturnUdata(g)) && RootListOk(ReturnUdata(g))
  {
    hide SameCells;
    var h := ReturnUdata(g);
    var u := g.tmudata[0];
    ReturnUdataCells(g);
    SameKinds(g, h);
    assert g.tmudata == [u] + g.tmudata[1..];
    Behead(g.tmudata[1..], u);
    assert u in g.tmudata;
    LinkedUdata(g, h, u, SplitAtMain(g).0, SplitAtMain(g).1);
  }

  lemma ReturnUdataKids(g: State, q: Ref)
    requires g.main in g.rootgc && g.tmudata != [] && g.tmudata[0] in g.objs && q in g.objs
    ensures Kids(ReturnUdata(g), q) == Kids(g, q)
  {
    assert OpenRefs(ReturnUdata(g), ReturnUdata(g).objs[q]) == OpenRefs(g, g.objs[q]);
  }

  lemma ReturnUdataWhite(g: State)
    requires NoDead(g) && AllWhite(g) && g.main in g.rootgc && g.tmudata != [] && g.tmudata[0] in g.objs
    ensures NoDead(ReturnUdata(g)) && AllWhite(ReturnUdata(g))
  {
    var u := g.tmudata[0];
    assert forall q :: q in g.objs ==> !IsDead(g, q);
    assert forall q :: q in g.tmudata <==> q == u || q in g.tmudata[1..] by {
      assert g.tmudata == [u] + g.tmudata[1..];
    }
  }

  lemma ReturnUdataDangling(g: State)
    requires NoDangling(g) && g.main in g.rootgc && g.tmudata != [] && g.tmudata[0] in g.objs
    ensures NoDangling(ReturnUdata(g)) && ReturnUdata(g).objs.Keys == g.objs.Keys
  {
    forall q | q in g.objs ensures Kids(ReturnUdata(g), q) == Kids(g, q) {
      ReturnUdataKids(g, q);
    }
  }

  lemma ReturnUdataShape(g: State)
    requires WellFormed(g) && g.tmudata != [] && g.tmudata[0] in g.objs
    ensures WellFormed(ReturnUdata(g))
  {
    ReturnUdataLists(g);
    ReturnUdataCells(g);
    SameStrings(g, ReturnUdata(g));
    SameUpvals(g, ReturnUdata(g));
  }

  lemma ReturnUdataKeeps(g: State)
    requires Inv(g) && g.phase.Finalize? && g.tmudata != []
    ensures g.tmudata[0] in g.objs && Inv(ReturnUdata(g)) && ReturnUdata(g).objs.Keys == g.objs.Keys
  {
    hide RootListOk, UpvalsOk;
    assert g.tmudata[0] in g.tmudata;
    ReturnUdataShape(g);
    ReturnUdataWhite(g);
    ClosedNoDangling(g);
    ReturnUdataDangling(g);
    NoDeadClosed(ReturnUdata(g));
  }

  lemma CallGCTMKeeps(g: State)
    requires Inv(g) && g.phase.Finalize? && g.tmudata != []
    ensures g.tmudata[0] in g.objs && Inv(CallGCTM(g)) && CallGCTM(g).objs.Keys == g.objs.Keys
  {
    hide RootListOk, UpvalsOk;
    ReturnUdataKeeps(g);
    var h := ReturnUdata(g);
    assert !IsDead(h, g.tmudata[0]);
    assert IsLive(h, g.tmudata[0]);
    PushKeeps(h, Obj(g.tmudata[0]));
  }

  // ----- singlestep -----

  function SingleStep(g: State): State
    requires Inv(g)
  {
    match g.phase
    case Pause => MarkRoot(g)
    case Propagate =>
      if g.gray != [] then
        PropagateKeeps(g);
        PropagateMark(g)
      else
        PropagateReady(g);
        Atomic(g)
    case SweepString => SweepingStep(g)
    case Sweep => SweepingStep(g)
    case Finalize =>
      if g.tmudata != [] then
        assert g.tmudata[0] in g.tmudata;
        CallGCTM(g)
      else g.(phase := Pause)
  }

  function SweepingStep(g: State): State
    requires Inv(g) && Sweeping(g)
  {
    if g.phase.SweepString? then SweepStrings(g) else SweepStep(g)
  }

  lemma EndCycle(g: State)
    requires Inv(g) && g.phase.Finalize?
    ensures Inv(g.(phase := Pause))
  {
    hide RootListOk, UpvalsOk, StringsOk;
    PhaseWellFormed(g, Pause);
    PhaseLive(g, Pause);
    assert forall r :: r in g.objs ==> !IsDead(g, r);
  }

  /** A step of the mark phase or of the finalizers frees nothing. */
  lemma MarkStepKeeps(g: State)
    requires Inv(g) && !Sweeping(g)
    ensures Inv(SingleStep(g)) && SingleStep(g).objs.Keys == g.objs.Keys
  {
    match g.phase
    case Pause => MarkRootKeeps(g);
      MarkRootDarkens(g);
    case Propagate =>
      if g.gray != [] {
        PropagateKeeps(g);
        PropagateScans(g);
      } else {
        AtomicKeeps(g);
        AtomicKeys(g);
      }
    case Finalize =>
      if g.tmudata != [] {
        CallGCTMKeeps(g);
      } else {
        EndCycle(g);
      }
  }

  lemma AtomicKeys(g: State)
    requires Inv(g) && g.phase.Propagate?
    ensures Ready(g) && Atomic(g).objs.Keys == g.objs.Keys
  {
    hide RootListOk, UpvalsOk, StringsOk, MarkInv;
    var all := g.objs.Keys;
    var e := Slack({}, all, all, all, all);
    assert WithBlack(e, g.tmudata) == MutatorSlack(g);
    PropagateReady(g);
    assert MayBeMarked(g, all);
    ClearedShape(g, e);
  }

  ghost predicate SweptTo(g: State, h: State) {
    Inv(h) && Sweeps(g, h)
  }

  lemma SweepStringStep(g: State)
    requires Inv(g) && g.phase.SweepString?
    ensures SweptTo(g, SweepStrings(g))
  {
    hide RootListOk;
    SweepStringsKeeps(g);
    SweepStringsSweeps(g);
  }

  lemma SweepRootStep(g: State)
    requires Inv(g) && g.phase.Sweep?
    ensures SweptTo(g, SweepStep(g))
  {
    SweepStepKeeps(g);
  }

  lemma SweepingStepKeeps(g: State)
    requires Inv(g) && Sweeping(g)
    ensures SweptTo(g, SweepingStep(g))
  {
    if g.phase.SweepString? {
      SweepStringStep(g);
    } else {
      SweepRootStep(g);
    }
  }

  lemma SweepStepsKeep(g: State)
    requires Inv(g) && Sweeping(g)
    ensures SingleStep(g) == SweepingStep(g) && SweptTo(g, SweepingStep(g))
  {
    SweepingStepKeeps(g);
  }

  /** Every step of the collector keeps the invariant and frees only what the
      program cannot reach. */
  lemma SingleStepSafe(g: State, x: Ref)
    requires Inv(g) && Accessible(g, x)
    ensures Inv(SingleStep(g)) && x in g.objs && x in SingleStep(g).objs
  {
    AccessibleIsLive(g, x);
    if Sweeping(g) {
      SweepStepsKeep(g);
    } else {
      MarkStepKeeps(g);
    }
  }
}
