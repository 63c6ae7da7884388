/** The collector as it runs: a global state updated in place. */
module GcCollector {
  import opened LuaHeap
  import opened GcMark
  import opened GcState
  import opened GcPropagate
  import opened GcAtomic
  import opened GcFinish
  import opened GcCycle
  import opened GcSweep
  import opened GcSweepStep
  import opened GcStep
  import opened GcRun
  import opened GcSafety
  import opened GcExact
  import GcTheorem

  // ----- following a full collection -----

  ghost predicate PlainHeap(g: State) {
    NoWeak(g) && NoFinalizers(g)
  }

  lemma SweepsPlain(g: State, h: State)
    requires Sweeps(g, h) && PlainHeap(g)
    ensures PlainHeap(h)
  {
    forall r | r in h.objs ensures !IsWeak(h.objs[r]) && (!h.objs[r].hasgc || h.objs[r].finalized) {
      assert SameFlags(g.objs[r], h.objs[r]);
      assert !IsWeak(g.objs[r]);
    }
  }

  /** The mark phase of a collection that started in `s`. */
  ghost predicate MarkStage(s: State, g: State) {
    MarkInv(g, MarkSlack(s)) && SameGraph(s, g) && PlainHeap(g) && g.weak == []
  }

  lemma MarkRootStage(s: State)
    requires Inv(s) && s.phase.Finalize? && PlainHeap(s)
    ensures MarkStage(s, MarkRoot(s)) && SameCells(s, MarkRoot(s))
  {
    hide RootListOk, UpvalsOk, StringsOk, MarkRoot;
    var h := MarkRoot(s);
    ClosedNoDangling(s);
    ReachedClosed(s);
    RootMarksReached(s);
    MarkRootInv(s, MarkSlack(s));
    MarkRootGraph(s);
    var s1 := s.(phase := Propagate);
    assert SameCells(s, h) by { assert SameShape(s1, h); }
    CellsNoWeak(s, h);
    CellsNoFinalizers(s, h);
  }

  lemma RootMarksReached(s: State)
    requires Inv(s)
    ensures forall x :: x in RootMarks(s) ==> x in Reached(s)
  {
    ReachedClosed(s);
    forall x | x in RootMarks(s) ensures x in Reached(s) {
      if x in s.objs[s.main].refs {
        assert s.main in Roots(s);
        assert x in Kids(s, s.main);
      } else {
        assert x in Roots(s);
      }
    }
  }

  lemma MarkRootGraph(s: State)
    requires s.main in s.objs
    ensures SameGraph(s, MarkRoot(s)) && MarkRoot(s).weak == []
  {
    var g0 := s.(gray := [], grayagain := [], weak := []);
    var h := MarkAll(g0, RootMarks(s));
    forall r | r in s.objs ensures Kids(MarkRoot(s), r) == Kids(s, r) {
      SameRefs(s, g0, r);
      MarksKeepRefs(g0, h, r);
      SameRefs(h, MarkRoot(s), r);
    }
  }

  lemma PropagateStage(s: State, g: State)
    requires MarkStage(s, g) && g.gray != []
    ensures g.gray[0] in g.objs && MarkStage(s, PropagateMark(g))
  {
    assert g.gray[0] in Listed(g);
    PropagateMarkInv(g, MarkSlack(s));
    PropagateScans(g);
    PropagateNoWeak(g);
    CellsNoFinalizers(g, PropagateMark(g));
  }

  /** The sweep with which a full collection gives up a mark phase frees nothing. */
  lemma FirstSweepFreesNothing(g: State, h: State)
    requires Inv(g) && (g.phase.Pause? || g.phase.Propagate?) && Sweeps(Abandon(g), h)
    ensures h.objs.Keys == g.objs.Keys
  {
    hide RootListOk, UpvalsOk;
    AbandonSafe(g);
    forall x | x in g.objs ensures x in h.objs {
      assert !IsDead(Abandon(g), x);
    }
  }

  // ----- how far a collection is -----

  function PhaseRank(p: Phase): nat {
    match p
    case Propagate => 4
    case SweepString => 3
    case Sweep => 2
    case Finalize => 1
    case Pause => 0
  }

  ghost function Left(g: State): (nat, nat) {
    match g.phase
    case Propagate => (|Whites(g)|, |g.gray|)
    case SweepString => (if g.sweepstrgc <= |g.strt| then |g.strt| - g.sweepstrgc else 0, 0)
    case Sweep => (|Pending(g)|, 0)
    case Finalize => (|g.tmudata|, 0)
    case Pause => (0, 0)
  }

  ghost predicate Nearer(g: State, h: State) {
    || PhaseRank(h.phase) < PhaseRank(g.phase)
    || (h.phase == g.phase && (Left(h).0 < Left(g).0 || (Left(h).0 == Left(g).0 && Left(h).1 < Left(g).1)))
  }

  lemma PropagateProgress(g: State)
    requires Basic(g) && g.phase.Propagate? && g.gray != [] && g.gray[0] in g.objs
    ensures Nearer(g, PropagateMark(g))
  {
    PropagateMeasure(g);
    PropagateScans(g);
  }

  lemma FinalizeProgress(g: State)
    requires Inv(g) && g.phase.Finalize? && g.tmudata != []
    ensures g.tmudata[0] in g.objs && Nearer(g, CallGCTM(g))
  {
    hide StringsOk, Tri, LiveClosed, PhaseOk, RootListOk, UpvalsOk;
    assert g.tmudata[0] in g.tmudata;
  }

  lemma FewerPending(g: State, h: State)
    requires g.phase.Sweep? && SweepAdvances(g, h)
    ensures Nearer(g, h)
  {
  }

  lemma SweepRootAdvances(g: State)
    requires Inv(g) && g.phase.Sweep?
    ensures SweepAdvances(g, SweepStep(g))
  {
    SweepStepKeeps(g);
  }

  lemma SweepRootProgress(g: State)
    requires Inv(g) && g.phase.Sweep?
    ensures Nearer(g, SweepStep(g))
  {
    SweepRootAdvances(g);
    FewerPending(g, SweepStep(g));
  }

  lemma SweepStringsProgress(g: State)
    requires g.phase.SweepString? && g.sweepstrgc < |g.strt|
    ensures Nearer(g, SweepStrings(g))
  {
  }

  lemma AtomicProgress(g: State)
    requires Inv(g) && g.phase.Propagate?
    ensures Ready(g) && Nearer(g, Atomic(g))
  {
    hide SameCells;
    PropagateReady(g);
  }

  lemma MarkProgress(g: State)
    requires Inv(g) && g.phase.Propagate?
    ensures Nearer(g, SingleStep(g))
  {
    if g.gray != [] {
      assert g.gray[0] in Listed(g);
      PropagateProgress(g);
    } else {
      AtomicProgress(g);
    }
  }

  lemma SweepProgress(g: State)
    requires Inv(g) && Sweeping(g)
    ensures Nearer(g, SingleStep(g))
  {
    if g.phase.Sweep? {
      SweepRootProgress(g);
    } else {
      SweepStringsProgress(g);
    }
  }

  /** Every step outside the pause brings the cycle nearer to its end. */
  lemma StepProgress(g: State)
    requires Inv(g) && !g.phase.Pause?
    ensures Nearer(g, SingleStep(g))
  {
    if g.phase.Propagate? {
      MarkProgress(g);
    } else if g.phase.Finalize? {
      if g.tmudata != [] {
        FinalizeProgress(g);
      }
    } else {
      SweepProgress(g);
    }
  }

  // ----- the stages of a full collection -----

  /** A collection that started in `s`, after its atomic step. */
  ghost predicate SweepStage(s: State, g: State) {
    && g.objs.Keys <= s.objs.Keys && g.tmudata == []
    && (forall x :: x in Reached(s) ==> IsLive(g, x))
    && (forall x :: x in s.objs && s.objs[x].fixed ==> x in g.objs)
    && (forall x :: x in g.objs ==> g.objs[x].fixed == s.objs[x].fixed)
    && (forall x :: x in g.objs && !s.objs[x].fixed && x !in Reached(s) ==> IsDead(g, x))
  }

  ghost predicate Stage(s: State, g: State) {
    if g.phase.Propagate? then MarkStage(s, g) && SameFixed(s, g)
    else if Sweeping(g) then SweepStage(s, g)
    else Collected(s, g) && g.tmudata == []
  }

  ghost predicate SameFixed(s: State, g: State) {
    forall x :: x in s.objs ==> x in g.objs && g.objs[x].fixed == s.objs[x].fixed
  }

  /** What is left is fixed or was accessible. */
  ghost predicate Collected(s: State, g: State) {
    forall x :: x in g.objs <==> x in s.objs && (s.objs[x].fixed || Accessible(s, x))
  }

  lemma SweepStageStep(s: State, g: State, h: State)
    requires SweepStage(s, g) && Sweeps(g, h)
    ensures SweepStage(s, h)
  {
    forall x | x in s.objs && s.objs[x].fixed ensures x in h.objs {
      assert x !in h.objs ==> Freeable(g, x);
    }
    forall x | x in h.objs && !s.objs[x].fixed && x !in Reached(s) ensures IsDead(h, x) {
      assert SameFlags(g.objs[x], h.objs[x]);
      assert Freeable(g, x);
    }
  }

  lemma SweepStageEnd(s: State, h: State)
    requires SweepStage(s, h) && NoDead(h)
    ensures Collected(s, h)
  {
    forall x ensures x in h.objs <==> x in s.objs && (s.objs[x].fixed || Accessible(s, x)) {
      assert x in h.objs ==> !IsDead(h, x);
      assert x in s.objs && Accessible(s, x) ==> x in Reached(s);
    }
  }

  lemma AtomicFixed(s: State, g: State)
    requires Inv(g) && g.phase.Propagate? && SameFixed(s, g) && NoWeak(g) && NoFinalizers(g) && g.weak == []
    ensures Ready(g) && SameFixed(s, Atomic(g)) && Atomic(g).tmudata == []
  {
    PropagateReady(g);
    PlainCleared(g);
    PlainSeparated(g);
    SeparatedFixed(g);
  }

  lemma SeparatedFixed(g: State)
    requires Ready(g) && WellFormed(g)
    ensures SameFixed(g, Separated(g))
  {
    var g1 := Remark(g);
    SameShapeKeeps(g, g1);
    SeparateCells(g1);
    forall x | x in g.objs ensures x in Separated(g).objs && Separated(g).objs[x].fixed == g.objs[x].fixed {
      assert SameCell(g.objs[x], g1.objs[x]);
    }
  }

  lemma SweepStageStart(s: State, a: State)
    requires SameFixed(s, a) && a.tmudata == [] && a.objs.Keys == s.objs.Keys
    requires forall x :: x in s.objs ==> (IsLive(a, x) <==> x in Reached(s))
    ensures SweepStage(s, a)
  {
  }

  lemma AtomicStage(s: State, g: State)
    requires Inv(s) && Inv(g) && g.phase.Propagate? && MarkStage(s, g) && SameFixed(s, g)
    ensures Ready(g) && SweepStage(s, Atomic(g))
  {
    hide RootsOk, SameCells;
    AtomicFixed(s, g);
    AtomicExact(s, g);
    SweepStageStart(s, Atomic(g));
  }

  lemma PropagateFixed(s: State, g: State)
    requires MarkStage(s, g) && SameFixed(s, g) && g.gray != [] && g.gray[0] in g.objs
    ensures SameFixed(s, PropagateMark(g))
  {
    PropagateScans(g);
    forall x | x in g.objs ensures x in PropagateMark(g).objs && PropagateMark(g).objs[x].fixed == g.objs[x].fixed {
      assert SameCell(g.objs[x], PropagateMark(g).objs[x]);
    }
  }

  lemma MarkStageStep(s: State, g: State)
    requires Inv(s) && Inv(g) && g.phase.Propagate? && Stage(s, g)
    ensures Stage(s, SingleStep(g))
  {
    hide WellFormed, LiveClosed, PhaseOk, SameFixed, SweepStage, Collected, MarkRoot, PropagateMark, SweepingStep,
         CallGCTM, Cleared;
    if g.gray != [] {
      PropagateStage(s, g);
      PropagateFixed(s, g);
      PropagateScans(g);
    } else {
      AtomicStage(s, g);
    }
  }

  lemma SweepStageNext(s: State, g: State, h: State)
    requires SweepStage(s, g) && Sweeps(g, h) && (Sweeping(h) || (h.phase.Finalize? && NoDead(h)))
    ensures Stage(s, h)
  {
    SweepStageStep(s, g, h);
    if !Sweeping(h) {
      SweepStageEnd(s, h);
    }
  }

  lemma InvNoDead(g: State)
    requires Inv(g) && g.phase.Finalize?
    ensures NoDead(g)
  {
  }

  lemma SweepingResult(g: State)
    requires Inv(g) && Sweeping(g)
    ensures Sweeps(g, SweepingStep(g))
    ensures Sweeping(SweepingStep(g)) || (SweepingStep(g).phase.Finalize? && NoDead(SweepingStep(g)))
  {
    SweepingStepKeeps(g);
    SweepingEnds(g);
    if !Sweeping(SweepingStep(g)) {
      InvNoDead(SweepingStep(g));
    }
  }

  lemma SweepingStageStep(s: State, g: State)
    requires Inv(g) && Sweeping(g) && SweepStage(s, g)
    ensures Stage(s, SweepingStep(g)) && SingleStep(g) == SweepingStep(g)
  {
    SweepingResult(g);
    SweepStageNext(s, g, SweepingStep(g));
  }

  lemma SweepingEnds(g: State)
    requires Inv(g) && Sweeping(g)
    ensures Sweeping(SweepingStep(g)) || SweepingStep(g).phase.Finalize?
  {
    if g.phase.Sweep? {
      SweepRootAdvances(g);
    }
  }

  lemma StageStep(s: State, g: State)
    requires Inv(s) && Inv(g) && !g.phase.Pause? && Stage(s, g)
    ensures Stage(s, SingleStep(g))
  {
    if g.phase.Propagate? {
      MarkStageStep(s, g);
    } else if Sweeping(g) {
      SweepingStageStep(s, g);
    } else {
      FinalizeStageStep(s, g);
    }
  }

  lemma CycleStart(s: State)
    requires Inv(s) && s.phase.Finalize?
    ensures Inv(MarkRoot(s)) && (PlainHeap(s) ==> Stage(s, MarkRoot(s)))
  {
    MarkRootKeeps(s);
    if PlainHeap(s) {
      StageStart(s);
    }
  }

  lemma StageEnd(s: State, g: State)
    requires Stage(s, g) && g.phase.Pause?
    ensures Collected(s, g)
  {
  }

  lemma FinalizeStageStep(s: State, g: State)
    requires Inv(g) && g.phase.Finalize? && Stage(s, g)
    ensures Stage(s, SingleStep(g))
  {
    hide RootListOk, UpvalsOk, StringsOk, RootsOk;
  }

  lemma CycleStep(s: State, g: State, plain: bool)
    requires Inv(s) && Inv(g) && !g.phase.Pause? && (plain ==> Stage(s, g))
    ensures Inv(SingleStep(g)) && Nearer(g, SingleStep(g)) && (plain ==> Stage(s, SingleStep(g)))
  {
    hide RootListOk, Stage, Nearer, LiveClosed, PhaseOk, WellFormed;
    StepProgress(g);
    StepKeeps(g, CollectorStep);
    if plain {
      StageStep(s, g);
    }
  }

  lemma StageStart(s: State)
    requires Inv(s) && s.phase.Finalize? && PlainHeap(s)
    ensures Stage(s, MarkRoot(s))
  {
    hide MarkStage;
    MarkRootStage(s);
    CellsFixed(s, MarkRoot(s));
  }

  lemma CellsFixed(s: State, h: State)
    requires SameCells(s, h)
    ensures SameFixed(s, h)
  {
    forall x | x in s.objs ensures x in h.objs && h.objs[x].fixed == s.objs[x].fixed {
      assert SameCell(s.objs[x], h.objs[x]);
    }
  }

  /** A sweep before the collection changes nothing of what the collection keeps. */
  lemma CollectedBefore(g: State, s: State, h: State)
    requires LiveClosed(g) && Sweeps(g, s) && Collected(s, h)
    ensures Collected(g, h)
  {
    forall x ensures x in h.objs <==> x in g.objs && (g.objs[x].fixed || Accessible(g, x)) {
      if Accessible(g, x) {
        AccessibleIsLive(g, x);
        AccessibleAfter(g, s, x);
      }
      if Accessible(s, x) {
        AccessibleBefore(g, s, x);
      }
      if x in s.objs {
        assert SameFlags(g.objs[x], s.objs[x]);
      } else if x in g.objs {
        assert Freeable(g, x);
      }
    }
  }

  lemma CollectedAbandon(g: State, h: State)
    requires Inv(g) && Collected(Abandon(g), h)
    ensures Collected(g, h)
  {
    var s := Abandon(g);
    assert Roots(s) == Roots(g);
    forall r | IsLive(g, r) ensures IsLive(s, r) && Kids(s, r) == Kids(g, r) {
      SameRefs(g, s, r);
    }
    forall x | x in s.objs && Freeable(g, x) ensures IsDead(s, x) {
    }
    assert Sweeps(g, s);
    CollectedBefore(g, s, h);
  }

  class Collector {
    var g: State
    const code: State -> seq<Op>         // what the finalizer that is called in a state does

    constructor (hash: string -> nat, code: State -> seq<Op>)
      ensures g == GcTheorem.InitialState(hash) && Inv(g) && this.code == code
    {
      GcTheorem.InitialInv(hash);
      g := GcTheorem.InitialState(hash);
      this.code := code;
    }

    ghost predicate Scripts() {
      forall s :: Inv(s) && s.phase.Finalize? ==> Scripted(s, code(s))
    }

    /** The call in GCTM. */
    method RunFinalizer()
      requires Inv(g) && g.phase.Finalize? && Scripts()
      modifies this`g
      ensures Inv(g) && SameCycle(old(g), g)
    {
      hide Inv;
      var ops := code(g);
      var i := 0;
      assert ops[0..] == ops;
      while i < |ops|
        invariant 0 <= i <= |ops| && Scripted(g, ops[i..]) && SameCycle(old(g), g)
      {
        ProgramCycle(g, ops[i]);
        assert ops[i..][1..] == ops[i + 1..];
        g := Apply(g, ops[i]);
        i := i + 1;
      }
    }

    /** propagateall. */
    method PropagateGrays()
      requires Basic(g)
      modifies this`g
      ensures g == PropagateAll(old(g)) && g.gray == []
    {
      while g.gray != []
        invariant Basic(g) && PropagateAll(g) == PropagateAll(old(g))
        decreases |Whites(g)|, |g.gray|
      {
        assert g.gray[0] in Listed(g);
        PropagateScans(g);
        PropagateMeasure(g);
        g := PropagateMark(g);
      }
    }

    /** sweeplist on a whole chain `l`: what is left of the chain, with dead objects
        freed and the others white. */
    method SweepWholeList(l: seq<Ref>) returns (rest: seq<Ref>)
      requires Distinct(l) && forall r :: r in l ==> r in g.objs
      modifies this
      ensures g == old(g).(objs := SweepCells(old(g), l))
      ensures rest == Survivors(old(g), l)
    {
      rest := [];
      var i := 0;
      assert SweepCells(g, []) == g.objs;
      while i < |l|
        invariant 0 <= i <= |l|
        invariant g == old(g).(objs := SweepCells(old(g), l[..i]))
        invariant rest == Survivors(old(g), l[..i])
      {
        var r := l[i];
        assert l[..i + 1] == l[..i] + [r];
        SurvivorsSnoc(old(g), l[..i], r);
        SweepCellsSnoc(old(g), l[..i], r);
        if Freeable(g, r) {
          g := g.(objs := g.objs - {r});
        } else {
          g := SetColor(g, r, White(g.cur));
          rest := rest + [r];
        }
        i := i + 1;
      }
      assert l[..i] == l;
    }

    /** Single steps until the sweep under way is over; a mark phase is given up for
        a sweep that frees nothing. */
    method FinishSweep()
      requires Inv(g)
      modifies this`g
      ensures Inv(g) && g.phase.Finalize? && (PlainHeap(old(g)) ==> PlainHeap(g))
      ensures old(g).phase.Pause? || old(g).phase.Propagate? ==> g.objs.Keys == old(g).objs.Keys
      ensures forall h :: Collected(g, h) ==> Collected(old(g), h)
    {
      hide Inv;
      ghost var first := g;
      if g.phase.Pause? || g.phase.Propagate? {
        AbandonSafe(g);
        g := Abandon(g);
      }
      ghost var start := g;
      StartsSweep(first, start);
      SweepsRefl(g);
      while !g.phase.Finalize?
        invariant Inv(g) && (Sweeping(g) || g.phase.Finalize?) && Sweeps(start, g)
        decreases PhaseRank(g.phase), Left(g).0, Left(g).1
      {
        SweepStepsKeep(g);
        SweepProgress(g);
        SweepingEnds(g);
        SweepsTrans(start, g, SweepingStep(g));
        g := SingleStep(g);
      }
      SweptFrom(first, start, g);
    }

    /** Single steps up to the next pause, in a cycle that started in `s`; whatever
        the finalizers do in between. */
    method RunToPause(ghost s: State, ghost plain: bool)
      requires Inv(s) && Inv(g) && (plain ==> Stage(s, g)) && Scripts()
      modifies this`g
      ensures Inv(g) && g.phase.Pause? && (plain ==> Stage(s, g))
    {
      hide Inv, Stage, Scripted;
      while !g.phase.Pause?
        invariant Inv(g) && (plain ==> Stage(s, g))
        decreases PhaseRank(g.phase), Left(g).0, Left(g).1
      {
        var calls := CallsFinalizer(g);
        CycleStep(s, g, plain);
        if plain {
          NoCalls(s, g);
        }
        if calls {
          FinalizerStep(g);
        }
        g := SingleStep(g);
        if calls {
          RunFinalizer();
        }
      }
    }

    /** luaC_fullgc.  From every state it ends, in the pause, with the invariant,
        whatever finalizers do.  In a heap without weak tables and finalizers it
        leaves exactly the fixed and the accessible objects.  The first sweep, after
        which the state is `swept`, frees nothing if no sweep was under way. */
    method FullGc() returns (ghost swept: State)
      requires Inv(g) && Scripts()
      modifies this`g
      ensures Inv(g) && g.phase.Pause?
      ensures old(g).phase.Pause? || old(g).phase.Propagate? ==> swept.objs.Keys == old(g).objs.Keys
      ensures PlainHeap(old(g)) ==> Collected(old(g), g)
    {
      hide Inv, Scripted, Stage, Collected, PlainHeap;
      FinishSweep();
      swept := g;
      ghost var plain := PlainHeap(g);
      CycleStart(g);
      HasRoots(g);
      g := MarkRoot(g);
      RunToPause(swept, plain);
      if plain {
        StageEnd(swept, g);
      }
    }
  }

  lemma NoCalls(s: State, g: State)
    requires Stage(s, g)
    ensures g.tmudata == []
  {
  }

  lemma FinalizerStep(g: State)
    requires Inv(g) && CallsFinalizer(g)
    ensures SingleStep(g).phase.Finalize?
  {
    hide WellFormed, LiveClosed, PhaseOk;
  }

  /** What a full collection sweeps first. */
  lemma StartsSweep(g: State, start: State)
    requires Inv(g) && Inv(start) && start == if g.phase.Pause? || g.phase.Propagate? then Abandon(g) else g
    ensures Sweeping(start) || start.phase.Finalize?
  {
  }

  lemma SweptFrom(g: State, start: State, h: State)
    requires Inv(g) && Inv(start) && start == (if g.phase.Pause? || g.phase.Propagate? then Abandon(g) else g)
    requires Sweeps(start, h)
    ensures PlainHeap(g) ==> PlainHeap(h)
    ensures g.phase.Pause? || g.phase.Propagate? ==> h.objs.Keys == g.objs.Keys
    ensures forall k :: Collected(h, k) ==> Collected(g, k)
  {
    hide WellFormed, LiveClosed, PhaseOk, Collected, Sweeps;
    if PlainHeap(g) {
      AbandonPlain(g);
      SweepsPlain(start, h);
    }
    if g.phase.Pause? || g.phase.Propagate? {
      FirstSweepFreesNothing(g, h);
    }
    forall k | Collected(h, k) ensures Collected(g, k) {
      InvClosed(start);
      CollectedBefore(start, h, k);
      if start != g {
        CollectedAbandon(g, k);
      }
    }
  }

  lemma InvClosed(g: State)
    requires Inv(g)
    ensures LiveClosed(g)
  {
  }

  lemma HasRoots(g: State)
    requires Inv(g)
    ensures g.main in g.objs
  {
  }

  lemma AbandonPlain(g: State)
    requires PlainHeap(g)
    ensures PlainHeap(Abandon(g))
  {
  }

  predicate CallsFinalizer(g: State) {
    g.phase.Finalize? && g.tmudata != [] && g.tmudata[0] in g.objs && g.objs[g.tmudata[0]].hasgc
  }

  lemma SweepCellsSnoc(g: State, l: seq<Ref>, r: Ref)
    requires r !in l && r in g.objs
    ensures r in SweepCells(g, l) && SweepCells(g, l)[r] == g.objs[r]
    ensures SweepCells(g, l + [r]) == if Freeable(g, r) then SweepCells(g, l) - {r}
                                      else SweepCells(g, l)[r := g.objs[r].(color := White(g.cur))]
  {
  }

  lemma {:induction false} SurvivorsSnoc(g: State, l: seq<Ref>, r: Ref)
    ensures Survivors(g, l + [r]) == Survivors(g, l) + if Freeable(g, r) then [] else [r]
  {
    if l == [] {
      assert l + [r] == [r];
      assert Survivors(g, [r]) == (if Freeable(g, r) then [] else [r]) + Survivors(g, []);
    } else {
      assert (l + [r])[0] == l[0] && (l + [r])[1..] == l[1..] + [r];
      SurvivorsSnoc(g, l[1..], r);
    }
  }
}
