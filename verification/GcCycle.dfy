/** The steps of the mark phase keep the invariant of the state. */
module GcCycle {
  import opened LuaHeap
  import opened GcMark
  import opened GcState
  import opened GcPropagate
  import opened GcClear
  import opened GcAtomic
  import opened GcFinish

  /** Colours change from white to not white only. */
  ghost predicate Darkens(g: State, h: State) {
    && h.objs.Keys == g.objs.Keys && h.cur == g.cur
    && (forall r :: r in g.objs ==> h.objs[r].color == g.objs[r].color || NonWhite(h, r))
  }

  lemma DarkensNoDead(g: State, h: State)
    requires Darkens(g, h) && NoDead(g)
    ensures NoDead(h)
  {
    assert forall r :: r in g.objs ==> !IsDead(g, r);
  }

  /** Without dead objects, live means allocated. */
  lemma NoDeadClosed(g: State)
    requires NoDead(g) && RootsOk(g) && NoDangling(g)
    ensures LiveClosed(g)
  {
    assert forall r :: r in g.objs ==> !IsDead(g, r);
  }

  lemma ClosedNoDangling(g: State)
    requires NoDead(g) && LiveClosed(g)
    ensures NoDangling(g)
  {
    forall r, x | r in g.objs && x in Kids(g, r) ensures x in g.objs {
      assert !IsDead(g, r);
      assert IsLive(g, r);
      assert AllLive(g, Kids(g, r));
    }
  }

  // ----- GCSpause: markroot -----

  lemma MarkRootKeeps(g: State)
    requires Inv(g) && (g.phase.Pause? || g.phase.Finalize?)
    ensures Inv(MarkRoot(g))
  {
    hide RootListOk, UpvalsOk, StringsOk, Kinds, NoDead, LiveClosed, NoDangling, PropagateOk, Darkens, SameShape;
    var h := MarkRoot(g);
    ClosedNoDangling(g);
    MarkRootStarts(g);
    MarkRootShape(g);
    MarkRootDarkens(g);
    DarkensNoDead(g, h);
    MarkPhase(h);
  }

  lemma MarkPhase(h: State)
    requires WellFormed(h) && NoDead(h) && PropagateOk(h) && h.phase.Propagate?
    ensures Inv(h)
  {
    hide RootListOk, UpvalsOk, StringsOk;
    NoDeadClosed(h);
  }

  lemma MarkRootShape(g: State)
    requires WellFormed(g) && SameShape(g.(phase := Propagate), MarkRoot(g)) && Kinds(MarkRoot(g))
    ensures WellFormed(MarkRoot(g))
  {
    PhaseWellFormed(g, Propagate);
    ShapeWellFormed(g.(phase := Propagate), MarkRoot(g));
  }

  lemma MarkRootStarts(g: State)
    requires WellFormed(g) && NoDangling(g) && AllWhite(g)
    ensures PropagateOk(MarkRoot(g)) && SameShape(g.(phase := Propagate), MarkRoot(g)) && Kinds(MarkRoot(g))
  {
    hide RootListOk, UpvalsOk, StringsOk;
    RootMarksIn(g);
    MarkRootInv(g, MutatorSlack(g));
    assert MutatorSlack(MarkRoot(g)) == MutatorSlack(g);
  }

  lemma RootMarksIn(g: State)
    requires RootsOk(g) && NoDangling(g)
    ensures forall x :: x in RootMarks(g) ==> x in g.objs
  {
    forall x | x in g.objs[g.main].refs ensures x in g.objs {
      assert x in Kids(g, g.main);
    }
  }

  lemma MarkRootDarkens(g: State)
    requires g.main in g.objs
    ensures Darkens(g, MarkRoot(g))
  {
    var g0 := g.(gray := [], grayagain := [], weak := []);
    assert Marks(g0, MarkAll(g0, RootMarks(g)));
  }

  lemma PhaseWellFormed(g: State, p: Phase)
    requires WellFormed(g)
    ensures WellFormed(g.(phase := p))
  {
    var h := g.(phase := p);
    assert SameCells(g, h) by {
      assert forall r :: r in g.objs ==> Shaped(g.objs[r]);
    }
    WellFormedFrame(g, h);
  }

  // ----- GCSpropagate: propagatemark -----

  lemma PropagateKeeps(g: State)
    requires Inv(g) && g.phase.Propagate? && g.gray != []
    ensures g.gray[0] in g.objs && Inv(PropagateMark(g))
  {
    assert g.gray[0] in Listed(g);
    var h := PropagateMark(g);
    PropagateMarkInv(g, MutatorSlack(g));
    PropagateScans(g);
    SameShapeKeeps(g, h);
    DarkensNoDead(g, h);
    NoDeadClosed(h);
    assert MutatorSlack(h) == MutatorSlack(g);
  }

  // ----- GCSpropagate: atomic -----

  lemma PropagateReady(g: State)
    requires WellFormed(g) && PropagateOk(g)
    ensures Ready(g)
  {
  }

  lemma SeparatedDarkens(g: State)
    requires Ready(g) && WellFormed(g)
    ensures Darkens(g, Separated(g))
  {
    var g1 := Remark(g);
    SameShapeKeeps(g, g1);
    SeparateCells(g1);
  }

  lemma ClearedShape(g: State, e: Slack)
    requires Ready(g) && WellFormed(g) && MarkInv(g, WithBlack(e, g.tmudata)) && e.black == {}
    requires MayBeMarked(g, e.within)
    ensures WellFormed(Cleared(g)) && Darkens(g, Cleared(g))
  {
    var h0, h1, h := Separated(g), FinishMarks(g), Cleared(g);
    ClearedClosed(g, e);
    ShapeWellFormed(h0, h1);
    ShapeWellFormed(h1, h);
    SeparatedDarkens(g);
    DarkensTrans(g, h0, h1);
    DarkensTrans(g, h1, h);
  }

  lemma ShapeWellFormed(g: State, h: State)
    requires WellFormed(g) && SameShape(g, h) && Kinds(h)
    ensures WellFormed(h)
  {
    SameShapeKeeps(g, h);
  }

  lemma DarkensTrans(g: State, h: State, k: State)
    requires Darkens(g, h) && (Scans(h, k) || Clears(h, k))
    ensures Darkens(g, k)
  {
    forall r | r in g.objs ensures k.objs[r].color == g.objs[r].color || NonWhite(k, r) {
      assert r in h.objs;
    }
  }

  lemma ClearedRoots(g: State, e: Slack)
    requires Ready(g) && WellFormed(g) && MarkInv(g, WithBlack(e, g.tmudata)) && e.black == {}
    requires MayBeMarked(g, e.within) && NonWhite(g, g.main) && NonWhite(g, g.registry)
    ensures AllNonWhite(Cleared(g), Roots(Cleared(g)))
  {
    ClearedClosed(g, e);
    FinishRoots(g);
    assert Roots(Cleared(g)) == Roots(FinishMarks(g));
  }

  /** Flipping the white: what is unmarked is dead, the rest live. */
  lemma FlipKeeps(g: State)
    requires WellFormed(g) && NoDead(g) && MarkedClosed(g) && AllNonWhite(g, Roots(g))
    ensures Inv(FlipWhite(g))
    ensures forall r :: r in g.objs ==> (IsLive(FlipWhite(g), r) <==> NonWhite(g, r))
  {
    var h := FlipWhite(g);
    FlipWellFormed(g);
    forall r | r in g.objs ensures IsLive(h, r) <==> NonWhite(g, r) {
      assert !IsDead(g, r);
    }
    FlipClosed(g);
    forall r | r in h.objs && r !in h.tmudata ensures Unswept(h, r) {
      assert h.rootgc[h.sweepgc..] == h.rootgc;
    }
  }

  lemma FlipClosed(g: State)
    requires MarkedClosed(g) && AllNonWhite(g, Roots(g))
    requires forall r :: r in g.objs ==> (IsLive(FlipWhite(g), r) <==> NonWhite(g, r))
    ensures LiveClosed(FlipWhite(g))
  {
    var h := FlipWhite(g);
    assert Roots(h) == Roots(g);
    forall r | IsLive(h, r) ensures AllLive(h, Kids(h, r)) {
      SameRefs(g, h, r);
      assert NonWhite(g, r);
    }
  }

  lemma FlipWellFormed(g: State)
    requires WellFormed(g)
    ensures WellFormed(FlipWhite(g))
  {
    var h := FlipWhite(g);
    assert SameCells(g, h) by {
      assert forall r :: r in g.objs ==> Shaped(g.objs[r]);
    }
    WellFormedFrame(g, h);
  }

  lemma AtomicKeeps(g: State)
    requires Inv(g) && g.phase.Propagate?
    ensures Ready(g) && Inv(Atomic(g))
  {
    hide RootListOk, UpvalsOk, StringsOk, RootsOk, Lists;
    var all := g.objs.Keys;
    var e := Slack({}, all, all, all, all);
    assert WithBlack(e, g.tmudata) == MutatorSlack(g);
    PropagateReady(g);
    assert MayBeMarked(g, all);
    ClearedClosed(g, e);
    ClearedShape(g, e);
    ClearedRoots(g, e);
    DarkensNoDead(g, Cleared(g));
    FlipKeeps(Cleared(g));
  }
}
