/** A full collection without interruption keeps exactly what is fixed or
    accessible, when no table is weak and no userdata has a finalizer to run. */
module GcExact {
  import opened LuaHeap
  import opened GcMark
  import opened GcState
  import opened GcPropagate
  import opened GcAtomic
  import opened GcClear
  import opened GcFinish
  import opened GcCycle
  import opened GcSweep
  import opened GcSweepStep

  // ----- accessibility only depends on what live objects refer to -----

  lemma PathSnoc(g: State, p: seq<Ref>, x: Ref)
    requires Path(g, p) && Edge(g, p[|p| - 1], x)
    ensures Path(g, p + [x]) && Accessible(g, x)
  {
    var q := p + [x];
    forall i, j | 0 <= i && j == i + 1 < |q| ensures Edge(g, q[i], q[j]) {
      if j < |p| {
        assert Edge(g, p[i], p[j]);
      }
    }
  }

  ghost function Reached(g: State): set<Ref> {
    set x | x in g.objs && Accessible(g, x)
  }

  lemma ReachedEdge(g: State, r: Ref, x: Ref)
    requires r in g.objs && Accessible(g, r) && x in Kids(g, r)
    ensures Accessible(g, x)
  {
    var p :| Path(g, p) && p[|p| - 1] == r;
    assert Edge(g, r, x);
    PathSnoc(g, p, x);
  }

  lemma ReachedRoot(g: State, x: Ref)
    requires x in Roots(g)
    ensures Accessible(g, x)
  {
    assert Path(g, [x]) && [x][|[x]| - 1] == x;
  }

  lemma ReachedClosed(g: State)
    requires LiveClosed(g)
    ensures forall x :: x in Roots(g) ==> x in Reached(g)
    ensures forall r, x :: r in Reached(g) && x in Kids(g, r) ==> x in Reached(g)
  {
    forall x | x in Roots(g) ensures x in Reached(g) {
      ReachedRoot(g, x);
      assert IsLive(g, x);
    }
    forall r, x | r in Reached(g) && x in Kids(g, r) ensures x in Reached(g) {
      ReachedEdge(g, r, x);
      AccessibleIsLive(g, x);
    }
  }

  lemma AccessibleBefore(g: State, h: State, x: Ref)
    requires LiveClosed(g) && KeepsLive(g, h) && Accessible(h, x)
    ensures Accessible(g, x)
  {
    ReachedClosed(g);
    forall r | r in Reached(g) ensures r in h.objs && Kids(h, r) == Kids(g, r) {
      AccessibleIsLive(g, r);
    }
    var p :| Path(h, p) && p[|p| - 1] == x;
    AccessibleIn(h, Reached(g), p);
  }

  lemma AccessibleAfter(g: State, h: State, x: Ref)
    requires LiveClosed(g) && KeepsLive(g, h) && Accessible(g, x)
    ensures Accessible(h, x)
  {
    var s := set r | r in g.objs && IsLive(g, r) && Accessible(h, r);
    forall r | r in Roots(g) ensures r in s {
      ReachedRoot(h, r);
      assert IsLive(g, r);
    }
    forall r, y | r in s && y in Kids(g, r) ensures y in s {
      assert IsLive(h, r) && Kids(h, r) == Kids(g, r);
      ReachedEdge(h, r, y);
      assert AllLive(g, Kids(g, r));
    }
    var p :| Path(g, p) && p[|p| - 1] == x;
    AccessibleIn(g, s, p);
  }

  // ----- heaps without weak tables and finalizers -----

  ghost predicate NoWeak(g: State) {
    forall r :: r in g.objs ==> !IsWeak(g.objs[r])
  }

  ghost predicate NoFinalizers(g: State) {
    g.tmudata == [] && forall r :: r in g.objs ==> !g.objs[r].hasgc || g.objs[r].finalized
  }

  lemma CellsNoWeak(g: State, h: State)
    requires SameCells(g, h) && NoWeak(g)
    ensures NoWeak(h)
  {
    forall r | r in h.objs ensures !IsWeak(h.objs[r]) {
      assert SameCell(g.objs[r], h.objs[r]);
    }
  }

  lemma CellsNoFinalizers(g: State, h: State)
    requires SameCells(g, h) && NoFinalizers(g) && h.tmudata == []
    ensures NoFinalizers(h)
  {
    forall r | r in h.objs ensures !h.objs[r].hasgc || h.objs[r].finalized {
      assert SameCell(g.objs[r], h.objs[r]);
    }
  }

  lemma PropagateNoWeak(g: State)
    requires Basic(g) && NoWeak(g) && g.weak == [] && g.gray != [] && g.gray[0] in g.objs
    ensures PropagateMark(g).weak == [] && NoWeak(PropagateMark(g))
  {
    PropagateScans(g);
    CellsNoWeak(g, PropagateMark(g));
  }

  lemma {:induction false} PropagateAllNoWeak(g: State)
    requires Basic(g) && NoWeak(g) && g.weak == []
    ensures PropagateAll(g).weak == [] && NoWeak(PropagateAll(g))
    decreases |Whites(g)|, |g.gray|
  {
    if g.gray != [] {
      assert g.gray[0] in Listed(g);
      PropagateScans(g);
      PropagateMeasure(g);
      PropagateNoWeak(g);
      PropagateAllNoWeak(PropagateMark(g));
    }
  }

  lemma {:induction false} RemarkUpvalsWeak(g: State, l: seq<Ref>)
    ensures RemarkUpvals(g, l).weak == g.weak
    decreases |l|
  {
    if l != [] {
      if l[0] in g.objs && g.objs[l[0]].color.Gray? {
        RemarkUpvalsWeak(MarkAll(g, OpenRefs(g, g.objs[l[0]])), l[1..]);
      } else {
        RemarkUpvalsWeak(g, l[1..]);
      }
    }
  }

  lemma RemarkNoWeak(g: State)
    requires Ready(g) && NoWeak(g) && g.weak == []
    ensures Remark(g).weak == []
  {
    var g1 := Upvals(g);
    RemarkUpvalsKeeps(g);
    WeakAgainNoWeak(g1);
    var g2 := WeakAgain(g1);
    GrayAgainNoWeak(g2);
  }

  lemma RemarkUpvalsKeeps(g: State)
    requires Basic(g) && UpvalsListed(g) && NoWeak(g) && g.weak == []
    ensures Upvals(g).weak == [] && NoWeak(Upvals(g))
  {
    var k := RemarkUpvals(g, g.uvhead);
    AnyMarkInv(g);
    UpvalsInv(g, AnySlack(g));
    RemarkUpvalsWeak(g, g.uvhead);
    CellsNoWeak(g, k);
    PropagateAllNoWeak(k);
  }

  lemma WeakAgainNoWeak(g: State)
    requires Basic(g) && g.gray == [] && NoWeak(g) && forall x :: x in [g.running] + g.mt ==> x in g.objs
    ensures WeakAgain(g).weak == [] && NoWeak(WeakAgain(g))
  {
    var k := MarkAll(TakeWeak(g), [g.running] + g.mt);
    AnyMarkInv(g);
    WeakAgainInv(g, AnySlack(g));
    CellsNoWeak(g, k);
    PropagateAllNoWeak(k);
  }

  lemma GrayAgainNoWeak(g: State)
    requires Basic(g) && g.gray == [] && NoWeak(g) && g.weak == []
    ensures GrayAgain(g).weak == []
  {
    AnyMarkInv(g);
    TakeInv(g, AnySlack(g));
    TakeScans(g);
    CellsNoWeak(g, TakeAgain(g));
    PropagateAllNoWeak(TakeAgain(g));
  }

  lemma {:induction false} PickNone(g: State, l: seq<Ref>)
    requires forall x :: x in l ==> !NeedsTm(g, x)
    ensures Pick(g, l, true) == [] && Pick(g, l, false) == l
  {
    if l != [] {
      assert l[0] in l;
      PickNone(g, l[1..]);
    }
  }

  lemma SeparateNone(g: State)
    requires g.main in g.rootgc && NoFinalizers(g)
    ensures SeparateUdata(g).tmudata == [] && SeparateUdata(g).rootgc == g.rootgc
    ensures SeparateUdata(g).weak == g.weak
  {
    PickNone(g, SplitAtMain(g).1);
  }

  lemma PlainPreserve(g: State)
    requires Basic(g) && g.gray == [] && RootsOk(g) && g.tmudata == []
    ensures Preserve(g) == g
  {
  }

  lemma PlainSeparated(g: State)
    requires Ready(g) && WellFormed(g) && NoWeak(g) && NoFinalizers(g) && g.weak == []
    ensures Separated(g).tmudata == [] && Separated(g).weak == []
  {
    RemarkNoWeak(g);
    CellsNoFinalizers(g, Remark(g));
    SameShapeKeeps(g, Remark(g));
    SeparateNone(Remark(g));
  }

  /** Without weak tables and finalizers the atomic step only marks. */
  lemma PlainCleared(g: State)
    requires Ready(g) && WellFormed(g) && NoWeak(g) && NoFinalizers(g) && g.weak == []
    ensures Cleared(g) == Separated(g)
  {
    PlainSeparated(g);
    PlainPreserve(Separated(g));
  }

  lemma SeparatedKids(g: State, r: Ref)
    requires Ready(g) && WellFormed(g) && r in g.objs
    ensures r in Separated(g).objs && Kids(Separated(g), r) == Kids(g, r)
  {
    var g1 := Remark(g);
    SameShapeKeeps(g, g1);
    SeparateCells(g1);
    SameRefs(g1, SeparateUdata(g1), r);
  }

  lemma SeparatedRootsSame(g: State)
    requires Ready(g) && WellFormed(g) && Separated(g).tmudata == g.tmudata
    ensures Roots(Separated(g)) == Roots(g)
  {
  }

  /** What is live after the atomic step of an uninterrupted collection: what was
      accessible when it started. */
  lemma AtomicExact(s: State, g: State)
    requires Inv(s) && NoWeak(g) && NoFinalizers(g) && g.weak == []
    requires Inv(g) && g.phase.Propagate? && MarkInv(g, MarkSlack(s))
    requires SameGraph(s, g)
    ensures Ready(g) && Atomic(g).objs.Keys == s.objs.Keys
    ensures forall x :: x in s.objs ==> (IsLive(Atomic(g), x) <==> x in Reached(s))
  {
    hide Kinds, RootsOk, SameCells;
    PropagateReady(g);
    AtomicKeeps(g);
    AtomicGraph(g);
    AtomicLive(s, g);
    AtomicReached(s, g);
  }

  ghost function MarkSlack(s: State): Slack {
    var all := s.objs.Keys;
    Slack({}, all, all, all, Reached(s))
  }

  lemma ClearedFacts(s: State, g: State)
    requires Inv(s) && Ready(g) && WellFormed(g) && NoFinalizers(g) && MarkInv(g, MarkSlack(s)) && Roots(g) == Roots(s)
    ensures WithBlack(MarkSlack(s), g.tmudata) == MarkSlack(s) && MayBeMarked(g, Reached(s))
  {
    assert WithBlack(MarkSlack(s), g.tmudata) == MarkSlack(s);
    ReachedClosed(s);
  }

  lemma ClearedNoDead(s: State, g: State)
    requires Inv(s) && NoFinalizers(g) && Inv(g) && g.phase.Propagate? && Ready(g) && MarkInv(g, MarkSlack(s))
    requires Roots(g) == Roots(s)
    ensures WellFormed(Cleared(g)) && NoDead(Cleared(g)) && Cleared(g).objs.Keys == g.objs.Keys
    ensures MarkedClosed(Cleared(g)) && AllNonWhite(Cleared(g), Roots(Cleared(g)))
    ensures forall r :: NonWhite(Cleared(g), r) ==> r in Reached(s)
  {
    hide RootListOk, RootsOk;
    var e := MarkSlack(s);
    ClearedFacts(s, g);
    ClearedClosed(g, e);
    ClearedShape(g, e);
    ClearedRoots(g, e);
    DarkensNoDead(g, Cleared(g));
  }

  lemma AtomicLive(s: State, g: State)
    requires Inv(s) && NoFinalizers(g) && Inv(g) && g.phase.Propagate? && Ready(g) && MarkInv(g, MarkSlack(s))
    requires g.objs.Keys == s.objs.Keys && Roots(g) == Roots(s)
    ensures Atomic(g).objs.Keys == s.objs.Keys
    ensures forall x :: x in s.objs && IsLive(Atomic(g), x) ==> x in Reached(s)
  {
    ClearedNoDead(s, g);
    FlipKeeps(Cleared(g));
  }

  /** Same objects, roots and references. */
  ghost predicate SameGraph(g: State, h: State) {
    && h.objs.Keys == g.objs.Keys && Roots(h) == Roots(g)
    && (forall r :: r in g.objs ==> Kids(h, r) == Kids(g, r))
  }

  lemma AtomicGraph(g: State)
    requires Ready(g) && WellFormed(g) && NoWeak(g) && NoFinalizers(g) && g.weak == []
    ensures SameGraph(g, Atomic(g))
  {
    PlainCleared(g);
    PlainSeparated(g);
    SeparatedDarkens(g);
    FlipGraph(Separated(g));
    SeparatedGraph(g);
  }

  lemma SeparatedGraph(g: State)
    requires Ready(g) && WellFormed(g) && Separated(g).tmudata == g.tmudata
    ensures SameGraph(g, Separated(g))
  {
    SeparatedDarkens(g);
    forall r | r in g.objs ensures Kids(Separated(g), r) == Kids(g, r) {
      SeparatedKids(g, r);
    }
    SeparatedRootsSame(g);
  }

  lemma FlipGraph(g: State)
    ensures SameGraph(g, FlipWhite(g))
  {
    forall r | r in g.objs ensures Kids(FlipWhite(g), r) == Kids(g, r) {
      SameRefs(g, FlipWhite(g), r);
    }
  }

  lemma ReachedLive(s: State, h: State, x: Ref)
    requires LiveClosed(s) && LiveClosed(h) && SameGraph(s, h) && x in Reached(s)
    ensures IsLive(h, x)
  {
    hide RootListOk, Kids;
    var live := set y | y in s.objs && IsLive(h, y);
    forall r, y | r in live && y in Kids(s, r) ensures y in live {
      assert AllLive(h, Kids(h, r));
    }
    var p :| Path(s, p) && p[|p| - 1] == x;
    AccessibleIn(s, live, p);
  }

  lemma AtomicReached(s: State, g: State)
    requires Ready(g) && WellFormed(g)
    requires Inv(s) && SameGraph(s, Atomic(g)) && LiveClosed(Atomic(g))
    ensures forall x :: x in Reached(s) ==> IsLive(Atomic(g), x)
  {
    forall x | x in Reached(s) ensures IsLive(Atomic(g), x) {
      ReachedLive(s, Atomic(g), x);
    }
  }
}
