/** atomic: the uninterrupted end of the mark phase, stage by stage. */
module GcFinish {
  import opened LuaHeap
  import opened GcMark
  import opened GcState
  import opened GcPropagate
  import opened GcClear
  import opened GcAtomic

  lemma AnyMarkInv(g: State)
    requires Basic(g)
    ensures MarkInv(g, AnySlack(g))
  {
  }

  // ----- remark upvalues, traverse what that and the barriers caught -----

  ghost predicate UpvalsListed(g: State) {
    && (forall u :: u in g.objs && g.objs[u].kind.UpvalOpen? ==> u in g.uvhead)
    && (forall u :: u in g.uvhead && u in g.objs ==> g.objs[u].kind.UpvalOpen?)
  }

  function Upvals(g: State): (h: State)
    requires Basic(g) && UpvalsListed(g)
    ensures Basic(h) && h.gray == [] && Scans(g, h)
  {
    AnyMarkInv(g);
    UpvalsInv(g, AnySlack(g));
    var h := PropagateAll(RemarkUpvals(g, g.uvhead));
    ScansTrans(g, RemarkUpvals(g, g.uvhead), h);
    h
  }

  lemma UpvalsInv(g: State, e: Slack)
    requires UpvalsListed(g) && MarkInv(g, e)
    ensures var h := RemarkUpvals(g, g.uvhead);
            MarkInv(h, e.(open := {})) && Scans(g, h) && MarkInv(PropagateAll(h), e.(open := {}))
  {
    assert MarkInv(g, e.(open := set u | u in g.uvhead));
    RemarkInv(g, g.uvhead, e);
    PropagateAllInv(RemarkUpvals(g, g.uvhead), e.(open := {}));
  }

  // ----- weak tables, running thread and basic metatables -----

  function WeakAgain(g: State): (h: State)
    requires Basic(g) && g.gray == []
    requires forall x :: x in [g.running] + g.mt ==> x in g.objs
    ensures Basic(h) && h.gray == [] && Scans(g, h)
    ensures forall x :: x in [g.running] + g.mt ==> NonWhite(h, x)
  {
    AnyMarkInv(g);
    WeakAgainInv(g, AnySlack(g));
    var g1 := MarkAll(TakeWeak(g), [g.running] + g.mt);
    var h := PropagateAll(g1);
    ScansTrans(g, g1, h);
    h
  }

  lemma WeakAgainInv(g: State, e: Slack)
    requires g.gray == [] && MarkInv(g, e)
    requires forall x :: x in [g.running] + g.mt ==> x in g.objs && x in e.within
    ensures var h := MarkAll(TakeWeak(g), [g.running] + g.mt);
            MarkInv(h, e.(weak := {})) && Scans(g, h) && MarkInv(PropagateAll(h), e.(weak := {}))
  {
    var g1 := TakeWeak(g);
    var s := [g.running] + g.mt;
    TakeInv(g, e);
    MarkAllInv(g1, s, e.(weak := {}));
    TakeScans(g);
    MarksScans(g1, MarkAll(g1, s));
    ScansTrans(g, g1, MarkAll(g1, s));
    PropagateAllInv(MarkAll(g1, s), e.(weak := {}));
  }

  lemma TakeScans(g: State)
    requires Kinds(g)
    ensures Scans(g, TakeWeak(g)) && Scans(g, TakeAgain(g))
  {
    assert forall r :: r in g.objs ==> Shaped(g.objs[r]);
    forall r | r in g.objs
      ensures Kids(TakeWeak(g), r) == Kids(g, r) && StrongKids(TakeWeak(g), r) == StrongKids(g, r)
      ensures Kids(TakeAgain(g), r) == Kids(g, r) && StrongKids(TakeAgain(g), r) == StrongKids(g, r)
    {
      SameRefs(g, TakeWeak(g), r);
      SameRefs(g, TakeAgain(g), r);
    }
  }

  // ----- the grayagain list -----

  function GrayAgain(g: State): (h: State)
    requires Basic(g) && g.gray == []
    ensures Basic(h) && h.gray == [] && Scans(g, h)
  {
    AnyMarkInv(g);
    TakeInv(g, AnySlack(g));
    TakeScans(g);
    var h := PropagateAll(TakeAgain(g));
    ScansTrans(g, TakeAgain(g), h);
    h
  }

  lemma GrayAgainInv(g: State, e: Slack)
    requires g.gray == [] && MarkInv(g, e)
    ensures MarkInv(GrayAgain(g), e.(again := {}))
  {
    TakeInv(g, e);
    PropagateAllInv(TakeAgain(g), e.(again := {}));
  }

  // ----- these three together -----

  ghost predicate Ready(g: State) {
    Basic(g) && UpvalsListed(g) && forall x :: x in [g.running] + g.mt ==> x in g.objs
  }

  function Remark(g: State): (h: State)
    requires Ready(g)
    ensures Basic(h) && h.gray == [] && Scans(g, h)
    ensures forall x :: x in [g.running] + g.mt ==> NonWhite(h, x)
  {
    var g1 := Upvals(g);
    var g2 := WeakAgain(g1);
    ScansTrans(g, g1, g2);
    var h := GrayAgain(g2);
    ScansTrans(g, g2, h);
    h
  }

  lemma RemarkedInv(g: State, e: Slack)
    requires Ready(g) && MarkInv(g, e)
    requires forall x :: x in [g.running] + g.mt ==> x in e.within
    ensures MarkInv(Remark(g), e.(open := {}, weak := {}, again := {}))
  {
    UpvalsInv(g, e);
    RemarkedInv2(Upvals(g), e.(open := {}));
  }

  lemma RemarkedInv2(g: State, e: Slack)
    requires MarkInv(g, e) && g.gray == []
    requires forall x :: x in [g.running] + g.mt ==> x in g.objs && x in e.within
    ensures MarkInv(GrayAgain(WeakAgain(g)), e.(weak := {}, again := {}))
  {
    WeakAgainInv(g, e);
    GrayAgainInv(WeakAgain(g), e.(weak := {}));
  }

  // ----- userdata to be finalized -----

  /** Moving part of the userdata list to tmudata keeps every object linked once. */
  lemma MoveUdata(g: State, h: State, a: seq<Ref>, ud: seq<Ref>, no: seq<Ref>, yes: seq<Ref>)
    requires RootListOk(g) && SameCells(g, h) && h.main == g.main
    requires g.rootgc == a + ud && h.rootgc == a + no && h.tmudata == g.tmudata + yes
    requires a != [] && a[|a| - 1] == g.main
    requires forall x :: x in ud <==> x in no || x in yes
    requires forall x :: x in no ==> x !in yes
    requires Distinct(no) && Distinct(yes)
    ensures RootListOk(h)
  {
    SameKinds(g, h);
    forall r | r in ud ensures r in g.objs && g.objs[r].kind.Udata? && r in g.rootgc && r !in a {
      var j :| 0 <= j < |ud| && ud[j] == r;
      assert g.rootgc[|a| - 1] == g.main && g.rootgc[|a| + j] == r;
      assert forall i :: 0 <= i < |a| ==> a[i] == g.rootgc[i];
    }
    assert forall r :: r in a ==> r in g.rootgc;
    assert forall i, j :: 0 <= i < j < |a| ==> g.rootgc[i] == a[i] && g.rootgc[j] == a[j];
    JoinDistinct(a, no);
    JoinDistinct(g.tmudata, yes);
    MainLast(h, a, no);
  }

  lemma MainLast(h: State, a: seq<Ref>, no: seq<Ref>)
    requires h.rootgc == a + no && Distinct(h.rootgc) && a != [] && a[|a| - 1] == h.main
    requires forall x :: x in no ==> x in h.objs && h.objs[x].kind.Udata?
    ensures h.main in h.rootgc
    ensures forall i, j :: 0 <= i < j < |h.rootgc| && h.rootgc[i] == h.main ==>
              h.rootgc[j] in h.objs && h.objs[h.rootgc[j]].kind.Udata?
  {
    assert h.rootgc[|a| - 1] == h.main;
    forall i, j | 0 <= i < j < |h.rootgc| && h.rootgc[i] == h.main
      ensures h.rootgc[j] in h.objs && h.objs[h.rootgc[j]].kind.Udata?
    {
      assert h.rootgc[j] == no[j - |a|];
    }
  }

  lemma JoinDistinct(a: seq<Ref>, b: seq<Ref>)
    requires Distinct(a) && Distinct(b)
    requires forall x :: x in a ==> x !in b
    ensures Distinct(a + b)
  {
    var s := a + b;
    forall i, j | 0 <= i < j < |s| ensures s[i] != s[j] {
      assert i < |a| ==> s[i] in a;
      assert j >= |a| ==> s[j] == b[j - |a|] && s[j] in b;
    }
  }

  lemma SeparateCells(g: State)
    requires Kinds(g) && g.main in g.rootgc
    ensures SameCells(g, SeparateUdata(g)) && SameObjs(g, SeparateUdata(g))
  {
    var h := SeparateUdata(g);
    forall r | r in g.objs ensures SameCell(g.objs[r], h.objs[r]) {
      assert Shaped(g.objs[r]);
    }
  }

  lemma PickTail(g: State, a: seq<Ref>, ud: seq<Ref>)
    requires Distinct(a + ud)
    ensures Distinct(Pick(g, ud, false)) && Distinct(Pick(g, ud, true))
  {
    assert forall i :: 0 <= i < |ud| ==> ud[i] == (a + ud)[|a| + i];
    PickDistinct(g, ud, false);
    PickDistinct(g, ud, true);
  }

  lemma SeparateRootList(g: State)
    requires RootListOk(g) && Kinds(g)
    ensures RootListOk(SeparateUdata(g))
  {
    var (a, ud) := SplitAtMain(g);
    var no, yes := Pick(g, ud, false), Pick(g, ud, true);
    var h := SeparateUdata(g);
    assert h.rootgc == a + no && h.tmudata == g.tmudata + yes && h.main == g.main;
    assert forall x :: x in ud <==> x in no || x in yes;
    assert Distinct(no) && Distinct(yes) by { PickTail(g, a, ud); }
    assert SameCells(g, h) by { SeparateCells(g); }
    MoveUdata(g, h, a, ud, no, yes);
  }

  lemma PickedAreUdata(g: State)
    requires RootListOk(g)
    ensures forall x :: x in Pick(g, SplitAtMain(g).1, true) ==> x in g.objs && g.objs[x].kind.Udata?
  {
    var (a, ud) := SplitAtMain(g);
    forall x | x in ud ensures x in g.objs && g.objs[x].kind.Udata? {
      var j :| 0 <= j < |ud| && ud[j] == x;
      assert g.rootgc[|a| - 1] == g.main && g.rootgc[|a| + j] == x;
    }
  }

  lemma SeparateRoot(g: State)
    requires RootListOk(g) && RootsOk(g) && Kinds(g)
    ensures RootListOk(SeparateUdata(g)) && RootsOk(SeparateUdata(g))
  {
    SeparateRootList(g);
    PickedAreUdata(g);
    SeparateCells(g);
    SeparateRoots(g, SeparateUdata(g), Pick(g, SplitAtMain(g).1, true));
  }

  lemma SeparateRoots(g: State, h: State, yes: seq<Ref>)
    requires RootsOk(g) && SameCells(g, h) && h.main == g.main && h.running == g.running
    requires h.registry == g.registry && h.mt == g.mt && h.tmudata == g.tmudata + yes
    requires forall x :: x in yes ==> x in g.objs && g.objs[x].kind.Udata?
    ensures RootsOk(h)
  {
    SameKinds(g, h);
  }

  lemma SeparateInv(g: State, e: Slack)
    requires WellFormed(g) && MarkInv(g, e)
    ensures WellFormed(SeparateUdata(g)) && MarkInv(SeparateUdata(g), e)
  {
    var h := SeparateUdata(g);
    SeparateRoot(g);
    SeparateCells(g);
    SameStrings(g, h);
    SameUpvals(g, h);
    SameMarks(g, h, e);
  }

  function Preserve(g: State): (h: State)
    requires Basic(g) && g.gray == [] && RootsOk(g)
    ensures Basic(h) && h.gray == [] && Scans(g, h)
    ensures forall u :: u in g.tmudata ==> NonWhite(h, u)
  {
    AnyMarkInv(g);
    MarkTmuInv(g, g.tmudata, AnySlack(g));
    var h := PropagateAll(MarkTmu(g, g.tmudata));
    ScansTrans(g, MarkTmu(g, g.tmudata), h);
    h
  }

  lemma PreserveInv(g: State, e: Slack)
    requires MarkInv(g, WithBlack(e, g.tmudata)) && g.gray == [] && RootsOk(g)
    requires forall u :: u in g.tmudata ==> u in e.within
    ensures MarkInv(Preserve(g), e)
  {
    MarkTmuInv(g, g.tmudata, e);
    PropagateAllInv(MarkTmu(g, g.tmudata), e);
  }

  // ----- the whole step -----

  function Separated(g: State): (h: State)
    requires Ready(g) && WellFormed(g)
    ensures WellFormed(h) && Basic(h) && h.gray == []
  {
    var g1 := Remark(g);
    SameShapeKeeps(g, g1);
    AnyMarkInv(g1);
    SeparateInv(g1, AnySlack(g1));
    SeparateUdata(g1)
  }

  /** All marking of the atomic step, up to the clearing of weak tables. */
  function FinishMarks(g: State): (h: State)
    requires Ready(g) && WellFormed(g)
    ensures Basic(h) && h.gray == [] && Scans(Separated(g), h)
  {
    Preserve(Separated(g))
  }

  ghost predicate MayBeMarked(g: State, within: set<Ref>) {
    && (forall x :: x in Roots(g) ==> x in within)
    && (forall u :: u in g.objs && g.objs[u].hasgc && !g.objs[u].finalized ==> u in within)
  }

  lemma PickedIn(g: State, within: set<Ref>)
    requires g.main in g.rootgc
    requires forall u :: u in g.tmudata ==> u in within
    requires forall u :: u in g.objs && g.objs[u].hasgc && !g.objs[u].finalized ==> u in within
    ensures forall u :: u in SeparateUdata(g).tmudata ==> u in within
  {
    var ud := SplitAtMain(g).1;
    forall u | u in SeparateUdata(g).tmudata ensures u in within {
      assert u in g.tmudata || u in Pick(g, ud, true);
    }
  }

  lemma CellsKeepTm(g: State, h: State, within: set<Ref>)
    requires SameCells(g, h)
    requires forall u :: u in g.objs && g.objs[u].hasgc && !g.objs[u].finalized ==> u in within
    ensures forall u :: u in h.objs && h.objs[u].hasgc && !h.objs[u].finalized ==> u in within
  {
    forall u | u in h.objs && h.objs[u].hasgc && !h.objs[u].finalized ensures u in within {
      assert SameCell(g.objs[u], h.objs[u]);
    }
  }

  lemma SeparatedIn(g: State, within: set<Ref>)
    requires Ready(g) && WellFormed(g) && MayBeMarked(g, within)
    ensures forall u :: u in Separated(g).tmudata ==> u in within
  {
    assert forall u :: u in g.tmudata ==> u in Roots(g);
    CellsKeepTm(g, Remark(g), within);
    PickedIn(Remark(g), within);
  }

  lemma SeparatedInv(g: State, e: Slack)
    requires Ready(g) && WellFormed(g) && MarkInv(g, WithBlack(e, g.tmudata))
    requires forall x :: x in [g.running] + g.mt ==> x in e.within
    ensures MarkInv(Separated(g), WithBlack(e, Separated(g).tmudata).(open := {}, weak := {}, again := {}))
  {
    var e1 := WithBlack(e, g.tmudata);
    var g1 := Remark(g);
    RemarkedInv(g, e1);
    SameShapeKeeps(g, g1);
    SeparateInv(g1, e1.(open := {}, weak := {}, again := {}));
    assert forall u :: u in g.tmudata ==> u in Separated(g).tmudata;
  }

  /** At the end of the marking nothing is excused any more. */
  lemma FinishMarksInv(g: State, e: Slack)
    requires Ready(g) && WellFormed(g) && MarkInv(g, WithBlack(e, g.tmudata)) && e.black == {}
    requires MayBeMarked(g, e.within)
    ensures MarkInv(FinishMarks(g), Slack({}, {}, {}, {}, e.within))
  {
    hide Kinds, RootsOk, SameCells;
    var h := Separated(g);
    assert forall x :: x in [g.running] + g.mt ==> x in Roots(g);
    SeparatedInv(g, e);
    SeparatedIn(g, e.within);
    var e0 := Slack({}, {}, {}, {}, e.within);
    assert WithBlack(e0, h.tmudata) == WithBlack(e, h.tmudata).(open := {}, weak := {}, again := {});
    PreserveInv(h, e0);
  }

  /** The roots are marked at the end. */
  lemma FinishRoots(g: State)
    requires Ready(g) && WellFormed(g) && NonWhite(g, g.main) && NonWhite(g, g.registry)
    ensures AllNonWhite(FinishMarks(g), Roots(FinishMarks(g)))
  {
    hide UpvalsOk, StringsOk, RootsOk;
    var h := Separated(g);
    SeparatedRoots(g);
    assert forall x :: NonWhite(h, x) ==> NonWhite(FinishMarks(g), x);
    assert Roots(FinishMarks(g)) == Roots(h);
    assert forall u :: u in h.tmudata ==> NonWhite(FinishMarks(g), u);
  }

  lemma SeparatedRoots(g: State)
    requires Ready(g) && WellFormed(g) && NonWhite(g, g.main) && NonWhite(g, g.registry)
    ensures var h := Separated(g); AllNonWhite(h, [h.main, h.registry, h.running] + h.mt)
  {
    var g1 := Remark(g);
    RemarkRoots(g, g1);
    SameShapeKeeps(g, g1);
    SeparateCells(g1);
    SeparateMarks(g1, SeparateUdata(g1), [g1.main, g1.registry, g1.running] + g1.mt);
  }

  lemma RemarkRoots(g: State, h: State)
    requires Scans(g, h) && NonWhite(g, g.main) && NonWhite(g, g.registry)
    requires forall x :: x in [g.running] + g.mt ==> NonWhite(h, x)
    ensures AllNonWhite(h, [h.main, h.registry, h.running] + h.mt)
  {
    forall x | x in [h.main, h.registry, h.running] + h.mt ensures NonWhite(h, x) {
      if x == g.main || x == g.registry {
        assert x in g.objs;
      } else {
        assert x in [g.running] + g.mt;
      }
    }
  }

  lemma SeparateMarks(g: State, h: State, l: seq<Ref>)
    requires SameObjs(g, h) && AllNonWhite(g, l)
    ensures AllNonWhite(h, l)
  {
    forall x | x in l ensures NonWhite(h, x) {
      assert NonWhite(g, x);
    }
  }

  function FlipWhite(g: State): State {
    g.(cur := !g.cur, sweepstrgc := 0, sweepgc := 0, phase := SweepString)
  }

  function Cleared(g: State): State
    requires Ready(g) && WellFormed(g)
  {
    var h := FinishMarks(g);
    ClearTables(h, h.weak)
  }

  function Atomic(g: State): State
    requires Ready(g) && WellFormed(g)
  {
    FlipWhite(Cleared(g))
  }

  /** Marked objects refer to marked objects only. */
  ghost predicate MarkedClosed(g: State) {
    forall r :: NonWhite(g, r) ==> AllNonWhite(g, Kids(g, r))
  }

  lemma MarkedIsClosed(g: State, within: set<Ref>)
    requires MarkInv(g, Slack({}, {}, {}, {}, within)) && g.gray == []
    requires forall r :: r in g.weak ==> r in g.objs && AllNonWhite(g, Kids(g, r))
    ensures MarkedClosed(g)
  {
    forall r | NonWhite(g, r) ensures AllNonWhite(g, Kids(g, r)) {
      if g.objs[r].color.Black? {
        KidsInTrace(g, r);
      } else if Traversable(g.objs[r].kind) {
        assert r in Listed(g);
      } else if !g.objs[r].kind.UpvalOpen? {
        assert Shaped(g.objs[r]);
        TraceOfInner(g, r);
      }
    }
  }

  lemma KidsInTrace(g: State, r: Ref)
    requires r in g.objs
    ensures forall x :: x in Kids(g, r) ==> x in Trace(g, r)
  {
    forall x | x in SlotKids(g.objs[r].slots) ensures x in SlotTrace(g.objs[r].slots) {
      KidsInSlots(g.objs[r].slots, x);
    }
  }

  lemma {:induction false} KidsInSlots(s: seq<Slot>, x: Ref)
    requires x in SlotKids(s)
    ensures x in SlotTrace(s)
  {
    if x in SlotKids(s[..|s| - 1]) {
      KidsInSlots(s[..|s| - 1], x);
    }
  }

  /** When the marking is over, what is marked holds the roots, is closed under
      references and stays within what may be marked. */
  lemma ClearedClosed(g: State, e: Slack)
    requires Ready(g) && WellFormed(g) && MarkInv(g, WithBlack(e, g.tmudata)) && e.black == {}
    requires MayBeMarked(g, e.within)
    ensures MarkedClosed(Cleared(g)) && Clears(FinishMarks(g), Cleared(g)) && Kinds(Cleared(g))
    ensures forall r :: NonWhite(Cleared(g), r) ==> r in e.within
  {
    var h := FinishMarks(g);
    var e0 := Slack({}, {}, {}, {}, e.within);
    FinishMarksInv(g, e);
    ClearTablesInv(h, h.weak, e0);
    MarkedIsClosed(Cleared(g), e.within);
  }
}
