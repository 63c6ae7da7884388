/** What a program sees: its own operations do what they say and nothing else, and those
    of the collector do nothing, but for weak tables and finalizers. */
module GcView {
  import opened LuaHeap
  import opened GcMark
  import opened GcState
  import opened GcPropagate
  import opened GcAtomic
  import opened GcFinish
  import opened GcClear
  import opened GcCycle
  import opened GcSweep
  import opened GcUpval
  import opened GcUpdate
  import opened GcStore
  import opened GcSweepRoot
  import opened GcSweepStep
  import opened GcStep
  import opened GcAlloc
  import opened GcRun
  import opened GcSafety
  import opened GcStrong
  import opened GcWeak
  import opened GcReach
  import opened GcFinal
  import opened GcLife

  /** A slot without a value is not seen. */
  predicate SameSlot(e: Slot, f: Slot) {
    f == e || (e.val.Nil? && f.val.Nil?)
  }

  ghost predicate SameSlots(s: seq<Slot>, t: seq<Slot>) {
    |t| == |s| && forall i :: 0 <= i < |s| ==> SameSlot(s[i], t[i])
  }

  /** Objects that differ in what is the collector's own. */
  ghost predicate SameContent(c: Cell, d: Cell) {
    d == c.(color := d.color, finalized := d.finalized, openupval := d.openupval, slots := d.slots)
    && SameSlots(c.slots, d.slots)
  }

  /** A closed upvalue has the value that its stack slot had. */
  ghost predicate Shut(g: State, c: Cell, d: Cell) {
    c.kind.UpvalOpen? && d.kind.UpvalClosed? && d.refs == OpenRefs(g, c)
  }

  ghost predicate Unchanged(g: State, h: State, x: Ref) {
    x in g.objs && x in h.objs && (SameContent(g.objs[x], h.objs[x]) || Shut(g, g.objs[x], h.objs[x]))
  }

  /** Nothing is new, and nothing that is still there has changed. */
  ghost predicate Quiet(g: State, h: State) {
    SameRoots(g, h) && forall x :: x in h.objs ==> Unchanged(g, h, x)
  }

  lemma ContentTrans(c: Cell, d: Cell, e: Cell)
    requires SameContent(c, d) && SameContent(d, e)
    ensures SameContent(c, e)
  {
    forall i | 0 <= i < |c.slots| ensures SameSlot(c.slots[i], e.slots[i]) {
      assert SameSlot(c.slots[i], d.slots[i]) && SameSlot(d.slots[i], e.slots[i]);
    }
  }

  lemma QuietTrans(g: State, h: State, k: State)
    requires Quiet(g, h) && Quiet(h, k) && UpvalsOk(h)
    ensures Quiet(g, k)
  {
    hide SameContent, OpenListOk, OpenRefs;
    forall x | x in k.objs ensures Unchanged(g, k, x) {
      assert Unchanged(h, k, x) && Unchanged(g, h, x);
      if SameContent(g.objs[x], h.objs[x]) {
        ContentKind(g.objs[x], h.objs[x]);
        if SameContent(h.objs[x], k.objs[x]) {
          ContentTrans(g.objs[x], h.objs[x], k.objs[x]);
        } else {
          ShutLater(g, h, x);
        }
      } else {
        ContentKind(h.objs[x], k.objs[x]);
      }
    }
  }

  lemma ContentKind(c: Cell, d: Cell)
    ensures SameContent(c, d) ==> d.kind == c.kind && d.refs == c.refs && d.stack == c.stack
  {
  }

  lemma ShutLater(g: State, h: State, x: Ref)
    requires Quiet(g, h) && UpvalsOk(h) && x in h.objs && x in g.objs && h.objs[x].kind.UpvalOpen?
    requires h.objs[x].kind == g.objs[x].kind
    ensures OpenRefs(h, h.objs[x]) == OpenRefs(g, g.objs[x])
  {
    hide SameContent, OpenListOk;
    var t := h.objs[x].kind.thread;
    assert Unchanged(g, h, t);
    ContentKind(g.objs[t], h.objs[t]);
  }

  /** Only colours and lists of open upvalues changed, and some objects went. */
  lemma QuietCells(g: State, h: State)
    requires SameRoots(g, h)
    requires forall x :: x in h.objs ==> x in g.objs && SameContent(g.objs[x], h.objs[x])
    ensures Quiet(g, h)
  {
    hide SameContent;
  }

  lemma Recolored(c: Cell, d: Cell)
    requires d == c.(color := d.color, openupval := d.openupval, finalized := d.finalized)
    ensures SameContent(c, d)
  {
  }

  lemma MarksQuiet(g: State, h: State)
    requires Marks(g, h)
    ensures Quiet(g, h)
  {
    hide SameContent;
    forall x | x in h.objs ensures SameContent(g.objs[x], h.objs[x]) {
      Recolored(g.objs[x], h.objs[x]);
    }
    QuietCells(g, h);
  }

  lemma QuietLists(g: State, h: State, k: State)
    requires Quiet(g, h) && SameRoots(h, k) && k.objs == h.objs
    ensures Quiet(g, k)
  {
    hide SameContent, OpenRefs;
    forall x | x in k.objs ensures Unchanged(g, k, x) {
      assert Unchanged(g, h, x);
    }
  }

  lemma QuietRefl(g: State)
    ensures Quiet(g, g)
  {
    forall x | x in g.objs ensures SameContent(g.objs[x], g.objs[x]) {
      Recolored(g.objs[x], g.objs[x]);
    }
  }

  lemma ColorQuiet(g: State, o: Ref, c: Color)
    requires o in g.objs
    ensures Quiet(g, SetColor(g, o, c))
  {
    hide SameContent;
    var h := SetColor(g, o, c);
    forall x | x in h.objs ensures SameContent(g.objs[x], h.objs[x]) {
      Recolored(g.objs[x], h.objs[x]);
    }
    QuietCells(g, h);
  }

  // ----- luaF_close -----

  lemma FreeOpenQuiet(g: State, t: Ref)
    requires HasOpen(g, t)
    ensures Quiet(g, FreeOpen(g, t))
  {
    hide UpvalsOk, Kinds, FreeOpen, SameContent;
    FreeOpenCells(g, t);
    var h := FreeOpen(g, t);
    forall x | x in h.objs ensures SameContent(g.objs[x], h.objs[x]) {
      Recolored(g.objs[x], h.objs[x]);
    }
    QuietCells(g, h);
  }

  lemma CloseLiveQuiet(g: State, t: Ref)
    requires HasOpen(g, t)
    ensures Quiet(g, CloseLive(g, t))
  {
    hide UpvalsOk, Kinds, SameContent, OpenRefs;
    FirstOpenAt(g, t);
    CloseLiveCells(g, t);
    CloseLiveSame(g, t);
    var h, u := CloseLive(g, t), FirstOpen(g, t);
    forall x | x in h.objs ensures Unchanged(g, h, x) {
      if x != u {
        Recolored(g.objs[x], h.objs[x]);
      }
    }
  }

  lemma CloseLiveSame(g: State, t: Ref)
    requires HasOpen(g, t)
    ensures SameRoots(g, CloseLive(g, t))
  {
    hide UpvalsOk, Kinds, OpenRefs;
  }

  lemma CloseOneQuiet(g: State, t: Ref)
    requires Inv(g) && HasOpen(g, t)
    ensures Quiet(g, CloseOne(g, t))
  {
    hide Quiet, LiveClosed, PhaseOk, RootsOk, RootListOk, StringsOk, UpvalsOk, Kinds, CloseOne, CloseLive, FreeOpen;
    CloseOneCases(g, t);
    var u, h := FirstOpen(g, t), CloseLive(g, t);
    FreeOpenQuiet(g, t);
    CloseLiveQuiet(g, t);
    CloseLiveCells(g, t);
    CloseLiveShape(g, t);
    MarksQuiet(h, MarkAll(h, h.objs[u].refs));
    QuietTrans(g, h, MarkAll(h, h.objs[u].refs));
  }

  lemma InvUpvals(g: State)
    requires Inv(g)
    ensures UpvalsOk(g)
  {
    hide LiveClosed, PhaseOk, RootsOk, RootListOk, StringsOk, Kinds, UpvalsOk;
  }

  /** The upvalues of `t` that are closed are those at `level` and above. */
  lemma {:induction false} CloseUpvalsQuiet(g: State, t: Ref, level: nat)
    requires Inv(g) && t in g.objs
    ensures Quiet(g, CloseUpvals(g, t, level))
    ensures forall u :: u in CloseUpvals(g, t, level).objs[t].openupval <==>
                          u in g.objs[t].openupval && LevelOf(g, u) < level
    decreases |g.objs[t].openupval|
  {
    hide Quiet, Inv, CloseOne, LevelOf;
    if g.objs[t].openupval != [] {
      FirstHighest(g, t);
    }
    if g.objs[t].openupval != [] && LevelOf(g, g.objs[t].openupval[0]) >= level {
      CloseOneKeeps(g, t);
      FirstThere(g, t);
      CloseOneQuiet(g, t);
      CloseOneLevels(g, t);
      CloseUpvalsQuiet(CloseOne(g, t), t, level);
      InvUpvals(CloseOne(g, t));
      QuietTrans(g, CloseOne(g, t), CloseUpvals(g, t, level));
      assert forall u :: u in g.objs[t].openupval <==>
                           u == g.objs[t].openupval[0] || u in g.objs[t].openupval[1..];
    } else {
      QuietRefl(g);
    }
  }

  lemma FirstHighest(g: State, t: Ref)
    requires Inv(g) && t in g.objs && g.objs[t].openupval != []
    ensures forall u :: u in g.objs[t].openupval ==> LevelOf(g, u) <= LevelOf(g, g.objs[t].openupval[0])
  {
    hide LiveClosed, PhaseOk, RootsOk, RootListOk, StringsOk, Kinds;
    var l := g.objs[t].openupval;
    ListOpen(g, t);
    assert OpenListOk(g, t);
    forall u | u in l ensures LevelOf(g, u) <= LevelOf(g, l[0]) {
      var i :| 0 <= i < |l| && l[i] == u;
      assert OpenAt(g, l[0], t) && OpenAt(g, l[i], t);
    }
  }

  lemma CloseOneLevels(g: State, t: Ref)
    requires Inv(g) && HasOpen(g, t)
    ensures forall u :: u in g.objs[t].openupval[1..] ==> LevelOf(CloseOne(g, t), u) == LevelOf(g, u)
  {
    hide LiveClosed, PhaseOk, RootsOk, RootListOk, StringsOk, Kinds, CloseOne, UpvalsOk, CloseLive, FreeOpen, MarkAll,
         LevelOf;
    CloseOneCases(g, t);
    FirstOpenAt(g, t);
    ListOpen(g, t);
    var k := CloseLive(g, t);
    CloseLiveCells(g, t);
    FreeOpenCells(g, t);
    forall u | u in g.objs[t].openupval[1..] ensures LevelOf(CloseOne(g, t), u) == LevelOf(g, u) {
      assert u in g.objs[t].openupval && OpenAt(g, u, t) && u != FirstOpen(g, t);
      SameLevel(g, FreeOpen(g, t), u);
      SameLevel(g, k, u);
      MarkedLevel(k, k.objs[FirstOpen(g, t)].refs, u);
    }
  }

  lemma SameLevel(g: State, h: State, u: Ref)
    requires u in g.objs && u in h.objs && h.objs[u].kind == g.objs[u].kind
    ensures LevelOf(h, u) == LevelOf(g, u)
  {
  }

  lemma MarkedLevel(g: State, s: seq<Ref>, u: Ref)
    requires u in g.objs
    ensures LevelOf(MarkAll(g, s), u) == LevelOf(g, u)
  {
  }

  // ----- the collector -----

  lemma SweepStringsQuiet(g: State)
    requires g.sweepstrgc < |g.strt|
    ensures Quiet(g, SweepStrings(g))
  {
    hide SameContent;
    var h := SweepStrings(g);
    forall x | x in h.objs ensures SameContent(g.objs[x], h.objs[x]) {
      Recolored(g.objs[x], h.objs[x]);
    }
    QuietCells(g, h);
  }

  lemma SweptCell(g: State, l: seq<Ref>, x: Ref)
    requires x in SweepCells(g, l)
    ensures x in g.objs && SameContent(g.objs[x], SweepCells(g, l)[x])
  {
    Recolored(g.objs[x], SweepCells(g, l)[x]);
  }

  lemma SweepThreadQuiet(g: State)
    requires g.sweepgc < |g.rootgc| && Current(g) in g.objs
    ensures Quiet(g, SweepThread(g))
  {
    hide SameContent, SweepCells;
    var h, t := SweepThread(g), Current(g);
    if g.objs[t].kind.Thread? {
      var l := g.objs[t].openupval;
      forall x | x in h.objs ensures x in g.objs && SameContent(g.objs[x], h.objs[x]) {
        if x == t {
          Recolored(g.objs[t], h.objs[t]);
        } else {
          SweptCell(g, l, x);
        }
      }
      QuietCells(g, h);
    } else {
      QuietRefl(g);
    }
  }

  lemma SweepSelfQuiet(g: State)
    requires Inv(g) && g.phase.Sweep? && g.sweepgc < |g.rootgc|
    ensures Quiet(g, SweepSelf(g))
  {
    hide Quiet, UpvalsOk, Kinds, StringsOk, CloseUpvals, PhaseOk, LiveClosed;
    var r := Current(g);
    assert r in g.rootgc;
    if Freeable(g, r) {
      DoomedKeeps(g);
      CloseUpvalsQuiet(g, r, 0);
      var h := CloseUpvals(g, r, 0);
      FreeQuiet(h, r);
      QuietTrans(g, h, SweepSelf(g));
    } else {
      ColorQuiet(g, r, White(g.cur));
      QuietLists(g, SetColor(g, r, White(g.cur)), Whiten(g));
    }
  }

  lemma FreeQuiet(g: State, r: Ref)
    requires r in g.rootgc
    ensures Quiet(g, FreeRoot(g, r))
  {
    hide SameContent;
    var h := FreeRoot(g, r);
    forall x | x in h.objs ensures SameContent(g.objs[x], h.objs[x]) {
      Recolored(g.objs[x], h.objs[x]);
    }
    QuietCells(g, h);
  }

  lemma SweepOneQuiet(g: State)
    requires Inv(g) && g.phase.Sweep? && g.sweepgc < |g.rootgc|
    ensures Quiet(g, SweepOne(g))
  {
    hide Quiet, SweepSelf, SweepThread, RootListOk, RootsOk, StringsOk, LiveClosed, PhaseOk, Kinds, UpvalsOk, Sweeps;
    SweepThreadKeeps(g);
    SweepThreadQuiet(g);
    SweepSelfQuiet(SweepThread(g));
    QuietTrans(g, SweepThread(g), SweepOne(g));
  }

  lemma {:induction false} SweepRootQuiet(g: State, n: nat)
    requires Inv(g) && g.phase.Sweep?
    ensures Quiet(g, SweepRoot(g, n))
    decreases n
  {
    hide Quiet, SweepOne, Inv, SweepRun, Pending, Sweeps;
    if n == 0 || g.sweepgc == |g.rootgc| {
      QuietRefl(g);
    } else {
      SweepPosition(g);
      SweepOneKeeps(g);
      SweepOneQuiet(g);
      SweepRootQuiet(SweepOne(g), n - 1);
      InvUpvals(SweepOne(g));
      QuietTrans(g, SweepOne(g), SweepRoot(g, n));
    }
  }

  lemma SweepStepQuiet(g: State)
    requires Inv(g) && g.phase.Sweep?
    ensures Quiet(g, SweepStep(g))
  {
    hide Quiet, Inv, SweepRoot, CheckSizes, SweepRun;
    SweepRootQuiet(g, GCSWEEPMAX);
    var h := SweepRoot(g, GCSWEEPMAX);
    if h.sweepgc == |h.rootgc| {
      CheckSizesKeeps(h);
      QuietLists(g, h, SweepStep(g));
    }
  }

  lemma MarkRootQuiet(g: State)
    requires g.main in g.objs
    ensures Quiet(g, MarkRoot(g))
  {
    hide Quiet;
    var g0 := g.(gray := [], grayagain := [], weak := []);
    MarksQuiet(g0, MarkAll(g0, RootMarks(g)));
    QuietFrom(g, g0, MarkAll(g0, RootMarks(g)));
    QuietLists(g, MarkAll(g0, RootMarks(g)), MarkRoot(g));
  }

  lemma QuietFrom(g: State, g0: State, k: State)
    requires SameRoots(g, g0) && g0.objs == g.objs && Quiet(g0, k)
    ensures Quiet(g, k)
  {
    hide SameContent;
    forall x | x in k.objs ensures Unchanged(g, k, x) {
      assert Unchanged(g0, k, x);
    }
  }

  lemma TendsContent(c: Cell, d: Cell)
    requires TendsCell(c, d.(finalized := c.finalized))
    ensures SameContent(c, d)
  {
    forall i | 0 <= i < |c.slots| ensures SameSlot(c.slots[i], d.slots[i]) {
      assert TidySlot(c.slots[i], d.slots[i]);
    }
  }

  lemma PropagateQuiet(g: State)
    requires Lists(g) && g.gray != [] && g.gray[0] in g.objs
    ensures Quiet(g, PropagateMark(g))
  {
    hide SameContent, TendsCell, Lists, StrongKids;
    PropagateTends(g);
    var h := PropagateMark(g);
    forall x | x in h.objs ensures SameContent(g.objs[x], h.objs[x]) {
      TendsFinal(g.objs[x], h.objs[x]);
      TendsContent(g.objs[x], h.objs[x]);
    }
    QuietCells(g, h);
  }

  lemma TendsFinal(c: Cell, d: Cell)
    requires TendsCell(c, d)
    ensures TendsCell(c, d.(finalized := c.finalized))
  {
  }

  /** The atomic step changes tables that it clears, and nothing else. */
  ghost predicate Clears(g: State, h: State) {
    && SameRoots(g, h) && h.objs.Keys == g.objs.Keys
    && forall x :: x in g.objs ==>
         && h.objs[x] ==
              g.objs[x].(color := h.objs[x].color, finalized := h.objs[x].finalized, slots := h.objs[x].slots)
         && (x !in h.weak ==> SameSlots(g.objs[x].slots, h.objs[x].slots))
  }

  lemma AtomicClears(g: State)
    requires Inv(g) && g.phase.Propagate?
    ensures Ready(g) && Clears(g, Atomic(g))
  {
    hide Inv, WellFormed, Ready, Atomic, FinishMarks, Separated, Tends, Flipped, Finishes, WeakOnly, NoTablesAgain,
         ClearedSlots, RootListOk, NoDead, Clears, SameStrong, SameRoots;
    PropagateWell(g);
    FinishCells(g);
    ClearedWhole(g);
    assert SameStrong(g, g) by {
      SameStrongSelf(g);
    }
    FinishStrong(g, g);
    AtomicRoots(g);
    ClearsFrom(g, FinishMarks(g), Atomic(g));
  }

  lemma SameStrongSelf(g: State)
    ensures SameStrong(g, g)
  {
  }

  lemma AtomicRoots(g: State)
    requires Ready(g) && WellFormed(g)
    ensures SameRoots(FinishMarks(g), Atomic(g))
  {
    hide Kinds, UpvalsOk, StringsOk, RootListOk, RootsOk, NoDangling, FinishMarks, Separated, Finishes, WeakOnly,
         NoTablesAgain;
    var f := FinishMarks(g);
    assert forall r :: r in f.weak ==> r in f.objs;
    ClearTmu(f, f.weak);
  }

  lemma ClearsFrom(g: State, f: State, a: State)
    requires Finishes(g, f) && Flipped(f, a) && a.weak == f.weak && SameRoots(g, f) && SameRoots(f, a)
    requires forall r :: r in f.objs && r !in f.weak ==> r in a.objs && a.objs[r].slots == f.objs[r].slots
    ensures Clears(g, a)
  {
    hide TendsCell, SameSlots, NoDead;
    var k := a.(cur := !a.cur);
    forall x | x in g.objs
      ensures a.objs[x] ==
                g.objs[x].(color := a.objs[x].color, finalized := a.objs[x].finalized, slots := a.objs[x].slots)
      ensures x !in a.weak ==> SameSlots(g.objs[x].slots, a.objs[x].slots)
    {
      assert TendsCell(g.objs[x], f.objs[x].(finalized := g.objs[x].finalized));
      TendsContent(g.objs[x], f.objs[x]);
      TendsOpen(g.objs[x], f.objs[x]);
      assert k.objs[x] == f.objs[x].(color := k.objs[x].color, slots := k.objs[x].slots);
    }
  }

  lemma TendsOpen(c: Cell, d: Cell)
    requires TendsCell(c, d.(finalized := c.finalized))
    ensures d.openupval == c.openupval
  {
  }

  /** Everything but the stack of the running thread is the same; that got `s` on top. */
  ghost predicate Pushes(g: State, h: State, s: seq<Val>) {
    && SameRoots(g, h) && h.objs.Keys == g.objs.Keys && g.running in g.objs
    && h.objs[g.running].stack == g.objs[g.running].stack + s
    && forall x :: x in g.objs ==>
         h.objs[x] == g.objs[x].(color := h.objs[x].color, stack := h.objs[x].stack)
         && (x != g.running ==> h.objs[x].stack == g.objs[x].stack)
  }

  lemma CallPushes(g: State)
    requires Inv(g) && g.phase.Finalize? && g.tmudata != []
    ensures g.tmudata[0] in g.objs && g.main in g.rootgc && g.running in g.objs
    ensures Pushes(g, CallGCTM(g), if g.objs[g.tmudata[0]].hasgc then [Obj(g.tmudata[0])] else [])
  {
    hide UpvalsOk, StringsOk, RootListOk, Kinds, LiveClosed, ReturnUdata, NoDead, AllWhite;
    assert g.tmudata[0] in g.tmudata;
    MainListed(g);
    ReturnUdataCell(g);
  }

  /** What the program sees of one step of the collector. */
  lemma CollectorEffect(g: State)
    requires Inv(g)
    ensures if g.phase.Propagate? && g.gray == [] then Clears(g, SingleStep(g))
            else if g.phase.Finalize? && g.tmudata != [] then
              var u := g.tmudata[0];
              u in g.objs && Pushes(g, SingleStep(g), if g.objs[u].hasgc then [Obj(u)] else [])
            else Quiet(g, SingleStep(g))
  {
    hide Quiet, Clears, Pushes, Atomic, MarkRoot, PropagateMark, SweepStrings, SweepStep, CallGCTM, RootListOk,
         UpvalsOk, Kinds, LiveClosed, Ready;
    match g.phase
    case Pause => MarkRootQuiet(g);
    case Propagate =>
      if g.gray != [] {
        PropagateKeeps(g);
        PropagateQuiet(g);
      } else {
        AtomicClears(g);
      }
    case SweepString => SweepStringsQuiet(g);
    case Sweep => SweepStepQuiet(g);
    case Finalize =>
      if g.tmudata != [] {
        CallPushes(g);
      } else {
        QuietRefl(g);
        QuietLists(g, g, SingleStep(g));
      }
  }

  // ----- programs -----

  /** Object `o` is `d` now; the rest is the same, up to colours. */
  ghost predicate Stored(g: State, h: State, o: Ref, d: Cell) {
    && SameRoots(g, h) && h.objs.Keys == g.objs.Keys
    && forall x :: x in g.objs ==> h.objs[x] == (if x == o then d else g.objs[x]).(color := h.objs[x].color)
  }

  /** Object `r` is new, with the content of `c`, and on the stack. */
  ghost predicate Made(g: State, h: State, r: Ref, c: Cell) {
    && SameRoots(g, h) && r !in g.objs && g.running in g.objs && h.objs.Keys == g.objs.Keys + {r}
    && h.objs[r] == c.(color := White(g.cur))
    && forall x :: x in g.objs ==>
         h.objs[x] == if x == g.running then g.objs[x].(stack := g.objs[x].stack + [Obj(r)]) else g.objs[x]
  }

  /** The string with text `t`, which was there or is new, is on the stack. */
  ghost predicate Interned(g: State, h: State, t: string, s: Ref) {
    && SameRoots(g, h) && IsText(h, s) && h.objs[s].text == t && g.running in g.objs
    && (forall x :: IsText(h, x) && h.objs[x].text == t ==> x == s)
    && h.objs.Keys == g.objs.Keys + {s}
    && forall x :: x in g.objs ==>
         h.objs[x] == (if x == g.running then g.objs[x].(stack := g.objs[x].stack + [Obj(s)]) else g.objs[x])
                        .(color := h.objs[x].color)
  }

  /** Closure `o` has got `u`, the one open upvalue of slot `level` of the running thread. */
  ghost predicate Captured(g: State, h: State, o: Ref, level: nat, u: Ref) {
    && SameRoots(g, h) && OpenAt(h, u, g.running) && h.objs[u].kind.level == level
    && (forall v :: OpenAt(h, v, g.running) && h.objs[v].kind.level == level ==> v == u)
    && o in g.objs && h.objs.Keys == g.objs.Keys + {u}
    && forall x :: x in g.objs ==>
         h.objs[x] == (if x == o then g.objs[o].(refs := g.objs[o].refs + [u]) else g.objs[x])
                        .(color := h.objs[x].color, openupval := h.objs[x].openupval)
  }

  ghost predicate Effect(g: State, op: Op, h: State)
    requires Inv(g) && Enabled(g, op)
  {
    match op
    case SetSlots(t, st) => Stored(g, h, t, g.objs[t].(stack := st))
    case SetEnv(t, rs) => Stored(g, h, t, g.objs[t].(refs := rs))
    case WriteTable(o, rs, sl, _) => Stored(g, h, o, g.objs[o].(refs := rs, slots := sl))
    case WriteObject(o, rs, _) => Stored(g, h, o, g.objs[o].(refs := rs))
    case SetModes(o, wk, wv, gc) => Stored(g, h, o, g.objs[o].(weakkey := wk, weakvalue := wv, hasgc := gc))
    case FixString(o) => Stored(g, h, o, g.objs[o].(fixed := true))
    case Create(r, c) => Made(g, h, r, c)
    case CreateUdata(r, rs, gc) =>
      Made(g, h, r, Cell(Udata, White(g.cur), false, rs, [], false, false, [], [], [], gc, false))
    case MakeString(t, spare) => exists s :: Interned(g, h, t, s)
    case Capture(o, level, spare) => exists u :: Captured(g, h, o, level, u)
    case CloseTo(level) =>
      && Quiet(g, h) && g.running in g.objs && g.running in h.objs
      && forall u :: u in h.objs[g.running].openupval <==> u in g.objs[g.running].openupval && LevelOf(g, u) < level
    case SetBasicMt(rs) => h == g.(mt := rs)
    case Resume(t) => h == g.(running := t)
    case RestartSweep => Quiet(g, h)
    case RestartMark => Quiet(g, h)
    case CollectorStep =>
      if g.phase.Propagate? && g.gray == [] then Clears(g, h)
      else if g.phase.Finalize? && g.tmudata != [] then
        var u := g.tmudata[0];
        u in g.objs && Pushes(g, h, if g.objs[u].hasgc then [Obj(u)] else [])
      else Quiet(g, h)
  }

  lemma UpdateStored(g: State, o: Ref, d: Cell)
    requires o in g.objs && d.color == g.objs[o].color
    ensures Stored(g, Update(g, o, d), o, d)
  {
  }

  lemma ColoredStored(g: State, h: State, k: State, o: Ref, d: Cell)
    requires Stored(g, h, o, d) && SameRoots(h, k) && k.objs.Keys == h.objs.Keys
    requires forall x :: x in h.objs ==> k.objs[x] == h.objs[x].(color := k.objs[x].color)
    ensures Stored(g, k, o, d)
  {
  }

  lemma StoreTableEffect(g: State, o: Ref, rs: seq<Ref>, sl: seq<Slot>, stored: seq<Ref>)
    requires o in g.objs
    ensures Stored(g, StoreTable(g, o, rs, sl, stored), o, g.objs[o].(refs := rs, slots := sl))
  {
    hide Stored;
    var h := TableData(g, o, rs, sl);
    UpdateStored(g, o, g.objs[o].(refs := rs, slots := sl));
    ColoredStored(g, h, BarrierBack(h, o), o, g.objs[o].(refs := rs, slots := sl));
  }

  lemma StoreObjEffect(g: State, o: Ref, rs: seq<Ref>, stored: seq<Ref>)
    requires o in g.objs
    ensures Stored(g, StoreObj(g, o, rs, stored), o, g.objs[o].(refs := rs))
  {
    hide Stored;
    var h, d := ObjData(g, o, rs), g.objs[o].(refs := rs);
    UpdateStored(g, o, d);
    ColoredStored(g, h, MarkAll(h, stored), o, d);
    ColoredStored(g, h, SetColor(h, o, White(g.cur)), o, d);
  }

  lemma StoreEffect(g: State, op: Op)
    requires Inv(g) && Enabled(g, op) && IsStore(op)
    ensures Effect(g, op, ApplyStore(g, op))
  {
    hide Stored, Inv, Accessible, AllAccessible, OpenBelow, StoreTable, StoreObj;
    match op
    case SetSlots(t, st) => UpdateStored(g, t, g.objs[t].(stack := st));
    case SetEnv(t, rs) => UpdateStored(g, t, g.objs[t].(refs := rs));
    case WriteTable(o, rs, sl, stored) => StoreTableEffect(g, o, rs, sl, stored);
    case WriteObject(o, rs, stored) => StoreObjEffect(g, o, rs, stored);
    case SetModes(o, wk, wv, gc) => UpdateStored(g, o, g.objs[o].(weakkey := wk, weakvalue := wv, hasgc := gc));
    case FixString(o) => UpdateStored(g, o, g.objs[o].(fixed := true));
  }

  lemma MadeFrom(g: State, k: State, r: Ref, c: Cell)
    requires SameRoots(g, k) && r !in g.objs && k.objs == g.objs[r := c.(color := White(g.cur))] && g.running in g.objs
    ensures Made(g, Push(k, Obj(r)), r, c)
  {
  }

  lemma StringEffect(g: State, t: string, spare: Ref)
    requires Inv(g) && spare !in g.objs
    ensures Interned(g, MadeString(g, t, spare), t, Intern(g, t, spare).1)
  {
    hide LiveClosed, PhaseOk, RootListOk, UpvalsOk, Kinds, Intern, Bucket, Interned;
    InternKeeps(g, t, spare);
    InternCells(g, t, spare);
    var k, s := Intern(g, t, spare).0, Intern(g, t, spare).1;
    InternedFrom(g, k, t, s);
  }

  lemma NewStringCells(g: State, t: string, r: Ref)
    requires g.strt != []
    ensures var k := NewString(g, t, r);
            SameRoots(g, k) && k.objs == g.objs[r := StringCell(g, t)]
  {
    hide Bucket, CountStrings, SpreadAll;
  }

  lemma InternCells(g: State, t: string, spare: Ref)
    requires g.strt != [] && spare !in g.objs
    ensures var (k, s) := Intern(g, t, spare);
            && SameRoots(g, k) && k.objs.Keys == g.objs.Keys + {s}
            && forall x :: x in g.objs ==> k.objs[x] == g.objs[x].(color := k.objs[x].color)
  {
    hide NewString, Bucket;
    NewStringCells(g, t, spare);
  }

  lemma InternedFrom(g: State, k: State, t: string, s: Ref)
    requires SameRoots(g, k) && IsText(k, s) && k.objs[s].text == t && k.objs.Keys == g.objs.Keys + {s}
    requires g.running in g.objs && g.objs[g.running].kind.Thread?
    requires forall x :: x in g.objs ==> k.objs[x] == g.objs[x].(color := k.objs[x].color)
    requires forall x :: IsText(k, x) && k.objs[x].text == t ==> x == s
    ensures Interned(g, Push(k, Obj(s)), t, s)
  {
    var h := Push(k, Obj(s));
    forall x | IsText(h, x) && h.objs[x].text == t ensures x == s {
      assert IsText(k, x);
    }
  }

  /** Same objects and `u`, up to colours and lists of open upvalues. */
  ghost predicate Opened(g: State, k: State, u: Ref) {
    && SameRoots(g, k) && k.objs.Keys == g.objs.Keys + {u}
    && forall x :: x in g.objs ==> k.objs[x] == g.objs[x].(color := k.objs[x].color, openupval := k.objs[x].openupval)
  }

  lemma ReviveOpened(g: State, u: Ref)
    requires u in g.objs
    ensures Opened(g, Revive(g, u), u)
  {
  }

  lemma NewOpenOpened(g: State, t: Ref, level: nat, r: Ref)
    requires t in g.objs && r !in g.objs
    ensures Opened(g, NewOpen(g, t, level, r), r)
  {
  }

  lemma FoundCells(g: State, t: Ref, level: nat, spare: Ref)
    requires t in g.objs && spare !in g.objs
    ensures Opened(g, FindUpval(g, t, level, spare).0, FindUpval(g, t, level, spare).1)
  {
    hide Opened, NewOpen, Revive;
    var l := g.objs[t].openupval;
    var i := FindLevel(g, l, level);
    if i < |l| && l[i] in g.objs && LevelOf(g, l[i]) == level {
      ReviveOpened(g, l[i]);
    } else {
      NewOpenOpened(g, t, level, spare);
    }
  }

  /** Open upvalues of a thread have different levels. */
  lemma OneOpen(h: State, t: Ref, u: Ref, v: Ref)
    requires UpvalsOk(h) && OpenAt(h, u, t) && OpenAt(h, v, t) && h.objs[u].kind.level == h.objs[v].kind.level
    ensures u == v
  {
    assert OpenListOk(h, t);
    var l := h.objs[t].openupval;
    var i :| 0 <= i < |l| && l[i] == u;
    var j :| 0 <= j < |l| && l[j] == v;
    assert OpenAt(h, l[i], t) && OpenAt(h, l[j], t);
  }

  lemma CaptureEffect(g: State, o: Ref, level: nat, spare: Ref)
    requires Inv(g) && Enabled(g, Capture(o, level, spare))
    ensures Captured(g, CaptureUpval(g, o, level, spare), o, level, FindUpval(g, g.running, level, spare).1)
  {
    hide LiveClosed, PhaseOk, RootListOk, StringsOk, Kinds, UpvalsOk, FindUpval, StoreObj, Captured, Accessible;
    RunningLive(g);
    FoundCells(g, g.running, level, spare);
    FindUpvalKeeps(g, g.running, level, spare);
    CaptureSafe(g, o, level, spare);
    var k, u := FindUpval(g, g.running, level, spare).0, FindUpval(g, g.running, level, spare).1;
    StoreObjEffect(k, o, k.objs[o].refs + [u], [u]);
    StoredOpen(k, CaptureUpval(g, o, level, spare), o, k.objs[o].refs + [u], u, g.running);
    CapturedFrom(g, k, CaptureUpval(g, o, level, spare), o, level, u);
  }

  lemma RunningLive(g: State)
    requires Inv(g)
    ensures IsLive(g, g.running) && g.objs[g.running].kind.Thread?
  {
    hide PhaseOk, RootListOk, StringsOk, Kinds, UpvalsOk;
    assert g.running in Roots(g);
  }

  lemma CapturedCell(c: Cell, d: Cell, e: Cell, own: bool, u: Ref)
    requires d == c.(color := d.color, openupval := d.openupval)
    requires e == (if own then d.(refs := d.refs + [u]) else d).(color := e.color)
    ensures e == (if own then c.(refs := c.refs + [u]) else c).(color := e.color, openupval := e.openupval)
  {
  }

  lemma CapturedFrom(g: State, k: State, h: State, o: Ref, level: nat, u: Ref)
    requires o in g.objs && Opened(g, k, u) && UpvalsOk(h) && Stored(k, h, o, k.objs[o].(refs := k.objs[o].refs + [u]))
    requires OpenAt(k, u, g.running) && k.objs[u].kind.level == level && OpenAt(h, u, g.running)
    ensures Captured(g, h, o, level, u)
  {
    hide UpvalsOk;
    forall v | OpenAt(h, v, g.running) && h.objs[v].kind.level == level ensures v == u {
      OneOpen(h, g.running, u, v);
    }
    forall x | x in g.objs
      ensures h.objs[x] == (if x == o then g.objs[o].(refs := g.objs[o].refs + [u]) else g.objs[x])
                             .(color := h.objs[x].color, openupval := h.objs[x].openupval)
    {
      CapturedCell(g.objs[x], k.objs[x], h.objs[x], x == o, u);
    }
  }

  lemma StoredOpen(g: State, h: State, o: Ref, rs: seq<Ref>, u: Ref, t: Ref)
    requires o in g.objs && Stored(g, h, o, g.objs[o].(refs := rs)) && OpenAt(g, u, t)
    ensures OpenAt(h, u, t)
  {
  }

  lemma CreationEffect(g: State, op: Op)
    requires Inv(g) && Enabled(g, op) && IsCreation(op)
    ensures Effect(g, op, ApplyCreation(g, op))
  {
    hide LiveClosed, PhaseOk, RootListOk, UpvalsOk, Kinds, Accessible, AllAccessible, Made, Interned, Captured, Push,
         Intern, FindUpval, CaptureUpval, MadeString, SplitAtMain;
    match op
    case Create(r, c) => MadeFrom(g, NewObject(g, r, c), r, c);
    case CreateUdata(r, rs, gc) =>
      var c := Cell(Udata, White(g.cur), false, rs, [], false, false, [], [], [], gc, false);
      MainListed(g);
      MadeFrom(g, NewUdata(g, r, rs, gc), r, c);
    case MakeString(t, spare) => StringEffect(g, t, spare);
    case Capture(o, level, spare) => CaptureEffect(g, o, level, spare);
  }

  /** Every step does to what programs see what its effect says. */
  lemma StepEffect(g: State, op: Op)
    requires Inv(g) && Enabled(g, op)
    ensures Effect(g, op, Apply(g, op))
  {
    hide LiveClosed, PhaseOk, RootListOk, UpvalsOk, StringsOk, Kinds, Accessible, AllAccessible, ApplyStore,
         ApplyCreation, Quiet, Clears, Pushes, SingleStep, CloseUpvals, MarkRoot, OpenBelow, FreshCell;
    if IsStore(op) {
      StoreEffect(g, op);
    } else if IsCreation(op) {
      CreationEffect(g, op);
    } else if op.CloseTo? {
      CloseUpvalsQuiet(g, g.running, op.level);
    } else if op.CollectorStep? {
      CollectorEffect(g);
    } else if op.RestartMark? {
      MarkRootQuiet(g);
    } else if op.RestartSweep? {
      QuietRefl(g);
      QuietLists(g, g, Abandon(g));
    }
  }

  // ----- what can happen -----

  lemma KidAccessible(g: State, o: Ref, x: Ref)
    requires Accessible(g, o) && o in g.objs && x in Kids(g, o)
    ensures Accessible(g, x)
  {
    hide Kids;
    var p :| Path(g, p) && p[|p| - 1] == o;
    var q := p + [x];
    forall i, j | 0 <= i && j == i + 1 < |q| ensures Edge(g, q[i], q[j]) {
      assert j < |p| ==> Edge(g, p[i], p[j]);
    }
    assert Path(g, q) && q[|q| - 1] == x;
  }

  lemma {:induction false} KidsUpdate(s: seq<Slot>, i: nat, e: Slot, x: Ref)
    requires i < |s|
    ensures x in SlotKids(s[i := e]) && !e.val.Nil? ==> x in SlotKids(s) || x in KeyRefs(e.key) || x in ValRefs(e.val)
    ensures x in SlotTrace(s[i := e]) ==> x in SlotTrace(s) || x in KeyRefs(e.key) || x in ValRefs(e.val)
  {
    var n := |s| - 1;
    if i < n {
      assert s[i := e][..n] == s[..n][i := e];
      KidsUpdate(s[..n], i, e, x);
    } else {
      assert s[i := e][..n] == s[..n];
    }
  }

  lemma {:induction false} EntryKey(s: seq<Slot>, i: nat, x: Ref)
    requires i < |s| && x in KeyRefs(s[i].key)
    ensures x in SlotTrace(s) && (!s[i].val.Nil? ==> x in SlotKids(s))
  {
    var n := |s| - 1;
    if i < n {
      assert s[..n][i] == s[i];
      EntryKey(s[..n], i, x);
    }
  }

  /** The program can store any object it can reach into any entry of any table it can
      reach, and into any free slot whose key is not an object. */
  lemma CanStore(g: State, o: Ref, i: nat, x: Ref)
    requires Accessible(g, o) && o in g.objs && g.objs[o].kind.Table? && i < |g.objs[o].slots| && Accessible(g, x)
    requires g.objs[o].slots[i].val.Nil? ==> !g.objs[o].slots[i].key.KObj?
    ensures var c := g.objs[o];
            Enabled(g, WriteTable(o, c.refs, c.slots[i := c.slots[i].(val := Obj(x))], [x]))
  {
    hide Accessible;
    var c := g.objs[o];
    var e := c.slots[i].(val := Obj(x));
    var sl := c.slots[i := e];
    forall y | y in c.refs ensures Accessible(g, y) {
      KidAccessible(g, o, y);
    }
    forall y | y in SlotKids(sl) ensures Accessible(g, y) {
      KidsUpdate(c.slots, i, e, y);
      if y in KeyRefs(e.key) {
        EntryKey(c.slots, i, y);
      }
      if y != x {
        KidAccessible(g, o, y);
      }
    }
    forall y | y in c.refs || y in SlotTrace(sl) ensures y in Trace(g, o) || y in [x] {
      KidsUpdate(c.slots, i, e, y);
      if y in KeyRefs(e.key) {
        EntryKey(c.slots, i, y);
      }
    }
  }

  /** The collector can take a step in any state, and objects can be made in any. */
  lemma CanGoOn(g: State, r: Ref, gc: bool)
    requires r !in g.objs
    ensures Enabled(g, CollectorStep) && Enabled(g, CreateUdata(r, [], gc)) && Enabled(g, MakeString("", r))
    ensures Enabled(g, Create(r, Cell(Table, White(g.cur), false, [], [], false, false, [], [], [], false, false)))
  {
  }
}

/** The string table over whole runs: every string hangs in one chain, once, the count is
    right, and the table has the size that the count asks for. */
module GcStrings {
  import opened LuaHeap
  import opened GcMark
  import opened GcState
  import opened GcPropagate
  import opened GcAtomic
  import opened GcFinish
  import opened GcClear
  import opened GcCycle
  import opened GcSweep
  import opened GcUpval
  import opened GcUpdate
  import opened GcStore
  import opened GcSweepRoot
  import opened GcSweepStep
  import opened GcStep
  import opened GcAlloc
  import opened GcRun
  import opened GcSafety
  import opened GcTheorem
  import opened GcLife

  ghost predicate Chains(bs: seq<seq<Ref>>) {
    forall b :: 0 <= b < |bs| ==> Distinct(bs[b])
  }

  /** lmod picks chains by the low bits of the hash. */
  predicate PowerOfTwo(n: nat) {
    n == 1 || (n > 1 && n % 2 == 0 && PowerOfTwo(n / 2))
  }

  ghost predicate TableOk(g: State) {
    Chains(g.strt) && PowerOfTwo(|g.strt|) && |g.strt| >= MINSTRTABSIZE
  }

  ghost predicate Apart(bs: seq<seq<Ref>>, l: seq<Ref>) {
    forall b, x :: 0 <= b < |bs| && x in bs[b] ==> x !in l
  }

  ghost predicate Disjoint(bs: seq<seq<Ref>>) {
    forall a, b, x :: 0 <= a < b < |bs| && x in bs[a] ==> x !in bs[b]
  }

  // ----- luaS_resize -----

  lemma {:induction false} CountUpdate(bs: seq<seq<Ref>>, b: nat, x: Ref)
    requires b < |bs|
    ensures CountStrings(bs[b := [x] + bs[b]]) == CountStrings(bs) + 1
  {
    var cs := bs[b := [x] + bs[b]];
    if b > 0 {
      assert cs[1..] == bs[1..][b - 1 := [x] + bs[1..][b - 1]];
      CountUpdate(bs[1..], b - 1, x);
    } else {
      assert cs[1..] == bs[1..];
    }
  }

  lemma {:induction false} SpreadChains(g: State, l: seq<Ref>, acc: seq<seq<Ref>>)
    requires acc != [] && Distinct(l) && Chains(acc) && Apart(acc, l)
    ensures Chains(Spread(g, l, acc)) && CountStrings(Spread(g, l, acc)) == CountStrings(acc) + |l|
    decreases |l|
  {
    if l != [] {
      hide Home, CountStrings;
      var b := Home(g, |acc|, l[0]);
      var next := acc[b := [l[0]] + acc[b]];
      assert l[0] in l;
      assert l == [l[0]] + l[1..];
      Behead(l[1..], l[0]);
      LinkedList(acc[b], l[0]);
      assert Chains(next);
      forall c, x | 0 <= c < |next| && x in next[c] ensures x !in l[1..] {
        assert x in l[1..] ==> x in l;
      }
      SpreadChains(g, l[1..], next);
      CountUpdate(acc, b, l[0]);
    }
  }

  lemma {:induction false} SpreadAllChains(g: State, bs: seq<seq<Ref>>, acc: seq<seq<Ref>>)
    requires acc != [] && Chains(bs) && Disjoint(bs) && Chains(acc)
    requires forall b, x :: 0 <= b < |acc| && x in acc[b] ==> !InSome(bs, x)
    ensures Chains(SpreadAll(g, bs, acc)) && CountStrings(SpreadAll(g, bs, acc)) == CountStrings(acc) + CountStrings(bs)
    decreases |bs|
  {
    if bs != [] {
      hide Home, Distinct;
      var mid := Spread(g, bs[0], acc);
      InSomeCons(bs);
      assert Apart(acc, bs[0]);
      SpreadChains(g, bs[0], acc);
      forall b, x | 0 <= b < |mid| && x in mid[b] ensures !InSome(bs[1..], x) {
        if x in bs[0] {
          RestApart(bs, x);
        } else {
          assert x in acc[b];
        }
      }
      assert Chains(bs[1..]) && Disjoint(bs[1..]);
      SpreadAllChains(g, bs[1..], mid);
    }
  }

  lemma RestApart(bs: seq<seq<Ref>>, x: Ref)
    requires bs != [] && Disjoint(bs) && x in bs[0]
    ensures !InSome(bs[1..], x)
  {
    forall i | 0 <= i < |bs[1..]| ensures x !in bs[1..][i] {
      assert bs[1..][i] == bs[i + 1];
    }
  }

  lemma StringsDisjoint(g: State)
    requires StringsOk(g)
    ensures Disjoint(g.strt)
  {
    forall a, b, x | 0 <= a < b < |g.strt| && x in g.strt[a] ensures x !in g.strt[b] {
      assert IsText(g, x) && Bucket(g, g.objs[x].text) == a;
    }
  }

  lemma {:induction false} EmptyCount(n: nat)
    ensures CountStrings(seq(n, _ => [])) == 0
  {
    var bs: seq<seq<Ref>> := seq(n, _ => []);
    if n > 0 {
      var cs: seq<seq<Ref>> := seq(n - 1, _ => []);
      assert bs[1..] == cs;
      EmptyCount(n - 1);
    }
  }

  /** Resizing moves strings, and neither loses nor doubles any. */
  lemma ResizeChains(g: State, n: nat)
    requires StringsOk(g) && Chains(g.strt) && n > 0
    ensures Chains(Resize(g, n).strt) && CountStrings(Resize(g, n).strt) == CountStrings(g.strt)
    ensures |Resize(g, n).strt| == if g.phase.SweepString? then |g.strt| else n
  {
    hide SpreadAll;
    if !g.phase.SweepString? {
      StringsDisjoint(g);
      EmptyCount(n);
      SpreadAllChains(g, g.strt, seq(n, _ => []));
    }
  }

  // ----- the count -----

  ghost function Texts(g: State): set<Ref> {
    set r | r in g.objs && IsText(g, r)
  }

  ghost function Members(l: seq<Ref>): set<Ref> {
    set x | x in l
  }

  lemma {:induction false} MembersCount(l: seq<Ref>)
    requires Distinct(l)
    ensures |Members(l)| == |l|
  {
    if l != [] {
      assert l == [l[0]] + l[1..];
      Behead(l[1..], l[0]);
      MembersCount(l[1..]);
      assert Members(l) == {l[0]} + Members(l[1..]);
    } else {
      assert Members(l) == {};
    }
  }

  lemma {:induction false} ChainsCount(bs: seq<seq<Ref>>, s: set<Ref>)
    requires Chains(bs) && Disjoint(bs) && forall x :: x in s <==> InSome(bs, x)
    ensures CountStrings(bs) == |s|
    decreases |bs|
  {
    if bs == [] {
      assert s == {};
    } else {
      InSomeCons(bs);
      var rest := set x | x in s && InSome(bs[1..], x);
      assert Chains(bs[1..]) && Disjoint(bs[1..]);
      ChainsCount(bs[1..], rest);
      MembersCount(bs[0]);
      assert Members(bs[0]) !! rest by {
        forall x | x in bs[0] ensures !InSome(bs[1..], x) {
          RestApart(bs, x);
        }
      }
      assert s == Members(bs[0]) + rest;
    }
  }

  /** The chains hold each string once. */
  lemma TextCount(g: State)
    requires StringsOk(g) && Chains(g.strt)
    ensures CountStrings(g.strt) == |Texts(g)|
  {
    StringsDisjoint(g);
    forall x ensures x in Texts(g) <==> InSome(g.strt, x) {
      if x in Texts(g) {
        assert x in g.strt[Bucket(g, g.objs[x].text)];
      }
      if InSome(g.strt, x) {
        var b :| 0 <= b < |g.strt| && x in g.strt[b];
        assert IsText(g, x);
      }
    }
    ChainsCount(g.strt, Texts(g));
  }

  // ----- steps that change the table -----

  lemma LinkChains(g: State, t: string, r: Ref)
    requires StringsOk(g) && Chains(g.strt) && r !in g.objs
    ensures Chains(LinkString(g, t, r).strt) && CountStrings(LinkString(g, t, r).strt) == CountStrings(g.strt) + 1
    ensures |LinkString(g, t, r).strt| == |g.strt|
  {
    var b := Bucket(g, t);
    assert r !in g.strt[b] by {
      assert r in g.strt[b] ==> IsText(g, r);
    }
    LinkedList(g.strt[b], r);
    CountUpdate(g.strt, b, r);
  }

  /** A new string doubles the table exactly if there are more strings than chains then;
      but not while the table is swept. */
  lemma NewStringSize(g: State, t: string, r: Ref)
    requires Inv(g) && Chains(g.strt) && r !in g.objs && forall x :: IsText(g, x) ==> g.objs[x].text != t
    ensures var h := NewString(g, t, r);
            && Chains(h.strt) && CountStrings(h.strt) == |Texts(g)| + 1
            && |h.strt| == if |Texts(g)| + 1 > |g.strt| && !g.phase.SweepString? then 2 * |g.strt| else |g.strt|
  {
    hide LiveClosed, PhaseOk, RootListOk, RootsOk, UpvalsOk, Kinds, CountStrings;
    TextCount(g);
    LinkChains(g, t, r);
    LinkStringKeeps(g, t, r);
    var h := LinkString(g, t, r);
    if CountStrings(h.strt) > |h.strt| {
      ResizeChains(h, |h.strt| * 2);
    }
  }

  /** At the end of a sweep a table with fewer strings than a quarter of its chains is
      halved, down to twice the least size. */
  lemma CheckSizesSize(g: State)
    requires StringsOk(g) && Chains(g.strt) && g.phase.Sweep?
    ensures var h, n := CheckSizes(g), |g.strt|;
            && Chains(h.strt) && CountStrings(h.strt) == |Texts(g)|
            && |h.strt| == if |Texts(g)| < n / 4 && n > 2 * MINSTRTABSIZE then n / 2 else n
  {
    hide CountStrings, Chains, StringsOk;
    TextCount(g);
    if CountStrings(g.strt) < |g.strt| / 4 && |g.strt| > MINSTRTABSIZE * 2 {
      ResizeChains(g, |g.strt| / 2);
    }
  }

  lemma {:induction false} SurvivorsDistinct(g: State, l: seq<Ref>)
    requires Distinct(l)
    ensures Distinct(Survivors(g, l))
  {
    if l != [] {
      assert l == [l[0]] + l[1..];
      Behead(l[1..], l[0]);
      SurvivorsDistinct(g, l[1..]);
      if !Freeable(g, l[0]) {
        LinkedList(Survivors(g, l[1..]), l[0]);
      }
    }
  }

  lemma SweepChains(g: State)
    requires Chains(g.strt) && g.sweepstrgc < |g.strt|
    ensures Chains(SweepStrings(g).strt) && |SweepStrings(g).strt| == |g.strt|
  {
    SurvivorsDistinct(g, g.strt[g.sweepstrgc]);
  }

  // ----- steps that do not -----

  lemma {:induction false} CloseTable(g: State, t: Ref, level: nat)
    requires Inv(g) && t in g.objs
    ensures CloseUpvals(g, t, level).strt == g.strt
    decreases |g.objs[t].openupval|
  {
    hide WellFormed, LiveClosed, PhaseOk;
    if g.objs[t].openupval != [] && LevelOf(g, g.objs[t].openupval[0]) >= level {
      CloseOneKeeps(g, t);
      CloseTable(CloseOne(g, t), t, level);
    }
  }

  lemma SweepOneTable(g: State)
    requires Inv(g) && g.phase.Sweep? && g.sweepgc < |g.rootgc|
    ensures SweepOne(g).strt == g.strt
  {
    hide WellFormed, LiveClosed, PhaseOk, CloseUpvals, Sweeps, Pending;
    SweepThreadKeeps(g);
    var k := SweepThread(g);
    if Freeable(k, Current(k)) {
      DoomedKeeps(k);
      CloseTable(k, Current(k), 0);
    }
  }

  lemma {:induction false} SweepRootTable(g: State, n: nat)
    requires Inv(g) && g.phase.Sweep?
    ensures SweepRoot(g, n).strt == g.strt
    decreases n
  {
    hide SweepOne, Inv, SweepRun, Pending, Sweeps;
    if n != 0 && g.sweepgc != |g.rootgc| {
      SweepPosition(g);
      SweepOneKeeps(g);
      SweepOneTable(g);
      SweepRootTable(SweepOne(g), n - 1);
    }
  }

  lemma StoreTableSame(g: State, op: Op)
    requires Inv(g) && Enabled(g, op) && IsStore(op)
    ensures ApplyStore(g, op).strt == g.strt
  {
    hide WellFormed, LiveClosed, PhaseOk;
  }

  lemma CaptureTable(g: State, o: Ref, level: nat, spare: Ref)
    requires g.running in g.objs && o in g.objs
    ensures CaptureUpval(g, o, level, spare).strt == g.strt
  {
  }

  lemma UdataTable(g: State, r: Ref, rs: seq<Ref>, gc: bool)
    requires g.main in g.rootgc
    ensures NewUdata(g, r, rs, gc).strt == g.strt
  {
  }

  lemma AtomicTable(g: State)
    requires Ready(g) && WellFormed(g)
    ensures Atomic(g).strt == g.strt
  {
    hide Kinds, UpvalsOk, StringsOk, RootListOk, RootsOk, NoDangling, FinishMarks, Separated, SameCells;
    SeparatedTable(g);
    var f := FinishMarks(g);
    assert forall r :: r in f.weak ==> r in f.objs;
    ClearedTable(f, f.weak);
  }

  lemma SeparatedTable(g: State)
    requires Ready(g) && WellFormed(g)
    ensures Separated(g).strt == g.strt
  {
    hide Kinds, UpvalsOk, StringsOk, RootListOk, RootsOk, NoDangling, Remark, SameCells, Pick, SplitAtMain;
  }

  lemma {:induction false} ClearedTable(g: State, l: seq<Ref>)
    requires forall r :: r in l ==> r in g.objs
    ensures ClearTables(g, l).strt == g.strt
    decreases |l|
  {
    if l != [] {
      assert l[0] in l;
      ClearedTable(ClearTable(g, l[0]), l[1..]);
    }
  }

  // ----- runs -----

  lemma MadeTable(g: State, t: string, spare: Ref)
    requires Inv(g) && TableOk(g) && spare !in g.objs
    ensures TableOk(MadeString(g, t, spare))
  {
    hide LiveClosed, PhaseOk, RootListOk, RootsOk, UpvalsOk, Kinds, CountStrings, Chains;
    InternKeeps(g, t, spare);
    var l := g.strt[Bucket(g, t)];
    var i := FindText(g, l, t);
    if !(i < |l| && l[i] in g.objs) {
      NotFound(g, t);
      NewStringSize(g, t, spare);
      assert PowerOfTwo(2 * |g.strt|);
    }
  }

  lemma NotFound(g: State, t: string)
    requires StringsOk(g)
    requires var l := g.strt[Bucket(g, t)]; var i := FindText(g, l, t); !(i < |l| && l[i] in g.objs)
    ensures forall x :: IsText(g, x) ==> g.objs[x].text != t
  {
    forall x | IsText(g, x) && g.objs[x].text == t ensures false {
      FindsText(g, t, x);
    }
  }

  lemma SweepStepTable(g: State)
    requires Inv(g) && TableOk(g) && g.phase.Sweep?
    ensures TableOk(SweepStep(g))
  {
    hide Inv, SweepRoot, Chains, CheckSizes, CountStrings, SweepRun;
    SweepRootTable(g, GCSWEEPMAX);
    var h := SweepRoot(g, GCSWEEPMAX);
    InvStrings(h);
    if h.sweepgc == |h.rootgc| {
      CheckSizesSize(h);
    }
  }

  lemma InvStrings(g: State)
    requires Inv(g)
    ensures StringsOk(g) && g.main in g.rootgc && g.main in g.objs && g.running in g.objs
  {
    hide LiveClosed, PhaseOk, UpvalsOk, Kinds, StringsOk;
  }

  lemma CollectorTable(g: State)
    requires Inv(g) && TableOk(g)
    ensures TableOk(SingleStep(g))
  {
    hide Chains, PowerOfTwo, Atomic, SweepStrings, SweepStep, RootListOk, UpvalsOk, Kinds, LiveClosed, Ready,
         SplitAtMain;
    match g.phase
    case Pause =>
    case Propagate =>
      if g.gray != [] {
        PropagateKeeps(g);
      } else {
        PropagateReady(g);
        AtomicTable(g);
      }
    case SweepString => SweepChains(g);
    case Sweep => SweepStepTable(g);
    case Finalize =>
  }

  lemma CreationTable(g: State, op: Op)
    requires Inv(g) && TableOk(g) && Enabled(g, op) && IsCreation(op)
    ensures TableOk(ApplyCreation(g, op))
  {
    hide Inv, TableOk, Accessible, AllAccessible, NewUdata, CaptureUpval, MadeString;
    InvStrings(g);
    match op
    case Create(r, c) => TableSame(g, ApplyCreation(g, op));
    case CreateUdata(r, rs, gc) =>
      UdataTable(g, r, rs, gc);
      TableSame(g, ApplyCreation(g, op));
    case MakeString(t, spare) => MadeTable(g, t, spare);
    case Capture(o, level, spare) =>
      CaptureTable(g, o, level, spare);
      TableSame(g, ApplyCreation(g, op));
  }

  lemma TableSame(g: State, h: State)
    requires TableOk(g) && h.strt == g.strt
    ensures TableOk(h)
  {
  }

  lemma StepTable(g: State, op: Op)
    requires Inv(g) && TableOk(g) && Enabled(g, op)
    ensures TableOk(Apply(g, op))
  {
    hide LiveClosed, PhaseOk, RootListOk, UpvalsOk, StringsOk, Kinds, ApplyStore, ApplyCreation, TableOk, SingleStep,
         CloseUpvals;
    if IsStore(op) {
      StoreTableSame(g, op);
      TableSame(g, Apply(g, op));
    } else if IsCreation(op) {
      CreationTable(g, op);
    } else if op.CloseTo? {
      CloseTable(g, g.running, op.level);
      TableSame(g, Apply(g, op));
    } else if op.CollectorStep? {
      CollectorTable(g);
    } else {
      TableSame(g, Apply(g, op));
    }
  }

  /** In every state of every run: chains without repetitions, as many entries as there
      are strings, and a power of two of chains. */
  lemma {:induction false} RunTable(gs: seq<State>, ops: seq<Op>, i: nat)
    requires Run(gs, ops) && i <= |ops|
    ensures TableOk(gs[i]) && CountStrings(gs[i].strt) == |Texts(gs[i])|
  {
    hide Inv, Apply, InitialState, Enabled, TableOk;
    RunInv(gs, ops, i);
    if i == 0 {
      var hash :| gs[0] == InitialState(hash);
      InitialTable(hash);
    } else {
      RunTable(gs, ops, i - 1);
      RunInv(gs, ops, i - 1);
      assert Follows(gs, ops, i - 1);
      StepTable(gs[i - 1], ops[i - 1]);
    }
    InvStrings(gs[i]);
    TableCount(gs[i]);
  }

  lemma TableCount(g: State)
    requires StringsOk(g) && TableOk(g)
    ensures CountStrings(g.strt) == |Texts(g)|
  {
    TextCount(g);
  }

  lemma InitialTable(hash: string -> nat)
    ensures TableOk(InitialState(hash))
  {
    assert PowerOfTwo(1) && PowerOfTwo(2) && PowerOfTwo(4) && PowerOfTwo(8) && PowerOfTwo(16) && PowerOfTwo(32);
  }
}
