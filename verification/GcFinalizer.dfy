/** Finalizers: which userdata the atomic step queues for theirs, and in which order. */
module GcFinal {
  import opened LuaHeap
  import opened GcMark
  import opened GcState
  import opened GcPropagate
  import opened GcClear
  import opened GcAtomic
  import opened GcFinish
  import opened GcCycle
  import opened GcStrong
  import opened GcWeak
  import opened GcReach

  // ----- order in a list -----

  /** The members of `s` come in the order of `l`. */
  ghost predicate Ordered(l: seq<Ref>, s: seq<Ref>) {
    forall i, j :: 0 <= i < j < |s| ==> Before(l, s[i], s[j])
  }

  lemma BeforeAt(l: seq<Ref>, i: nat, j: nat)
    requires i < j < |l|
    ensures Before(l, l[i], l[j])
  {
  }

  lemma BeforeOnce(l: seq<Ref>, x: Ref, y: Ref)
    requires Distinct(l) && Before(l, x, y)
    ensures !Before(l, y, x) && x != y && x in l && y in l
  {
  }

  /** Being in the order of a list without repetitions goes both ways. */
  lemma OrderedBack(l: seq<Ref>, s: seq<Ref>, x: Ref, y: Ref)
    requires Distinct(l) && Ordered(l, s) && Before(l, x, y) && x in s && y in s
    ensures Before(s, x, y)
  {
    hide Before;
    var i :| 0 <= i < |s| && s[i] == x;
    var j :| 0 <= j < |s| && s[j] == y;
    BeforeOnce(l, x, y);
    if i < j {
      BeforeAt(s, i, j);
    }
  }

  lemma BeforeShift(a: seq<Ref>, b: seq<Ref>, x: Ref, y: Ref)
    requires Before(b, x, y)
    ensures Before(a + b, x, y)
  {
    var i, j :| 0 <= i < j < |b| && b[i] == x && b[j] == y;
    assert (a + b)[|a| + i] == x && (a + b)[|a| + j] == y;
  }

  lemma BeforeSplit(a: seq<Ref>, b: seq<Ref>, x: Ref, y: Ref)
    requires x in a && y in b
    ensures Before(a + b, x, y)
  {
    var i :| 0 <= i < |a| && a[i] == x;
    var j :| 0 <= j < |b| && b[j] == y;
    assert (a + b)[i] == x && (a + b)[|a| + j] == y;
  }

  lemma BeforeFirst(a: seq<Ref>, b: seq<Ref>, x: Ref, y: Ref)
    requires Before(a, x, y)
    ensures Before(a + b, x, y)
  {
    var i, j :| 0 <= i < j < |a| && a[i] == x && a[j] == y;
    assert (a + b)[i] == x && (a + b)[j] == y;
  }

  lemma {:induction false} PickOrdered(g: State, l: seq<Ref>, tm: bool)
    ensures Ordered(l, Pick(g, l, tm))
  {
    hide Before;
    if l != [] {
      var s, t := Pick(g, l, tm), Pick(g, l[1..], tm);
      PickOrdered(g, l[1..], tm);
      assert l == [l[0]] + l[1..];
      forall i, j | 0 <= i < j < |s| ensures Before(l, s[i], s[j]) {
        var k := |s| - |t|;
        assert s[j] == t[j - k] && s[j] in l[1..];
        if i < k {
          BeforeSplit([l[0]], l[1..], s[i], s[j]);
        } else {
          assert Before(l[1..], t[i - k], t[j - k]);
          BeforeShift([l[0]], l[1..], s[i], s[j]);
        }
      }
    }
  }

  lemma OrderedFrom(a: seq<Ref>, b: seq<Ref>, s: seq<Ref>)
    requires Ordered(b, s)
    ensures Ordered(a + b, s)
  {
    hide Before;
    forall i, j | 0 <= i < j < |s| ensures Before(a + b, s[i], s[j]) {
      BeforeShift(a, b, s[i], s[j]);
    }
  }

  lemma OrderedBehind(a: seq<Ref>, b: seq<Ref>, s: seq<Ref>)
    requires Ordered(b, s) && forall x :: x in s ==> x in b
    ensures Ordered(a + b, a + s)
  {
    hide Before;
    var t := a + s;
    forall i, j | 0 <= i < j < |t| ensures Before(a + b, t[i], t[j]) {
      if j < |a| {
        BeforeAt(a, i, j);
        BeforeFirst(a, b, t[i], t[j]);
      } else if i < |a| {
        BeforeSplit(a, b, t[i], t[j]);
      } else {
        BeforeShift(a, b, s[i - |a|], s[j - |a|]);
      }
    }
  }

  // ----- the life of a userdata -----

  ghost predicate IsUdata(g: State, u: Ref) {
    u in g.objs && g.objs[u].kind.Udata?
  }

  /** Userdata stand behind the main thread, or wait for their finalizer and count as
      finalized. */
  ghost predicate Placed(g: State) {
    && (forall u :: IsUdata(g, u) && u in g.rootgc ==> Before(g.rootgc, g.main, u))
    && (forall u :: IsUdata(g, u) && u in g.tmudata ==> g.objs[u].finalized)
  }

  /** Dead userdata count as finalized, too. */
  ghost predicate LifeInv(g: State) {
    Placed(g) && forall u :: IsUdata(g, u) && IsDead(g, u) ==> g.objs[u].finalized
  }

  /** `u` is finalized from this step on. */
  ghost predicate Finalized(g: State, h: State, u: Ref) {
    IsUdata(g, u) && IsUdata(h, u) && !g.objs[u].finalized && h.objs[u].finalized
  }

  /** `s` is put at the end of the queue: the userdata that become finalized and have a
      finalizer, in the order of rootgc.  They leave rootgc; nothing else changes
      there. */
  ghost predicate Queues(g: State, h: State, s: seq<Ref>) {
    && h.main == g.main && h.objs.Keys == g.objs.Keys
    && h.tmudata == g.tmudata + s && Ordered(g.rootgc, s)
    && (forall u :: u in s <==> Finalized(g, h, u) && g.objs[u].hasgc)
    && Ordered(g.rootgc, h.rootgc) && (forall x :: x in h.rootgc <==> x in g.rootgc && x !in s)
    && (forall u :: u in g.objs ==>
          && h.objs[u].kind == g.objs[u].kind && h.objs[u].hasgc == g.objs[u].hasgc
          && h.objs[u].stack == g.objs[u].stack && (g.objs[u].finalized ==> h.objs[u].finalized))
  }

  ghost predicate CountsFinalized(a: State, u: Ref) {
    u in a.objs && a.objs[u].finalized
  }

  /** What separateudata does to the userdata behind the main thread. */
  lemma SeparateQueues(r: State)
    requires RootListOk(r) && Placed(r)
    ensures Queues(r, SeparateUdata(r), Pick(r, SplitAtMain(r).1, true))
    ensures forall u :: IsUdata(r, u) && IsWhite(r, u) ==> CountsFinalized(SeparateUdata(r), u)
  {
    hide Pick, SplitAtMain, Before, Ordered;
    var (a, ud) := SplitAtMain(r);
    var h, s := SeparateUdata(r), Pick(r, ud, true);
    PickOrdered(r, ud, true);
    OrderedFrom(a, ud, s);
    PickOrdered(r, ud, false);
    OrderedBehind(a, ud, Pick(r, ud, false));
    SeparateMembers(r);
    SeparateFinalizes(r);
  }

  lemma SeparateMembers(r: State)
    requires RootListOk(r)
    ensures var s := Pick(r, SplitAtMain(r).1, true);
            forall x :: x in SeparateUdata(r).rootgc <==> x in r.rootgc && x !in s
  {
    hide SplitAtMain;
    var (a, ud) := SplitAtMain(r);
    forall x | x in ud ensures x !in a {
      var i :| 0 <= i < |ud| && ud[i] == x;
      assert r.rootgc[|a| + i] == x;
      assert forall j :: 0 <= j < |a| ==> r.rootgc[j] == a[j];
    }
    assert forall x :: x in r.rootgc <==> x in a || x in ud;
  }

  lemma SeparateFinalizes(r: State)
    requires RootListOk(r) && Placed(r)
    ensures var s := Pick(r, SplitAtMain(r).1, true);
            forall u :: u in s <==> Finalized(r, SeparateUdata(r), u) && r.objs[u].hasgc
    ensures forall u :: IsUdata(r, u) && IsWhite(r, u) ==> SeparateUdata(r).objs[u].finalized
  {
    hide SplitAtMain, Before;
    var (a, ud) := SplitAtMain(r);
    forall u | IsUdata(r, u) ensures !r.objs[u].finalized ==> u in ud {
      if u !in r.tmudata {
        assert u in r.rootgc;
        SplitBehind(r, u);
      }
    }
    forall u | u in ud ensures IsUdata(r, u) {
      UdataBehind(r, a, ud, u);
    }
  }

  lemma UdataBehind(r: State, a: seq<Ref>, ud: seq<Ref>, u: Ref)
    requires RootListOk(r) && a + ud == r.rootgc && a != [] && a[|a| - 1] == r.main && u in ud
    ensures IsUdata(r, u)
  {
    var i :| 0 <= i < |ud| && ud[i] == u;
    assert r.rootgc[|a| - 1] == r.main && r.rootgc[|a| + i] == u;
  }

  // ----- the atomic step -----

  /** Same lists; same kinds, flags and stacks. */
  ghost predicate SameLife(g: State, h: State) {
    && h.main == g.main && h.objs.Keys == g.objs.Keys && h.tmudata == g.tmudata && h.rootgc == g.rootgc
    && forall u :: u in g.objs ==>
         && h.objs[u].kind == g.objs[u].kind && h.objs[u].hasgc == g.objs[u].hasgc && h.objs[u].stack == g.objs[u].stack
         && h.objs[u].finalized == g.objs[u].finalized
  }

  lemma TendsLife(g: State, h: State)
    requires Tends(g, h)
    ensures SameLife(g, h)
  {
    hide Tidy;
    forall u | u in g.objs
      ensures h.objs[u].kind == g.objs[u].kind && h.objs[u].hasgc == g.objs[u].hasgc
      ensures h.objs[u].stack == g.objs[u].stack && h.objs[u].finalized == g.objs[u].finalized
    {
      assert TendsCell(g.objs[u], h.objs[u]);
    }
  }

  lemma FlippedLife(f: State, a: State)
    requires Flipped(f, a) && a.main == f.main
    ensures SameLife(f, a)
  {
    var h := a.(cur := !a.cur);
    forall u | u in f.objs
      ensures a.objs[u].kind == f.objs[u].kind && a.objs[u].hasgc == f.objs[u].hasgc
      ensures a.objs[u].stack == f.objs[u].stack && a.objs[u].finalized == f.objs[u].finalized
    {
      assert h.objs[u] == f.objs[u].(color := h.objs[u].color, slots := h.objs[u].slots);
    }
  }

  lemma PlacedSame(g: State, h: State)
    requires Placed(g) && SameLife(g, h)
    ensures Placed(h)
  {
    hide Before;
  }

  lemma QueuesSame(g: State, r: State, h: State, a: State, s: seq<Ref>)
    requires SameLife(g, r) && Queues(r, h, s) && SameLife(h, a)
    ensures Queues(g, a, s)
  {
    hide Ordered;
  }

  lemma SameLifeTrans(g: State, h: State, k: State)
    requires SameLife(g, h) && SameLife(h, k)
    ensures SameLife(g, k)
  {
  }

  /** The atomic step: what it queues are the userdata that become finalized in it and
      have a finalizer; they come behind those that wait already, in the order of
      rootgc.  A userdata that is dead now counts as finalized; so it had no finalizer,
      or was finalized before. */
  lemma AtomicQueues(g: State)
    requires Inv(g) && g.phase.Propagate? && Placed(g)
    ensures Ready(g) && |g.tmudata| <= |Atomic(g).tmudata| && Queues(g, Atomic(g), Atomic(g).tmudata[|g.tmudata|..])
    ensures LifeInv(Atomic(g))
    ensures forall u :: IsUdata(g, u) && IsDead(Atomic(g), u) ==> !g.objs[u].hasgc || g.objs[u].finalized
  {
    hide Inv, WellFormed, Ready, Atomic, Remark, Placed, Queues, Pick, RootListOk, NoDead, IsDead, IsUdata, SplitAtMain;
    PropagateWell(g);
    RemarkMain(g);
    AtomicStages(g);
    var a, s := Atomic(g), Pick(Remark(g), SplitAtMain(Remark(g)).1, true);
    QueuesRest(g, a, s);
    AtomicKeeps(g);
    AtomicPlaced(g, a, s);
    DeadHad(g, a, s);
  }

  lemma AtomicStages(g: State)
    requires Ready(g) && WellFormed(g) && NoDead(g) && Placed(g) && Remark(g).main in Remark(g).rootgc
    ensures Queues(g, Atomic(g), Pick(Remark(g), SplitAtMain(Remark(g)).1, true))
    ensures forall u :: IsUdata(Atomic(g), u) && IsDead(Atomic(g), u) ==> CountsFinalized(Atomic(g), u)
  {
    hide WellFormed, Ready, Atomic, Remark, Separated, FinishMarks, Placed, Queues, Tends, Flipped, SameLife, Finishes,
         WeakOnly, NoTablesAgain, ClearedSlots, SeparateUdata, Pick, RootListOk, NoDead, IsDead, IsUdata, SplitAtMain;
    var r, h, f, a := Remark(g), Separated(g), FinishMarks(g), Atomic(g);
    RemarkTends(g);
    RemarkMain(g);
    TendsLife(g, r);
    PlacedSame(g, r);
    SeparateQueues(r);
    SeparatedIs(g);
    FinishCells(g);
    ClearedWhole(g);
    TmuKept(g);
    TendsLife(h, f);
    FlippedLife(f, a);
    SameLifeTrans(h, f, a);
    QueuesSame(g, r, h, a, Pick(r, SplitAtMain(r).1, true));
    forall u | IsUdata(a, u) && IsDead(a, u) ensures CountsFinalized(a, u) {
      DeadFrom(r, h, f, a, u);
    }
  }

  lemma PropagateWell(g: State)
    requires Inv(g) && g.phase.Propagate?
    ensures Ready(g) && WellFormed(g) && NoDead(g) && RootListOk(g)
  {
    hide RootListOk, UpvalsOk, StringsOk, RootsOk, Kinds, LiveClosed, PropagateOk, NoDead, Ready;
    PropagateReady(g);
  }

  lemma SeparatedIs(g: State)
    requires Ready(g) && WellFormed(g) && Remark(g).main in Remark(g).rootgc
    ensures Separated(g) == SeparateUdata(Remark(g))
  {
    hide Remark, SeparateUdata, WellFormed, Ready;
  }

  lemma QueuesRest(g: State, a: State, s: seq<Ref>)
    requires Queues(g, a, s)
    ensures |g.tmudata| <= |a.tmudata| && a.tmudata[|g.tmudata|..] == s
  {
    hide Ordered;
  }

  lemma AtomicPlaced(g: State, a: State, s: seq<Ref>)
    requires Placed(g) && Queues(g, a, s) && RootListOk(g) && Inv(a)
    ensures Placed(a)
  {
    hide Before, Ordered, UpvalsOk, StringsOk, Kinds, LiveClosed, PhaseOk;
    forall u | IsUdata(a, u) && u in a.rootgc ensures Before(a.rootgc, a.main, u) {
      assert Before(g.rootgc, g.main, u);
      OrderedBack(g.rootgc, a.rootgc, g.main, u);
    }
    forall u | IsUdata(a, u) && u in a.tmudata ensures a.objs[u].finalized {
      assert u in g.tmudata || u in s;
    }
  }

  lemma DeadFrom(r: State, h: State, f: State, a: State, u: Ref)
    requires Tends(h, f) && Flipped(f, a) && r.main in r.rootgc && h == SeparateUdata(r) && SameLife(h, a)
    requires forall x :: IsUdata(r, x) && IsWhite(r, x) ==> CountsFinalized(h, x)
    requires IsUdata(a, u) && IsDead(a, u)
    ensures CountsFinalized(a, u)
  {
    hide Tidy, SplitAtMain, Pick, SameLife;
    SameFlagsAt(h, a, u);
    var k := a.(cur := !a.cur);
    assert k.objs[u] == f.objs[u].(color := k.objs[u].color, slots := k.objs[u].slots);
    assert TendsCell(h.objs[u], f.objs[u]);
    assert IsWhite(r, u);
  }

  lemma SameFlagsAt(h: State, a: State, u: Ref)
    requires SameLife(h, a) && u in a.objs
    ensures u in h.objs && a.objs[u].kind == h.objs[u].kind && a.objs[u].finalized == h.objs[u].finalized
  {
  }

  lemma DeadHad(g: State, a: State, s: seq<Ref>)
    requires Queues(g, a, s) && Inv(a) && forall u :: IsUdata(a, u) && IsDead(a, u) ==> CountsFinalized(a, u)
    ensures forall u :: IsUdata(g, u) && IsDead(a, u) ==> !g.objs[u].hasgc || g.objs[u].finalized
  {
    hide Ordered, Inv;
    QueuedLive(g, a, s);
    forall u | IsUdata(g, u) && IsDead(a, u) ensures !g.objs[u].hasgc || g.objs[u].finalized {
      assert CountsFinalized(a, u) && u !in s;
      assert g.objs[u].finalized || Finalized(g, a, u);
    }
  }

  lemma QueuedLive(g: State, a: State, s: seq<Ref>)
    requires Queues(g, a, s) && Inv(a)
    ensures forall u :: u in s ==> !IsDead(a, u)
  {
    hide Ordered, WellFormed, PhaseOk;
    forall u | u in s ensures !IsDead(a, u) {
      assert u in Roots(a);
    }
  }
}

/** Userdata through the steps of a run: where they stand in rootgc, whether they count as
    finalized, and when they go. */
module GcLife {
  import opened LuaHeap
  import opened GcMark
  import opened GcState
  import opened GcAtomic
  import opened GcFinish
  import opened GcCycle
  import opened GcPropagate
  import opened GcSweep
  import opened GcUpval
  import opened GcUpdate
  import opened GcStore
  import opened GcSweepRoot
  import opened GcSweepStep
  import opened GcStep
  import opened GcAlloc
  import opened GcRun
  import opened GcSafety
  import opened GcReach
  import opened GcFinal

  /** What happens to one userdata: it is freed if it is dead, and else stays, with its
      finalized bit, and does not die. */
  ghost predicate AgesCell(g: State, h: State, u: Ref)
    requires IsUdata(g, u)
  {
    if IsUdata(h, u) then h.objs[u].finalized == g.objs[u].finalized && (IsDead(h, u) ==> IsDead(g, u))
    else IsDead(g, u)
  }

  ghost predicate Tracked(g: State, x: Ref) {
    x == g.main || IsUdata(g, x)
  }

  ghost predicate OrderKept(g: State, h: State) {
    forall x, y :: Before(g.rootgc, x, y) && Tracked(h, x) && Tracked(h, y) ==> Before(h.rootgc, x, y)
  }

  /** A step that makes no userdata and finalizes none. */
  ghost predicate Ages(g: State, h: State) {
    && h.main == g.main && h.tmudata == g.tmudata && h.cur == g.cur
    && (forall u :: IsUdata(g, u) ==> AgesCell(g, h, u))
    && (forall u :: IsUdata(h, u) ==> IsUdata(g, u))
    && OrderKept(g, h)
  }

  lemma AgesTrans(g: State, h: State, k: State)
    requires Ages(g, h) && Ages(h, k)
    ensures Ages(g, k)
  {
    hide Before, IsDead;
    forall u | IsUdata(g, u) ensures AgesCell(g, k, u) {
      assert AgesCell(g, h, u);
      if IsUdata(h, u) {
        assert AgesCell(h, k, u);
      }
    }
    forall x, y | Before(g.rootgc, x, y) && Tracked(k, x) && Tracked(k, y) ensures Before(k.rootgc, x, y) {
      assert Tracked(h, x) && Tracked(h, y);
      assert Before(h.rootgc, x, y);
    }
  }

  // ----- changes of one list -----

  ghost predicate SameLists(g: State, h: State) {
    h.main == g.main && h.tmudata == g.tmudata && h.cur == g.cur && h.rootgc == g.rootgc
  }

  /** Objects other than userdata may do what they like. */
  ghost predicate SameUdata(g: State, h: State) {
    forall u :: if IsUdata(g, u) then AgesCell(g, h, u) else !IsUdata(h, u)
  }

  lemma AgesSame(g: State, h: State)
    requires SameLists(g, h) && SameUdata(g, h)
    ensures Ages(g, h)
  {
    hide Before;
  }

  lemma AgesLinked(g: State, h: State, r: Ref)
    requires SameLists(g, h.(rootgc := g.rootgc)) && SameUdata(g, h) && h.rootgc == [r] + g.rootgc
    ensures Ages(g, h)
  {
    hide Before;
    forall x, y | Before(g.rootgc, x, y) ensures Before(h.rootgc, x, y) {
      BeforeShift([r], g.rootgc, x, y);
    }
  }

  lemma BeforeWithout(a: seq<Ref>, b: seq<Ref>, r: Ref, x: Ref, y: Ref)
    requires Before(a + [r] + b, x, y) && x != r && y != r
    ensures Before(a + b, x, y)
  {
    var l := a + [r] + b;
    var i, j :| 0 <= i < j < |l| && l[i] == x && l[j] == y;
    var i', j' := if i < |a| then i else i - 1, if j < |a| then j else j - 1;
    assert (a + b)[i'] == x && (a + b)[j'] == y;
  }

  lemma AgesFreed(g: State, h: State, r: Ref, a: seq<Ref>, b: seq<Ref>)
    requires Freed(g, r, h, a, b) && r != g.main
    ensures Ages(g, h)
  {
    hide Before;
    forall x, y | Before(g.rootgc, x, y) && Tracked(h, x) && Tracked(h, y) ensures Before(h.rootgc, x, y) {
      BeforeWithout(a, b, r, x, y);
    }
  }

  // ----- stores -----

  lemma UpdateAges(g: State, o: Ref, d: Cell)
    requires o in g.objs && d.kind == g.objs[o].kind && d.finalized == g.objs[o].finalized && d.color == g.objs[o].color
    ensures Ages(g, Update(g, o, d))
  {
    AgesSame(g, Update(g, o, d));
  }

  lemma ColorAges(g: State, o: Ref, c: Color)
    requires o in g.objs && c != White(!g.cur)
    ensures Ages(g, SetColor(g, o, c))
  {
    AgesSame(g, SetColor(g, o, c));
  }

  lemma MarksAges(g: State, h: State)
    requires Marks(g, h)
    ensures Ages(g, h)
  {
    forall u | IsUdata(g, u) ensures AgesCell(g, h, u) {
      assert h.objs[u] == g.objs[u].(color := h.objs[u].color);
    }
    forall u | IsUdata(h, u) ensures IsUdata(g, u) {
      assert h.objs[u] == g.objs[u].(color := h.objs[u].color);
    }
    AgesSame(g, h);
  }

  /** The lists of the collector do not matter. */
  lemma AgesLists(g: State, h: State, k: State)
    requires Ages(g, h) && SameLists(h, k) && k.objs == h.objs
    ensures Ages(g, k)
  {
    hide Before;
    forall u | IsUdata(g, u) ensures AgesCell(g, k, u) {
      assert AgesCell(g, h, u);
    }
    assert forall x :: Tracked(k, x) <==> Tracked(h, x);
  }

  lemma PushAges(g: State, v: Val)
    requires g.running in g.objs
    ensures Ages(g, Push(g, v))
  {
    hide Ages;
    UpdateAges(g, g.running, g.objs[g.running].(stack := g.objs[g.running].stack + [v]));
  }

  lemma StoreTableAges(g: State, o: Ref, rs: seq<Ref>, sl: seq<Slot>, stored: seq<Ref>)
    requires o in g.objs
    ensures Ages(g, StoreTable(g, o, rs, sl, stored))
  {
    hide Ages;
    var h := TableData(g, o, rs, sl);
    UpdateAges(g, o, g.objs[o].(refs := rs, slots := sl));
    ColorAges(h, o, Gray);
    AgesTrans(g, h, SetColor(h, o, Gray));
    AgesLists(g, SetColor(h, o, Gray), BarrierBack(h, o));
  }

  lemma StoreObjAges(g: State, o: Ref, rs: seq<Ref>, stored: seq<Ref>)
    requires o in g.objs
    ensures Ages(g, StoreObj(g, o, rs, stored))
  {
    hide Ages;
    var h := ObjData(g, o, rs);
    UpdateAges(g, o, g.objs[o].(refs := rs));
    ColorAges(h, o, White(g.cur));
    AgesTrans(g, h, SetColor(h, o, White(g.cur)));
    MarksAges(h, MarkAll(h, stored));
    AgesTrans(g, h, MarkAll(h, stored));
  }

  lemma StoreAges(g: State, op: Op)
    requires Inv(g) && Enabled(g, op) && IsStore(op)
    ensures Ages(g, ApplyStore(g, op))
  {
    hide Ages, Inv, Accessible, AllAccessible, OpenBelow, StoreTable, StoreObj;
    match op
    case SetSlots(t, st) => UpdateAges(g, t, g.objs[t].(stack := st));
    case SetEnv(t, rs) => UpdateAges(g, t, g.objs[t].(refs := rs));
    case WriteTable(o, rs, sl, stored) => StoreTableAges(g, o, rs, sl, stored);
    case WriteObject(o, rs, stored) => StoreObjAges(g, o, rs, stored);
    case SetModes(o, wk, wv, gc) => UpdateAges(g, o, g.objs[o].(weakkey := wk, weakvalue := wv, hasgc := gc));
    case FixString(o) => UpdateAges(g, o, g.objs[o].(fixed := true));
  }

  // ----- allocation -----

  lemma NewObjectAges(g: State, r: Ref, c: Cell)
    requires FreshCell(g, r, c)
    ensures Ages(g, NewObject(g, r, c))
  {
    AgesLinked(g, NewObject(g, r, c), r);
  }

  lemma InternAges(g: State, t: string, spare: Ref)
    requires g.strt != [] && spare !in g.objs
    ensures Ages(g, Intern(g, t, spare).0)
  {
    var l := g.strt[Bucket(g, t)];
    var i := FindText(g, l, t);
    if i < |l| && l[i] in g.objs {
      AgesSame(g, Revive(g, l[i]));
    } else {
      AgesSame(g, NewString(g, t, spare));
    }
  }

  lemma FindUpvalAges(g: State, t: Ref, level: nat, spare: Ref)
    requires t in g.objs && spare !in g.objs
    ensures Ages(g, FindUpval(g, t, level, spare).0)
  {
    var l := g.objs[t].openupval;
    var i := FindLevel(g, l, level);
    if i < |l| && l[i] in g.objs && LevelOf(g, l[i]) == level {
      AgesSame(g, Revive(g, l[i]));
    } else {
      AgesSame(g, NewOpen(g, t, level, spare));
    }
  }

  lemma CaptureAges(g: State, o: Ref, level: nat, spare: Ref)
    requires g.running in g.objs && o in g.objs && spare !in g.objs
    ensures Ages(g, CaptureUpval(g, o, level, spare))
  {
    hide Ages, StoreObj, FindUpval;
    FindUpvalAges(g, g.running, level, spare);
    var h, u := FindUpval(g, g.running, level, spare).0, FindUpval(g, g.running, level, spare).1;
    if o in h.objs {
      StoreObjAges(h, o, h.objs[o].refs + [u], [u]);
      AgesTrans(g, h, CaptureUpval(g, o, level, spare));
    }
  }

  lemma CreationAges(g: State, op: Op)
    requires Inv(g) && Enabled(g, op) && IsCreation(op) && !op.CreateUdata?
    ensures Ages(g, ApplyCreation(g, op))
  {
    hide Ages, LiveClosed, PhaseOk, Accessible, AllAccessible, Intern, CaptureUpval, NewObject, Push, RootListOk,
         UpvalsOk, Kinds;
    match op
    case Create(r, c) =>
      NewObjectAges(g, r, c);
      CreateSafe(g, r, c);
      PushAges(NewObject(g, r, c), Obj(r));
      AgesTrans(g, NewObject(g, r, c), ApplyCreation(g, op));
    case MakeString(t, spare) =>
      InternAges(g, t, spare);
      InternKeeps(g, t, spare);
      var h, s := Intern(g, t, spare).0, Intern(g, t, spare).1;
      PushAges(h, Obj(s));
      AgesTrans(g, h, ApplyCreation(g, op));
    case Capture(o, level, spare) => CaptureAges(g, o, level, spare);
  }

  // ----- luaF_close -----

  lemma CloseOneAges(g: State, t: Ref)
    requires HasOpen(g, t)
    ensures Ages(g, CloseOne(g, t))
  {
    hide Ages, UpvalsOk, Kinds, CloseOne, CloseLive, FreeOpen;
    CloseOneCases(g, t);
    var u, h := FirstOpen(g, t), CloseLive(g, t);
    FirstOpenAt(g, t);
    if IsDead(g, u) {
      FreeOpenAges(g, t);
    } else {
      CloseLiveAges(g, t);
      CloseLiveCells(g, t);
      MarksAges(h, MarkAll(h, h.objs[u].refs));
      AgesTrans(g, h, MarkAll(h, h.objs[u].refs));
    }
  }

  lemma FreeOpenAges(g: State, t: Ref)
    requires HasOpen(g, t)
    ensures Ages(g, FreeOpen(g, t))
  {
    hide UpvalsOk, Kinds, FreeOpen;
    FirstOpenAt(g, t);
    FreeOpenCells(g, t);
    AgesSame(g, FreeOpen(g, t));
  }

  lemma CloseLiveAges(g: State, t: Ref)
    requires HasOpen(g, t)
    ensures Ages(g, CloseLive(g, t))
  {
    hide UpvalsOk, Kinds;
    FirstOpenAt(g, t);
    CloseLiveCells(g, t);
    AgesLinked(g, CloseLive(g, t), FirstOpen(g, t));
  }

  lemma {:induction false} CloseUpvalsAges(g: State, t: Ref, level: nat)
    requires Inv(g) && t in g.objs
    ensures Ages(g, CloseUpvals(g, t, level))
    decreases |g.objs[t].openupval|
  {
    hide Ages, Inv, CloseOne;
    if g.objs[t].openupval != [] && LevelOf(g, g.objs[t].openupval[0]) >= level {
      CloseOneKeeps(g, t);
      FirstThere(g, t);
      CloseOneAges(g, t);
      CloseUpvalsAges(CloseOne(g, t), t, level);
      AgesTrans(g, CloseOne(g, t), CloseUpvals(g, t, level));
    } else {
      AgesRefl(g);
    }
  }

  lemma AgesRefl(g: State)
    ensures Ages(g, g)
  {
    AgesSame(g, g);
  }

  lemma FirstThere(g: State, t: Ref)
    requires Inv(g) && t in g.objs && g.objs[t].openupval != []
    ensures HasOpen(g, t)
  {
    hide LiveClosed, PhaseOk, RootsOk, RootListOk, StringsOk, Kinds;
    assert OpenListOk(g, t);
    assert g.objs[t].openupval[0] in g.objs[t].openupval;
    assert OpenAt(g, g.objs[t].openupval[0], t);
  }

  // ----- the collector -----

  lemma SweepStringsAges(g: State)
    requires StringsOk(g) && g.sweepstrgc < |g.strt|
    ensures Ages(g, SweepStrings(g))
  {
    var l := g.strt[g.sweepstrgc];
    assert forall r :: r in l ==> IsText(g, r);
    AgesSame(g, SweepStrings(g));
  }

  lemma SweepThreadAges(g: State)
    requires UpvalsOk(g) && g.sweepgc < |g.rootgc| && Current(g) in g.objs
    ensures Ages(g, SweepThread(g))
  {
    hide UpvalsOk, Kinds;
    var t := Current(g);
    if g.objs[t].kind.Thread? {
      ListOpen(g, t);
      AgesSame(g, SweepOpen(g, t));
    } else {
      AgesRefl(g);
    }
  }

  lemma ListOpen(g: State, t: Ref)
    requires UpvalsOk(g) && t in g.objs
    ensures forall u :: u in g.objs[t].openupval ==> OpenAt(g, u, t)
  {
    assert OpenListOk(g, t);
  }

  lemma SweepSelfAges(g: State)
    requires Inv(g) && g.phase.Sweep? && g.sweepgc < |g.rootgc|
    ensures Ages(g, SweepSelf(g))
  {
    hide Ages, UpvalsOk, Kinds, StringsOk, CloseUpvals, PhaseOk;
    var r := Current(g);
    assert r in g.rootgc;
    if Freeable(g, r) {
      assert r != g.main by {
        assert g.main in Roots(g);
      }
      DoomedKeeps(g);
      CloseUpvalsAges(g, r, 0);
      var h := CloseUpvals(g, r, 0);
      FreeAges(g, h, r);
      AgesTrans(g, h, SweepSelf(g));
    } else {
      ColorAges(g, r, White(g.cur));
      AgesLists(g, SetColor(g, r, White(g.cur)), Whiten(g));
    }
  }

  lemma FreeAges(g: State, h: State, r: Ref)
    requires CloseDone(g, h, r) && Freeable(g, r) && Inv(h) && r in h.rootgc && h.objs[r].openupval == []
    requires r != g.main && Ages(g, h)
    ensures Ages(h, FreeRoot(h, r))
  {
    hide UpvalsOk, Kinds, StringsOk, RootsOk, PhaseOk, LiveClosed, OrderKept, KeepsLive;
    FreeRootFrees(h, r);
    var i := IndexOf(h.rootgc, r);
    AgesFreed(h, FreeRoot(h, r), r, h.rootgc[..i], h.rootgc[i + 1..]);
  }

  lemma SweepOneAges(g: State)
    requires Inv(g) && g.phase.Sweep? && g.sweepgc < |g.rootgc|
    ensures Ages(g, SweepOne(g))
  {
    hide Ages, SweepSelf, SweepThread, RootListOk, RootsOk, StringsOk, LiveClosed, PhaseOk, Kinds, UpvalsOk, Sweeps;
    SweepThreadKeeps(g);
    SweepThreadAges(g);
    SweepSelfAges(SweepThread(g));
    AgesTrans(g, SweepThread(g), SweepOne(g));
  }

  lemma {:induction false} SweepRootAges(g: State, n: nat)
    requires Inv(g) && g.phase.Sweep?
    ensures Ages(g, SweepRoot(g, n))
    decreases n
  {
    hide Ages, SweepOne, Inv, SweepRun, Pending, Sweeps;
    if n == 0 || g.sweepgc == |g.rootgc| {
      AgesRefl(g);
    } else {
      SweepPosition(g);
      SweepOneKeeps(g);
      SweepOneAges(g);
      SweepRootAges(SweepOne(g), n - 1);
      AgesTrans(g, SweepOne(g), SweepRoot(g, n));
    }
  }

  lemma SweepPosition(g: State)
    requires Inv(g) && g.phase.Sweep?
    ensures g.sweepgc <= |g.rootgc|
  {
    hide WellFormed, LiveClosed;
  }

  lemma SweepStepAges(g: State)
    requires Inv(g) && g.phase.Sweep?
    ensures Ages(g, SweepStep(g))
  {
    hide Ages, Inv, SweepRoot, CheckSizes, SweepRun;
    SweepRootAges(g, GCSWEEPMAX);
    var h := SweepRoot(g, GCSWEEPMAX);
    if h.sweepgc == |h.rootgc| {
      CheckSizesKeeps(h);
      AgesLists(g, h, SweepStep(g));
    }
  }

  lemma MarkRootAges(g: State)
    requires g.main in g.objs
    ensures Ages(g, MarkRoot(g))
  {
    hide Ages;
    var g0 := g.(gray := [], grayagain := [], weak := []);
    AgesRefl(g);
    AgesLists(g, g, g0);
    MarksAges(g0, MarkAll(g0, RootMarks(g)));
    AgesTrans(g, g0, MarkAll(g0, RootMarks(g)));
    AgesLists(g, MarkAll(g0, RootMarks(g)), MarkRoot(g));
  }

  lemma PropagateAges(g: State)
    requires Lists(g) && g.gray != [] && g.gray[0] in g.objs
    ensures Ages(g, PropagateMark(g))
  {
    hide Ages, StrongKids;
    assert g.gray[0] in Listed(g);
    PopAges(g);
    MarksAges(Pop(g), MarkAll(Pop(g), StrongKids(g, g.gray[0])));
    AgesTrans(g, Pop(g), PropagateMark(g));
  }

  lemma PopAges(g: State)
    requires g.gray != [] && g.gray[0] in g.objs && Traversable(g.objs[g.gray[0]].kind)
    ensures Ages(g, Pop(g))
  {
    AgesSame(g, Pop(g));
  }

  // ----- steps that make, queue or call -----

  /** `u` is new, in front of all other userdata. */
  ghost predicate Creates(g: State, h: State, u: Ref) {
    && h.main == g.main && h.tmudata == g.tmudata
    && !IsUdata(g, u) && IsUdata(h, u) && !h.objs[u].finalized && !IsDead(h, u)
    && (forall v :: IsUdata(g, v) ==> IsUdata(h, v) && AgesCell(g, h, v))
    && (forall v :: IsUdata(h, v) && v != u ==> IsUdata(g, v))
    && OrderKept(g, h) && Before(h.rootgc, h.main, u)
    && forall v :: Before(g.rootgc, g.main, v) ==> Before(h.rootgc, u, v)
  }

  lemma BeforeInserted(a: seq<Ref>, b: seq<Ref>, r: Ref, x: Ref, y: Ref)
    requires Before(a + b, x, y)
    ensures Before(a + [r] + b, x, y)
  {
    var l := a + b;
    var i, j :| 0 <= i < j < |l| && l[i] == x && l[j] == y;
    var i', j' := if i < |a| then i else i + 1, if j < |a| then j else j + 1;
    assert (a + [r] + b)[i'] == x && (a + [r] + b)[j'] == y;
  }

  /** An insertion right behind the main thread. */
  lemma Inserted(g: State, h: State, u: Ref)
    requires RootListOk(g) && h.rootgc == SplitAtMain(g).0 + [u] + SplitAtMain(g).1
    ensures OrderKept(g, h) && Before(h.rootgc, g.main, u)
    ensures forall v :: Before(g.rootgc, g.main, v) ==> Before(h.rootgc, u, v)
  {
    hide Before, SplitAtMain, RootListOk;
    var a, b := SplitAtMain(g).0, SplitAtMain(g).1;
    forall x, y | Before(g.rootgc, x, y) ensures Before(h.rootgc, x, y) {
      BeforeInserted(a, b, u, x, y);
    }
    assert g.main in a && u in [u] + b;
    assert a + [u] + b == a + ([u] + b);
    BeforeSplit(a, [u] + b, g.main, u);
    forall v | Before(g.rootgc, g.main, v) ensures Before(h.rootgc, u, v) {
      SplitBehind(g, v);
      BeforeSplit([u], b, u, v);
      BeforeShift(a, [u] + b, u, v);
    }
  }

  lemma UdataCreates(g: State, r: Ref, rs: seq<Ref>, gc: bool)
    requires WellFormed(g) && r !in g.objs
    ensures g.main in g.rootgc && g.running in NewUdata(g, r, rs, gc).objs
    ensures Creates(g, Push(NewUdata(g, r, rs, gc), Obj(r)), r)
  {
    hide UpvalsOk, StringsOk, RootListOk, Kinds, SplitAtMain, NewUdata, Creates, OrderKept, Before;
    MainListed(g);
    NewUdataAdded(g, r, rs, gc);
    NewUdataCell(g, r, rs, gc);
    var k := NewUdata(g, r, rs, gc);
    var h := Push(k, Obj(r));
    Inserted(g, h, r);
    CreatesFrom(g, k, h, r);
  }

  lemma MainListed(g: State)
    requires RootListOk(g)
    ensures g.main in g.rootgc
  {
  }

  lemma CreatesFrom(g: State, k: State, h: State, r: Ref)
    requires r !in g.objs && IsUdata(k, r) && !k.objs[r].finalized && !IsDead(k, r)
    requires k == g.(objs := k.objs, rootgc := k.rootgc, sweepgc := k.sweepgc)
    requires k.objs.Keys == g.objs.Keys + {r} && forall q :: q in g.objs ==> k.objs[q] == g.objs[q]
    requires g.running in k.objs && h == Push(k, Obj(r))
    requires OrderKept(g, h) && Before(h.rootgc, g.main, r)
    requires forall v :: Before(g.rootgc, g.main, v) ==> Before(h.rootgc, r, v)
    ensures Creates(g, h, r)
  {
    hide OrderKept, Before, IsDead;
    PushSame(k, Obj(r));
    forall v | IsUdata(g, v) ensures IsUdata(h, v) && AgesCell(g, h, v) {
      assert k.objs[v] == g.objs[v] && SameUdataCell(k, h, v);
      SameDead(g, h, v);
    }
    forall v | IsUdata(h, v) && v != r ensures IsUdata(g, v) {
      assert SameUdataCell(k, h, v);
    }
    assert SameUdataCell(k, h, r);
    SameDead(k, h, r);
  }

  ghost predicate SameUdataCell(g: State, h: State, v: Ref) {
    v in g.objs && v in h.objs && h.objs[v] == g.objs[v].(stack := h.objs[v].stack)
  }

  lemma PushSame(g: State, x: Val)
    requires g.running in g.objs
    ensures var h := Push(g, x);
            && h == g.(objs := h.objs) && h.objs.Keys == g.objs.Keys
            && forall v :: v in g.objs ==> SameUdataCell(g, h, v)
  {
  }

  lemma SameDead(g: State, h: State, v: Ref)
    requires v in g.objs && v in h.objs && h.objs[v].color == g.objs[v].color && h.cur == g.cur
    ensures IsDead(h, v) == IsDead(g, v)
  {
  }

  lemma NewUdataCell(g: State, r: Ref, rs: seq<Ref>, gc: bool)
    requires RootListOk(g) && r !in g.objs
    ensures var h := NewUdata(g, r, rs, gc);
            && IsUdata(h, r) && !h.objs[r].finalized && h.objs[r].hasgc == gc && !IsDead(h, r)
            && h == g.(objs := h.objs, rootgc := h.rootgc, sweepgc := h.sweepgc)
            && h.objs.Keys == g.objs.Keys + {r} && forall q :: q in g.objs ==> h.objs[q] == g.objs[q]
  {
    hide RootListOk;
  }

  /** The first of the queue goes back to rootgc; if it has a finalizer, it is put on the
      stack of the running thread. */
  ghost predicate Calls(g: State, h: State, u: Ref) {
    && h.main == g.main && g.tmudata == [u] + h.tmudata && IsUdata(g, u) && NoDead(h)
    && (forall v :: IsUdata(g, v) <==> IsUdata(h, v))
    && (forall v :: IsUdata(g, v) ==> h.objs[v].finalized == g.objs[v].finalized)
    && OrderKept(g, h) && Before(h.rootgc, h.main, u)
    && h.running == g.running && g.running in g.objs && g.running in h.objs
    && h.objs[g.running].stack == g.objs[g.running].stack + (if g.objs[u].hasgc then [Obj(u)] else [])
  }

  lemma CallCalls(g: State)
    requires Inv(g) && g.phase.Finalize? && g.tmudata != []
    ensures g.tmudata[0] in g.objs && g.main in g.rootgc && g.running in g.objs
    ensures Calls(g, CallGCTM(g), g.tmudata[0])
  {
    hide UpvalsOk, StringsOk, RootListOk, Kinds, SplitAtMain, LiveClosed, ReturnUdata, CallGCTM, Calls, OrderKept,
         Before, NoDead, SameCells, AllWhite;
    var u := g.tmudata[0];
    assert u in g.tmudata;
    MainListed(g);
    ReturnUdataCells(g);
    ReturnUdataCell(g);
    CallGCTMKeeps(g);
    CallNoDead(g);
    CalledCells(g, ReturnUdata(g));
    Inserted(g, CallGCTM(g), u);
    CallsFrom(g, ReturnUdata(g), CallGCTM(g));
  }

  lemma CalledCells(g: State, k: State)
    requires g.main in g.rootgc && g.running in g.objs && g.tmudata != [] && g.tmudata[0] in g.objs
    requires k == ReturnUdata(g) && k.running == g.running && g.running in k.objs
    ensures CallGCTM(g) == if g.objs[g.tmudata[0]].hasgc then Push(k, Obj(g.tmudata[0])) else k
    ensures CallGCTM(g).rootgc == k.rootgc
  {
    hide ReturnUdata;
  }

  lemma CallsFrom(g: State, k: State, h: State)
    requires g.tmudata != [] && IsUdata(g, g.tmudata[0]) && g.running in g.objs && NoDead(h)
    requires k == g.(objs := k.objs, rootgc := k.rootgc, sweepgc := k.sweepgc, tmudata := g.tmudata[1..])
    requires k.objs.Keys == g.objs.Keys && forall q :: q in g.objs ==> k.objs[q] == g.objs[q].(color := k.objs[q].color)
    requires h == if g.objs[g.tmudata[0]].hasgc then Push(k, Obj(g.tmudata[0])) else k
    requires OrderKept(g, h) && Before(h.rootgc, g.main, g.tmudata[0])
    ensures Calls(g, h, g.tmudata[0])
  {
    hide OrderKept, Before, NoDead;
    assert g.tmudata == [g.tmudata[0]] + g.tmudata[1..];
  }

  lemma CallNoDead(g: State)
    requires Inv(g) && g.phase.Finalize? && g.tmudata != [] && g.tmudata[0] in g.objs
    requires g.main in g.rootgc && Inv(CallGCTM(g))
    ensures NoDead(CallGCTM(g))
  {
    hide UpvalsOk, StringsOk, RootListOk, Kinds, LiveClosed, SplitAtMain;
  }

  lemma ReturnUdataCell(g: State)
    requires RootsOk(g) && RootListOk(g) && g.tmudata != [] && g.tmudata[0] in g.objs
    ensures var h := ReturnUdata(g);
            && h == g.(objs := h.objs, rootgc := h.rootgc, sweepgc := h.sweepgc, tmudata := g.tmudata[1..])
            && h.objs.Keys == g.objs.Keys
            && forall q :: q in g.objs ==> h.objs[q] == g.objs[q].(color := h.objs[q].color)
  {
    hide RootListOk;
  }

  // ----- one step -----

  /** The four things a step can be, for userdata. */
  ghost predicate Lives(g: State, h: State) {
    || Ages(g, h)
    || (exists u :: Creates(g, h, u))
    || (|g.tmudata| <= |h.tmudata| && Queues(g, h, h.tmudata[|g.tmudata|..]))
    || (g.tmudata != [] && Calls(g, h, g.tmudata[0]))
  }

  lemma AgesLife(g: State, h: State)
    requires Inv(g) && Inv(h) && LifeInv(g) && Ages(g, h)
    ensures LifeInv(h)
  {
    hide Before, LiveClosed, PhaseOk, UpvalsOk, StringsOk, Kinds, IsDead;
    forall u | IsUdata(h, u) ensures IsDead(h, u) || u in h.tmudata ==> h.objs[u].finalized {
      assert AgesCell(g, h, u);
    }
    forall u | IsUdata(h, u) && u in h.rootgc ensures Before(h.rootgc, h.main, u) {
      assert IsUdata(g, u) && u in g.rootgc;
      assert Tracked(h, h.main) && Tracked(h, u);
    }
  }

  lemma CreatesLife(g: State, h: State, u: Ref)
    requires Inv(g) && Inv(h) && LifeInv(g) && Creates(g, h, u)
    ensures LifeInv(h)
  {
    hide Before, LiveClosed, PhaseOk, UpvalsOk, StringsOk, Kinds, IsDead;
    forall v | IsUdata(h, v) && (IsDead(h, v) || v in h.tmudata) ensures h.objs[v].finalized {
      assert v in h.tmudata ==> v in g.objs && IsUdata(g, v);
      assert v != u;
      assert AgesCell(g, h, v);
    }
    forall v | IsUdata(h, v) && v in h.rootgc ensures Before(h.rootgc, h.main, v) {
      if v != u {
        assert IsUdata(g, v) && v in g.rootgc;
        assert Tracked(h, h.main) && Tracked(h, v);
      }
    }
  }

  lemma CallsLife(g: State, h: State, u: Ref)
    requires Inv(g) && Inv(h) && LifeInv(g) && Calls(g, h, u)
    ensures LifeInv(h)
  {
    hide Before, LiveClosed, PhaseOk, UpvalsOk, StringsOk, Kinds, IsDead;
    assert forall v :: v in g.tmudata <==> v == u || v in h.tmudata;
    forall v | IsUdata(h, v) && v in h.rootgc ensures Before(h.rootgc, h.main, v) {
      if v != u {
        assert v in g.rootgc;
        assert Tracked(h, h.main) && Tracked(h, v);
      }
    }
  }

  lemma ProgramLives(g: State, op: Op)
    requires Inv(g) && Enabled(g, op) && IsProgram(op)
    ensures if op.CreateUdata? then Creates(g, Apply(g, op), op.ref) else Ages(g, Apply(g, op))
  {
    hide Ages, Creates, LiveClosed, PhaseOk, RootListOk, UpvalsOk, StringsOk, Kinds, ApplyStore, Accessible,
         AllAccessible, FreshCell, Push, NewUdata, CloseUpvals, OpenBelow;
    if IsStore(op) {
      StoreAges(g, op);
    } else if op.CreateUdata? {
      CreateUdataSafe(g, op.ref, op.refs, op.hasgc);
      UdataCreates(g, op.ref, op.refs, op.hasgc);
    } else if IsCreation(op) {
      CreationAges(g, op);
    } else if op.CloseTo? {
      CloseUpvalsAges(g, g.running, op.level);
    } else {
      AgesRefl(g);
      AgesLists(g, g, Apply(g, op));
    }
  }

  lemma CollectorLives(g: State)
    requires Inv(g) && LifeInv(g) && Inv(SingleStep(g))
    ensures Lives(g, SingleStep(g)) && LifeInv(SingleStep(g))
  {
    hide Ages, Creates, Queues, Calls, LifeInv, Atomic, MarkRoot, PropagateMark, SweepStrings, SweepStep, CallGCTM,
         RootListOk, UpvalsOk, Kinds, LiveClosed, Placed, Ready;
    match g.phase
    case Pause =>
      MarkRootAges(g);
      AgesLife(g, SingleStep(g));
    case Propagate =>
      if g.gray != [] {
        PropagateKeeps(g);
        PropagateAges(g);
        AgesLife(g, SingleStep(g));
      } else {
        LifePlaced(g);
        AtomicQueues(g);
      }
    case SweepString =>
      SweepStringsAges(g);
      AgesLife(g, SingleStep(g));
    case Sweep =>
      SweepStepAges(g);
      AgesLife(g, SingleStep(g));
    case Finalize =>
      if g.tmudata != [] {
        CallCalls(g);
        CallsLife(g, SingleStep(g), g.tmudata[0]);
      } else {
        AgesRefl(g);
        AgesLists(g, g, SingleStep(g));
        AgesLife(g, SingleStep(g));
      }
  }

  lemma LifePlaced(g: State)
    requires LifeInv(g)
    ensures Placed(g)
  {
    hide Before, IsDead, IsUdata;
  }

  lemma StepLives(g: State, op: Op)
    requires Inv(g) && Enabled(g, op) && LifeInv(g)
    ensures Lives(g, Apply(g, op)) && LifeInv(Apply(g, op))
  {
    hide Inv, Ages, Creates, Queues, Calls, LifeInv, MarkRoot, SingleStep, Enabled;
    StepKeeps(g, op);
    if IsProgram(op) {
      ProgramLives(g, op);
      if op.CreateUdata? {
        CreatesLife(g, Apply(g, op), op.ref);
      } else {
        AgesLife(g, Apply(g, op));
      }
    } else {
      CollectorStepLives(g, op);
    }
  }

  lemma CollectorStepLives(g: State, op: Op)
    requires Inv(g) && Enabled(g, op) && LifeInv(g) && !IsProgram(op) && Inv(Apply(g, op))
    ensures Lives(g, Apply(g, op)) && LifeInv(Apply(g, op))
  {
    hide WellFormed, LiveClosed, PhaseOk, Ages, Creates, Queues, Calls, LifeInv, MarkRoot, SingleStep;
    var h := Apply(g, op);
    if op.CollectorStep? {
      CollectorLives(g);
    } else {
      MainThere(g);
      if op.RestartMark? {
        MarkRootAges(g);
      } else {
        AgesRefl(g);
        AgesLists(g, g, h);
      }
      AgesLife(g, h);
    }
  }

  lemma MainThere(g: State)
    requires Inv(g)
    ensures g.main in g.objs
  {
    hide RootListOk, UpvalsOk, StringsOk, Kinds, LiveClosed, PhaseOk;
  }
}

/** Finalizers over whole runs: every userdata that has one is given to it once, before it
    is freed, and in which order. */
module GcFinalizer {
  import opened LuaHeap
  import opened GcMark
  import opened GcState
  import opened GcSafety
  import opened GcTheorem
  import opened GcReach
  import opened GcFinal
  import opened GcLife

  /** 0 until a userdata is found unreachable, 1 while it waits for its finalizer, 2 from
      then on. */
  ghost function Stage(g: State, u: Ref): nat
    requires IsUdata(g, u)
  {
    if !g.objs[u].finalized then 0 else if u in g.tmudata then 1 else 2
  }

  /** The step from `g` to `h` takes `u` out of the queue and puts it on the stack, for
      its finalizer. */
  ghost predicate Called(g: State, h: State, u: Ref) {
    && u in g.tmudata && u !in h.tmudata && h.running == g.running && g.running in g.objs && g.running in h.objs
    && h.objs[g.running].stack == g.objs[g.running].stack + [Obj(u)]
  }

  /** What the invariants say about userdata: in particular, those that wait are not
      dead. */
  ghost predicate LifeOk(g: State) {
    RootListOk(g) && LifeInv(g) && forall u :: u in g.tmudata ==> IsUdata(g, u) && !IsDead(g, u)
  }

  // ----- one step -----

  lemma AgesStage(g: State, h: State, u: Ref)
    requires Ages(g, h) && LifeOk(g) && IsUdata(g, u)
    ensures if IsUdata(h, u) then Stage(h, u) == Stage(g, u) else Stage(g, u) == 2
  {
    hide OrderKept, Before;
    assert AgesCell(g, h, u);
    if !IsUdata(h, u) {
      assert u in g.tmudata ==> u in Roots(g) && IsLive(g, u);
    }
  }

  lemma CreatesStage(g: State, h: State, u: Ref, v: Ref)
    requires Creates(g, h, v) && IsUdata(g, u)
    ensures IsUdata(h, u) && Stage(h, u) == Stage(g, u)
  {
    hide OrderKept, Before;
    assert AgesCell(g, h, u);
  }

  lemma QueuesStage(g: State, h: State, s: seq<Ref>, u: Ref)
    requires Queues(g, h, s) && Placed(g) && IsUdata(g, u)
    ensures IsUdata(h, u) && (Stage(g, u) > 0 ==> Stage(h, u) == Stage(g, u))
    ensures Stage(g, u) == 0 ==> Stage(h, u) == 0 || Stage(h, u) == if g.objs[u].hasgc then 1 else 2
  {
    hide Ordered, Before;
    assert u in h.tmudata <==> u in g.tmudata || u in s;
  }

  lemma CallsStage(g: State, h: State, v: Ref, u: Ref)
    requires Calls(g, h, v) && RootListOk(g) && Placed(g) && IsUdata(g, u)
    ensures IsUdata(h, u) && if u == v then Stage(g, u) == 1 && Stage(h, u) == 2 else Stage(h, u) == Stage(g, u)
    ensures u == v ==> (Called(g, h, u) <==> g.objs[u].hasgc)
    ensures u in g.tmudata && u !in h.tmudata ==> u == v
  {
    hide OrderKept, Before;
    var n := |g.objs[g.running].stack|;
    assert u in g.tmudata <==> u == v || u in h.tmudata;
    assert v !in h.tmudata by {
      forall i | 0 <= i < |h.tmudata| ensures h.tmudata[i] != v {
        assert g.tmudata[0] == v && g.tmudata[i + 1] == h.tmudata[i];
      }
    }
    if u == v && !g.objs[u].hasgc {
      assert |h.objs[g.running].stack| == n;
    }
  }

  /** The life of a userdata, step by step. */
  lemma StageStep(g: State, h: State, u: Ref)
    requires LifeOk(g) && Lives(g, h) && IsUdata(g, u)
    ensures !IsUdata(h, u) ==> Stage(g, u) == 2 && u !in g.tmudata
    ensures IsUdata(h, u) && Stage(g, u) == 0 && Stage(h, u) > 0 ==> Stage(h, u) == if g.objs[u].hasgc then 1 else 2
    ensures IsUdata(h, u) && Stage(g, u) > 0 ==> Stage(g, u) <= Stage(h, u)
    ensures Called(g, h, u) ==> IsUdata(h, u) && Stage(g, u) == 1 && Stage(h, u) == 2
    ensures IsUdata(h, u) && Stage(g, u) == 1 && Stage(h, u) == 2 ==> (Called(g, h, u) <==> g.objs[u].hasgc)
  {
    hide Ages, Creates, Queues, Calls, Placed;
    StepParts(g);
    if Ages(g, h) {
      AgesStage(g, h, u);
      AgesQueue(g, h);
    } else if g.tmudata != [] && Calls(g, h, g.tmudata[0]) {
      CallsStage(g, h, g.tmudata[0], u);
    } else if |g.tmudata| <= |h.tmudata| && Queues(g, h, h.tmudata[|g.tmudata|..]) {
      QueuesStage(g, h, h.tmudata[|g.tmudata|..], u);
      QueuesQueue(g, h, h.tmudata[|g.tmudata|..]);
    } else {
      var v :| Creates(g, h, v);
      CreatesStage(g, h, u, v);
      CreatesQueue(g, h, v);
    }
  }

  lemma StepParts(g: State)
    requires LifeOk(g)
    ensures RootListOk(g) && Placed(g)
  {
    hide Before;
  }

  lemma AgesQueue(g: State, h: State)
    requires Ages(g, h)
    ensures h.tmudata == g.tmudata
  {
    hide OrderKept;
  }

  lemma CreatesQueue(g: State, h: State, v: Ref)
    requires Creates(g, h, v)
    ensures h.tmudata == g.tmudata
  {
    hide OrderKept, Before;
  }

  lemma QueuesQueue(g: State, h: State, s: seq<Ref>)
    requires Queues(g, h, s)
    ensures forall u :: u in g.tmudata ==> u in h.tmudata
  {
    hide Ordered;
  }

  // ----- sequences of such steps -----

  ghost predicate Lived(gs: seq<State>) {
    forall i :: 0 <= i < |gs| ==> LivedStep(gs, i)
  }

  ghost predicate LivedStep(gs: seq<State>, i: nat)
    requires i < |gs|
  {
    LifeOk(gs[i]) && (i + 1 < |gs| ==> Lives(gs[i], gs[i + 1]))
  }

  lemma LivedAt(gs: seq<State>, i: nat)
    requires Lived(gs) && i < |gs|
    ensures LifeOk(gs[i]) && (i + 1 < |gs| ==> Lives(gs[i], gs[i + 1]))
  {
    hide LifeOk, Lives;
    assert LivedStep(gs, i);
  }

  /** `u` is the same userdata in the states from `a` to `b`. */
  ghost predicate Stays(gs: seq<State>, u: Ref, a: nat, b: nat) {
    b < |gs| && forall i :: a <= i <= b ==> IsUdata(gs[i], u)
  }

  lemma {:induction false} StageGrows(gs: seq<State>, u: Ref, a: nat, b: nat)
    requires Lived(gs) && a <= b && Stays(gs, u, a, b)
    ensures Stage(gs[a], u) <= Stage(gs[b], u)
    decreases b
  {
    hide Lived, LifeOk, Lives, Stage, Called;
    if a < b {
      StageGrows(gs, u, a, b - 1);
      LivedAt(gs, b - 1);
      StageOn(gs[b - 1], gs[b], u);
    }
  }

  lemma StageOn(g: State, h: State, u: Ref)
    requires LifeOk(g) && Lives(g, h) && IsUdata(g, u) && IsUdata(h, u)
    ensures Stage(g, u) <= Stage(h, u)
  {
    hide LifeOk, Lives, Called;
    StageStep(g, h, u);
  }

  /** The step with which `u` gets beyond stage `n`. */
  lemma {:induction false} Passes(gs: seq<State>, u: Ref, a: nat, b: nat, n: nat) returns (j: nat)
    requires Lived(gs) && a < b && Stays(gs, u, a, b) && Stage(gs[a], u) <= n < Stage(gs[b], u)
    ensures a <= j < b && Stage(gs[j], u) <= n < Stage(gs[j + 1], u)
    decreases b
  {
    hide Lived, Stage;
    if Stage(gs[b - 1], u) <= n {
      j := b - 1;
    } else {
      j := Passes(gs, u, a, b - 1, n);
    }
  }

  /** Between its creation in step `c` and its end in step `f`, `u` becomes finalized
      once, in step `j`. */
  ghost predicate FinalizedAt(gs: seq<State>, u: Ref, c: nat, f: nat, j: nat) {
    && c < j && j + 1 < f < |gs| && Finalized(gs[j], gs[j + 1], u)
    && forall i :: c < i && i + 1 < f && Finalized(gs[i], gs[i + 1], u) ==> i == j
  }

  /** It leaves the queue in step `k`, for its finalizer if it has one then; and its
      finalizer is called in no other step. */
  ghost predicate TakenAt(gs: seq<State>, u: Ref, c: nat, f: nat, k: nat) {
    && c < k && k + 1 < f < |gs| && u in gs[k].tmudata && u !in gs[k + 1].tmudata && IsUdata(gs[k], u)
    && (Called(gs[k], gs[k + 1], u) <==> gs[k].objs[u].hasgc)
    && forall i :: c < i < f && Called(gs[i], gs[i + 1], u) ==> i == k
  }

  ghost predicate NeverCalled(gs: seq<State>, u: Ref, c: nat, f: nat) {
    f < |gs| && forall i :: c < i < f ==> !Called(gs[i], gs[i + 1], u)
  }

  /** Made in step `c`, freed in step `f`. */
  ghost predicate Lifetime(gs: seq<State>, u: Ref, c: nat, f: nat) {
    c + 1 < f < |gs| && !IsUdata(gs[c], u) && Stays(gs, u, c + 1, f - 1) && !IsUdata(gs[f], u)
  }

  lemma BornFresh(gs: seq<State>, u: Ref, c: nat)
    requires Lived(gs) && c + 1 < |gs| && !IsUdata(gs[c], u) && IsUdata(gs[c + 1], u)
    ensures Stage(gs[c + 1], u) == 0 && Creates(gs[c], gs[c + 1], u)
  {
    hide Lived, LifeOk, OrderKept, Before, Ordered;
    LivedAt(gs, c);
  }

  lemma EndsDone(gs: seq<State>, u: Ref, f: nat)
    requires Lived(gs) && 0 < f < |gs| && IsUdata(gs[f - 1], u) && !IsUdata(gs[f], u)
    ensures Stage(gs[f - 1], u) == 2
  {
    hide Lived, LifeOk, Lives, Called, Stage;
    LivedAt(gs, f - 1);
    StageStep(gs[f - 1], gs[f], u);
  }

  lemma CallAt(gs: seq<State>, u: Ref, i: nat)
    requires Lived(gs) && i + 1 < |gs| && IsUdata(gs[i], u)
    ensures Called(gs[i], gs[i + 1], u) ==> IsUdata(gs[i + 1], u) && Stage(gs[i], u) == 1 && Stage(gs[i + 1], u) == 2
    ensures IsUdata(gs[i + 1], u) && Stage(gs[i], u) == 1 && Stage(gs[i + 1], u) == 2 ==>
              (Called(gs[i], gs[i + 1], u) <==> gs[i].objs[u].hasgc)
    ensures IsUdata(gs[i + 1], u) && Stage(gs[i], u) == 0 && Stage(gs[i + 1], u) > 0 ==>
              Stage(gs[i + 1], u) == if gs[i].objs[u].hasgc then 1 else 2
  {
    hide Lived, LifeOk, Lives, Called, Stage;
    LivedAt(gs, i);
    StageStep(gs[i], gs[i + 1], u);
  }

  /** Two steps in which `u` passes stage `n` are one. */
  lemma PassesOnce(gs: seq<State>, u: Ref, a: nat, b: nat, n: nat, i: nat, j: nat)
    requires Lived(gs) && Stays(gs, u, a, b) && a <= i < b && a <= j < b
    requires Stage(gs[i], u) <= n < Stage(gs[i + 1], u) && Stage(gs[j], u) <= n < Stage(gs[j + 1], u)
    ensures i == j
  {
    hide Lived, Stage;
    if i < j {
      StageGrows(gs, u, i + 1, j);
    } else if j < i {
      StageGrows(gs, u, j + 1, i);
    }
  }

  lemma Finalizer(gs: seq<State>, u: Ref, c: nat, f: nat) returns (j: nat, k: nat)
    requires Lived(gs) && Lifetime(gs, u, c, f)
    ensures FinalizedAt(gs, u, c, f, j)
    ensures if gs[j].objs[u].hasgc then j < k && TakenAt(gs, u, c, f, k) else NeverCalled(gs, u, c, f)
  {
    hide Lived, Called, Stage;
    BornFresh(gs, u, c);
    EndsDone(gs, u, f);
    j := Passes(gs, u, c + 1, f - 1, 0);
    FinalizedOnce(gs, u, c, f, j);
    CallAt(gs, u, j);
    k := j;
    if gs[j].objs[u].hasgc {
      k := Passes(gs, u, j + 1, f - 1, 1);
      TakenOnce(gs, u, c, f, j, k);
    } else {
      CalledNever(gs, u, c, f, j);
    }
  }

  lemma FinalizedOnce(gs: seq<State>, u: Ref, c: nat, f: nat, j: nat)
    requires Lived(gs) && Lifetime(gs, u, c, f) && c < j && j + 1 < f
    requires Stage(gs[j], u) == 0 < Stage(gs[j + 1], u)
    ensures FinalizedAt(gs, u, c, f, j)
  {
    hide Lived;
    forall i | c < i && i + 1 < f && Finalized(gs[i], gs[i + 1], u) ensures i == j {
      PassesOnce(gs, u, c + 1, f - 1, 0, i, j);
    }
  }

  lemma TakenOnce(gs: seq<State>, u: Ref, c: nat, f: nat, j: nat, k: nat)
    requires Lived(gs) && Lifetime(gs, u, c, f) && c < j < k && k + 1 < f
    requires Stage(gs[j + 1], u) == 1 && Stage(gs[k], u) <= 1 < Stage(gs[k + 1], u)
    ensures TakenAt(gs, u, c, f, k)
  {
    hide Lived, Called;
    StageGrows(gs, u, j + 1, k);
    CallAt(gs, u, k);
    forall i | c < i < f && Called(gs[i], gs[i + 1], u) ensures i == k {
      CallAt(gs, u, i);
      PassesOnce(gs, u, c + 1, f - 1, 1, i, k);
    }
  }

  lemma CalledNever(gs: seq<State>, u: Ref, c: nat, f: nat, j: nat)
    requires Lived(gs) && Lifetime(gs, u, c, f) && c < j && j + 1 < f
    requires Stage(gs[j], u) == 0 && Stage(gs[j + 1], u) == 2
    ensures NeverCalled(gs, u, c, f)
  {
    hide Lived, Called, Stage;
    forall i | c < i < f ensures !Called(gs[i], gs[i + 1], u) {
      CallAt(gs, u, i);
      if i <= j {
        StageGrows(gs, u, i, j);
      } else {
        StageGrows(gs, u, j + 1, i);
      }
    }
  }

  // ----- in which order -----

  lemma FreshListed(g: State, u: Ref)
    requires LifeOk(g) && IsUdata(g, u) && Stage(g, u) == 0
    ensures u in g.rootgc && Before(g.rootgc, g.main, u)
  {
    hide Before;
  }

  /** Between userdata that are not finalized the order of rootgc does not change. */
  lemma FreshOrder(g: State, h: State, x: Ref, y: Ref)
    requires LifeOk(g) && LifeOk(h) && Lives(g, h) && Before(g.rootgc, x, y)
    requires IsUdata(h, x) && IsUdata(h, y) && Stage(h, x) == 0 && Stage(h, y) == 0
    ensures Before(h.rootgc, x, y)
  {
    hide LifeOk, Before, Creates, Queues, Stage;
    FreshListed(h, x);
    FreshListed(h, y);
    if |g.tmudata| <= |h.tmudata| && Queues(g, h, h.tmudata[|g.tmudata|..]) {
      QueuedOrder(g, h, h.tmudata[|g.tmudata|..], x, y);
    } else if exists u :: Creates(g, h, u) {
      var u :| Creates(g, h, u);
      CreatedOrder(g, h, u, x, y);
    }
  }

  lemma QueuedOrder(g: State, h: State, s: seq<Ref>, x: Ref, y: Ref)
    requires LifeOk(g) && Queues(g, h, s) && Before(g.rootgc, x, y) && x in h.rootgc && y in h.rootgc
    ensures Before(h.rootgc, x, y)
  {
    hide Before, Ordered;
    OrderedBack(g.rootgc, h.rootgc, x, y);
  }

  lemma CreatedOrder(g: State, h: State, u: Ref, x: Ref, y: Ref)
    requires Creates(g, h, u) && Before(g.rootgc, x, y) && IsUdata(h, x) && IsUdata(h, y)
    ensures Before(h.rootgc, x, y)
  {
    hide Before;
    assert Tracked(h, x) && Tracked(h, y);
  }

  /** Of two userdata the younger one comes first in rootgc, until one is finalized. */
  lemma {:induction false} YoungerFirst(gs: seq<State>, u: Ref, v: Ref, d: nat, b: nat)
    requires Lived(gs) && d < b && Stays(gs, u, d, b) && !IsUdata(gs[d], v) && Stays(gs, v, d + 1, b)
    requires Stage(gs[b], u) == 0 && Stage(gs[b], v) == 0
    ensures Before(gs[b].rootgc, v, u)
    decreases b
  {
    hide Lived, LifeOk, Lives, Stage, Before, OrderKept;
    StageGrows(gs, u, d, b);
    LivedAt(gs, b - 1);
    LivedAt(gs, b);
    if d + 1 == b {
      BornFresh(gs, v, d);
      FreshListed(gs[d], u);
    } else {
      StageGrows(gs, u, b - 1, b);
      StageGrows(gs, v, b - 1, b);
      YoungerFirst(gs, u, v, d, b - 1);
      FreshOrder(gs[b - 1], gs[b], v, u);
    }
  }

  /** The queue is first in, first out. */
  lemma QueueOrder(g: State, h: State, x: Ref, y: Ref)
    requires LifeOk(g) && Lives(g, h) && Before(g.tmudata, x, y) && x in h.tmudata && y in h.tmudata
    ensures Before(h.tmudata, x, y)
  {
    hide Ages, Creates, Queues, Calls, Before;
    if Ages(g, h) {
      AgesQueue(g, h);
    } else if g.tmudata != [] && Calls(g, h, g.tmudata[0]) {
      PoppedOrder(g, h, g.tmudata[0], x, y);
    } else if exists u :: Creates(g, h, u) {
      var u :| Creates(g, h, u);
      CreatesQueue(g, h, u);
    } else {
      AppendedOrder(g, h, h.tmudata[|g.tmudata|..], x, y);
    }
  }

  lemma PoppedOrder(g: State, h: State, u: Ref, x: Ref, y: Ref)
    requires LifeOk(g) && Calls(g, h, u) && Before(g.tmudata, x, y) && x in h.tmudata
    ensures Before(h.tmudata, x, y)
  {
    hide OrderKept, NoDead;
    var i, j :| 0 <= i < j < |g.tmudata| && g.tmudata[i] == x && g.tmudata[j] == y;
    var k :| 0 <= k < |h.tmudata| && h.tmudata[k] == x;
    assert g.tmudata[k + 1] == x;
    assert h.tmudata[i - 1] == x && h.tmudata[j - 1] == y;
  }

  lemma AppendedOrder(g: State, h: State, s: seq<Ref>, x: Ref, y: Ref)
    requires Queues(g, h, s) && Before(g.tmudata, x, y)
    ensures Before(h.tmudata, x, y)
  {
    hide Ordered, Before;
    BeforeFirst(g.tmudata, s, x, y);
  }

  /** Only the first of the queue is called. */
  lemma CalledFirst(g: State, h: State, u: Ref)
    requires LifeOk(g) && Lives(g, h) && Called(g, h, u)
    ensures g.tmudata != [] && g.tmudata[0] == u
  {
    hide Ages, Creates, Queues, Calls, Placed;
    StepParts(g);
    if Ages(g, h) {
      AgesQueue(g, h);
    } else if g.tmudata != [] && Calls(g, h, g.tmudata[0]) {
      CallsStage(g, h, g.tmudata[0], u);
    } else if exists v :: Creates(g, h, v) {
      var v :| Creates(g, h, v);
      CreatesQueue(g, h, v);
    } else {
      QueuesQueue(g, h, h.tmudata[|g.tmudata|..]);
    }
  }

  lemma NotFirst(g: State, x: Ref, y: Ref)
    requires LifeOk(g) && Before(g.tmudata, x, y)
    ensures g.tmudata != [] && g.tmudata[0] != y && x != y
  {
  }

  lemma {:induction false} Waiting(gs: seq<State>, x: Ref, y: Ref, a: nat, b: nat)
    requires Lived(gs) && a <= b && Stays(gs, x, a, b) && Stays(gs, y, a, b) && Before(gs[a].tmudata, x, y)
    requires Stage(gs[a], x) == 1 && Stage(gs[a], y) == 1 && Stage(gs[b], x) == 1 && Stage(gs[b], y) == 1
    ensures Before(gs[b].tmudata, x, y)
    decreases b
  {
    hide Lived, LifeOk, Lives, Before;
    if a < b {
      StageGrows(gs, x, a, b - 1);
      StageGrows(gs, x, b - 1, b);
      StageGrows(gs, y, a, b - 1);
      StageGrows(gs, y, b - 1, b);
      Waiting(gs, x, y, a, b - 1);
      LivedAt(gs, b - 1);
      QueueOrder(gs[b - 1], gs[b], x, y);
    }
  }

  /** The queue holds `x` before `y` in state `a`: then the finalizer of `x` is called
      first. */
  lemma CalledInOrder(gs: seq<State>, x: Ref, y: Ref, a: nat, kx: nat, ky: nat)
    requires Lived(gs) && a <= kx && a <= ky && kx + 1 < |gs| && ky + 1 < |gs| && Before(gs[a].tmudata, x, y)
    requires Stays(gs, x, a, kx) && Stays(gs, y, a, ky) && Stage(gs[a], x) == 1 && Stage(gs[a], y) == 1
    requires Called(gs[kx], gs[kx + 1], x) && Called(gs[ky], gs[ky + 1], y)
    ensures kx < ky
  {
    hide Lived, LifeOk, Lives, Before, Called, Stage;
    if ky <= kx {
      CallAt(gs, x, kx);
      CallAt(gs, y, ky);
      StageGrows(gs, x, a, ky);
      StageGrows(gs, x, ky, kx);
      Waiting(gs, x, y, a, ky);
      LivedAt(gs, ky);
      CalledFirst(gs[ky], gs[ky + 1], y);
      NotFirst(gs[ky], x, y);
      assert false;
    }
  }

  /** The step that finalizes `x` puts it into the queue behind all that wait. */
  lemma QueuedBehind(g: State, h: State, x: Ref, y: Ref)
    requires LifeOk(g) && Lives(g, h) && Finalized(g, h, x) && g.objs[x].hasgc && y in g.tmudata
    ensures Before(h.tmudata, y, x)
  {
    hide LifeOk, Before, OrderKept, NoDead, Ordered;
    FinalizesQueues(g, h, x);
    BeforeSplit(g.tmudata, h.tmudata[|g.tmudata|..], y, x);
  }

  lemma FinalizesQueues(g: State, h: State, x: Ref)
    requires Lives(g, h) && Finalized(g, h, x)
    ensures |g.tmudata| <= |h.tmudata| && Queues(g, h, h.tmudata[|g.tmudata|..])
  {
    hide Before, OrderKept, NoDead, Ordered, IsDead;
  }

  /** Userdata finalized by one step are queued in the order of rootgc. */
  lemma QueuedTogether(g: State, h: State, x: Ref, y: Ref)
    requires LifeOk(g) && Lives(g, h) && Before(g.rootgc, x, y)
    requires Finalized(g, h, x) && Finalized(g, h, y) && g.objs[x].hasgc && g.objs[y].hasgc
    ensures Before(h.tmudata, x, y)
  {
    hide Before, Lives, Ordered;
    FinalizesQueues(g, h, x);
    var s := h.tmudata[|g.tmudata|..];
    OrderedBack(g.rootgc, s, x, y);
    BeforeShift(g.tmudata, s, x, y);
  }

  /** `u` is made in step `c`, finalized in step `j` and given to its finalizer in step
      `k`. */
  ghost predicate History(gs: seq<State>, u: Ref, c: nat, j: nat, k: nat) {
    && c < j < k && k + 1 < |gs| && !IsUdata(gs[c], u) && Stays(gs, u, c + 1, k)
    && Finalized(gs[j], gs[j + 1], u) && Called(gs[k], gs[k + 1], u)
  }

  lemma HistoryQueued(gs: seq<State>, u: Ref, c: nat, j: nat, k: nat)
    requires Lived(gs) && History(gs, u, c, j, k)
    ensures gs[j].objs[u].hasgc && Stage(gs[j], u) == 0 && Stage(gs[j + 1], u) == 1 && Stage(gs[k], u) == 1
  {
    hide Lived, Called;
    CallAt(gs, u, j);
    CallAt(gs, u, k);
    StageGrows(gs, u, j + 1, k);
  }

  lemma Reverse(gs: seq<State>, u: Ref, c: nat, j: nat, k: nat, v: Ref, d: nat, i: nat, l: nat)
    requires Lived(gs) && History(gs, u, c, j, k) && History(gs, v, d, i, l)
    requires i < j || (i == j && c < d)
    ensures l < k
  {
    hide Lived, LifeOk, Lives, Before, Called, Stage, Finalized;
    HistoryQueued(gs, u, c, j, k);
    HistoryQueued(gs, v, d, i, l);
    LivedAt(gs, j);
    if i == j {
      YoungerFirst(gs, u, v, d, j);
      QueuedTogether(gs[j], gs[j + 1], v, u);
      CalledInOrder(gs, v, u, j + 1, l, k);
    } else if j < l {
      Queued(gs, v, i, j, l);
      QueuedBehind(gs[j], gs[j + 1], u, v);
      CalledInOrder(gs, v, u, j + 1, l, k);
    }
  }

  /** From its finalization to its call a userdata waits. */
  lemma Queued(gs: seq<State>, v: Ref, i: nat, j: nat, l: nat)
    requires Lived(gs) && i < j < l && Stays(gs, v, i, l) && Stage(gs[i + 1], v) == 1 && Stage(gs[l], v) == 1
    ensures v in gs[j].tmudata && Stage(gs[j + 1], v) == 1
  {
    hide Lived;
    StageGrows(gs, v, i + 1, j);
    StageGrows(gs, v, j, j + 1);
    StageGrows(gs, v, j + 1, l);
  }

  // ----- runs -----

  lemma {:induction false} RunLife(gs: seq<State>, ops: seq<Op>, i: nat)
    requires Run(gs, ops) && i <= |ops|
    ensures Inv(gs[i]) && LifeInv(gs[i]) && (i < |ops| ==> Lives(gs[i], gs[i + 1]))
  {
    hide Inv, Apply, InitialState, Enabled, Lives, LifeInv;
    RunInv(gs, ops, i);
    if i == 0 {
      var hash :| gs[0] == InitialState(hash);
      InitialLife(hash);
    } else {
      RunLife(gs, ops, i - 1);
      assert Follows(gs, ops, i - 1);
      StepLives(gs[i - 1], ops[i - 1]);
    }
    if i < |ops| {
      assert Follows(gs, ops, i);
      StepLives(gs[i], ops[i]);
    }
  }

  lemma InitialLife(hash: string -> nat)
    ensures LifeInv(InitialState(hash))
  {
    var g := InitialState(hash);
    assert g.objs.Keys == {0, 1, 2};
    assert forall u :: !IsUdata(g, u);
  }

  lemma InvLife(g: State)
    requires Inv(g) && LifeInv(g)
    ensures LifeOk(g)
  {
    hide StringsOk, UpvalsOk, Kinds, PhaseOk, LifeInv;
    forall u | u in g.tmudata ensures IsUdata(g, u) && !IsDead(g, u) {
      assert u in Roots(g);
    }
  }

  lemma RunLived(gs: seq<State>, ops: seq<Op>)
    requires Run(gs, ops)
    ensures Lived(gs)
  {
    hide Run, Inv, LifeInv, LifeOk, Lives;
    RunLength(gs, ops);
    forall i | 0 <= i < |gs| ensures LivedStep(gs, i) {
      RunLife(gs, ops, i);
      InvLife(gs[i]);
    }
  }

  lemma RunLength(gs: seq<State>, ops: seq<Op>)
    requires Run(gs, ops)
    ensures |gs| == |ops| + 1
  {
    hide Follows, InitialState;
  }

  /** Section 2.10.1 of the Lua 5.1 Reference Manual.  A userdata that was freed counts as
      finalized from one step on.  If it had a finalizer then, it is taken from the queue
      in one later step, before it is freed; and if it still has a finalizer then, it is
      put on the stack for it, in this step only.  Otherwise it never is. */
  lemma RunFinalizer(gs: seq<State>, ops: seq<Op>, u: Ref, c: nat, f: nat) returns (j: nat, k: nat)
    requires Run(gs, ops) && Lifetime(gs, u, c, f)
    ensures FinalizedAt(gs, u, c, f, j)
    ensures if gs[j].objs[u].hasgc then j < k && TakenAt(gs, u, c, f, k) else NeverCalled(gs, u, c, f)
  {
    hide Run, Lived, Lifetime, FinalizedAt, TakenAt, NeverCalled;
    RunLived(gs, ops);
    j, k := Finalizer(gs, u, c, f);
  }

  /** So a userdata that has a finalizer all the time is given to it exactly once. */
  lemma RunFinalizedOnce(gs: seq<State>, ops: seq<Op>, u: Ref, c: nat, f: nat) returns (k: nat)
    requires Run(gs, ops) && Lifetime(gs, u, c, f) && forall i :: c < i < f ==> gs[i].objs[u].hasgc
    ensures c < k < f && Called(gs[k], gs[k + 1], u)
    ensures forall i :: c < i < f && Called(gs[i], gs[i + 1], u) ==> i == k
  {
    hide Run, Called;
    var j;
    j, k := RunFinalizer(gs, ops, u, c, f);
  }

  /** Finalizers are called in the order in which userdata are found unreachable; within
      a cycle, in reverse order of creation. */
  lemma RunReverse(gs: seq<State>, ops: seq<Op>, u: Ref, c: nat, j: nat, k: nat, v: Ref, d: nat, i: nat, l: nat)
    requires Run(gs, ops) && History(gs, u, c, j, k) && History(gs, v, d, i, l)
    requires i < j || (i == j && c < d)
    ensures l < k
  {
    hide Run, Lived, History;
    RunLived(gs, ops);
    Reverse(gs, u, c, j, k, v, d, i, l);
  }
}
