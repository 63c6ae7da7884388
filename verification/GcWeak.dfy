/** Which entries of weak tables the atomic step removes. */
module GcWeak {
  import opened LuaHeap
  import opened GcMark
  import opened GcState
  import opened GcPropagate
  import opened GcClear
  import opened GcAtomic
  import opened GcFinish
  import opened GcCycle
  import opened GcStrong

  // ----- the whole of the clearing -----

  /** Objects other than strings are the same, up to the slots of tables. */
  ghost predicate SameButStrings(g: State, h: State) {
    && h.objs.Keys == g.objs.Keys && h.weak == g.weak && h.cur == g.cur && h.tmudata == g.tmudata
    && h.rootgc == g.rootgc
    && forall r :: r in g.objs ==>
         && h.objs[r] == g.objs[r].(color := h.objs[r].color, slots := h.objs[r].slots)
         && (!g.objs[r].kind.Str? ==> h.objs[r].color == g.objs[r].color)
  }

  lemma SameCleared(g: State, h: State, wv: bool, e: Slot)
    requires SameButStrings(g, h)
    ensures ClearSlot(h, wv, e) == ClearSlot(g, wv, e)
  {
  }

  lemma {:induction false} ClearedAt(g: State, wv: bool, s: seq<Slot>, i: nat)
    requires i < |s|
    ensures ClearSlots(g, wv, s)[i] == ClearSlot(g, wv, s[i])
  {
    if i < |s| - 1 {
      ClearedAt(g, wv, s[..|s| - 1], i);
    }
  }

  lemma ClearTableSlots(g: State, r: Ref)
    requires r in g.objs
    ensures var h := ClearTable(g, r);
            && SameButStrings(g, h) && |h.objs[r].slots| == |g.objs[r].slots|
            && (forall i :: 0 <= i < |g.objs[r].slots| ==>
                  h.objs[r].slots[i] == ClearSlot(g, g.objs[r].weakvalue, g.objs[r].slots[i]))
            && (forall q :: q in g.objs && q != r ==> h.objs[q].slots == g.objs[q].slots)
  {
    var c, h := g.objs[r], ClearTable(g, r);
    forall x | x in Seen(g, r) ensures x in g.objs && g.objs[x].kind.Str? {
      SeenAreStrings(g, c.weakvalue, c.slots, x);
    }
    MarkStringsOnly(g, Seen(g, r));
    forall i | 0 <= i < |c.slots| ensures h.objs[r].slots[i] == ClearSlot(g, c.weakvalue, c.slots[i]) {
      ClearedAt(g, c.weakvalue, c.slots, i);
    }
  }

  lemma SameButTrans(g: State, h: State, k: State)
    requires SameButStrings(g, h) && SameButStrings(h, k)
    ensures SameButStrings(g, k)
  {
  }

  ghost predicate ClearedSlots(g: State, h: State, r: Ref)
    requires r in g.objs && r in h.objs
  {
    && |h.objs[r].slots| == |g.objs[r].slots|
    && forall i :: 0 <= i < |g.objs[r].slots| ==>
         h.objs[r].slots[i] == ClearSlot(g, g.objs[r].weakvalue, g.objs[r].slots[i])
  }

  lemma {:induction false} ClearTablesSlots(g: State, l: seq<Ref>)
    requires Distinct(l) && forall r :: r in l ==> r in g.objs
    ensures var h := ClearTables(g, l);
            && SameButStrings(g, h)
            && (forall r :: r in l ==> ClearedSlots(g, h, r))
            && (forall r :: r in g.objs && r !in l ==> h.objs[r].slots == g.objs[r].slots)
    decreases |l|
  {
    if l != [] {
      hide ClearTable, ClearSlot, SameButStrings;
      var r, l1 := l[0], l[1..];
      var h := ClearTable(g, r);
      ClearTableSlots(g, r);
      assert l == [r] + l1;
      Behead(l1, r);
      SameKeys(g, h);
      ClearTablesSlots(h, l1);
      var k := ClearTables(g, l);
      SameButTrans(g, h, k);
      SameKeys(g, k);
      forall q | q in l ensures ClearedSlots(g, k, q) {
        if q != r {
          ClearedLater(g, h, k, q);
        }
      }
    }
  }

  lemma SameKeys(g: State, h: State)
    requires SameButStrings(g, h)
    ensures h.objs.Keys == g.objs.Keys
    ensures forall q :: q in g.objs ==> h.objs[q].weakvalue == g.objs[q].weakvalue
  {
    forall q | q in g.objs ensures h.objs[q].weakvalue == g.objs[q].weakvalue {
      assert h.objs[q] == g.objs[q].(color := h.objs[q].color, slots := h.objs[q].slots);
    }
  }

  lemma ClearedLater(g: State, h: State, k: State, q: Ref)
    requires SameButStrings(g, h) && q in g.objs && q in h.objs && q in k.objs
    requires h.objs[q].slots == g.objs[q].slots && ClearedSlots(h, k, q)
    ensures ClearedSlots(g, k, q)
  {
    hide ClearSlot;
    SameKeys(g, h);
    forall i | 0 <= i < |g.objs[q].slots|
      ensures k.objs[q].slots[i] == ClearSlot(g, g.objs[q].weakvalue, g.objs[q].slots[i])
    {
      SameCleared(g, h, g.objs[q].weakvalue, g.objs[q].slots[i]);
    }
  }

  // ----- what stays, seen from the end of the atomic step -----

  ghost predicate KeyStays(h: State, k: Key) {
    k.KObj? ==> IsLive(h, k.ref)
  }

  /** Userdata that have been or will be finalized are removed from values. */
  ghost predicate ValStays(h: State, v: Val) {
    v.Obj? ==> IsLive(h, v.ref) && !(h.objs[v.ref].kind.Udata? && h.objs[v.ref].finalized)
  }

  /** In the array part only weak values matter. */
  ghost predicate EntryStays(h: State, c: Cell, e: Slot) {
    if e.key.Index? then c.weakvalue ==> ValStays(h, e.val) else KeyStays(h, e.key) && ValStays(h, e.val)
  }

  /** The white is flipped, and strings may have been marked on the way. */
  ghost predicate Flipped(f: State, a: State) {
    SameButStrings(f, a.(cur := !a.cur)) && NoDead(f)
  }

  lemma RefStays(f: State, a: State, x: Ref, iskey: bool)
    requires Flipped(f, a) && x in f.objs
    ensures x in a.objs && a.objs[x].kind == f.objs[x].kind && a.objs[x].finalized == f.objs[x].finalized
    ensures IsCleared(f, x, iskey)
       <==> !f.objs[x].kind.Str? && !(IsLive(a, x) && (iskey || !(a.objs[x].kind.Udata? && a.objs[x].finalized)))
  {
    var h := a.(cur := !a.cur);
    assert h.objs[x] == f.objs[x].(color := h.objs[x].color, slots := h.objs[x].slots);
    assert !IsDead(f, x);
  }

  /** A slot that is kept holds live references; then the test of the source says what
      stays. */
  lemma ClearedEntry(f: State, a: State, c: Cell, e: Slot)
    requires Flipped(f, a) && !e.val.Nil?
    requires forall x :: x in KeyRefs(e.key) + ValRefs(e.val) ==> x in f.objs
    requires ClearSlot(f, c.weakvalue, e) == e ==> forall x :: x in KeyRefs(e.key) + ValRefs(e.val) ==> IsLive(a, x)
    ensures ClearSlot(f, c.weakvalue, e) == e <==> EntryStays(a, c, e)
    ensures ClearSlot(f, c.weakvalue, e) != e ==> ClearSlot(f, c.weakvalue, e).val.Nil?
  {
    hide Flipped, IsCleared;
    if e.key.KObj? {
      assert e.key.ref in KeyRefs(e.key) + ValRefs(e.val);
      RefStays(f, a, e.key.ref, true);
    }
    if e.val.Obj? {
      assert e.val.ref in KeyRefs(e.key) + ValRefs(e.val);
      RefStays(f, a, e.val.ref, false);
    }
    assert ClearSlot(f, c.weakvalue, e) == e <==>
           (if e.key.Index? then !(c.weakvalue && ValCleared(f, e.val))
            else !(KeyCleared(f, e.key) || ValCleared(f, e.val)));
  }

  // ----- the atomic step -----

  /** The marking of the atomic step, with the finalized bits that it sets. */
  ghost predicate Finishes(g: State, f: State) {
    && f.objs.Keys == g.objs.Keys && f.cur == g.cur && f.main == g.main
    && forall r :: r in g.objs ==> TendsCell(g.objs[r], f.objs[r].(finalized := g.objs[r].finalized))
  }

  lemma SeparatedCells(g: State)
    requires Ready(g) && WellFormed(g)
    ensures Finishes(g, Separated(g)) && WeakOnly(Separated(g)) && NoTablesAgain(Separated(g))
  {
    hide Tends, WeakOnly, NoTablesAgain, Finishes, RootListOk, UpvalsOk, StringsOk, RootsOk, SameObjs;
    var r := Remark(g);
    RemarkTends(g);
    SameShapeKeeps(g, r);
    SeparateCells(r);
    SeparateFinishes(g, r, SeparateUdata(r));
  }

  lemma SeparateFinishes(g: State, r: State, h: State)
    requires Tends(g, r) && SameObjs(r, h) && h.weak == r.weak && h.grayagain == r.grayagain
    requires h.cur == r.cur && h.main == r.main && WeakOnly(r) && NoTablesAgain(r)
    ensures Finishes(g, h) && WeakOnly(h) && NoTablesAgain(h)
  {
    hide Tidy;
    forall x | x in g.objs ensures TendsCell(g.objs[x], h.objs[x].(finalized := g.objs[x].finalized)) {
      assert TendsCell(g.objs[x], r.objs[x]) && h.objs[x] == r.objs[x].(finalized := h.objs[x].finalized);
      assert h.objs[x].(finalized := g.objs[x].finalized) == r.objs[x];
    }
    forall x | x in r.objs ensures h.objs[x].kind == r.objs[x].kind && IsWeak(h.objs[x]) == IsWeak(r.objs[x]) {
      assert h.objs[x] == r.objs[x].(finalized := h.objs[x].finalized);
    }
  }

  lemma FinishCells(g: State)
    requires Ready(g) && WellFormed(g)
    ensures Finishes(g, FinishMarks(g)) && WeakOnly(FinishMarks(g)) && NoTablesAgain(FinishMarks(g))
    ensures Tends(Separated(g), FinishMarks(g))
  {
    hide Tidy, WeakOnly, NoTablesAgain, RootListOk, UpvalsOk, StringsOk;
    var s, f := Separated(g), FinishMarks(g);
    SeparatedCells(g);
    PreserveTends(s);
    forall x | x in g.objs ensures TendsCell(g.objs[x], f.objs[x].(finalized := g.objs[x].finalized)) {
      var c, d, e := g.objs[x], s.objs[x], f.objs[x];
      assert TendsCell(c, d.(finalized := c.finalized)) && TendsCell(d, e);
      TendsUnder(d, e, c.finalized);
      TendsCellTrans(c, d.(finalized := c.finalized), e.(finalized := c.finalized));
    }
  }

  lemma TendsUnder(d: Cell, e: Cell, b: bool)
    requires TendsCell(d, e)
    ensures TendsCell(d.(finalized := b), e.(finalized := b))
  {
  }

  lemma FinishNoDead(g: State)
    requires Ready(g) && WellFormed(g) && NoDead(g)
    ensures NoDead(FinishMarks(g))
  {
    hide Tidy;
    FinishCells(g);
    var f := FinishMarks(g);
    forall x | x in f.objs ensures !IsDead(f, x) {
      assert TendsCell(g.objs[x], f.objs[x].(finalized := g.objs[x].finalized)) && !IsDead(g, x);
      FinishDarkens(g, x);
    }
  }

  lemma FinishDarkens(g: State, x: Ref)
    requires Ready(g) && WellFormed(g) && x in g.objs
    ensures var f := FinishMarks(g);
            x in f.objs && f.cur == g.cur && (f.objs[x].color == g.objs[x].color || NonWhite(f, x))
  {
    SeparatedDarkens(g);
    DarkensTrans(g, Separated(g), FinishMarks(g));
  }

  /** The tables cleared: all live weak ones, but for those that were traversed when
      they were not weak. */
  lemma WeakListed(g: State, t: Ref)
    requires Inv(g) && g.phase.Propagate? && t in g.objs
    ensures Ready(g) && t in Atomic(g).objs
    ensures t in Atomic(g).weak <==> IsWeak(g.objs[t]) && IsLive(Atomic(g), t) && !g.objs[t].color.Black?
  {
    hide Tidy, RootListOk, UpvalsOk, StringsOk, RootsOk, LiveClosed;
    PropagateReady(g);
    var f, a := FinishMarks(g), Atomic(g);
    FinishCells(g);
    FinishNoDead(g);
    ClearedWhole(g);
    RefStays(f, a, t, true);
    assert TendsCell(g.objs[t], f.objs[t].(finalized := g.objs[t].finalized));
    assert t in f.weak ==> t in Listed(f);
    if NonWhite(f, t) && Traversable(f.objs[t].kind) && f.objs[t].color.Gray? {
      assert t in Listed(f);
    }
  }

  lemma ClearedWhole(g: State)
    requires Ready(g) && WellFormed(g) && NoDead(g)
    ensures var f, a := FinishMarks(g), Atomic(g);
            && Flipped(f, a) && a.weak == f.weak
            && (forall r :: r in f.weak ==> r in f.objs && r in a.objs && ClearedSlots(f, a, r))
            && (forall r :: r in f.objs && r !in f.weak ==> r in a.objs && a.objs[r].slots == f.objs[r].slots)
  {
    hide FinishMarks, SameButStrings, ClearedSlots, RootListOk, UpvalsOk, StringsOk, RootsOk, Kinds, NoDangling, NoDead;
    FinishNoDead(g);
    FlippedWhole(FinishMarks(g));
  }

  lemma FlippedWhole(f: State)
    requires Lists(f) && NoDead(f)
    ensures forall r :: r in f.weak ==> r in f.objs
    ensures var a := FlipWhite(ClearTables(f, f.weak));
            && Flipped(f, a) && a.weak == f.weak
            && (forall r :: r in f.weak ==> r in a.objs && ClearedSlots(f, a, r))
            && (forall r :: r in f.objs && r !in f.weak ==> r in a.objs && a.objs[r].slots == f.objs[r].slots)
  {
    hide ClearTables, ClearSlot;
    WeakDistinct(f);
    assert forall r :: r in f.weak ==> r in f.objs;
    ClearTablesSlots(f, f.weak);
    var c := ClearTables(f, f.weak);
    var a := FlipWhite(c);
    assert SameButStrings(f, a.(cur := !a.cur)) by {
      assert a.(cur := !a.cur).objs == c.objs;
    }
    forall r | r in f.weak ensures ClearedSlots(f, a, r) {
      assert ClearedSlots(f, c, r);
    }
  }

  lemma WeakDistinct(g: State)
    requires Lists(g)
    ensures Distinct(g.weak)
  {
    var n := |g.gray| + |g.grayagain|;
    assert forall i :: 0 <= i < |g.weak| ==> Listed(g)[n + i] == g.weak[i];
  }

  /** An entry is the same after the atomic step exactly if its table is not cleared, or
      it stays; otherwise it is gone. */
  lemma WeakEntries(g: State, t: Ref, i: nat)
    requires Inv(g) && g.phase.Propagate? && t in g.objs && i < |g.objs[t].slots|
    ensures Ready(g) && t in Atomic(g).objs && |Atomic(g).objs[t].slots| == |g.objs[t].slots|
    ensures var a, e := Atomic(g), g.objs[t].slots[i];
            var d := a.objs[t].slots[i];
            if e.val.Nil? then d.val.Nil?
            else (d == e <==> (t in a.weak ==> EntryStays(a, g.objs[t], e))) && (d != e ==> d.val.Nil?)
  {
    hide RootListOk, UpvalsOk, StringsOk, RootsOk, Kinds, NoDangling, LiveClosed, Lists, Flipped, ClearedSlots,
         PropagateOk, Finishes, FinishMarks, Atomic, WeakOnly, NoTablesAgain, Tends;
    PropagateReady(g);
    var f, a := FinishMarks(g), Atomic(g);
    FinishCells(g);
    ClearedWhole(g);
    FinishedSlot(g, f, t, i);
    if t in f.weak && !g.objs[t].slots[i].val.Nil? {
      EntryRefs(g, f, a, t, i);
    }
    EntryEnds(g.objs[t], f, a, t, i);
  }

  lemma FinishedSlot(g: State, f: State, t: Ref, i: nat)
    requires Finishes(g, f) && t in g.objs && i < |g.objs[t].slots|
    ensures t in f.objs && |f.objs[t].slots| == |g.objs[t].slots| && TidySlot(g.objs[t].slots[i], f.objs[t].slots[i])
    ensures f.objs[t].weakvalue == g.objs[t].weakvalue
  {
    assert TendsCell(g.objs[t], f.objs[t].(finalized := g.objs[t].finalized));
  }

  lemma EntryEnds(c: Cell, f: State, a: State, t: Ref, i: nat)
    requires Flipped(f, a) && t in f.objs && t in a.objs && a.weak == f.weak && f.objs[t].weakvalue == c.weakvalue
    requires i < |c.slots| == |f.objs[t].slots| && TidySlot(c.slots[i], f.objs[t].slots[i])
    requires if t in f.weak then ClearedSlots(f, a, t) else a.objs[t].slots == f.objs[t].slots
    requires t in f.weak && !c.slots[i].val.Nil? ==>
               var e := f.objs[t].slots[i];
               && (forall x :: x in KeyRefs(e.key) + ValRefs(e.val) ==> x in f.objs)
               && (ClearSlot(f, f.objs[t].weakvalue, e) == e ==>
                     forall x :: x in KeyRefs(e.key) + ValRefs(e.val) ==> IsLive(a, x))
    ensures |a.objs[t].slots| == |c.slots|
    ensures var e, d := c.slots[i], a.objs[t].slots[i];
            if e.val.Nil? then d.val.Nil?
            else (d == e <==> (t in a.weak ==> EntryStays(a, c, e))) && (d != e ==> d.val.Nil?)
  {
    hide ClearSlot, EntryStays, Flipped;
    var e := f.objs[t].slots[i];
    if t in f.weak {
      if e.val.Nil? {
        NilStays(f, c.weakvalue, e);
      } else {
        ClearedEntry(f, a, c, e);
      }
    }
  }

  lemma NilStays(f: State, wv: bool, e: Slot)
    requires e.val.Nil?
    ensures ClearSlot(f, wv, e).val.Nil?
  {
  }

  lemma {:induction false} SlotHas(s: seq<Slot>, i: nat)
    requires i < |s| && !s[i].val.Nil?
    ensures forall x :: x in KeyRefs(s[i].key) + ValRefs(s[i].val) ==> x in SlotKids(s)
  {
    if i < |s| - 1 {
      assert s[..|s| - 1][i] == s[i];
      SlotHas(s[..|s| - 1], i);
    }
  }

  lemma EntryRefs(g: State, f: State, a: State, t: Ref, i: nat)
    requires Inv(g) && g.phase.Propagate? && Ready(g) && f == FinishMarks(g) && a == Atomic(g)
    requires t in f.weak && t in f.objs && t in a.objs && i < |f.objs[t].slots| && !f.objs[t].slots[i].val.Nil?
    requires ClearedSlots(f, a, t) && Flipped(f, a)
    ensures var e := f.objs[t].slots[i];
            && (forall x :: x in KeyRefs(e.key) + ValRefs(e.val) ==> x in f.objs)
            && (ClearSlot(f, f.objs[t].weakvalue, e) == e ==>
                  forall x :: x in KeyRefs(e.key) + ValRefs(e.val) ==> IsLive(a, x))
  {
    hide RootListOk, UpvalsOk, StringsOk, RootsOk, Kinds, ClearSlot, Flipped, Lists;
    var e := f.objs[t].slots[i];
    SlotHas(f.objs[t].slots, i);
    forall x | x in KeyRefs(e.key) + ValRefs(e.val) ensures x in f.objs {
      assert x in Kids(f, t);
    }
    AtomicKeeps(g);
    ListedLive(f, a, t);
    if ClearSlot(f, f.objs[t].weakvalue, e) == e {
      SlotHas(a.objs[t].slots, i);
      assert AllLive(a, Kids(a, t));
      forall x | x in KeyRefs(e.key) + ValRefs(e.val) ensures IsLive(a, x) {
        assert x in Kids(a, t);
      }
    }
  }

  lemma ListedLive(f: State, a: State, t: Ref)
    requires Lists(f) && Flipped(f, a) && t in f.weak && t in f.objs
    ensures IsLive(a, t)
  {
    assert t in Listed(f);
    RefStays(f, a, t, true);
  }
}
