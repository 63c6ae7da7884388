/** Stores of the mutator and their write barriers. */
module GcStore {
  import opened LuaHeap
  import opened GcMark
  import opened GcState
  import opened GcPropagate
  import opened GcCycle
  import opened GcUpval
  import opened GcUpdate

  // ----- stores without a barrier: threads are never black -----

  function SetStack(g: State, t: Ref, st: seq<Val>): State
    requires t in g.objs
  {
    Update(g, t, g.objs[t].(stack := st))
  }

  /** Every open upvalue of `t` still has its slot in a stack of height `n`. */
  ghost predicate OpenBelow(g: State, t: Ref, n: nat)
    requires t in g.objs
  {
    forall u :: u in g.objs[t].openupval && u in g.objs && g.objs[u].kind.UpvalOpen? ==> g.objs[u].kind.level < n
  }

  lemma SetStackKeeps(g: State, t: Ref, st: seq<Val>)
    requires Inv(g) && IsLive(g, t) && g.objs[t].kind.Thread? && OpenBelow(g, t, |st|) && AllLive(g, StackRefs(st))
    ensures Inv(SetStack(g, t, st))
  {
    var d := g.objs[t].(stack := st);
    var h := Update(g, t, d);
    assert Shaped(g.objs[t]);
    assert Writes(g, t, d);
    assert AllLive(g, Kids(h, t)) by {
      assert AllLive(g, Kids(g, t));
      assert forall x :: x in d.refs ==> x in Kids(g, t);
      assert OpenRefs(h, d) == [] && SlotKids(d.slots) == [];
    }
    UpdateKeeps(g, t, d);
  }

  /** The table of globals of a thread. */
  function SetGlobals(g: State, t: Ref, rs: seq<Ref>): State
    requires t in g.objs
  {
    Update(g, t, g.objs[t].(refs := rs))
  }

  lemma SetGlobalsKeeps(g: State, t: Ref, rs: seq<Ref>)
    requires Inv(g) && IsLive(g, t) && g.objs[t].kind.Thread? && AllLive(g, rs)
    ensures Inv(SetGlobals(g, t, rs))
  {
    var d := g.objs[t].(refs := rs);
    var h := Update(g, t, d);
    assert Shaped(g.objs[t]);
    assert Writes(g, t, d) by {
      assert OpenListOk(g, t);
      assert forall u :: u in g.objs[t].openupval ==> OpenAt(g, u, t);
    }
    assert AllLive(g, Kids(h, t)) && AllLive(g, StackRefs(d.stack)) by {
      assert AllLive(g, Kids(g, t));
      assert forall x :: x in StackRefs(d.stack) ==> x in Kids(g, t);
      assert OpenRefs(h, d) == [] && SlotKids(d.slots) == [];
    }
    UpdateKeeps(g, t, d);
  }

  // ----- tables: the barrier moves back -----

  /** luaC_barrierback. */
  function BarrierBack(g: State, o: Ref): State
    requires o in g.objs
  {
    SetColor(g, o, Gray).(grayagain := [o] + g.grayagain)
  }

  lemma BarrierBackRefs(g: State, o: Ref, q: Ref)
    requires o in g.objs && q in g.objs
    ensures var h := BarrierBack(g, o);
            Kids(h, q) == Kids(g, q) && Trace(h, q) == Trace(g, q) && StrongKids(h, q) == StrongKids(g, q)
  {
    assert OpenRefs(BarrierBack(g, o), BarrierBack(g, o).objs[q]) == OpenRefs(g, g.objs[q]);
  }

  lemma BarrierBackLists(g: State, o: Ref)
    requires Lists(g) && o in g.objs && g.objs[o].kind.Table? && g.objs[o].color.Black?
    ensures Lists(BarrierBack(g, o))
  {
    var h := BarrierBack(g, o);
    assert o !in Listed(g);
    assert Listed(g) == g.gray + (g.grayagain + g.weak);
    assert Listed(h) == g.gray + [o] + (g.grayagain + g.weak);
    Moved(g.gray, g.grayagain + g.weak, o);
  }

  lemma BarrierBackTri(g: State, o: Ref, ex: set<Ref>)
    requires NoDangling(g) && Tri(g, ex) && o in g.objs && g.objs[o].color.Black?
    ensures NoDangling(BarrierBack(g, o)) && Tri(BarrierBack(g, o), ex)
  {
    var h := BarrierBack(g, o);
    forall q | q in g.objs
      ensures Kids(h, q) == Kids(g, q) && Trace(h, q) == Trace(g, q)
    {
      BarrierBackRefs(g, o, q);
    }
    assert forall x :: NonWhite(h, x) == NonWhite(g, x);
  }

  lemma BarrierBackMarks(g: State, o: Ref)
    requires PropagateOk(g) && o in g.objs && g.objs[o].kind.Table? && g.objs[o].color.Black?
    requires Kinds(BarrierBack(g, o))
    ensures PropagateOk(BarrierBack(g, o))
  {
    BarrierBackLists(g, o);
    BarrierBackTri(g, o, set u | u in g.tmudata);
    PropagateFrom(BarrierBack(g, o));
  }

  lemma BarrierBackLive(g: State, o: Ref)
    requires LiveClosed(g) && o in g.objs && g.objs[o].color.Black?
    ensures LiveClosed(BarrierBack(g, o))
  {
    var h := BarrierBack(g, o);
    forall q | IsLive(h, q) ensures IsLive(g, q) && Kids(h, q) == Kids(g, q) {
      BarrierBackRefs(g, o, q);
    }
    assert Roots(h) == Roots(g);
    LiveFrame(g, h);
  }

  lemma BarrierBackShape(g: State, o: Ref)
    requires WellFormed(g) && o in g.objs && g.objs[o].kind.Table?
    ensures WellFormed(BarrierBack(g, o))
  {
    hide UpvalsOk, RootsOk;
    var h := BarrierBack(g, o);
    assert forall r :: r in g.objs ==> Shaped(g.objs[r]);
    WellFormedFrame(g, h);
  }

  lemma BarrierBackSweep(g: State, o: Ref)
    requires g.strt != [] && SweepOk(g) && o in g.objs && g.objs[o].color.Black?
    ensures SweepOk(BarrierBack(g, o))
  {
    var h := BarrierBack(g, o);
    forall r | r in h.objs && r !in h.tmudata && !Unswept(h, r) ensures h.objs[r].color == White(h.cur) {
      assert Bucket(h, h.objs[r].text) == Bucket(g, g.objs[r].text);
      assert !Unswept(g, r);
    }
  }

  /** The barrier keeps the invariant, and is never called between cycles. */
  lemma BarrierBackKeeps(g: State, o: Ref)
    requires Inv(g) && o in g.objs && g.objs[o].kind.Table? && g.objs[o].color.Black?
    ensures Inv(BarrierBack(g, o)) && !g.phase.Pause? && !g.phase.Finalize?
  {
    assert o !in g.tmudata;
    BarrierBackShape(g, o);
    BarrierBackLive(g, o);
    if g.phase.Propagate? {
      BarrierBackMarks(g, o);
      BarrierBackNoDead(g, o);
    } else {
      BarrierBackSweep(g, o);
    }
  }

  lemma BarrierBackNoDead(g: State, o: Ref)
    requires NoDead(g) && o in g.objs
    ensures NoDead(BarrierBack(g, o))
  {
    assert forall r :: r in g.objs ==> !IsDead(g, r);
  }

  predicate AnyWhite(g: State, s: seq<Ref>) {
    exists x :: x in s && IsWhite(g, x)
  }

  /** Changing entries or metatable of a table; `stored` are the references the
      write puts there, each passed through luaC_barriert. */
  function StoreTable(g: State, o: Ref, rs: seq<Ref>, sl: seq<Slot>, stored: seq<Ref>): State
    requires o in g.objs
  {
    var h := TableData(g, o, rs, sl);
    if g.objs[o].color.Black? && AnyWhite(g, stored) then BarrierBack(h, o) else h
  }

  /** What the program may write: values it can reach, nothing else appears. */
  ghost predicate TableWrite(g: State, o: Ref, rs: seq<Ref>, sl: seq<Slot>, stored: seq<Ref>) {
    && IsLive(g, o) && g.objs[o].kind.Table?
    && AllLive(g, stored) && AllLive(g, rs) && AllLive(g, SlotKids(sl))
    && (forall x :: x in rs || x in SlotTrace(sl) ==> x in Trace(g, o) || x in stored)
  }

  lemma TableCell(g: State, o: Ref, rs: seq<Ref>, sl: seq<Slot>)
    requires UpvalsOk(g) && Kinds(g) && o in g.objs && g.objs[o].kind.Table? && AllLive(g, rs)
             && AllLive(g, SlotKids(sl))
    ensures var d := g.objs[o].(refs := rs, slots := sl);
            && Writes(g, o, d) && AllLive(g, Kids(Update(g, o, d), o)) && StackRefs(d.stack) == []
            && Trace(Update(g, o, d), o) == rs + SlotTrace(sl)
  {
    hide RootListOk;
    var d := g.objs[o].(refs := rs, slots := sl);
    assert Shaped(g.objs[o]);
    assert OpenRefs(Update(g, o, d), d) == [];
  }

  function TableData(g: State, o: Ref, rs: seq<Ref>, sl: seq<Slot>): State
    requires o in g.objs
  {
    Update(g, o, g.objs[o].(refs := rs, slots := sl))
  }

  lemma BarrierCommutes(g: State, o: Ref, rs: seq<Ref>, sl: seq<Slot>)
    requires o in g.objs
    ensures BarrierBack(TableData(g, o, rs, sl), o) == TableData(BarrierBack(g, o), o, rs, sl)
  {
    assert BarrierBack(TableData(g, o, rs, sl), o).objs == TableData(BarrierBack(g, o), o, rs, sl).objs;
  }

  lemma GrayTableKeeps(g: State, o: Ref, rs: seq<Ref>, sl: seq<Slot>)
    requires Inv(g) && o in g.objs && g.objs[o].kind.Table? && g.objs[o].color.Gray?
    requires AllLive(g, rs) && AllLive(g, SlotKids(sl))
    ensures Inv(TableData(g, o, rs, sl))
  {
    TableCell(g, o, rs, sl);
    UpdateKeeps(g, o, g.objs[o].(refs := rs, slots := sl));
  }

  lemma BarrierBackAllLive(g: State, o: Ref, s: seq<Ref>)
    requires o in g.objs && AllLive(g, s)
    ensures AllLive(BarrierBack(g, o), s)
  {
  }

  lemma StoreTableBarrier(g: State, o: Ref, rs: seq<Ref>, sl: seq<Slot>)
    requires Inv(g) && o in g.objs && g.objs[o].kind.Table? && g.objs[o].color.Black?
    requires AllLive(g, rs) && AllLive(g, SlotKids(sl))
    ensures Inv(BarrierBack(TableData(g, o, rs, sl), o))
  {
    BarrierBackKeeps(g, o);
    BarrierBackAllLive(g, o, rs);
    BarrierBackAllLive(g, o, SlotKids(sl));
    BarrierCommutes(g, o, rs, sl);
    GrayTableKeeps(BarrierBack(g, o), o, rs, sl);
  }

  lemma StoreTablePlain(g: State, o: Ref, rs: seq<Ref>, sl: seq<Slot>, stored: seq<Ref>)
    requires Inv(g) && TableWrite(g, o, rs, sl, stored) && !(g.objs[o].color.Black? && AnyWhite(g, stored))
    ensures Inv(TableData(g, o, rs, sl))
  {
    TableCell(g, o, rs, sl);
    if g.phase.Propagate? && g.objs[o].color.Black? && o !in g.tmudata {
      assert AllNonWhite(g, Trace(g, o));
      forall x | x in rs + SlotTrace(sl) ensures NonWhite(g, x) {
        assert x in stored ==> IsLive(g, x) && !IsWhite(g, x);
      }
    }
    UpdateKeeps(g, o, g.objs[o].(refs := rs, slots := sl));
  }

  lemma StoreTableKeeps(g: State, o: Ref, rs: seq<Ref>, sl: seq<Slot>, stored: seq<Ref>)
    requires Inv(g) && TableWrite(g, o, rs, sl, stored)
    ensures Inv(StoreTable(g, o, rs, sl, stored))
  {
    if g.objs[o].color.Black? && AnyWhite(g, stored) {
      StoreTableBarrier(g, o, rs, sl);
    } else {
      StoreTablePlain(g, o, rs, sl, stored);
    }
  }

  // ----- other objects: the barrier moves forward -----

  function ObjData(g: State, o: Ref, rs: seq<Ref>): State
    requires o in g.objs
  {
    Update(g, o, g.objs[o].(refs := rs))
  }

  /** A store into a userdata, closure, prototype or closed upvalue.  On a black
      object luaC_barrierf marks the new value in the mark phase; otherwise it
      returns the object to white, so that it is not called again. */
  function StoreObj(g: State, o: Ref, rs: seq<Ref>, stored: seq<Ref>): State
    requires o in g.objs
  {
    var h := ObjData(g, o, rs);
    if !g.objs[o].color.Black? then h
    else if g.phase.Propagate? then MarkAll(h, stored)
    else if AnyWhite(g, stored) then SetColor(h, o, White(g.cur))
    else h
  }

  predicate Plain(k: Kind) {
    k.Udata? || k.UpvalClosed? || k.Func? || k.Proto?
  }

  ghost predicate ObjWrite(g: State, o: Ref, rs: seq<Ref>, stored: seq<Ref>) {
    && IsLive(g, o) && Plain(g.objs[o].kind) && AllLive(g, stored) && AllLive(g, rs)
    && (forall x :: x in rs ==> x in Trace(g, o) || x in stored)
  }

  lemma ObjCell(g: State, o: Ref, rs: seq<Ref>)
    requires Kinds(g) && o in g.objs && Plain(g.objs[o].kind)
    ensures var d := g.objs[o].(refs := rs);
            && Writes(g, o, d) && StackRefs(d.stack) == []
            && Trace(Update(g, o, d), o) == rs && Kids(Update(g, o, d), o) == rs
  {
    var d := g.objs[o].(refs := rs);
    assert Shaped(g.objs[o]);
    assert OpenRefs(Update(g, o, d), d) == [];
  }

  lemma ObjPlain(g: State, o: Ref, rs: seq<Ref>, stored: seq<Ref>)
    requires Inv(g) && ObjWrite(g, o, rs, stored) && !(g.phase.Propagate? && g.objs[o].color.Black?)
    ensures Inv(ObjData(g, o, rs))
  {
    ObjCell(g, o, rs);
    UpdateKeeps(g, o, g.objs[o].(refs := rs));
  }

  lemma ForwardTrace(g: State, o: Ref, rs: seq<Ref>, stored: seq<Ref>)
    requires Kinds(g) && ObjWrite(g, o, rs, stored) && AllNonWhite(g, Trace(g, o))
    ensures var k := MarkAll(ObjData(g, o, rs), stored);
            o in k.objs && AllNonWhite(k, Trace(k, o))
  {
    var h := ObjData(g, o, rs);
    var k := MarkAll(h, stored);
    ObjCell(g, o, rs);
    MarksKeepRefs(h, k, o);
    forall x | x in rs ensures NonWhite(k, x) {
      if x in Trace(g, o) {
        assert NonWhite(g, x) && NonWhite(h, x);
      } else {
        assert IsLive(g, x);
      }
    }
  }

  lemma ObjForward(g: State, o: Ref, rs: seq<Ref>, stored: seq<Ref>)
    requires PropagateOk(g) && ObjWrite(g, o, rs, stored) && g.objs[o].color.Black?
    ensures MarkInv(MarkAll(ObjData(g, o, rs), stored), MutatorSlack(g))
  {
    var h := ObjData(g, o, rs);
    var e := MutatorSlack(g);
    ObjCell(g, o, rs);
    UpdateMarks(g, o, g.objs[o].(refs := rs));
    MarkAllInv(h, stored, e.(black := e.black + {o}));
    if o !in e.black {
      ForwardTrace(g, o, rs, stored);
    }
    DropBlack(MarkAll(h, stored), e, o);
  }

  lemma DropBlack(k: State, e: Slack, o: Ref)
    requires o in k.objs && MarkInv(k, e.(black := e.black + {o}))
    requires o !in e.black ==> AllNonWhite(k, Trace(k, o))
    ensures MarkInv(k, e)
  {
  }

  lemma ObjDataShape(g: State, o: Ref, rs: seq<Ref>)
    requires WellFormed(g) && NoDead(g) && o in g.objs && Plain(g.objs[o].kind)
    ensures WellFormed(ObjData(g, o, rs)) && NoDead(ObjData(g, o, rs))
    ensures ObjData(g, o, rs).objs.Keys == g.objs.Keys
    ensures forall x :: NonWhite(g, x) ==> NonWhite(ObjData(g, o, rs), x)
  {
    hide RootListOk, UpvalsOk;
    ObjCell(g, o, rs);
    UpdateShape(g, o, g.objs[o].(refs := rs));
    UpdateNoDead(g, o, g.objs[o].(refs := rs));
  }

  lemma ObjForwardKeeps(g: State, o: Ref, rs: seq<Ref>, stored: seq<Ref>)
    requires WellFormed(g) && NoDead(g) && PropagateOk(g) && g.phase.Propagate?
    requires ObjWrite(g, o, rs, stored) && g.objs[o].color.Black?
    ensures Inv(MarkAll(ObjData(g, o, rs), stored))
  {
    var h := ObjData(g, o, rs);
    var k := MarkAll(h, stored);
    ObjDataShape(g, o, rs);
    ObjForward(g, o, rs, stored);
    assert MutatorSlack(k) == MutatorSlack(g);
    MarkedKeeps(h, k);
  }

  /** Outside the mark phase a live object may turn white. */
  lemma ToWhiteKeeps(g: State, o: Ref)
    requires Inv(g) && !g.phase.Propagate? && IsLive(g, o) && !g.objs[o].kind.Str?
    ensures Inv(SetColor(g, o, White(g.cur)))
  {
    var h := SetColor(g, o, White(g.cur));
    ToWhiteShape(g, o);
    ToWhiteLive(g, o);
    if g.phase.SweepString? || g.phase.Sweep? {
      ToWhiteSweep(g, o);
    } else {
      ToWhiteIdle(g, o);
    }
  }

  lemma ToWhiteShape(g: State, o: Ref)
    requires WellFormed(g) && o in g.objs
    ensures WellFormed(SetColor(g, o, White(g.cur)))
  {
    ToWhiteKinds(g, o);
    WellFormedFrame(g, SetColor(g, o, White(g.cur)));
  }

  lemma ToWhiteKinds(g: State, o: Ref)
    requires Kinds(g) && o in g.objs
    ensures Kinds(SetColor(g, o, White(g.cur))) && SameCells(g, SetColor(g, o, White(g.cur)))
  {
    assert forall r :: r in g.objs ==> Shaped(g.objs[r]);
  }

  lemma ToWhiteIdle(g: State, o: Ref)
    requires NoDead(g) && AllWhite(g) && o in g.objs
    ensures NoDead(SetColor(g, o, White(g.cur))) && AllWhite(SetColor(g, o, White(g.cur)))
  {
    assert forall r :: r in g.objs ==> !IsDead(g, r);
  }

  lemma ToWhiteLive(g: State, o: Ref)
    requires LiveClosed(g) && IsLive(g, o)
    ensures LiveClosed(SetColor(g, o, White(g.cur)))
  {
    var h := SetColor(g, o, White(g.cur));
    forall q | IsLive(h, q) ensures IsLive(g, q) && Kids(h, q) == Kids(g, q) {
      assert OpenRefs(h, h.objs[q]) == OpenRefs(g, g.objs[q]);
    }
    assert Roots(h) == Roots(g);
    LiveFrame(g, h);
  }

  lemma ToWhiteSweep(g: State, o: Ref)
    requires g.strt != [] && SweepOk(g) && o in g.objs
    ensures SweepOk(SetColor(g, o, White(g.cur)))
  {
    var h := SetColor(g, o, White(g.cur));
    forall r | r in h.objs && r !in h.tmudata && !Unswept(h, r) ensures h.objs[r].color == White(h.cur) {
      assert Bucket(h, h.objs[r].text) == Bucket(g, g.objs[r].text);
      assert !Unswept(g, r);
    }
  }

  lemma ForwardPhase(g: State, o: Ref)
    requires Inv(g) && o in g.objs
    ensures g.objs[o].color.Black? && (g.phase.Pause? || g.phase.Finalize?) ==> o in g.tmudata
  {
  }

  /** The barrier keeps the invariant.  It is not called between cycles, except for
      userdata that still wait for their finalizer. */
  lemma StoreObjKeeps(g: State, o: Ref, rs: seq<Ref>, stored: seq<Ref>)
    requires Inv(g) && ObjWrite(g, o, rs, stored)
    ensures Inv(StoreObj(g, o, rs, stored))
    ensures g.objs[o].color.Black? && (g.phase.Pause? || g.phase.Finalize?) ==> o in g.tmudata
  {
    hide RootsOk, RootListOk, StringsOk, UpvalsOk, Kinds, LiveClosed, PropagateOk, SweepOk, AllWhite, NoDead, AnyWhite;
    ForwardPhase(g, o);
    if g.objs[o].color.Black? && g.phase.Propagate? {
      ObjForwardKeeps(g, o, rs, stored);
    } else {
      ObjPlain(g, o, rs, stored);
      if g.objs[o].color.Black? && AnyWhite(g, stored) {
        ToWhiteKeeps(ObjData(g, o, rs), o);
      }
    }
  }
}
