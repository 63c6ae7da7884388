/** Writing to one object, the common part of all mutator stores. */
module GcUpdate {
  import opened LuaHeap
  import opened GcMark
  import opened GcState
  import opened GcUpval
  import opened GcCycle

  function Update(g: State, o: Ref, d: Cell): State {
    g.(objs := g.objs[o := d])
  }

  /** A write keeps kind, colour, text and open upvalues; stack slots that open
      upvalues stand for stay. */
  ghost predicate Writes(g: State, o: Ref, d: Cell) {
    && o in g.objs && Shaped(d)
    && d == g.objs[o].(refs := d.refs, slots := d.slots, stack := d.stack,
                       weakkey := d.weakkey, weakvalue := d.weakvalue, hasgc := d.hasgc, fixed := d.fixed)
    && (d.fixed == g.objs[o].fixed || d.kind.Str?)
    && (forall u :: u in g.objs[o].openupval && u in g.objs && g.objs[u].kind.UpvalOpen? ==>
          g.objs[u].kind.level < |d.stack|)
  }

  lemma UpdateKids(g: State, o: Ref, d: Cell, q: Ref)
    requires Writes(g, o, d) && q in g.objs && q != o
    requires g.objs[q].kind.UpvalOpen? ==> g.objs[q].kind.thread != o
    ensures var h := Update(g, o, d);
            Kids(h, q) == Kids(g, q) && Trace(h, q) == Trace(g, q) && StrongKids(h, q) == StrongKids(g, q)
  {
    assert OpenRefs(Update(g, o, d), g.objs[q]) == OpenRefs(g, g.objs[q]);
  }

  /** An open upvalue of the written thread refers into the new stack. */
  lemma UpdateOpen(g: State, o: Ref, d: Cell, q: Ref)
    requires Writes(g, o, d) && q in g.objs && q != o && g.objs[q].kind.UpvalOpen? && Shaped(g.objs[q])
    requires g.objs[q].kind.thread == o
    ensures forall x :: x in Kids(Update(g, o, d), q) ==> x in StackRefs(d.stack)
  {
    var h := Update(g, o, d);
    assert Kids(h, q) == OpenRefs(h, h.objs[q]);
    forall x | x in Kids(h, q) ensures x in StackRefs(d.stack) {
      StackHas(d.stack, g.objs[q].kind.level);
    }
  }

  lemma {:induction false} StackHas(s: seq<Val>, i: nat)
    requires i < |s|
    ensures forall x :: x in ValRefs(s[i]) ==> x in StackRefs(s)
  {
    if i < |s| - 1 {
      StackHas(s[..|s| - 1], i);
    }
  }

  // ----- shape -----

  lemma UpdateUpvals(g: State, o: Ref, d: Cell)
    requires Writes(g, o, d) && UpvalsOk(g)
    ensures UpvalsOk(Update(g, o, d))
  {
    hide OpenListOk;
    var h := Update(g, o, d);
    forall t | t in h.objs ensures OpenListOk(h, t) {
      UpdateList(g, o, d, t);
    }
  }

  lemma UpdateList(g: State, o: Ref, d: Cell, t: Ref)
    requires Writes(g, o, d) && t in g.objs && OpenListOk(g, t)
    ensures OpenListOk(Update(g, o, d), t)
  {
    var h := Update(g, o, d);
    var l := g.objs[t].openupval;
    forall u | u in l ensures OpenAt(h, u, t) {
      assert OpenAt(g, u, t);
    }
    forall i, j | 0 <= i < j < |l| && OpenAt(h, l[i], t) && OpenAt(h, l[j], t)
      ensures h.objs[l[i]].kind.level > h.objs[l[j]].kind.level
    {
      assert OpenAt(g, l[i], t) && OpenAt(g, l[j], t);
    }
  }

  lemma UpdateStrings(g: State, o: Ref, d: Cell)
    requires StringsOk(g) && Writes(g, o, d)
    ensures StringsOk(Update(g, o, d))
  {
    var h := Update(g, o, d);
    assert forall r :: IsText(h, r) == IsText(g, r);
    StringsFrame(g, h);
  }

  lemma UpdateRoots(g: State, o: Ref, d: Cell)
    requires RootsOk(g) && RootListOk(g) && Kinds(g) && Writes(g, o, d)
    ensures RootsOk(Update(g, o, d)) && RootListOk(Update(g, o, d)) && Kinds(Update(g, o, d))
  {
    RootListFrame(g, Update(g, o, d));
  }

  lemma UpdateShape(g: State, o: Ref, d: Cell)
    requires WellFormed(g) && Writes(g, o, d)
    ensures WellFormed(Update(g, o, d))
  {
    UpdateUpvals(g, o, d);
    UpdateRoots(g, o, d);
    UpdateStrings(g, o, d);
  }

  // ----- liveness -----

  lemma UpdateLive(g: State, o: Ref, d: Cell)
    requires Writes(g, o, d) && LiveClosed(g) && Kinds(g)
    requires AllLive(g, Kids(Update(g, o, d), o)) && AllLive(g, StackRefs(d.stack))
    ensures LiveClosed(Update(g, o, d))
  {
    var h := Update(g, o, d);
    assert Roots(h) == Roots(g);
    assert forall x :: IsLive(h, x) == IsLive(g, x);
    forall q | IsLive(h, q) ensures AllLive(h, Kids(h, q)) {
      if q != o && g.objs[q].kind.UpvalOpen? && g.objs[q].kind.thread == o {
        assert Shaped(g.objs[q]);
        UpdateOpen(g, o, d, q);
      } else if q != o {
        UpdateKids(g, o, d, q);
        assert AllLive(g, Kids(g, q));
      }
    }
  }

  // ----- the mark phase -----

  lemma UpdateMarkRefs(g: State, o: Ref, d: Cell, e: Slack)
    requires Writes(g, o, d) && NoDangling(g) && Kinds(g) && Tri(g, e.black) && g.objs.Keys <= e.open
    requires forall x :: x in Kids(Update(g, o, d), o) || x in StackRefs(d.stack) ==> x in g.objs
    ensures var h := Update(g, o, d);
            NoDangling(h) && Tri(h, e.black + {o}) && Open(h, e.open)
  {
    var h := Update(g, o, d);
    assert forall x :: NonWhite(h, x) == NonWhite(g, x);
    forall q | q in g.objs && q != o
      ensures (forall x :: x in Kids(h, q) ==> x in g.objs)
      ensures h.objs[q].color.Black? && q !in e.black ==> AllNonWhite(h, Trace(h, q))
    {
      if g.objs[q].kind.UpvalOpen? && g.objs[q].kind.thread == o {
        assert Shaped(g.objs[q]);
        UpdateOpen(g, o, d, q);
      } else {
        UpdateKids(g, o, d, q);
      }
    }
  }

  lemma UpdateListed(g: State, o: Ref, d: Cell)
    requires Writes(g, o, d) && Lists(g) && Kinds(g)
    ensures Lists(Update(g, o, d)) && Kinds(Update(g, o, d))
  {
    assert Listed(Update(g, o, d)) == Listed(g);
  }

  /** After a write only the written object needs looking after. */
  lemma UpdateMarks(g: State, o: Ref, d: Cell)
    requires Writes(g, o, d) && MarkInv(g, MutatorSlack(g))
    requires forall x :: x in Kids(Update(g, o, d), o) || x in StackRefs(d.stack) ==> x in g.objs
    ensures var e := MutatorSlack(g);
            MarkInv(Update(g, o, d), e.(black := e.black + {o}))
  {
    UpdateMarkRefs(g, o, d, MutatorSlack(g));
    UpdateListed(g, o, d);
  }

  // ----- every phase -----

  /** A write whose black object refers to marked objects only needs no barrier. */
  lemma UpdatePropagate(g: State, o: Ref, d: Cell)
    requires Writes(g, o, d) && PropagateOk(g)
    requires forall x :: x in Kids(Update(g, o, d), o) || x in StackRefs(d.stack) ==> x in g.objs
    requires g.objs[o].color.Black? && o !in g.tmudata ==> AllNonWhite(g, Trace(Update(g, o, d), o))
    ensures PropagateOk(Update(g, o, d))
  {
    hide RootListOk, StackRefs, Trace;
    var h := Update(g, o, d);
    UpdateMarks(g, o, d);
    assert forall x :: NonWhite(h, x) == NonWhite(g, x);
    assert MutatorSlack(h) == MutatorSlack(g) by { assert h.objs.Keys == g.objs.Keys; }
  }

  lemma UpdateSweep(g: State, o: Ref, d: Cell)
    requires Writes(g, o, d) && g.strt != [] && SweepOk(g)
    ensures SweepOk(Update(g, o, d))
  {
    var h := Update(g, o, d);
    forall r | r in h.objs && r !in h.tmudata && !Unswept(h, r) ensures h.objs[r].color == White(h.cur) {
      assert Bucket(h, h.objs[r].text) == Bucket(g, g.objs[r].text);
      assert !Unswept(g, r);
    }
  }

  lemma UpdateNoDead(g: State, o: Ref, d: Cell)
    requires Writes(g, o, d)
    ensures NoDead(g) ==> NoDead(Update(g, o, d))
    ensures AllWhite(g) ==> AllWhite(Update(g, o, d))
  {
    var h := Update(g, o, d);
    assert forall r :: IsDead(h, r) == IsDead(g, r);
  }

  lemma UpdateKeeps(g: State, o: Ref, d: Cell)
    requires Inv(g) && Writes(g, o, d)
    requires AllLive(g, Kids(Update(g, o, d), o)) && AllLive(g, StackRefs(d.stack))
    requires g.phase.Propagate? && g.objs[o].color.Black? && o !in g.tmudata ==>
               AllNonWhite(g, Trace(Update(g, o, d), o))
    ensures Inv(Update(g, o, d))
  {
    hide RootListOk, UpvalsOk;
    UpdateShape(g, o, d);
    UpdateLive(g, o, d);
    UpdatePhase(g, o, d);
  }

  lemma UpdatePhase(g: State, o: Ref, d: Cell)
    requires g.strt != [] && PhaseOk(g) && Writes(g, o, d)
    requires forall x :: x in Kids(Update(g, o, d), o) || x in StackRefs(d.stack) ==> x in g.objs
    requires g.phase.Propagate? && g.objs[o].color.Black? && o !in g.tmudata ==>
               AllNonWhite(g, Trace(Update(g, o, d), o))
    ensures PhaseOk(Update(g, o, d))
  {
    UpdateNoDead(g, o, d);
    match g.phase
    case Pause =>
    case Finalize =>
    case Propagate => UpdatePropagate(g, o, d);
    case SweepString => UpdateSweep(g, o, d);
    case Sweep => UpdateSweep(g, o, d);
  }
}
