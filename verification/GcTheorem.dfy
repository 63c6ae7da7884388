/** The safety theorem, from the state lua_newstate builds onwards. */
module GcTheorem {
  import opened LuaHeap
  import opened GcMark
  import opened GcState
  import opened GcCycle
  import opened GcStep
  import opened GcSafety

  function EmptyCell(k: Kind, w: bool): Cell {
    Cell(k, White(w), false, [], [], false, false, [], [], [], false, false)
  }

  /** The state after lua_newstate: the main thread, fixed, with its table of
      globals, the registry, and an empty string table. */
  function InitialState(hash: string -> nat): State {
    var main := EmptyCell(Thread, false).(fixed := true, refs := [1]);
    State(map[0 := main, 1 := EmptyCell(Table, false), 2 := EmptyCell(Table, false)],
          false, Pause, [2, 1, 0], 0, seq(MINSTRTABSIZE, _ => []), 0, hash, [], [], [], [], [], 0, 0, 2, [])
  }

  lemma InitialCells(hash: string -> nat)
    ensures var g := InitialState(hash);
            && g.objs.Keys == {0, 1, 2} && Kinds(g) && RootsOk(g)
            && Kids(g, 0) == [1] && Kids(g, 1) == [] && Kids(g, 2) == []
  {
  }

  lemma InitialLists(hash: string -> nat)
    ensures RootListOk(InitialState(hash)) && StringsOk(InitialState(hash))
  {
    var g := InitialState(hash);
    assert g.objs.Keys == {0, 1, 2};
    assert forall r :: !IsText(g, r);
  }

  lemma InitialUpvals(hash: string -> nat)
    ensures UpvalsOk(InitialState(hash))
  {
    var g := InitialState(hash);
    assert g.objs.Keys == {0, 1, 2};
    assert forall t :: t in g.objs ==> g.objs[t].openupval == [];
  }

  lemma InitialColors(hash: string -> nat)
    ensures NoDead(InitialState(hash)) && AllWhite(InitialState(hash))
  {
    var g := InitialState(hash);
    forall r | r in g.objs ensures g.objs[r].color == White(false) {
      assert r == 0 || r == 1 || r == 2;
    }
  }

  lemma InitialDangling(hash: string -> nat)
    ensures NoDangling(InitialState(hash))
  {
    var g := InitialState(hash);
    InitialCells(hash);
    forall r, x | r in g.objs && x in Kids(g, r) ensures x in g.objs {
      assert r in {0, 1, 2};
    }
  }

  lemma InitialInv(hash: string -> nat)
    ensures Inv(InitialState(hash))
  {
    var g := InitialState(hash);
    InitialCells(hash);
    InitialLists(hash);
    InitialUpvals(hash);
    InitialColors(hash);
    InitialDangling(hash);
    NoDeadClosed(g);
    InitialPhase(g);
  }

  lemma InitialPhase(g: State)
    requires WellFormed(g) && LiveClosed(g) && NoDead(g) && AllWhite(g) && g.phase.Pause?
    ensures Inv(g)
  {
  }

  /** A run: at every state some enabled operation is applied.  Nothing is said
      about what happens after a state that breaks the invariant. */
  ghost predicate Run(gs: seq<State>, ops: seq<Op>) {
    && |gs| == |ops| + 1
    && (exists hash :: gs[0] == InitialState(hash))
    && forall i :: 0 <= i < |ops| ==> Follows(gs, ops, i)
  }

  ghost predicate Follows(gs: seq<State>, ops: seq<Op>, i: nat)
    requires i < |ops| && |gs| == |ops| + 1
  {
    Enabled(gs[i], ops[i]) && (Inv(gs[i]) ==> gs[i + 1] == Apply(gs[i], ops[i]))
  }

  lemma {:induction false} RunInv(gs: seq<State>, ops: seq<Op>, i: nat)
    requires Run(gs, ops) && i <= |ops|
    ensures Inv(gs[i])
  {
    hide Inv, Apply, InitialState, Enabled;
    if i == 0 {
      var hash :| gs[0] == InitialState(hash);
      InitialInv(hash);
    } else {
      RunInv(gs, ops, i - 1);
      assert Follows(gs, ops, i - 1);
      StepKeeps(gs[i - 1], ops[i - 1]);
    }
  }

  /** Section 2.10 of the Lua 5.1 Reference Manual: in every run, whatever the
      program can reach, through strong or weak references, is allocated, and
      the next step does not free it. */
  lemma RunSafe(gs: seq<State>, ops: seq<Op>, i: nat, x: Ref)
    requires Run(gs, ops) && i <= |ops| && Accessible(gs[i], x)
    ensures x in gs[i].objs && (i < |ops| ==> x in gs[i + 1].objs)
  {
    RunInv(gs, ops, i);
    AccessibleIsLive(gs[i], x);
    if i < |ops| {
      assert Follows(gs, ops, i);
      StepSafe(gs[i], ops[i], x);
    }
  }

  /** In the mark phase of every run no black object refers to a white one,
      unless it waits for its finalizer, and the gray tables, functions,
      prototypes and threads are those on the three lists. */
  lemma RunTriColor(gs: seq<State>, ops: seq<Op>, i: nat)
    requires Run(gs, ops) && i <= |ops| && gs[i].phase.Propagate?
    ensures var g := gs[i];
            && (forall r, x :: r in g.objs && g.objs[r].color.Black? && r !in g.tmudata && x in Trace(g, r) ==>
              NonWhite(g, x))
            && (forall r :: r in g.objs && Traversable(g.objs[r].kind) ==>
                  (g.objs[r].color.Gray? <==> r in g.gray + g.grayagain + g.weak))
  {
    RunInv(gs, ops, i);
    var g := gs[i];
    forall r, x | r in g.objs && g.objs[r].color.Black? && r !in g.tmudata && x in Trace(g, r) ensures NonWhite(g, x) {
      assert AllNonWhite(g, Trace(g, r));
    }
    assert Listed(g) == g.gray + g.grayagain + g.weak;
  }

  /** Two strings of a run with the same text are the same object. */
  lemma RunInterned(gs: seq<State>, ops: seq<Op>, i: nat, r: Ref, q: Ref)
    requires Run(gs, ops) && i <= |ops| && IsText(gs[i], r) && IsText(gs[i], q)
             && gs[i].objs[r].text == gs[i].objs[q].text
    ensures r == q
  {
    RunInv(gs, ops, i);
  }

  // ----- the assertion of luaC_barrierf -----

  /** After a cycle: the finalizer of userdata 4, which refers to userdata 3, has been
      called, while that one still waits for its own and is black. */
  function PendingState(hash: string -> nat): State {
    var g := InitialState(hash);
    var main := g.objs[0].(stack := [Obj(4)]);
    var waiting := EmptyCell(Udata, false).(color := Black, hasgc := true, finalized := true);
    var called := EmptyCell(Udata, false).(refs := [3], hasgc := true, finalized := true);
    g.(objs := g.objs[0 := main][3 := waiting][4 := called], phase := Finalize, rootgc := [2, 1, 0, 4], tmudata := [3])
  }

  lemma PendingCells(hash: string -> nat)
    ensures var g := PendingState(hash);
            && g.objs.Keys == {0, 1, 2, 3, 4} && g.phase.Finalize? && g.objs[3].kind.Udata? && g.objs[3].color.Black?
            && g.tmudata == [3] && g.main == 0 && g.objs[1].color == White(g.cur)
            && Kids(g, 0) == [1, 4] && Kids(g, 1) == [] && Kids(g, 2) == [] && Kids(g, 3) == [] && Kids(g, 4) == [3]
  {
    assert StackRefs([Obj(4)]) == [4] by {
      assert [Obj(4)][..0] == [];
    }
  }

  lemma PendingKinds(hash: string -> nat)
    ensures RootsOk(PendingState(hash)) && Kinds(PendingState(hash))
  {
    hide Kids;
  }

  lemma PendingLists(hash: string -> nat)
    ensures RootListOk(PendingState(hash))
  {
    hide Kids;
    var g := PendingState(hash);
    assert g.objs.Keys == {0, 1, 2, 3, 4};
  }

  lemma PendingStrings(hash: string -> nat)
    ensures StringsOk(PendingState(hash))
  {
    hide Kids;
    assert forall r :: !IsText(PendingState(hash), r);
  }

  lemma PendingUpvals(hash: string -> nat)
    ensures UpvalsOk(PendingState(hash))
  {
    hide Kids;
    var g := PendingState(hash);
    assert g.objs.Keys == {0, 1, 2, 3, 4};
    assert forall t :: t in g.objs ==> g.objs[t].openupval == [];
  }

  lemma PendingColors(hash: string -> nat)
    ensures NoDead(PendingState(hash)) && AllWhite(PendingState(hash))
  {
    hide Kids;
    var g := PendingState(hash);
    forall r | r in g.objs ensures g.objs[r].color == if r == 3 then Black else White(g.cur) {
      assert r in {0, 1, 2, 3, 4};
    }
  }

  lemma PendingDangling(hash: string -> nat)
    ensures NoDangling(PendingState(hash))
  {
    hide Kids, PendingState;
    var g := PendingState(hash);
    PendingCells(hash);
    forall r, x | r in g.objs && x in Kids(g, r) ensures x in g.objs {
      assert r in {0, 1, 2, 3, 4};
    }
  }

  lemma PendingInv(hash: string -> nat)
    ensures Inv(PendingState(hash))
  {
    hide PendingState, RootsOk, RootListOk, StringsOk, UpvalsOk, Kinds, LiveClosed, NoDead, AllWhite, NoDangling;
    PendingCells(hash);
    PendingKinds(hash);
    PendingLists(hash);
    PendingStrings(hash);
    PendingUpvals(hash);
    PendingColors(hash);
    PendingDangling(hash);
    NoDeadClosed(PendingState(hash));
    PendingBuckets(hash);
  }

  lemma PendingBuckets(hash: string -> nat)
    ensures PendingState(hash).strt != []
  {
  }

  /** There the finalizer of the one gives the other a metatable: the forward barrier
      is called although the cycle has ended. */
  lemma BarrierAfterCycle(hash: string -> nat)
    ensures var g := PendingState(hash);
            && Inv(g) && Enabled(g, WriteObject(3, [1], [1]))
            && g.objs[3].color.Black? && IsWhite(g, 1) && g.phase.Finalize?
  {
    hide PendingState, Inv, Kids, Trace;
    var g := PendingState(hash);
    PendingInv(hash);
    PendingCells(hash);
    ReachTwo(g, 0, 4, 3);
    ReachOne(g, 0, 1);
  }

  lemma ReachOne(g: State, a: Ref, b: Ref)
    requires a in Roots(g) && Edge(g, a, b)
    ensures Accessible(g, b)
  {
    hide Kids;
    var p := [a, b];
    assert Path(g, p) && p[|p| - 1] == b;
  }

  lemma ReachTwo(g: State, a: Ref, b: Ref, c: Ref)
    requires a in Roots(g) && Edge(g, a, b) && Edge(g, b, c)
    ensures Accessible(g, c)
  {
    hide Kids;
    var p := [a, b, c];
    assert Path(g, p) && p[|p| - 1] == c;
  }
}
