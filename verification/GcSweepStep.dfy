/** sweeplist on rootgc, object by object, and the steps of the sweep phases. */
module GcSweepStep {
  import opened LuaHeap
  import opened GcMark
  import opened GcState
  import opened GcAtomic
  import opened GcSweep
  import opened GcUpval
  import opened GcSweepRoot

  // ----- what a sweep may do to the objects -----

  ghost predicate SameFlags(c: Cell, d: Cell) {
    && d.fixed == c.fixed && d.weakkey == c.weakkey && d.weakvalue == c.weakvalue
    && d.hasgc == c.hasgc && d.finalized == c.finalized && (d.kind.Table? <==> c.kind.Table?)
  }

  /** Only dead, unfixed objects go away; dead ones that stay are still dead or
      fixed, live ones stay live. */
  ghost predicate Frees(g: State, h: State) {
    && h.cur == g.cur && h.objs.Keys <= g.objs.Keys
    && (forall x :: x in g.objs && x !in h.objs ==> Freeable(g, x))
    && h.tmudata == g.tmudata && (forall x :: x in h.objs ==> SameFlags(g.objs[x], h.objs[x]))
    && (forall x :: x in h.objs && IsDead(h, x) ==> IsDead(g, x))
    && (forall x :: x in h.objs && Freeable(g, x) ==> IsDead(h, x))
  }

  /** The roots and what live objects refer to stay. */
  ghost predicate KeepsLive(g: State, h: State) {
    && Roots(h) == Roots(g)
    && (forall x :: IsLive(g, x) ==> IsLive(h, x) && Kids(h, x) == Kids(g, x))
  }

  ghost predicate Sweeps(g: State, h: State) {
    Frees(g, h) && KeepsLive(g, h)
  }

  lemma FreesTrans(g: State, h: State, k: State)
    requires Frees(g, h) && Frees(h, k)
    ensures Frees(g, k)
  {
    forall x | x in g.objs && x !in k.objs ensures Freeable(g, x) {
      if x in h.objs {
        assert Freeable(h, x);
      }
    }
    forall x | x in k.objs && Freeable(g, x) ensures IsDead(k, x) {
      assert Freeable(h, x);
    }
  }

  lemma SweepsTrans(g: State, h: State, k: State)
    requires Sweeps(g, h) && Sweeps(h, k)
    ensures Sweeps(g, k)
  {
    FreesTrans(g, h, k);
  }

  lemma SweepStringsSweeps(g: State)
    requires UpvalsOk(g) && StringsOk(g) && g.sweepstrgc < |g.strt|
    ensures Sweeps(g, SweepStrings(g))
  {
    var h := SweepStrings(g);
    SweepStringsFrees(g);
    assert SweptCells(g, h, g.strt[g.sweepstrgc]);
    forall x | IsLive(g, x) ensures IsLive(h, x) && Kids(h, x) == Kids(g, x) {
      SweptKids(g, h, g.strt[g.sweepstrgc], x);
    }
  }

  lemma SweepStringsFrees(g: State)
    requires g.sweepstrgc < |g.strt|
    ensures Frees(g, SweepStrings(g))
  {
  }

  lemma OpenSweptFrees(g: State, t: Ref, h: State)
    requires t in g.objs && OpenSwept(g, t, h)
    ensures Frees(g, h)
  {
  }

  lemma OpenSweptLive(g: State, t: Ref, h: State)
    requires OpenThread(g, t) && OpenSwept(g, t, h)
    ensures KeepsLive(g, h)
  {
    forall x | IsLive(g, x) ensures IsLive(h, x) && Kids(h, x) == Kids(g, x) {
      SweepOpenKids(g, t, h, x);
    }
  }

  lemma SweepOpenSweeps(g: State, t: Ref)
    requires OpenThread(g, t)
    ensures Sweeps(g, SweepOpen(g, t))
  {
    SweepOpenCells(g, t);
    OpenSweptFrees(g, t, SweepOpen(g, t));
    OpenSweptLive(g, t, SweepOpen(g, t));
  }

  // ----- closing the upvalues of a thread that is about to be freed -----

  /** The parts of the state that luaF_close on `t` leaves alone during a sweep. */
  ghost predicate CloseFrame(g: State, h: State, t: Ref) {
    && h.phase == g.phase && h.strt == g.strt && h.hash == g.hash && h.tmudata == g.tmudata
    && t in g.objs && t in h.objs && h.objs[t] == g.objs[t].(openupval := h.objs[t].openupval)
    && (forall x :: x in Pending(h) ==> x in Pending(g))
    && t in Ahead(g) && t in Ahead(h)
  }

  /** What the sweep of rootgc still has in front of it. */
  function Ahead(g: State): seq<Ref> {
    if g.sweepgc <= |g.rootgc| then g.rootgc[g.sweepgc..] else []
  }

  ghost function Pending(g: State): set<Ref> {
    set r | r in g.objs && (r in Ahead(g) || (g.objs[r].kind.UpvalOpen? && g.objs[r].kind.thread in Ahead(g)))
  }

  lemma FreeOpenFrame(g: State, t: Ref)
    requires HasOpen(g, t) && t in Ahead(g) && IsDead(g, FirstOpen(g, t))
    ensures CloseFrame(g, FreeOpen(g, t), t)
  {
    FirstOpenAt(g, t);
    assert Ahead(FreeOpen(g, t)) == Ahead(g);
  }

  lemma FreeOpenFrees(g: State, t: Ref)
    requires HasOpen(g, t) && IsDead(g, FirstOpen(g, t))
    ensures Frees(g, FreeOpen(g, t))
  {
    hide UpvalsOk, FreeOpen, FirstOpen;
    var u, h := FirstOpen(g, t), FreeOpen(g, t);
    FirstOpenAt(g, t);
    FreeOpenCells(g, t);
    forall x | x in h.objs ensures SameFlags(g.objs[x], h.objs[x]) && h.objs[x].color == g.objs[x].color {
      assert h.objs[x] == g.objs[x].(openupval := h.objs[x].openupval);
    }
  }

  lemma FreeOpenSweeps(g: State, t: Ref)
    requires HasOpen(g, t) && IsDead(g, FirstOpen(g, t))
    ensures Sweeps(g, FreeOpen(g, t))
  {
    hide UpvalsOk, Kinds, Frees, Kids;
    FreeOpenFrees(g, t);
    FirstOpenAt(g, t);
    forall x | IsLive(g, x) ensures IsLive(FreeOpen(g, t), x) && Kids(FreeOpen(g, t), x) == Kids(g, x) {
      FreeOpenKids(g, t, x);
    }
  }

  lemma CloseLiveFrame(g: State, t: Ref)
    requires HasOpen(g, t) && t in Ahead(g)
    ensures CloseFrame(g, CloseLive(g, t), t)
  {
    hide Kinds, FirstOpen, Shaped, Without, OpenRefs;
    var u, h := FirstOpen(g, t), CloseLive(g, t);
    FirstOpenAt(g, t);
    CloseLiveCells(g, t);
    assert Ahead(h) == (if g.sweepgc > 0 then [] else [u]) + Ahead(g);
  }

  lemma CloseLiveSweeps(g: State, t: Ref)
    requires HasOpen(g, t) && Sweeping(g) && !IsDead(g, FirstOpen(g, t))
    ensures Sweeps(g, CloseLive(g, t))
  {
    CloseLiveFrees(g, t);
    CloseLiveCells(g, t);
    forall x | IsLive(g, x) ensures IsLive(CloseLive(g, t), x) && Kids(CloseLive(g, t), x) == Kids(g, x) {
      CloseLiveRefs(g, t, x);
    }
  }

  lemma CloseLiveFrees(g: State, t: Ref)
    requires HasOpen(g, t) && Sweeping(g) && !IsDead(g, FirstOpen(g, t))
    ensures Frees(g, CloseLive(g, t))
  {
    FirstOpenAt(g, t);
    CloseLiveCells(g, t);
    ClosedFrees(g, CloseLive(g, t), FirstOpen(g, t), t);
  }

  lemma ClosedFrees(g: State, h: State, u: Ref, t: Ref)
    requires h.cur == g.cur && h.tmudata == g.tmudata && h.objs.Keys == g.objs.Keys
    requires u in g.objs && t in g.objs && u != t && !IsDead(g, u) && !IsDead(h, u) && SameFlags(g.objs[u], h.objs[u])
    requires h.objs[t] == g.objs[t].(openupval := h.objs[t].openupval)
    requires forall r :: r in h.objs && r != u && r != t ==> h.objs[r] == g.objs[r]
    ensures Frees(g, h)
  {
    hide RootListOk;
  }

  lemma CloseOneFrame(g: State, t: Ref)
    requires HasOpen(g, t) && Sweeping(g) && t in Ahead(g)
    ensures CloseFrame(g, CloseOne(g, t), t) && Sweeps(g, CloseOne(g, t))
  {
    CloseOneCases(g, t);
    if IsDead(g, FirstOpen(g, t)) {
      FreeOpenFrame(g, t);
      FreeOpenSweeps(g, t);
    } else {
      CloseLiveFrame(g, t);
      CloseLiveSweeps(g, t);
    }
  }

  lemma OpenHasOpen(g: State, t: Ref)
    requires UpvalsOk(g) && Kinds(g) && t in g.objs && g.objs[t].openupval != []
    ensures HasOpen(g, t)
  {
    assert OpenListOk(g, t);
    assert OpenAt(g, FirstOpen(g, t), t);
  }

  lemma CloseFrameTrans(g: State, h: State, k: State, t: Ref)
    requires CloseFrame(g, h, t) && CloseFrame(h, k, t)
    ensures CloseFrame(g, k, t)
  {
  }

  lemma CloseStep(g: State, t: Ref)
    requires Inv(g) && Sweeping(g) && t in g.objs && t in Ahead(g) && g.objs[t].openupval != []
    ensures Inv(CloseOne(g, t)) && CloseFrame(g, CloseOne(g, t), t) && Sweeps(g, CloseOne(g, t))
    ensures |CloseOne(g, t).objs[t].openupval| < |g.objs[t].openupval|
  {
    CloseOneKeeps(g, t);
    OpenHasOpen(g, t);
    CloseOneFrame(g, t);
  }

  ghost predicate CloseDone(g: State, h: State, t: Ref) {
    CloseFrame(g, h, t) && Sweeps(g, h)
  }

  lemma CloseDoneNone(g: State, t: Ref)
    requires t in g.objs && t in Ahead(g)
    ensures CloseDone(g, g, t)
  {
  }

  lemma CloseDoneTrans(g: State, h: State, k: State, t: Ref)
    requires CloseDone(g, h, t) && CloseDone(h, k, t)
    ensures CloseDone(g, k, t)
  {
    CloseFrameTrans(g, h, k, t);
    SweepsTrans(g, h, k);
  }

  lemma {:induction false} CloseUpvalsFrame(g: State, t: Ref)
    requires Inv(g) && Sweeping(g) && t in g.objs && t in Ahead(g)
    ensures CloseDone(g, CloseUpvals(g, t, 0), t)
    decreases |g.objs[t].openupval|
  {
    if g.objs[t].openupval == [] {
      CloseDoneNone(g, t);
    } else {
      CloseStep(g, t);
      CloseUpvalsFrame(CloseOne(g, t), t);
      var k := CloseUpvals(CloseOne(g, t), t, 0);
      CloseDoneTrans(g, CloseOne(g, t), k, t);
      assert CloseUpvals(g, t, 0) == k;
    }
  }

  // ----- one object of rootgc -----

  function Current(g: State): Ref
    requires g.sweepgc < |g.rootgc|
  {
    g.rootgc[g.sweepgc]
  }

  function Whiten(g: State): State
    requires g.sweepgc < |g.rootgc| && Current(g) in g.objs
  {
    SetColor(g, Current(g), White(g.cur)).(sweepgc := g.sweepgc + 1)
  }

  lemma WhitenKids(g: State, q: Ref)
    requires g.sweepgc < |g.rootgc| && Current(g) in g.objs && q in g.objs
    ensures Kids(Whiten(g), q) == Kids(g, q)
  {
    assert OpenRefs(Whiten(g), Whiten(g).objs[q]) == OpenRefs(g, g.objs[q]);
  }

  lemma WhitenKinds(g: State)
    requires Kinds(g) && g.sweepgc < |g.rootgc| && Current(g) in g.objs
    ensures Kinds(Whiten(g)) && SameCells(g, Whiten(g))
  {
    forall r | r in g.objs ensures Shaped(g.objs[r]) && SameCell(g.objs[r], Whiten(g).objs[r]) {
      assert Shaped(g.objs[r]);
    }
  }

  lemma WhitenSweeps(g: State)
    requires g.sweepgc < |g.rootgc| && IsLive(g, Current(g))
    ensures Sweeps(g, Whiten(g))
  {
    forall x | IsLive(g, x) ensures IsLive(Whiten(g), x) && Kids(Whiten(g), x) == Kids(g, x) {
      WhitenKids(g, x);
    }
  }

  lemma WhitenColors(g: State)
    requires WellFormed(g) && SweepOk(g) && g.phase.Sweep? && g.sweepgc < |g.rootgc| && Current(g) in g.objs
    requires forall u :: u in g.objs && g.objs[u].kind.UpvalOpen? && g.objs[u].kind.thread == Current(g) ==>
               g.objs[u].color == White(g.cur)
    ensures SweepOk(Whiten(g))
  {
    hide RootListOk, UpvalsOk, Kinds;
    var h := Whiten(g);
    var r := Current(g);
    assert g.rootgc[g.sweepgc..] == [r] + h.rootgc[h.sweepgc..];
    forall q | q in h.objs && q !in h.tmudata && !Unswept(h, q) ensures h.objs[q].color == White(h.cur) {
      if q != r && !(g.objs[q].kind.UpvalOpen? && g.objs[q].kind.thread == r) {
        assert !Unswept(g, q);
      }
    }
  }

  lemma WhitenLive(g: State)
    requires LiveClosed(g) && g.sweepgc < |g.rootgc| && IsLive(g, Current(g))
    ensures LiveClosed(Whiten(g))
  {
    var h := Whiten(g);
    forall q | IsLive(h, q) ensures IsLive(g, q) && Kids(h, q) == Kids(g, q) {
      WhitenKids(g, q);
    }
    assert Roots(h) == Roots(g);
    LiveFrame(g, h);
  }

  /** A rootgc object that the test of sweeplist spares is live. */
  lemma SparedIsLive(g: State, r: Ref)
    requires Kinds(g) && LiveClosed(g) && r in g.objs && !g.objs[r].kind.Str? && !Freeable(g, r)
    ensures IsLive(g, r)
  {
    if IsDead(g, r) {
      assert g.main in Roots(g);
      assert IsLive(g, g.main);
    }
  }

  lemma WhitenKeeps(g: State)
    requires Inv(g) && g.phase.Sweep? && g.sweepgc < |g.rootgc| && !Freeable(g, Current(g))
    requires forall u :: u in g.objs && g.objs[u].kind.UpvalOpen? && g.objs[u].kind.thread == Current(g) ==>
               g.objs[u].color == White(g.cur)
    ensures Current(g) in g.objs && Inv(Whiten(g)) && Sweeps(g, Whiten(g))
  {
    assert Current(g) in g.rootgc;
    SparedIsLive(g, Current(g));
    WhitenKinds(g);
    WellFormedFrame(g, Whiten(g));
    WhitenSweeps(g);
    WhitenColors(g);
    WhitenLive(g);
  }

  /** With a thread, first sweep its open upvalues. */
  function SweepThread(g: State): State
    requires g.sweepgc < |g.rootgc| && Current(g) in g.objs
  {
    if g.objs[Current(g)].kind.Thread? then SweepOpen(g, Current(g)) else g
  }

  /** One round of sweeplist on rootgc. */
  function SweepOne(g: State): State
    requires Inv(g) && g.phase.Sweep? && g.sweepgc < |g.rootgc|
  {
    SweepThreadKeeps(g);
    SweepSelf(SweepThread(g))
  }

  /** Then the object itself is freed, after closing the upvalues of a thread, or
      returned to white. */
  function SweepSelf(g: State): State
    requires Inv(g) && g.phase.Sweep? && g.sweepgc < |g.rootgc|
  {
    assert Current(g) in g.rootgc;
    if Freeable(g, Current(g)) then
      DoomedKeeps(g);
      FreeRoot(CloseUpvals(g, Current(g), 0), Current(g))
    else Whiten(g)
  }

  lemma SweepThreadKeeps(g: State)
    requires Inv(g) && g.phase.Sweep? && g.sweepgc < |g.rootgc|
    ensures Current(g) in g.objs && !g.objs[Current(g)].kind.Str? && !g.objs[Current(g)].kind.UpvalOpen?
    ensures var h := SweepThread(g);
            && Inv(h) && h.phase.Sweep? && h.sweepgc < |h.rootgc| && Current(h) == Current(g)
            && Sweeps(g, h) && h.objs.Keys <= g.objs.Keys && Current(g) in h.objs
  {
    hide RootsOk, PhaseOk;
    var r := Current(g);
    assert r in g.rootgc;
    if g.objs[r].kind.Thread? {
      SweepOpenKeeps(g, r);
      SweepOpenSweeps(g, r);
      SweepOpenCells(g, r);
    }
  }

  lemma SweepThreadWhite(g: State)
    requires Inv(g) && g.phase.Sweep? && g.sweepgc < |g.rootgc| && Current(g) in g.objs
    ensures var h := SweepThread(g);
            forall u :: u in h.objs && h.objs[u].kind.UpvalOpen? && h.objs[u].kind.thread == Current(g) ==>
              h.objs[u].color == White(h.cur)
  {
    hide Kinds, SweepOk, LiveClosed, StringsOk, RootListOk, RootsOk, OpenListOk, Kids;
    var r := Current(g);
    var h := SweepThread(g);
    if g.objs[r].kind.Thread? {
      SweepOpenCells(g, r);
    }
    forall u | u in h.objs && h.objs[u].kind.UpvalOpen? && h.objs[u].kind.thread == r
      ensures h.objs[u].color == White(h.cur)
    {
      assert u in g.objs && g.objs[u].kind == h.objs[u].kind;
      assert u in g.objs[r].openupval;
    }
  }

  /** A dead object is freed, after closing what its stack still lends. */
  lemma DoomedKeeps(g: State)
    requires Inv(g) && g.phase.Sweep? && g.sweepgc < |g.rootgc| && Freeable(g, Current(g))
    ensures var r := Current(g);
            var h := CloseUpvals(g, r, 0);
            r in h.rootgc && Inv(FreeRoot(h, r)) && h.phase.Sweep? && CloseDone(g, h, r)
  {
    hide UpvalsOk, Kinds, RootsOk;
    var r := Current(g);
    assert Ahead(g)[0] == r;
    CloseUpvalsFrame(g, r);
    FreeRootKeeps(CloseUpvals(g, r, 0), r);
  }

  lemma DoomedProgress(g: State, h: State)
    requires Inv(h) && h.phase.Sweep? && g.sweepgc < |g.rootgc| && CloseDone(g, h, Current(g))
    requires Freeable(g, Current(g)) && Current(g) in h.rootgc && h.objs[Current(g)].openupval == []
    ensures var k := FreeRoot(h, Current(g));
            Sweeps(g, k) && Pending(k) <= Pending(g) - {Current(g)}
  {
    var r := Current(g);
    FreeRootPending(h, r);
    FreeRootSweeps(h, r);
    SweepsTrans(g, h, FreeRoot(h, r));
  }

  lemma FreeRootSweeps(g: State, r: Ref)
    requires r in g.rootgc && Freeable(g, r) && UpvalsOk(g) && g.objs[r].openupval == []
    requires !g.objs[r].kind.Str? && !g.objs[r].kind.UpvalOpen?
    ensures Sweeps(g, FreeRoot(g, r))
  {
    hide RootListOk, UpvalsOk, FreeRoot, IndexOf;
    var i := IndexOf(g.rootgc, r);
    FreeRootFrees(g, r);
    forall x | IsLive(g, x) ensures IsLive(FreeRoot(g, r), x) && Kids(FreeRoot(g, r), x) == Kids(g, x) {
      FreedKids(g, r, FreeRoot(g, r), g.rootgc[..i], g.rootgc[i + 1..], x);
    }
  }

  lemma TailWithout(a: seq<Ref>, r: Ref, b: seq<Ref>, k: nat)
    requires k <= |a|
    ensures forall x :: x in (a + b)[k..] ==> x in (a + [r] + b)[k..]
  {
    assert (a + b)[k..] == a[k..] + b;
    assert (a + [r] + b)[k..] == a[k..] + [r] + b;
  }

  lemma FreedPending(g: State, r: Ref, h: State, a: seq<Ref>, b: seq<Ref>)
    requires Freed(g, r, h, a, b) && g.sweepgc <= |a|
    ensures Pending(h) <= Pending(g) - {r}
  {
    TailWithout(a, r, b, g.sweepgc);
    assert forall x :: x in Ahead(h) ==> x in Ahead(g);
  }

  lemma FreeRootPending(g: State, r: Ref)
    requires r in Ahead(g) && r in g.rootgc && Distinct(g.rootgc) && IsDead(g, r) && g.objs[r].openupval == []
    requires !g.objs[r].kind.Str? && !g.objs[r].kind.UpvalOpen?
    ensures Pending(FreeRoot(g, r)) <= Pending(g) - {r}
  {
    var i := IndexOf(g.rootgc, r);
    var j :| 0 <= j < |Ahead(g)| && Ahead(g)[j] == r;
    assert g.rootgc[g.sweepgc + j] == r;
    assert i == g.sweepgc + j;
    FreeRootFrees(g, r);
    FreedPending(g, r, FreeRoot(g, r), g.rootgc[..i], g.rootgc[i + 1..]);
  }

  lemma WhitenPending(g: State)
    requires g.sweepgc < |g.rootgc| && Current(g) in g.objs && Distinct(g.rootgc)
    requires !g.objs[Current(g)].kind.UpvalOpen?
    ensures Pending(Whiten(g)) <= Pending(g) - {Current(g)}
  {
    var h := Whiten(g);
    assert Ahead(g) == [Current(g)] + Ahead(h);
    assert Current(g) !in Ahead(h);
  }

  lemma OpenSweptPending(g: State, t: Ref, h: State)
    requires t in g.objs && OpenSwept(g, t, h)
    ensures Pending(h) <= Pending(g)
  {
    assert Ahead(h) == Ahead(g);
    assert forall r :: r in h.objs ==> r in g.objs && h.objs[r].kind == g.objs[r].kind;
  }

  lemma SweepThreadPending(g: State)
    requires UpvalsOk(g) && Kinds(g) && g.sweepgc < |g.rootgc| && Current(g) in g.objs
    ensures Pending(SweepThread(g)) <= Pending(g)
  {
    if g.objs[Current(g)].kind.Thread? {
      SweepOpenCells(g, Current(g));
      OpenSweptPending(g, Current(g), SweepOpen(g, Current(g)));
    }
  }

  /** After its open upvalues are swept, the object goes or turns white. */
  lemma SweepSelfKeeps(g: State)
    requires Inv(g) && g.phase.Sweep? && g.sweepgc < |g.rootgc|
    requires forall u :: u in g.objs && g.objs[u].kind.UpvalOpen? && g.objs[u].kind.thread == Current(g) ==>
               g.objs[u].color == White(g.cur)
    ensures var h := SweepSelf(g);
            Inv(h) && h.phase.Sweep? && Sweeps(g, h) && Pending(h) <= Pending(g) - {Current(g)}
  {
    assert Current(g) in g.rootgc;
    if Freeable(g, Current(g)) {
      DoomedKeeps(g);
      DoomedProgress(g, CloseUpvals(g, Current(g), 0));
    } else {
      WhitenKeeps(g);
      WhitenPending(g);
    }
  }

  /** Each round keeps the invariant, frees only dead objects and makes progress. */
  lemma SweepOneKeeps(g: State)
    requires Inv(g) && g.phase.Sweep? && g.sweepgc < |g.rootgc|
    ensures Inv(SweepOne(g)) && SweepOne(g).phase.Sweep? && Sweeps(g, SweepOne(g))
    ensures |Pending(SweepOne(g))| < |Pending(g)|
  {
    hide UpvalsOk, StringsOk, RootsOk;
    var r := Current(g);
    var g1 := SweepThread(g);
    SweepThreadKeeps(g);
    SweepThreadPending(g);
    SweepThreadWhite(g);
    SweepSelfKeeps(g1);
    var k := SweepSelf(g1);
    SweepsTrans(g, g1, k);
    assert r in Pending(g) by { assert Ahead(g)[0] == r; }
    Subset(Pending(k), Pending(g));
  }
}
