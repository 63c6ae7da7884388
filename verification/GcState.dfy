/** The invariant of a whole Lua state, phase by phase. */
module GcState {
  import opened LuaHeap
  import opened GcMark

  // ----- where objects are linked -----

  ghost predicate RootsOk(g: State) {
    && g.main in g.objs && g.objs[g.main].kind.Thread?
    && g.running in g.objs && g.objs[g.running].kind.Thread?
    && g.registry in g.objs
    && (forall x :: x in g.mt ==> x in g.objs)
    && (forall x :: x in g.tmudata ==> x in g.objs && g.objs[x].kind.Udata?)
  }

  /** rootgc and tmudata hold every object that is neither a string nor an open
      upvalue, once; only userdata follow the main thread. */
  ghost predicate RootListOk(g: State) {
    && Distinct(g.rootgc) && Distinct(g.tmudata)
    && g.main in g.rootgc
    && (forall r :: r in g.rootgc ==>
          r in g.objs && !g.objs[r].kind.Str? && !g.objs[r].kind.UpvalOpen? && r !in g.tmudata)
    && (forall r :: r in g.objs && !g.objs[r].kind.Str? && !g.objs[r].kind.UpvalOpen? ==>
          r in g.rootgc || r in g.tmudata)
    && (forall i, j :: 0 <= i < j < |g.rootgc| && g.rootgc[i] == g.main ==>
          g.rootgc[j] in g.objs && g.objs[g.rootgc[j]].kind.Udata?)
  }

  function Bucket(g: State, t: string): nat
    requires g.strt != []
  {
    g.hash(t) % |g.strt|
  }

  predicate IsText(g: State, r: Ref) {
    r in g.objs && g.objs[r].kind.Str?
  }

  /** The string table holds every string in its bucket, and no two strings have
      the same text. */
  ghost predicate StringsOk(g: State) {
    && g.strt != []
    && (forall b, r :: 0 <= b < |g.strt| && r in g.strt[b] ==> IsText(g, r) && Bucket(g, g.objs[r].text) == b)
    && (forall r :: IsText(g, r) ==> r in g.strt[Bucket(g, g.objs[r].text)])
    && (forall r, q :: IsText(g, r) && IsText(g, q) && g.objs[r].text == g.objs[q].text ==> r == q)
  }

  predicate OpenAt(g: State, u: Ref, t: Ref) {
    && u in g.objs && t in g.objs
    && g.objs[u].kind.UpvalOpen? && g.objs[u].kind.thread == t
    && g.objs[u].kind.level < |g.objs[t].stack|
  }

  /** The open upvalues of thread `t` in its list: innermost first, one per slot. */
  ghost predicate OpenListOk(g: State, t: Ref)
    requires t in g.objs
  {
    var l := g.objs[t].openupval;
    && (forall u :: u in l ==> OpenAt(g, u, t))
    && (forall i, j :: 0 <= i < j < |l| && OpenAt(g, l[i], t) && OpenAt(g, l[j], t) ==>
          g.objs[l[i]].kind.level > g.objs[l[j]].kind.level)
  }

  ghost predicate UpvalsOk(g: State) {
    && (forall t :: t in g.objs ==> OpenListOk(g, t))
    && (forall u :: u in g.objs && g.objs[u].kind.UpvalOpen? ==>
          && g.objs[u].kind.thread in g.objs
          && g.objs[g.objs[u].kind.thread].kind.Thread?
          && u in g.objs[g.objs[u].kind.thread].openupval)
    && (forall u :: u in g.uvhead <==> u in g.objs && g.objs[u].kind.UpvalOpen?)
  }

  ghost predicate WellFormed(g: State) {
    RootsOk(g) && RootListOk(g) && StringsOk(g) && UpvalsOk(g) && Kinds(g)
  }

  // ----- colours -----

  ghost predicate NoDead(g: State) {
    forall r :: r in g.objs ==> !IsDead(g, r)
  }

  /** Between cycles everything has the current white, except userdata waiting
      for their finalizer, which keep the mark of an earlier cycle. */
  ghost predicate AllWhite(g: State) {
    forall r :: r in g.objs && r !in g.tmudata ==> g.objs[r].color == White(g.cur)
  }

  /** What the mutator leaves suspended during the mark phase. */
  ghost function MutatorSlack(g: State): Slack {
    var all := g.objs.Keys;
    Slack((set u | u in g.tmudata), all, all, all, all)
  }

  ghost predicate PropagateOk(g: State) {
    MarkInv(g, MutatorSlack(g)) && NonWhite(g, g.main) && NonWhite(g, g.registry)
  }

  /** In the mark phase, between steps, the invariant is about the lists and about
      black objects. */
  lemma PropagateFrom(g: State)
    requires Lists(g) && Kinds(g) && NoDangling(g) && Tri(g, set u | u in g.tmudata)
    requires NonWhite(g, g.main) && NonWhite(g, g.registry)
    ensures PropagateOk(g)
  {
  }

  /** Still to be visited by the current sweep. */
  ghost predicate Unswept(g: State, r: Ref)
    requires r in g.objs && g.strt != [] && g.sweepgc <= |g.rootgc|
  {
    var c := g.objs[r];
    || (g.phase.SweepString? && c.kind.Str? && Bucket(g, c.text) >= g.sweepstrgc)
    || r in g.rootgc[g.sweepgc..]
    || (c.kind.UpvalOpen? && c.kind.thread in g.rootgc[g.sweepgc..])
  }

  ghost predicate SweepOk(g: State)
    requires g.strt != []
  {
    && g.sweepgc <= |g.rootgc|
    && (g.phase.SweepString? ==> g.sweepstrgc < |g.strt|)
    && (forall r :: r in g.objs && r !in g.tmudata && !Unswept(g, r) ==> g.objs[r].color == White(g.cur))
  }

  /** Live objects refer to live objects only, and the roots are live. */
  ghost predicate LiveClosed(g: State) {
    && AllLive(g, Roots(g))
    && (forall r :: IsLive(g, r) ==> AllLive(g, Kids(g, r)))
  }

  ghost predicate PhaseOk(g: State)
    requires g.strt != []
  {
    match g.phase
    case Pause => NoDead(g) && AllWhite(g)
    case Finalize => NoDead(g) && AllWhite(g)
    case Propagate => NoDead(g) && PropagateOk(g)
    case SweepString => SweepOk(g)
    case Sweep => SweepOk(g)
  }

  ghost predicate Inv(g: State) {
    WellFormed(g) && LiveClosed(g) && PhaseOk(g)
  }

  // ----- what the invariant is for -----

  /** Everything a program can get at is still allocated and not dead. */
  lemma AccessibleIsLive(g: State, r: Ref)
    requires LiveClosed(g) && Accessible(g, r)
    ensures IsLive(g, r)
  {
    var p :| Path(g, p) && p[|p| - 1] == r;
    var live := set x | x in g.objs && IsLive(g, x);
    AccessibleIn(g, live, p);
  }

  // ----- frames -----

  ghost predicate SameCell(c: Cell, d: Cell) {
    && d == c.(color := d.color, slots := d.slots, finalized := d.finalized)
    && (!d.kind.Table? ==> d.slots == [])
    && (c.finalized ==> d.finalized)
  }

  ghost predicate SameCells(g: State, h: State) {
    && h.objs.Keys == g.objs.Keys
    && (forall r :: r in g.objs ==> SameCell(g.objs[r], h.objs[r]))
  }

  /** `h` differs from `g` in colours, table slots and the mark lists only. */
  ghost predicate SameShape(g: State, h: State) {
    && h == g.(objs := h.objs, gray := h.gray, grayagain := h.grayagain, weak := h.weak)
    && SameCells(g, h)
  }

  lemma SameShapeKeeps(g: State, h: State)
    requires SameShape(g, h) && RootsOk(g) && RootListOk(g) && StringsOk(g) && UpvalsOk(g)
    ensures RootsOk(h) && RootListOk(h) && StringsOk(h) && UpvalsOk(h)
  {
    SameStrings(g, h);
    SameUpvals(g, h);
    SameKinds(g, h);
  }

  lemma SameKinds(g: State, h: State)
    requires SameCells(g, h)
    ensures forall r :: r in g.objs ==> h.objs[r].kind == g.objs[r].kind
  {
    forall r | r in g.objs ensures h.objs[r].kind == g.objs[r].kind {
      assert SameCell(g.objs[r], h.objs[r]);
    }
  }

  lemma SameStrings(g: State, h: State)
    requires SameCells(g, h) && h.strt == g.strt && h.hash == g.hash && StringsOk(g)
    ensures StringsOk(h)
  {
    forall r | r in g.objs ensures h.objs[r].kind == g.objs[r].kind && h.objs[r].text == g.objs[r].text {
      assert SameCell(g.objs[r], h.objs[r]);
    }
    StringsFrame(g, h);
  }

  lemma SameUpvals(g: State, h: State)
    requires SameCells(g, h) && h.uvhead == g.uvhead && UpvalsOk(g)
    ensures UpvalsOk(h)
  {
    forall r | r in g.objs
      ensures h.objs[r].kind == g.objs[r].kind && h.objs[r].stack == g.objs[r].stack
              && h.objs[r].openupval == g.objs[r].openupval
    {
      assert SameCell(g.objs[r], h.objs[r]);
    }
    forall t | t in h.objs ensures OpenListOk(h, t) {
      assert OpenListOk(g, t);
      assert forall u :: OpenAt(h, u, t) <==> OpenAt(g, u, t);
    }
  }

  /** Threads and open upvalues are untouched; other objects may come and go. */
  ghost predicate SameThreads(g: State, h: State) {
    && h.uvhead == g.uvhead
    && (forall r :: r in g.objs && (g.objs[r].kind.Thread? || g.objs[r].kind.UpvalOpen?) ==> r in h.objs)
    && (forall r :: r in h.objs && r in g.objs ==>
          h.objs[r].kind == g.objs[r].kind && h.objs[r].stack == g.objs[r].stack
          && h.objs[r].openupval == g.objs[r].openupval)
    && (forall r :: r in h.objs && r !in g.objs ==> !h.objs[r].kind.UpvalOpen? && h.objs[r].openupval == [])
  }

  lemma SameThreadsUpvals(g: State, h: State)
    requires SameThreads(g, h) && UpvalsOk(g)
    ensures UpvalsOk(h)
  {
    forall t | t in h.objs ensures OpenListOk(h, t) {
      if t in g.objs {
        assert OpenListOk(g, t);
        forall u | u in h.objs[t].openupval ensures OpenAt(h, u, t) {
          assert OpenAt(g, u, t);
        }
        var l := h.objs[t].openupval;
        forall i, j | 0 <= i < j < |l| && OpenAt(h, l[i], t) && OpenAt(h, l[j], t)
          ensures h.objs[l[i]].kind.level > h.objs[l[j]].kind.level
        {
          assert OpenAt(g, l[i], t) && OpenAt(g, l[j], t);
        }
      }
    }
  }

  lemma LiveFrame(g: State, h: State)
    requires LiveClosed(g) && Roots(h) == Roots(g)
    requires forall r :: IsLive(g, r) ==> IsLive(h, r)
    requires forall r :: IsLive(h, r) ==> IsLive(g, r) && forall x :: x in Kids(h, r) ==> x in Kids(g, r)
    ensures LiveClosed(h)
  {
    forall r | IsLive(h, r) ensures AllLive(h, Kids(h, r)) {
      assert AllLive(g, Kids(g, r));
    }
  }

  lemma StringsFrame(g: State, h: State)
    requires StringsOk(g) && h.strt == g.strt && h.hash == g.hash
    requires forall r :: IsText(g, r) ==> IsText(h, r)
    requires forall r :: IsText(h, r) ==> IsText(g, r) && h.objs[r].text == g.objs[r].text
    ensures StringsOk(h)
  {
    assert forall t :: Bucket(h, t) == Bucket(g, t);
  }

  /** Objects on rootgc and tmudata are untouched, and no others need them. */
  lemma RootListFrame(g: State, h: State)
    requires RootListOk(g) && h.rootgc == g.rootgc && h.tmudata == g.tmudata && h.main == g.main
    requires forall r :: r in g.rootgc && r in g.objs ==> r in h.objs && h.objs[r].kind == g.objs[r].kind
    requires forall r :: r in h.objs ==> r in g.objs && h.objs[r].kind == g.objs[r].kind
    ensures RootListOk(h)
  {
  }

  /** Well-formedness does not depend on colours, phase, positions and mark lists. */
  lemma WellFormedFrame(g: State, h: State)
    requires WellFormed(g) && Kinds(h) && SameCells(g, h)
    requires h.rootgc == g.rootgc && h.tmudata == g.tmudata && h.main == g.main && h.running == g.running
    requires h.registry == g.registry && h.mt == g.mt && h.strt == g.strt && h.hash == g.hash && h.uvhead == g.uvhead
    ensures WellFormed(h)
  {
    SameStrings(g, h);
    SameUpvals(g, h);
    SameKinds(g, h);
  }
}
