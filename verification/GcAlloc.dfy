/** Allocation, interning and capturing: what the program creates or revives
    between two steps of the collector. */
module GcAlloc {
  import opened LuaHeap
  import opened GcMark
  import opened GcState
  import opened GcAtomic
  import opened GcCycle
  import opened GcUpval
  import opened GcUpdate
  import opened GcStore
  import opened GcStep

  /** `h` is `g` with one new white object `r`; only list membership of others
      may change. */
  ghost predicate Added(g: State, h: State, r: Ref) {
    && r !in g.objs && h.objs.Keys == g.objs.Keys + {r}
    && (forall q :: q in g.objs ==> h.objs[q] == g.objs[q].(openupval := h.objs[q].openupval))
    && h.objs[r].color == White(g.cur) && !h.objs[r].fixed && h.objs[r].stack == [] && h.objs[r].openupval == []
    && Shaped(h.objs[r])
    && h == g.(objs := h.objs, rootgc := h.rootgc, sweepgc := h.sweepgc, strt := h.strt, uvhead := h.uvhead)
  }

  lemma AddedKids(g: State, h: State, r: Ref, q: Ref)
    requires Added(g, h, r) && UpvalsOk(g) && q in g.objs
    ensures Kids(h, q) == Kids(g, q) && Trace(h, q) == Trace(g, q)
  {
    assert OpenRefs(h, h.objs[q]) == OpenRefs(g, g.objs[q]);
  }

  lemma AddedLive(g: State, h: State, r: Ref)
    requires Added(g, h, r) && UpvalsOk(g) && LiveClosed(g) && AllLive(g, Kids(h, r))
    ensures LiveClosed(h) && IsLive(h, r) && forall x :: IsLive(g, x) ==> IsLive(h, x)
  {
    assert Roots(h) == Roots(g);
    forall q | IsLive(h, q) ensures AllLive(h, Kids(h, q)) {
      if q != r {
        AddedKids(g, h, r, q);
        assert IsLive(g, q) && AllLive(g, Kids(g, q));
      }
    }
  }

  lemma AddedLists(g: State, h: State, r: Ref)
    requires Added(g, h, r) && Lists(g)
    ensures Lists(h)
  {
    assert Listed(h) == Listed(g);
  }

  lemma AddedTri(g: State, h: State, r: Ref, ex: set<Ref>)
    requires Added(g, h, r) && UpvalsOk(g) && NoDangling(g) && Tri(g, ex)
    requires forall x :: x in Kids(h, r) ==> x in g.objs
    ensures NoDangling(h) && Tri(h, ex)
  {
    assert forall x :: NonWhite(g, x) ==> NonWhite(h, x);
    forall q | q in g.objs ensures Kids(h, q) == Kids(g, q) && Trace(h, q) == Trace(g, q) {
      AddedKids(g, h, r, q);
    }
  }

  lemma AddedMarks(g: State, h: State, r: Ref)
    requires Added(g, h, r) && UpvalsOk(g) && PropagateOk(g) && Kinds(h)
    requires forall x :: x in Kids(h, r) ==> x in g.objs
    ensures PropagateOk(h)
  {
    AddedLists(g, h, r);
    AddedTri(g, h, r, set u | u in g.tmudata);
    PropagateFrom(h);
  }

  lemma KindsShaped(g: State)
    requires Kinds(g)
    ensures forall q :: q in g.objs && !g.objs[q].kind.Thread? ==> g.objs[q].openupval == []
  {
    assert forall q :: q in g.objs ==> Shaped(g.objs[q]);
  }

  lemma AddedKinds(g: State, h: State, r: Ref)
    requires Added(g, h, r) && Kinds(g)
    requires forall q :: q in g.objs && !g.objs[q].kind.Thread? ==> h.objs[q].openupval == []
    ensures Kinds(h)
  {
    forall q | q in g.objs ensures Shaped(h.objs[q]) {
      assert Shaped(g.objs[q]);
    }
  }

  lemma AddedWhites(g: State, h: State, r: Ref)
    requires Added(g, h, r)
    ensures NoDead(g) ==> NoDead(h)
    ensures AllWhite(g) ==> AllWhite(h)
  {
    if NoDead(g) {
      assert forall q :: q in g.objs ==> !IsDead(g, q);
    }
  }

  lemma AddedPhase(g: State, h: State, r: Ref)
    requires g.strt != [] && h.strt != [] && PhaseOk(g) && UpvalsOk(g) && Added(g, h, r) && Kinds(h)
    requires forall x :: x in Kids(h, r) ==> x in g.objs
    requires g.phase.SweepString? || g.phase.Sweep? ==> SweepOk(h)
    ensures PhaseOk(h)
  {
    match g.phase
    case Pause => AddedWhites(g, h, r);
    case Finalize => AddedWhites(g, h, r);
    case Propagate =>
      AddedWhites(g, h, r);
      AddedMarks(g, h, r);
    case SweepString =>
    case Sweep =>
  }

  /** Adding an object keeps the invariant once the lists are in order. */
  lemma AddedKeeps(g: State, h: State, r: Ref)
    requires Inv(g) && Added(g, h, r) && WellFormed(h) && AllLive(g, Kids(h, r))
    requires g.phase.SweepString? || g.phase.Sweep? ==> SweepOk(h)
    ensures Inv(h) && IsLive(h, r) && forall x :: IsLive(g, x) ==> IsLive(h, x)
  {
    hide RootsOk, RootListOk, UpvalsOk, LiveClosed, PhaseOk;
    AddedLive(g, h, r);
    AddedPhase(g, h, r);
  }

  // ----- objects linked into rootgc -----

  /** luaC_link. */
  function NewObject(g: State, r: Ref, c: Cell): State {
    LinkRoot(g.(objs := g.objs[r := c.(color := White(g.cur))]), r)
  }

  ghost predicate FreshCell(g: State, r: Ref, c: Cell) {
    && r !in g.objs && Shaped(c) && !c.fixed && c.stack == [] && c.openupval == []
    && !c.kind.Str? && !c.kind.UpvalOpen? && !c.kind.Udata?
  }

  lemma NewObjectShape(g: State, r: Ref, c: Cell)
    requires WellFormed(g) && FreshCell(g, r, c)
    ensures WellFormed(NewObject(g, r, c)) && Added(g, NewObject(g, r, c), r)
  {
    hide UpvalsOk, Kinds;
    var h := NewObject(g, r, c);
    NewObjectAdded(g, r, c);
    LinkedRoot(g, h, r);
    NewStrings(g, h, r);
    NewUpvals(g, h, r);
  }

  lemma NewObjectAdded(g: State, r: Ref, c: Cell)
    requires Kinds(g) && FreshCell(g, r, c)
    ensures Added(g, NewObject(g, r, c), r) && Kinds(NewObject(g, r, c))
  {
    assert forall q :: q in g.objs ==> Shaped(g.objs[q]);
    AddedKinds(g, NewObject(g, r, c), r);
  }

  lemma NewUpvals(g: State, h: State, r: Ref)
    requires UpvalsOk(g) && Added(g, h, r) && !h.objs[r].kind.UpvalOpen? && h.uvhead == g.uvhead
    requires forall q :: q in g.objs ==> h.objs[q].openupval == g.objs[q].openupval
    ensures UpvalsOk(h)
  {
    assert SameThreads(g, h);
    SameThreadsUpvals(g, h);
  }

  lemma NewStrings(g: State, h: State, r: Ref)
    requires StringsOk(g) && Added(g, h, r) && !h.objs[r].kind.Str? && h.strt == g.strt
    ensures StringsOk(h)
  {
    assert forall x :: IsText(h, x) == IsText(g, x);
    StringsFrame(g, h);
  }

  lemma NewObjectSweep(g: State, r: Ref, c: Cell)
    requires FreshCell(g, r, c) && g.strt != [] && SweepOk(g)
    ensures SweepOk(NewObject(g, r, c))
  {
    var h := NewObject(g, r, c);
    assert h.rootgc[h.sweepgc..] == (if g.sweepgc > 0 then [] else [r]) + g.rootgc[g.sweepgc..];
    forall q | q in h.objs && q !in h.tmudata && !Unswept(h, q) ensures h.objs[q].color == White(h.cur) {
      if q != r {
        assert Bucket(h, h.objs[q].text) == Bucket(g, g.objs[q].text);
        assert !Unswept(g, q);
      }
    }
  }

  lemma NewObjectKids(g: State, r: Ref, c: Cell)
    requires FreshCell(g, r, c)
    ensures Kids(NewObject(g, r, c), r) == c.refs + SlotKids(c.slots)
  {
    var h := NewObject(g, r, c);
    assert OpenRefs(h, h.objs[r]) == [];
  }

  lemma NewObjectKeeps(g: State, r: Ref, c: Cell)
    requires Inv(g) && FreshCell(g, r, c) && AllLive(g, c.refs) && AllLive(g, SlotKids(c.slots))
    ensures Inv(NewObject(g, r, c)) && IsLive(NewObject(g, r, c), r)
    ensures forall x :: IsLive(g, x) ==> IsLive(NewObject(g, r, c), x)
  {
    NewObjectShape(g, r, c);
    NewObjectKids(g, r, c);
    if g.phase.SweepString? || g.phase.Sweep? {
      NewObjectSweep(g, r, c);
    }
    AddedKeeps(g, NewObject(g, r, c), r);
  }

  // ----- userdata -----

  /** luaS_newudata: linked after the main thread. */
  function NewUdata(g: State, r: Ref, rs: seq<Ref>, hasgc: bool): State
    requires g.main in g.rootgc
  {
    var c := Cell(Udata, White(g.cur), false, rs, [], false, false, [], [], [], hasgc, false);
    LinkUdata(g.(objs := g.objs[r := c]), r)
  }

  lemma NewUdataAdded(g: State, r: Ref, rs: seq<Ref>, hasgc: bool)
    requires Kinds(g) && g.main in g.rootgc && r !in g.objs
    ensures var h := NewUdata(g, r, rs, hasgc);
            && Added(g, h, r) && Kinds(h) && Kids(h, r) == rs
            && h.rootgc == SplitAtMain(g).0 + [r] + SplitAtMain(g).1
  {
    hide LinkUdata, SplitAtMain, Kinds;
    var h := NewUdata(g, r, rs, hasgc);
    var c := Cell(Udata, White(g.cur), false, rs, [], false, false, [], [], [], hasgc, false);
    LinkUdataLinks(g, g.(objs := g.objs[r := c]), r);
    KindsShaped(g);
    AddedKinds(g, h, r);
    assert OpenRefs(h, h.objs[r]) == [];
  }

  /** Linking `u` after the main thread. */
  lemma LinkedUdata(g: State, h: State, u: Ref, a: seq<Ref>, b: seq<Ref>)
    requires RootListOk(g) && g.rootgc == a + b && a != [] && a[|a| - 1] == g.main && h.rootgc == a + [u] + b
    requires h.main == g.main && Distinct(h.tmudata) && u !in g.rootgc && u !in h.tmudata
    requires forall x :: x in h.tmudata ==> x in g.tmudata
    requires forall x :: x in g.tmudata && x != u ==> x in h.tmudata
    requires u in h.objs && h.objs[u].kind.Udata?
    requires forall r :: r in g.objs && r != u ==> r in h.objs && h.objs[r].kind == g.objs[r].kind
    requires forall r :: r in h.objs && r != u ==> r in g.objs
    ensures RootListOk(h)
  {
    var s := g.rootgc;
    assert Distinct(h.rootgc) by { UdataDistinct(a, b, u); }
    assert forall x :: x in h.rootgc <==> x in s || x == u;
    forall i, j | 0 <= i < j < |h.rootgc| && h.rootgc[i] == h.main
      ensures h.rootgc[j] in h.objs && h.objs[h.rootgc[j]].kind.Udata?
    {
      assert h.rootgc[|a| - 1] == h.main;
      assert i == |a| - 1;
      assert s[|a| - 1] == g.main;
      if j > |a| {
        assert h.rootgc[j] == s[j - 1];
      }
    }
  }

  lemma UdataDistinct(a: seq<Ref>, b: seq<Ref>, u: Ref)
    requires Distinct(a + b) && u !in a + b
    ensures Distinct(a + [u] + b)
  {
    var s, t := a + b, a + [u] + b;
    assert forall i :: 0 <= i < |a| ==> t[i] == s[i];
    assert forall i :: |a| < i < |t| ==> t[i] == s[i - 1];
  }

  lemma NewUdataShape(g: State, r: Ref, rs: seq<Ref>, hasgc: bool)
    requires WellFormed(g) && r !in g.objs
    ensures WellFormed(NewUdata(g, r, rs, hasgc)) && Added(g, NewUdata(g, r, rs, hasgc), r)
  {
    hide UpvalsOk, StringsOk, Kinds, Added, SplitAtMain;
    var h := NewUdata(g, r, rs, hasgc);
    NewUdataAdded(g, r, rs, hasgc);
    LinkedUdata(g, h, r, SplitAtMain(g).0, SplitAtMain(g).1);
    NewStrings(g, h, r);
    NewUpvals(g, h, r);
  }

  lemma LinkUdataAhead(a: seq<Ref>, b: seq<Ref>, r: Ref, k: nat)
    requires k <= |a + b|
    ensures var k' := if |a| < k then k + 1 else k;
            k' <= |a + [r] + b| && forall x :: x in (a + b)[k..] ==> x in (a + [r] + b)[k'..]
  {
    if |a| < k {
      assert (a + [r] + b)[k + 1..] == (a + b)[k..];
    } else {
      assert (a + [r] + b)[k..] == a[k..] + [r] + b;
      assert (a + b)[k..] == a[k..] + b;
    }
  }

  lemma NewUdataSweep(g: State, r: Ref, rs: seq<Ref>, hasgc: bool)
    requires g.main in g.rootgc && r !in g.objs && g.strt != [] && SweepOk(g)
    ensures SweepOk(NewUdata(g, r, rs, hasgc))
  {
    var h := NewUdata(g, r, rs, hasgc);
    assert SplitAtMain(g.(objs := h.objs)) == SplitAtMain(g);
    LinkUdataAhead(SplitAtMain(g).0, SplitAtMain(g).1, r, g.sweepgc);
    forall q | q in h.objs && q !in h.tmudata && !Unswept(h, q) ensures h.objs[q].color == White(h.cur) {
      if q != r {
        assert Bucket(h, h.objs[q].text) == Bucket(g, g.objs[q].text);
        assert !Unswept(g, q);
      }
    }
  }

  lemma NewUdataKeeps(g: State, r: Ref, rs: seq<Ref>, hasgc: bool)
    requires Inv(g) && r !in g.objs && AllLive(g, rs)
    ensures Inv(NewUdata(g, r, rs, hasgc)) && IsLive(NewUdata(g, r, rs, hasgc), r)
    ensures forall x :: IsLive(g, x) ==> IsLive(NewUdata(g, r, rs, hasgc), x)
  {
    NewUdataShape(g, r, rs, hasgc);
    NewUdataAdded(g, r, rs, hasgc);
    if g.phase.SweepString? || g.phase.Sweep? {
      NewUdataSweep(g, r, rs, hasgc);
    }
    AddedKeeps(g, NewUdata(g, r, rs, hasgc), r);
  }

  // ----- strings -----

  /** changewhite on a dead object. */
  function Revive(g: State, r: Ref): State
    requires r in g.objs
  {
    if IsDead(g, r) then SetColor(g, r, White(g.cur)) else g
  }

  lemma ReviveShape(g: State, r: Ref)
    requires WellFormed(g) && r in g.objs
    ensures WellFormed(Revive(g, r))
  {
    if IsDead(g, r) {
      ToWhiteShape(g, r);
    }
  }

  lemma ReviveLive(g: State, r: Ref)
    requires LiveClosed(g) && r in g.objs && AllLive(g, Kids(g, r))
    ensures LiveClosed(Revive(g, r)) && IsLive(Revive(g, r), r)
    ensures forall x :: IsLive(g, x) ==> IsLive(Revive(g, r), x)
  {
    var h := Revive(g, r);
    assert Roots(h) == Roots(g);
    forall q | IsLive(h, q) ensures AllLive(h, Kids(h, q)) {
      assert OpenRefs(h, h.objs[q]) == OpenRefs(g, g.objs[q]);
      assert AllLive(g, Kids(g, q));
    }
  }

  /** A dead object that refers to live ones can be brought back. */
  lemma ReviveKeeps(g: State, r: Ref)
    requires Inv(g) && r in g.objs && AllLive(g, Kids(g, r))
    ensures Inv(Revive(g, r)) && IsLive(Revive(g, r), r)
    ensures forall x :: IsLive(g, x) ==> IsLive(Revive(g, r), x)
  {
    ReviveShape(g, r);
    ReviveLive(g, r);
    if IsDead(g, r) {
      assert g.phase.SweepString? || g.phase.Sweep?;
      ToWhiteSweep(g, r);
    }
  }

  predicate HasText(g: State, r: Ref, t: string) {
    r in g.objs && g.objs[r].text == t
  }

  /** The search of luaS_newlstr along one chain. */
  function FindText(g: State, l: seq<Ref>, t: string): (i: nat)
    ensures i <= |l| && (i < |l| ==> HasText(g, l[i], t))
    ensures forall j :: 0 <= j < i ==> !HasText(g, l[j], t)
  {
    if l == [] || HasText(g, l[0], t) then 0 else 1 + FindText(g, l[1..], t)
  }

  function StringCell(g: State, t: string): Cell {
    Cell(Str, White(g.cur), false, [], [], false, false, [], [], t, false, false)
  }

  /** newlstr: a new string at the head of its chain; a crowded table doubles. */
  function NewString(g: State, t: string, r: Ref): State
    requires g.strt != []
  {
    var h := LinkString(g, t, r);
    if CountStrings(h.strt) > |h.strt| then Resize(h, |h.strt| * 2) else h
  }

  function LinkString(g: State, t: string, r: Ref): State
    requires g.strt != []
  {
    var b := Bucket(g, t);
    g.(objs := g.objs[r := StringCell(g, t)], strt := g.strt[b := [r] + g.strt[b]])
  }

  /** luaS_newlstr: the string with text `t`, found or made; returns its reference. */
  function Intern(g: State, t: string, spare: Ref): (State, Ref)
    requires g.strt != []
  {
    var l := g.strt[Bucket(g, t)];
    var i := FindText(g, l, t);
    if i < |l| && l[i] in g.objs then (Revive(g, l[i]), l[i]) else (NewString(g, t, spare), spare)
  }

  lemma LinkedBucket(g: State, t: string, r: Ref, b: nat, x: Ref)
    requires StringsOk(g) && r !in g.objs && b < |g.strt| && x in LinkString(g, t, r).strt[b]
    ensures IsText(LinkString(g, t, r), x) && Bucket(g, LinkString(g, t, r).objs[x].text) == b
  {
    assert (x == r && b == Bucket(g, t)) || x in g.strt[b];
    assert x in g.strt[b] ==> IsText(g, x);
  }

  lemma LinkStringTable(g: State, t: string, r: Ref)
    requires StringsOk(g) && r !in g.objs
    requires forall x :: IsText(g, x) ==> g.objs[x].text != t
    ensures StringsOk(LinkString(g, t, r))
  {
    var h := LinkString(g, t, r);
    assert forall s :: Bucket(h, s) == Bucket(g, s);
    forall x | IsText(h, x)
      ensures x == r || (IsText(g, x) && h.objs[x] == g.objs[x])
      ensures x in h.strt[Bucket(h, h.objs[x].text)]
    {
      if x != r {
        assert IsText(g, x);
      }
    }
    forall b, x | 0 <= b < |h.strt| && x in h.strt[b] ensures IsText(h, x) && Bucket(h, h.objs[x].text) == b {
      LinkedBucket(g, t, r, b, x);
    }
  }

  lemma LinkStringAdded(g: State, t: string, r: Ref)
    requires Kinds(g) && g.strt != [] && r !in g.objs
    ensures Added(g, LinkString(g, t, r), r) && Kinds(LinkString(g, t, r)) && Kids(LinkString(g, t, r), r) == []
  {
    var h := LinkString(g, t, r);
    assert forall q :: q in g.objs ==> Shaped(g.objs[q]);
    AddedKinds(g, h, r);
    assert OpenRefs(h, h.objs[r]) == [];
  }

  lemma LinkStringShape(g: State, t: string, r: Ref)
    requires WellFormed(g) && r !in g.objs
    requires forall x :: IsText(g, x) ==> g.objs[x].text != t
    ensures WellFormed(LinkString(g, t, r))
  {
    hide RootListOk, UpvalsOk, Kinds;
    var h := LinkString(g, t, r);
    LinkStringAdded(g, t, r);
    LinkStringTable(g, t, r);
    NewUpvals(g, h, r);
    LinkStringRoots(g, t, r);
  }

  lemma LinkStringRoots(g: State, t: string, r: Ref)
    requires RootsOk(g) && RootListOk(g) && g.strt != [] && r !in g.objs
    ensures RootsOk(LinkString(g, t, r)) && RootListOk(LinkString(g, t, r))
  {
  }

  lemma LinkStringSweep(g: State, t: string, r: Ref)
    requires g.strt != [] && r !in g.objs && SweepOk(g)
    ensures SweepOk(LinkString(g, t, r))
  {
    var h := LinkString(g, t, r);
    forall q | q in h.objs && q !in h.tmudata && !Unswept(h, q) ensures h.objs[q].color == White(h.cur) {
      if q != r {
        assert Bucket(h, h.objs[q].text) == Bucket(g, g.objs[q].text);
        assert !Unswept(g, q);
      }
    }
  }

  lemma LinkStringKeeps(g: State, t: string, r: Ref)
    requires Inv(g) && r !in g.objs && forall x :: IsText(g, x) ==> g.objs[x].text != t
    ensures Inv(LinkString(g, t, r)) && IsLive(LinkString(g, t, r), r)
    ensures forall x :: IsLive(g, x) ==> IsLive(LinkString(g, t, r), x)
  {
    LinkStringShape(g, t, r);
    LinkStringAdded(g, t, r);
    if g.phase.SweepString? || g.phase.Sweep? {
      LinkStringSweep(g, t, r);
    }
    AddedKeeps(g, LinkString(g, t, r), r);
  }

  lemma ResizeLive(g: State, n: nat)
    requires n > 0
    ensures forall x :: IsLive(g, x) ==> IsLive(Resize(g, n), x)
  {
  }

  lemma NewStringKeeps(g: State, t: string, r: Ref)
    requires Inv(g) && r !in g.objs && forall x :: IsText(g, x) ==> g.objs[x].text != t
    ensures Inv(NewString(g, t, r)) && IsLive(NewString(g, t, r), r)
    ensures forall x :: IsLive(g, x) ==> IsLive(NewString(g, t, r), x)
  {
    var h := LinkString(g, t, r);
    LinkStringKeeps(g, t, r);
    if CountStrings(h.strt) > |h.strt| {
      ResizeKeeps(h, |h.strt| * 2);
      ResizeLive(h, |h.strt| * 2);
      assert NewString(g, t, r) == Resize(h, |h.strt| * 2);
    } else {
      assert NewString(g, t, r) == h;
    }
  }

  /** Interning keeps the invariant, returns a live string with the text asked
      for, and by the invariant the only one there is. */
  lemma FindsText(g: State, t: string, x: Ref)
    requires StringsOk(g) && IsText(g, x) && g.objs[x].text == t
    ensures var l := g.strt[Bucket(g, t)]; FindText(g, l, t) < |l| && l[FindText(g, l, t)] in g.objs
  {
    var l := g.strt[Bucket(g, t)];
    var j :| 0 <= j < |l| && l[j] == x;
    assert HasText(g, l[j], t);
  }

  lemma InternKeeps(g: State, t: string, spare: Ref)
    requires Inv(g) && spare !in g.objs
    ensures var (h, s) := Intern(g, t, spare);
            && Inv(h) && IsText(h, s) && h.objs[s].text == t && IsLive(h, s)
            && (forall x :: IsText(h, x) && h.objs[x].text == t ==> x == s)
            && (forall x :: IsLive(g, x) ==> IsLive(h, x))
  {
    hide UpvalsOk, MarkInv, RootsOk;
    var l := g.strt[Bucket(g, t)];
    var i := FindText(g, l, t);
    if i < |l| && l[i] in g.objs {
      assert IsText(g, l[i]);
      assert Kids(g, l[i]) == [] by { assert Shaped(g.objs[l[i]]); }
      ReviveKeeps(g, l[i]);
    } else {
      forall x | IsText(g, x) && g.objs[x].text == t ensures false {
        FindsText(g, t, x);
      }
      NewStringKeeps(g, t, spare);
    }
  }

  // ----- open upvalues -----

  /** Where the search of luaF_findupval stops: the first upvalue at or below
      `level`. */
  function FindLevel(g: State, l: seq<Ref>, level: nat): (i: nat)
    ensures i <= |l| && (i < |l| ==> LevelOf(g, l[i]) <= level)
    ensures forall j :: 0 <= j < i ==> LevelOf(g, l[j]) > level
  {
    if l == [] || LevelOf(g, l[0]) <= level then 0 else 1 + FindLevel(g, l[1..], level)
  }

  /** A new open upvalue for slot `level` of thread `t`, in order in its list. */
  function NewOpen(g: State, t: Ref, level: nat, r: Ref): State
    requires t in g.objs
  {
    var l := g.objs[t].openupval;
    var i := FindLevel(g, l, level);
    var c := Cell(UpvalOpen(t, level), White(g.cur), false, [], [], false, false, [], [], [], false, false);
    g.(objs := g.objs[t := g.objs[t].(openupval := l[..i] + [r] + l[i..])][r := c], uvhead := [r] + g.uvhead)
  }

  /** luaF_findupval: the open upvalue for a stack slot, revived if it is dead. */
  function FindUpval(g: State, t: Ref, level: nat, spare: Ref): (State, Ref)
    requires t in g.objs
  {
    var l := g.objs[t].openupval;
    var i := FindLevel(g, l, level);
    if i < |l| && l[i] in g.objs && LevelOf(g, l[i]) == level then (Revive(g, l[i]), l[i])
    else (NewOpen(g, t, level, spare), spare)
  }

  ghost predicate OpensAt(g: State, t: Ref, level: nat, r: Ref) {
    && t in g.objs && g.objs[t].kind.Thread? && level < |g.objs[t].stack| && r !in g.objs
    && (forall u :: u in g.objs[t].openupval ==> LevelOf(g, u) != level)
  }

  lemma NewOpenAdded(g: State, t: Ref, level: nat, r: Ref)
    requires Kinds(g) && OpensAt(g, t, level, r)
    ensures Added(g, NewOpen(g, t, level, r), r) && Kinds(NewOpen(g, t, level, r))
    ensures forall x :: x in Kids(NewOpen(g, t, level, r), r) ==> x in StackRefs(g.objs[t].stack)
  {
    hide RootListOk;
    var h := NewOpen(g, t, level, r);
    assert forall q :: q in g.objs ==> Shaped(g.objs[q]);
    AddedKinds(g, h, r);
    StackHas(g.objs[t].stack, level);
    assert Kids(h, r) == OpenRefs(h, h.objs[r]);
  }

  lemma NewOpenOther(g: State, t: Ref, level: nat, r: Ref, q: Ref)
    requires UpvalsOk(g) && OpensAt(g, t, level, r) && q in g.objs && q != t
    ensures OpenListOk(NewOpen(g, t, level, r), q)
  {
    var h := NewOpen(g, t, level, r);
    assert OpenListOk(g, q);
    var l := g.objs[q].openupval;
    forall u | u in l ensures OpenAt(h, u, q) {
      assert OpenAt(g, u, q);
    }
    forall i, j | 0 <= i < j < |l| && OpenAt(h, l[i], q) && OpenAt(h, l[j], q)
      ensures h.objs[l[i]].kind.level > h.objs[l[j]].kind.level
    {
      assert OpenAt(g, l[i], q) && OpenAt(g, l[j], q);
    }
  }

  /** The new upvalue stands in order: above it the lower slots, below it the
      higher ones. */
  lemma NewOpenOwn(g: State, t: Ref, level: nat, r: Ref)
    requires UpvalsOk(g) && OpensAt(g, t, level, r)
    ensures OpenListOk(NewOpen(g, t, level, r), t)
  {
    var h := NewOpen(g, t, level, r);
    var l := g.objs[t].openupval;
    var k := FindLevel(g, l, level);
    var m := h.objs[t].openupval;
    assert OpenListOk(g, t);
    forall u | u in l ensures OpenAt(g, u, t) && OpenAt(h, u, t) && h.objs[u].kind == g.objs[u].kind {
      assert OpenAt(g, u, t);
    }
    assert forall u :: u in m <==> u == r || u in l;
    assert OpenAt(h, r, t);
    forall i, j | 0 <= i < j < |m| && OpenAt(h, m[i], t) && OpenAt(h, m[j], t)
      ensures h.objs[m[i]].kind.level > h.objs[m[j]].kind.level
    {
      NewOpenOrder(g, t, level, r, i, j);
    }
  }

  lemma NewOpenLevels(g: State, t: Ref, level: nat, r: Ref, n: nat)
    requires OpensAt(g, t, level, r) && OpenListOk(g, t)
    requires forall u :: u in g.objs[t].openupval ==> OpenAt(g, u, t)
    requires n < |g.objs[t].openupval|
    ensures var l, h := g.objs[t].openupval, NewOpen(g, t, level, r);
            var k := FindLevel(g, l, level);
            && LevelOf(h, l[n]) == LevelOf(g, l[n])
            && (n < k ==> LevelOf(g, l[n]) > level) && (n >= k ==> LevelOf(g, l[n]) < level)
  {
    var l := g.objs[t].openupval;
    var k := FindLevel(g, l, level);
    assert l[n] in l && OpenAt(g, l[n], t);
    if n >= k {
      assert l[k] in l && OpenAt(g, l[k], t);
    }
  }

  lemma NewOpenOrder(g: State, t: Ref, level: nat, r: Ref, i: nat, j: nat)
    requires OpensAt(g, t, level, r) && OpenListOk(g, t)
    requires i < j < |NewOpen(g, t, level, r).objs[t].openupval|
    requires forall u :: u in g.objs[t].openupval ==> OpenAt(g, u, t)
    ensures var h := NewOpen(g, t, level, r);
            var m := h.objs[t].openupval;
            LevelOf(h, m[i]) > LevelOf(h, m[j])
  {
    hide RootListOk;
    var l := g.objs[t].openupval;
    var k := FindLevel(g, l, level);
    NewOpenAt(l, k, r, i);
    NewOpenAt(l, k, r, j);
    var i' := if i < k then i else i - 1;
    var j' := if j < k then j else j - 1;
    if i != k {
      NewOpenLevels(g, t, level, r, i');
    }
    if j != k {
      NewOpenLevels(g, t, level, r, j');
    }
    if i != k && j != k {
      assert l[i'] in l && l[j'] in l;
      assert OpenAt(g, l[i'], t) && OpenAt(g, l[j'], t);
    }
  }

  lemma NewOpenAt(l: seq<Ref>, k: nat, r: Ref, i: nat)
    requires k <= |l| && i <= |l|
    ensures (l[..k] + [r] + l[k..])[i] == if i < k then l[i] else if i == k then r else l[i - 1]
  {
  }

  lemma NoOpenList(g: State, t: Ref)
    requires t in g.objs && g.objs[t].openupval == []
    ensures OpenListOk(g, t)
  {
  }

  lemma NewOpenUpvals(g: State, t: Ref, level: nat, r: Ref)
    requires UpvalsOk(g) && OpensAt(g, t, level, r)
    ensures UpvalsOk(NewOpen(g, t, level, r))
  {
    hide LevelOf, FindLevel, OpenListOk;
    var h := NewOpen(g, t, level, r);
    var l := g.objs[t].openupval;
    forall q | q in h.objs ensures OpenListOk(h, q) {
      if q == t {
        NewOpenOwn(g, t, level, r);
      } else if q != r {
        NewOpenOther(g, t, level, r, q);
      } else {
        NoOpenList(h, r);
      }
    }
    assert forall u :: u in h.objs[t].openupval <==> u == r || u in l;
  }

  lemma NewOpenShape(g: State, t: Ref, level: nat, r: Ref)
    requires WellFormed(g) && OpensAt(g, t, level, r)
    ensures WellFormed(NewOpen(g, t, level, r))
  {
    NewOpenAdded(g, t, level, r);
    NewOpenUpvals(g, t, level, r);
    NewStrings(g, NewOpen(g, t, level, r), r);
    NewOpenRoots(g, t, level, r);
  }

  lemma NewOpenRoots(g: State, t: Ref, level: nat, r: Ref)
    requires RootsOk(g) && RootListOk(g) && OpensAt(g, t, level, r)
    ensures RootsOk(NewOpen(g, t, level, r)) && RootListOk(NewOpen(g, t, level, r))
  {
  }

  lemma NewOpenSweep(g: State, t: Ref, level: nat, r: Ref)
    requires OpensAt(g, t, level, r) && g.strt != [] && SweepOk(g)
    ensures SweepOk(NewOpen(g, t, level, r))
  {
    var h := NewOpen(g, t, level, r);
    forall q | q in h.objs && q !in h.tmudata && !Unswept(h, q) ensures h.objs[q].color == White(h.cur) {
      if q != r {
        assert Bucket(h, h.objs[q].text) == Bucket(g, g.objs[q].text);
        assert !Unswept(g, q);
      }
    }
  }

  lemma NewOpenKeeps(g: State, t: Ref, level: nat, r: Ref)
    requires Inv(g) && IsLive(g, t) && OpensAt(g, t, level, r)
    ensures Inv(NewOpen(g, t, level, r)) && IsLive(NewOpen(g, t, level, r), r)
    ensures forall x :: IsLive(g, x) ==> IsLive(NewOpen(g, t, level, r), x)
  {
    NewOpenShape(g, t, level, r);
    NewOpenAdded(g, t, level, r);
    assert AllLive(g, Kids(g, t));
    if g.phase.SweepString? || g.phase.Sweep? {
      NewOpenSweep(g, t, level, r);
    }
    AddedKeeps(g, NewOpen(g, t, level, r), r);
  }

  /** The search finds the upvalue of the slot if there is one. */
  lemma FindLevelFinds(g: State, t: Ref, level: nat)
    requires UpvalsOk(g) && t in g.objs
    ensures var l := g.objs[t].openupval;
            var i := FindLevel(g, l, level);
            && (forall u :: u in l ==> OpenAt(g, u, t))
            && ((exists u :: u in l && LevelOf(g, u) == level) ==> i < |l| && LevelOf(g, l[i]) == level)
  {
    hide FindLevel;
    var l := g.objs[t].openupval;
    var i := FindLevel(g, l, level);
    assert OpenListOk(g, t);
    forall u | u in l ensures OpenAt(g, u, t) {
      assert OpenAt(g, u, t);
    }
    if u :| u in l && LevelOf(g, u) == level {
      var j :| 0 <= j < |l| && l[j] == u;
      if i < j {
        assert OpenAt(g, l[i], t) && OpenAt(g, l[j], t);
      }
    }
  }

  lemma OpenKids(g: State, u: Ref, t: Ref)
    requires Kinds(g) && OpenAt(g, u, t)
    ensures forall x :: x in Kids(g, u) ==> x in StackRefs(g.objs[t].stack)
  {
    assert Shaped(g.objs[u]);
    StackHas(g.objs[t].stack, g.objs[u].kind.level);
    assert Kids(g, u) == OpenRefs(g, g.objs[u]);
  }

  /** Finding an upvalue keeps the invariant and gives the one live open upvalue
      of the slot, even if it was about to be swept. */
  lemma FindUpvalKeeps(g: State, t: Ref, level: nat, spare: Ref)
    requires Inv(g) && IsLive(g, t) && g.objs[t].kind.Thread? && level < |g.objs[t].stack| && spare !in g.objs
    ensures var (h, u) := FindUpval(g, t, level, spare);
            && Inv(h) && IsLive(h, u) && OpenAt(h, u, t) && h.objs[u].kind.level == level
            && (forall x :: IsLive(g, x) ==> IsLive(h, x))
  {
    hide RootListOk, Kinds, RootsOk;
    var l := g.objs[t].openupval;
    var i := FindLevel(g, l, level);
    FindLevelFinds(g, t, level);
    if i < |l| && l[i] in g.objs && LevelOf(g, l[i]) == level {
      FoundUpval(g, t, l[i]);
    } else {
      assert OpensAt(g, t, level, spare);
      NewOpenKeeps(g, t, level, spare);
    }
  }

  lemma FoundUpval(g: State, t: Ref, u: Ref)
    requires Inv(g) && IsLive(g, t) && OpenAt(g, u, t)
    ensures Inv(Revive(g, u)) && IsLive(Revive(g, u), u) && OpenAt(Revive(g, u), u, t)
    ensures Revive(g, u).objs[u].kind == g.objs[u].kind
    ensures forall x :: IsLive(g, x) ==> IsLive(Revive(g, u), x)
  {
    assert AllLive(g, Kids(g, t));
    OpenKids(g, u, t);
    ReviveKeeps(g, u);
  }
}
