/** Open upvalues: luaF_close, luaC_linkupval and luaF_findupval. */
module GcUpval {
  import opened LuaHeap
  import opened GcMark
  import opened GcState
  import opened GcPropagate
  import opened GcCycle

  function Remove(s: seq<Ref>, x: Ref): (t: seq<Ref>)
    ensures forall y :: y in t <==> y in s && y != x
  {
    if s == [] then []
    else
      assert forall y :: y in s <==> y == s[0] || y in s[1..];
      (if s[0] == x then [] else [s[0]]) + Remove(s[1..], x)
  }

  /** Link an object at the head of rootgc.  The sweep position is the address of
      a link: it stays put if that is the head itself. */
  function LinkRoot(g: State, u: Ref): State {
    g.(rootgc := [u] + g.rootgc, sweepgc := if g.sweepgc > 0 then g.sweepgc + 1 else 0)
  }

  /** Take the first open upvalue off the lists of its thread `t`. */
  function Unlist(g: State, t: Ref): State
    requires t in g.objs && g.objs[t].openupval != []
  {
    var u := g.objs[t].openupval[0];
    g.(objs := g.objs[t := g.objs[t].(openupval := g.objs[t].openupval[1..])], uvhead := Remove(g.uvhead, u))
  }

  /** The colour luaC_linkupval gives a closed upvalue. */
  function ClosedColor(g: State, c: Color): Color {
    if c.Gray? then if g.phase.Propagate? then Black else White(g.cur) else c
  }

  /** The upvalue `u` gets its own value and is linked into rootgc. */
  function Closed(g: State, u: Ref): State
    requires u in g.objs
  {
    var c := g.objs[u];
    LinkRoot(g.(objs := g.objs[u := c.(kind := UpvalClosed, refs := OpenRefs(g, c),
                                       color := ClosedColor(g, c.color))]), u)
  }

  function CloseOne(g: State, t: Ref): State
    requires t in g.objs && g.objs[t].openupval != []
  {
    var u := g.objs[t].openupval[0];
    var g1 := Unlist(g, t);
    if u !in g1.objs then g1
    else if IsDead(g, u) then g1.(objs := g1.objs - {u})
    else
      var h := Closed(g1, u);
      if g.objs[u].color.Gray? && g.phase.Propagate? then MarkAll(h, h.objs[u].refs) else h
  }

  // ----- a dead upvalue is freed -----

  ghost predicate HasOpen(g: State, t: Ref) {
    UpvalsOk(g) && Kinds(g) && t in g.objs && g.objs[t].openupval != [] && FirstOpen(g, t) in g.objs
  }

  function FirstOpen(g: State, t: Ref): Ref
    requires t in g.objs && g.objs[t].openupval != []
  {
    g.objs[t].openupval[0]
  }

  lemma FirstOpenAt(g: State, t: Ref)
    requires HasOpen(g, t)
    ensures OpenAt(g, FirstOpen(g, t), t) && g.objs[t].kind.Thread?
    ensures FirstOpen(g, t) !in g.objs[t].openupval[1..]
    ensures forall q :: q in g.objs && q != t ==> FirstOpen(g, t) !in g.objs[q].openupval
  {
    var l := g.objs[t].openupval;
    var u := l[0];
    assert OpenListOk(g, t);
    assert u in l && OpenAt(g, u, t);
    forall j | 0 <= j < |l[1..]| ensures l[1..][j] != u {
      assert l[1..][j] == l[j + 1] && OpenAt(g, l[j + 1], t);
    }
    assert Shaped(g.objs[t]);
    forall q | q in g.objs && q != t ensures u !in g.objs[q].openupval {
      assert OpenListOk(g, q);
      assert u in g.objs[q].openupval ==> OpenAt(g, u, q);
    }
  }

  predicate StillOpen(h: State, u: Ref) {
    u in h.objs && h.objs[u].kind.UpvalOpen?
  }

  ghost predicate OpenOrdered(h: State, q: Ref)
    requires q in h.objs
  {
    var l := h.objs[q].openupval;
    forall i, j :: 0 <= i < j < |l| && OpenAt(h, l[i], q) && OpenAt(h, l[j], q) ==>
      h.objs[l[i]].kind.level > h.objs[l[j]].kind.level
  }

  /** `h` has fewer open upvalues than `g`, and drops them from every list. */
  ghost predicate FewerOpen(g: State, h: State) {
    && (forall u :: u in h.uvhead <==> u in g.uvhead && StillOpen(h, u))
    && (forall r :: r in h.objs ==>
          r in g.objs && h.objs[r].stack == g.objs[r].stack
          && (h.objs[r].kind == g.objs[r].kind || (h.objs[r].kind.UpvalClosed? && g.objs[r].kind.UpvalOpen?)))
    && (forall r :: r in h.objs ==>
          OpenOrdered(h, r) && forall u :: u in h.objs[r].openupval <==> u in g.objs[r].openupval && StillOpen(h, u))
    && (forall r :: StillOpen(h, r) && r in g.objs && g.objs[r].kind.UpvalOpen? ==> g.objs[r].kind.thread in h.objs)
  }

  lemma FewerOpenOk(g: State, h: State)
    requires UpvalsOk(g) && FewerOpen(g, h)
    ensures UpvalsOk(h)
  {
    hide RootListOk;
    forall q | q in h.objs ensures OpenListOk(h, q) {
      assert OpenListOk(g, q);
      forall x | x in h.objs[q].openupval ensures OpenAt(h, x, q) {
        assert OpenAt(g, x, q);
      }
      assert OpenOrdered(h, q);
    }
  }

  /** `h` lacks the first open upvalue of `t`, freed or closed. */
  ghost predicate Without(g: State, t: Ref, h: State)
    requires t in g.objs && g.objs[t].openupval != []
  {
    var u := FirstOpen(g, t);
    && h.uvhead == Remove(g.uvhead, u)
    && (h.objs.Keys == g.objs.Keys || h.objs.Keys == g.objs.Keys - {u})
    && (forall r :: r in h.objs && r != u && r != t ==> h.objs[r] == g.objs[r])
    && t in h.objs && h.objs[t] == g.objs[t].(openupval := g.objs[t].openupval[1..])
    && (u in h.objs ==> h.objs[u].kind.UpvalClosed? && h.objs[u].stack == [] && h.objs[u].openupval == [])
  }

  lemma ListWithout(g: State, t: Ref, h: State, q: Ref)
    requires HasOpen(g, t) && Without(g, t, h) && q in h.objs && q != t && q != FirstOpen(g, t)
    ensures OpenOrdered(h, q)
    ensures forall x :: x in h.objs[q].openupval <==> x in g.objs[q].openupval && StillOpen(h, x)
  {
    hide Kinds;
    var s := g.objs[q].openupval;
    FirstOpenAt(g, t);
    assert OpenListOk(g, q);
    forall x | x in s ensures OpenAt(g, x, q) && OpenAt(h, x, q) {
      assert OpenAt(g, x, q);
    }
    OpenOrder(g, h, q, s, 0);
  }

  lemma OwnListWithout(g: State, t: Ref, h: State)
    requires HasOpen(g, t) && Without(g, t, h)
    ensures OpenOrdered(h, t)
    ensures forall x :: x in h.objs[t].openupval <==> x in g.objs[t].openupval && StillOpen(h, x)
  {
    hide Kinds;
    var s := g.objs[t].openupval;
    var l := s[1..];
    FirstOpenAt(g, t);
    assert OpenListOk(g, t);
    assert forall x :: x in s <==> x == s[0] || x in l;
    forall x | x in l ensures OpenAt(g, x, t) && OpenAt(h, x, t) {
      assert x in s && x != FirstOpen(g, t);
      assert OpenAt(g, x, t);
    }
    OpenOrder(g, h, t, l, 1);
  }

  lemma UpvalsWithout(g: State, t: Ref, h: State)
    requires HasOpen(g, t) && Without(g, t, h)
    ensures UpvalsOk(h)
  {
    hide RootListOk, FirstOpen, Remove, OpenListOk, Distinct;
    var u := FirstOpen(g, t);
    FirstOpenAt(g, t);
    assert Shaped(g.objs[u]);
    forall q | q in h.objs
      ensures OpenOrdered(h, q) && forall x :: x in h.objs[q].openupval <==> x in g.objs[q].openupval && StillOpen(h, x)
    {
      if q == t {
        OwnListWithout(g, t, h);
      } else if q != u {
        ListWithout(g, t, h, q);
      }
    }
    FewerOpenOk(g, h);
  }

  lemma OpenOrder(g: State, h: State, q: Ref, l: seq<Ref>, k: nat)
    requires q in g.objs && q in h.objs && OpenListOk(g, q)
    requires k <= |g.objs[q].openupval| && l == g.objs[q].openupval[k..]
    requires forall x :: x in l ==> OpenAt(h, x, q) && OpenAt(g, x, q) && h.objs[x].kind == g.objs[x].kind
    ensures forall i, j :: 0 <= i < j < |l| && OpenAt(h, l[i], q) && OpenAt(h, l[j], q) ==>
              h.objs[l[i]].kind.level > h.objs[l[j]].kind.level
  {
    var s := g.objs[q].openupval;
    forall i, j | 0 <= i < j < |l| && OpenAt(h, l[i], q) && OpenAt(h, l[j], q)
      ensures h.objs[l[i]].kind.level > h.objs[l[j]].kind.level
    {
      assert l[i] == s[i + k] && l[j] == s[j + k];
      assert OpenAt(g, s[i + k], q) && OpenAt(g, s[j + k], q);
    }
  }

  // ----- freeing the first open upvalue of a thread -----

  function FreeOpen(g: State, t: Ref): State
    requires t in g.objs && g.objs[t].openupval != []
  {
    var g1 := Unlist(g, t);
    g1.(objs := g1.objs - {FirstOpen(g, t)})
  }

  lemma FreeOpenCells(g: State, t: Ref)
    requires t in g.objs && g.objs[t].openupval != []
    ensures var h, u := FreeOpen(g, t), FirstOpen(g, t);
            && h == g.(objs := h.objs, uvhead := h.uvhead) && h.objs.Keys == g.objs.Keys - {u}
            && (forall q :: q in h.objs ==> h.objs[q] == g.objs[q].(openupval := h.objs[q].openupval))
            && (forall q :: q in h.objs && q != t ==> h.objs[q] == g.objs[q])
  {
  }

  lemma FreeOpenKids(g: State, t: Ref, r: Ref)
    requires HasOpen(g, t) && r in FreeOpen(g, t).objs
    ensures Kids(FreeOpen(g, t), r) == Kids(g, r)
  {
    var h := FreeOpen(g, t);
    FirstOpenAt(g, t);
    if g.objs[r].kind.UpvalOpen? {
      assert g.objs[r].kind.thread in h.objs;
    }
    assert OpenRefs(h, h.objs[r]) == OpenRefs(g, g.objs[r]);
  }

  lemma FreeOpenShape(g: State, t: Ref)
    requires WellFormed(g) && LiveClosed(g) && HasOpen(g, t) && IsDead(g, FirstOpen(g, t))
    ensures WellFormed(FreeOpen(g, t))
  {
    hide RootListOk, UpvalsOk, StringsOk, Kinds;
    FirstOpenAt(g, t);
    assert FirstOpen(g, t) !in Roots(g);
    FreeOpenRoots(g, t);
    FreeOpenLists(g, t);
    FreeOpenStrings(g, t);
    UpvalsWithout(g, t, FreeOpen(g, t));
  }

  lemma FreeOpenLists(g: State, t: Ref)
    requires RootListOk(g) && HasOpen(g, t)
    ensures RootListOk(FreeOpen(g, t))
  {
    FirstOpenAt(g, t);
    RootListFrame(g, FreeOpen(g, t));
  }

  lemma FreeOpenStrings(g: State, t: Ref)
    requires StringsOk(g) && HasOpen(g, t)
    ensures StringsOk(FreeOpen(g, t))
  {
    FirstOpenAt(g, t);
    StringsFrame(g, FreeOpen(g, t));
  }

  lemma FreeOpenRoots(g: State, t: Ref)
    requires RootsOk(g) && HasOpen(g, t) && FirstOpen(g, t) !in Roots(g)
    ensures RootsOk(FreeOpen(g, t)) && Kinds(FreeOpen(g, t))
  {
    hide UpvalsOk, FreeOpen, Unlist, Remove;
    FirstOpenAt(g, t);
    FreeOpenCells(g, t);
    assert Shaped(g.objs[t]);
    assert forall x :: x in g.mt || x in g.tmudata ==> x in Roots(g);
  }

  lemma FreeOpenLive(g: State, t: Ref)
    requires LiveClosed(g) && HasOpen(g, t) && IsDead(g, FirstOpen(g, t))
    ensures LiveClosed(FreeOpen(g, t))
  {
    var h := FreeOpen(g, t);
    FirstOpenAt(g, t);
    forall r | IsLive(h, r) ensures IsLive(g, r) && Kids(h, r) == Kids(g, r) {
      FreeOpenKids(g, t, r);
    }
    assert Roots(h) == Roots(g);
    LiveFrame(g, h);
  }

  lemma FreeOpenSweep(g: State, t: Ref)
    requires g.strt != [] && SweepOk(g) && HasOpen(g, t)
    ensures SweepOk(FreeOpen(g, t))
  {
    var h := FreeOpen(g, t);
    FirstOpenAt(g, t);
    forall r | r in h.objs && r !in h.tmudata && !Unswept(h, r) ensures h.objs[r].color == White(h.cur) {
      assert Bucket(h, h.objs[r].text) == Bucket(g, g.objs[r].text);
      assert !Unswept(g, r);
    }
  }

  lemma FreeOpenKeeps(g: State, t: Ref)
    requires Inv(g) && HasOpen(g, t) && IsDead(g, FirstOpen(g, t))
    ensures Inv(FreeOpen(g, t))
  {
    FreeOpenShape(g, t);
    FreeOpenLive(g, t);
    assert g.phase.SweepString? || g.phase.Sweep?;
    FreeOpenSweep(g, t);
  }

  // ----- closing the first open upvalue of a thread -----

  function CloseLive(g: State, t: Ref): State
    requires t in g.objs && g.objs[t].openupval != [] && FirstOpen(g, t) in g.objs
  {
    Closed(Unlist(g, t), FirstOpen(g, t))
  }

  lemma CloseLiveCell(g: State, t: Ref)
    requires HasOpen(g, t)
    ensures var u, h := FirstOpen(g, t), CloseLive(g, t);
            && u != t && h.objs.Keys == g.objs.Keys
            && h.objs[u] == g.objs[u].(kind := UpvalClosed, refs := OpenRefs(g, g.objs[u]),
                                       color := ClosedColor(g, g.objs[u].color))
  {
    var u := FirstOpen(g, t);
    FirstOpenAt(g, t);
    assert OpenRefs(Unlist(g, t), g.objs[u]) == OpenRefs(g, g.objs[u]);
  }

  lemma CloseLiveCells(g: State, t: Ref)
    requires HasOpen(g, t)
    ensures var u, h := FirstOpen(g, t), CloseLive(g, t);
            && u != t && Without(g, t, h) && h.objs.Keys == g.objs.Keys
            && h.objs[u] == g.objs[u].(kind := UpvalClosed, refs := OpenRefs(g, g.objs[u]),
                                       color := ClosedColor(g, g.objs[u].color))
  {
    hide RootListOk, UpvalsOk;
    var u := FirstOpen(g, t);
    CloseLiveCell(g, t);
    assert Shaped(g.objs[u]);
    FirstOpenAt(g, t);
  }

  lemma CloseLiveRefs(g: State, t: Ref, r: Ref)
    requires HasOpen(g, t) && r in g.objs
    ensures var h := CloseLive(g, t);
            Kids(h, r) == Kids(g, r) && Trace(h, r) == Trace(g, r) && StrongKids(h, r) == StrongKids(g, r)
  {
    hide RootListOk, UpvalsOk, CloseLive;
    var u, h := FirstOpen(g, t), CloseLive(g, t);
    FirstOpenAt(g, t);
    CloseLiveCells(g, t);
    if r == u {
      assert Shaped(g.objs[u]);
    } else {
      assert OpenRefs(h, h.objs[r]) == OpenRefs(g, g.objs[r]);
    }
  }

  /** Linking `u` at the head of rootgc, with everything else as it was. */
  lemma LinkedRoot(g: State, h: State, u: Ref)
    requires RootListOk(g) && h.rootgc == [u] + g.rootgc && h.tmudata == g.tmudata && h.main == g.main
    requires u !in g.rootgc && u !in g.tmudata
    requires u in h.objs && !h.objs[u].kind.Str? && !h.objs[u].kind.UpvalOpen?
    requires forall r :: r in g.objs && r != u ==> r in h.objs && h.objs[r].kind == g.objs[r].kind
    requires forall r :: r in h.objs && r != u ==> r in g.objs
    ensures RootListOk(h)
  {
    LinkedList(g.rootgc, u);
    forall i, j | 0 <= i < j < |h.rootgc| && h.rootgc[i] == h.main
      ensures h.rootgc[j] in h.objs && h.objs[h.rootgc[j]].kind.Udata?
    {
      assert h.rootgc[j] == g.rootgc[j - 1];
      assert i > 0;
      assert h.rootgc[i] == g.rootgc[i - 1];
    }
  }

  lemma CloseLiveLists(g: State, t: Ref)
    requires RootListOk(g) && HasOpen(g, t) && FirstOpen(g, t) !in g.tmudata
    ensures RootListOk(CloseLive(g, t))
  {
    FirstOpenAt(g, t);
    CloseLiveCells(g, t);
    LinkedRoot(g, CloseLive(g, t), FirstOpen(g, t));
  }

  lemma CloseLiveRoots(g: State, t: Ref)
    requires RootsOk(g) && HasOpen(g, t)
    ensures RootsOk(CloseLive(g, t)) && FirstOpen(g, t) !in g.tmudata
  {
    FirstOpenAt(g, t);
    CloseLiveCells(g, t);
  }

  lemma LinkedList(s: seq<Ref>, u: Ref)
    requires Distinct(s) && u !in s
    ensures Distinct([u] + s)
  {
    var t := [u] + s;
    assert forall i :: 1 <= i < |t| ==> t[i] == s[i - 1];
  }

  lemma CloseLiveStrings(g: State, t: Ref)
    requires StringsOk(g) && HasOpen(g, t)
    ensures StringsOk(CloseLive(g, t))
  {
    var h := CloseLive(g, t);
    FirstOpenAt(g, t);
    CloseLiveCells(g, t);
    assert forall r :: r in g.objs ==> IsText(h, r) == IsText(g, r) && h.objs[r].text == g.objs[r].text;
    StringsFrame(g, h);
  }

  lemma CloseLiveShape(g: State, t: Ref)
    requires WellFormed(g) && HasOpen(g, t)
    ensures WellFormed(CloseLive(g, t))
  {
    CloseLiveRoots(g, t);
    CloseLiveLists(g, t);
    CloseLiveStrings(g, t);
    CloseLiveKinds(g, t);
    CloseLiveCells(g, t);
    UpvalsWithout(g, t, CloseLive(g, t));
  }

  lemma CloseLiveKinds(g: State, t: Ref)
    requires HasOpen(g, t)
    ensures Kinds(CloseLive(g, t))
  {
    hide UpvalsOk;
    var u, h := FirstOpen(g, t), CloseLive(g, t);
    FirstOpenAt(g, t);
    CloseLiveCells(g, t);
    assert Shaped(g.objs[u]) && Shaped(g.objs[t]);
  }

  lemma CloseLiveLive(g: State, t: Ref)
    requires LiveClosed(g) && HasOpen(g, t) && IsLive(g, FirstOpen(g, t))
    ensures LiveClosed(CloseLive(g, t))
  {
    var h := CloseLive(g, t);
    CloseLiveCells(g, t);
    forall r | IsLive(h, r) ensures IsLive(g, r) && Kids(h, r) == Kids(g, r) {
      CloseLiveRefs(g, t, r);
    }
    assert Roots(h) == Roots(g);
    LiveFrame(g, h);
  }

  lemma CloseLiveSweep(g: State, t: Ref)
    requires g.strt != [] && SweepOk(g) && HasOpen(g, t) && IsLive(g, FirstOpen(g, t)) && !g.phase.Propagate?
    ensures SweepOk(CloseLive(g, t))
  {
    var u, h := FirstOpen(g, t), CloseLive(g, t);
    FirstOpenAt(g, t);
    CloseLiveCells(g, t);
    assert h.rootgc[h.sweepgc..] == (if g.sweepgc > 0 then [] else [u]) + g.rootgc[g.sweepgc..];
    forall r | r in h.objs && r !in h.tmudata && !Unswept(h, r) ensures h.objs[r].color == White(h.cur) {
      if r == u {
        assert !g.objs[u].color.Black?;
      } else {
        assert Bucket(h, h.objs[r].text) == Bucket(g, g.objs[r].text);
        assert !Unswept(g, r);
      }
    }
  }

  // ----- closing during the mark phase -----

  lemma CloseLiveColors(g: State, t: Ref)
    requires HasOpen(g, t) && g.phase.Propagate?
    ensures var u, h := FirstOpen(g, t), CloseLive(g, t);
            && h.objs.Keys == g.objs.Keys && (forall r :: NonWhite(h, r) == NonWhite(g, r))
            && (forall r :: r in g.objs && r != u ==>
                  h.objs[r].color == g.objs[r].color && h.objs[r].kind == g.objs[r].kind)
            && h.objs[u].kind.UpvalClosed?
  {
    FirstOpenAt(g, t);
    CloseLiveCells(g, t);
  }

  lemma CloseLiveMarkRefs(g: State, t: Ref, e: Slack)
    requires HasOpen(g, t) && g.phase.Propagate? && NoDangling(g) && Within(g, e.within)
    requires Tri(g, e.black) && Open(g, e.open)
    ensures var h := CloseLive(g, t);
            NoDangling(h) && Within(h, e.within) && Tri(h, e.black + {FirstOpen(g, t)}) && Open(h, e.open)
  {
    hide RootListOk, UpvalsOk, Kinds, CloseLive, Kids, Trace;
    var h := CloseLive(g, t);
    CloseLiveColors(g, t);
    forall r | r in g.objs ensures Kids(h, r) == Kids(g, r) && Trace(h, r) == Trace(g, r) {
      CloseLiveRefs(g, t, r);
    }
  }

  lemma CloseLiveMarkLists(g: State, t: Ref, e: Slack)
    requires HasOpen(g, t) && g.phase.Propagate? && Again(g, e.again) && Weak(g, e.weak)
    ensures var h := CloseLive(g, t);
            Again(h, e.again) && Weak(h, e.weak)
  {
    hide RootListOk, UpvalsOk;
    var h := CloseLive(g, t);
    CloseLiveColors(g, t);
    forall r | r in g.objs ensures Kids(h, r) == Kids(g, r) && StrongKids(h, r) == StrongKids(g, r) {
      CloseLiveRefs(g, t, r);
    }
  }

  lemma CloseLiveListed(g: State, t: Ref)
    requires HasOpen(g, t) && Lists(g)
    ensures Lists(CloseLive(g, t))
  {
    hide UpvalsOk;
    var h := CloseLive(g, t);
    FirstOpenAt(g, t);
    CloseLiveCells(g, t);
    assert Listed(h) == Listed(g);
  }

  lemma CloseLiveMarks(g: State, t: Ref, e: Slack)
    requires HasOpen(g, t) && g.phase.Propagate? && MarkInv(g, e)
    ensures MarkInv(CloseLive(g, t), e.(black := e.black + {FirstOpen(g, t)}))
  {
    CloseLiveMarkRefs(g, t, e);
    CloseLiveMarkLists(g, t, e);
    CloseLiveListed(g, t);
    CloseLiveKinds(g, t);
  }

  /** The barrier of luaC_linkupval restores the mark invariant. */
  lemma CloseGrayMarks(g: State, t: Ref, e: Slack)
    requires HasOpen(g, t) && g.phase.Propagate? && MarkInv(g, e) && g.objs[FirstOpen(g, t)].color.Gray?
    ensures var u, h := FirstOpen(g, t), CloseLive(g, t);
            u in h.objs && MarkInv(MarkAll(h, h.objs[u].refs), e)
  {
    hide RootListOk, UpvalsOk, Lists;
    var u, h := FirstOpen(g, t), CloseLive(g, t);
    CloseLiveMarks(g, t, e);
    CloseLiveColors(g, t);
    var e1 := e.(black := e.black + {u});
    assert Shaped(h.objs[u]) && NonWhite(h, u);
    TraceOfInner(h, u);
    MarkAllInv(h, h.objs[u].refs, e1);
    var k := MarkAll(h, h.objs[u].refs);
    MarksKeepRefs(h, k, u);
    assert AllNonWhite(k, Trace(k, u));
    assert MarkInv(k, e);
  }

  lemma CloseWhiteMarks(g: State, t: Ref, e: Slack)
    requires HasOpen(g, t) && g.phase.Propagate? && MarkInv(g, e) && !g.objs[FirstOpen(g, t)].color.Gray?
    ensures MarkInv(CloseLive(g, t), e)
  {
    CloseLiveMarks(g, t, e);
    CloseLiveColors(g, t);
    FirstOpenAt(g, t);
    assert g.objs[FirstOpen(g, t)].color.White?;
  }

  lemma CloseOneCases(g: State, t: Ref)
    requires HasOpen(g, t)
    ensures var u, h := FirstOpen(g, t), CloseLive(g, t);
            CloseOne(g, t) == if IsDead(g, u) then FreeOpen(g, t)
                              else if g.objs[u].color.Gray? && g.phase.Propagate? then MarkAll(h, h.objs[u].refs)
                              else h
  {
  }

  lemma CloseGray(g: State, t: Ref)
    requires WellFormed(g) && NoDead(g) && g.phase.Propagate? && PropagateOk(g) && HasOpen(g, t)
    requires g.objs[FirstOpen(g, t)].color.Gray?
    ensures Inv(CloseOne(g, t))
  {
    var u, h := FirstOpen(g, t), CloseLive(g, t);
    var k := MarkAll(h, h.objs[u].refs);
    CloseOneCases(g, t);
    CloseLiveShape(g, t);
    CloseNoDead(g, t);
    CloseLiveColors(g, t);
    CloseGrayMarks(g, t, MutatorSlack(g));
    assert MutatorSlack(k) == MutatorSlack(g) by { CloseLiveCells(g, t); }
    MarkedKeeps(h, k);
  }

  /** Further marking keeps the invariant of the mark phase. */
  lemma MarkedKeeps(h: State, k: State)
    requires WellFormed(h) && NoDead(h) && h.phase.Propagate? && Marks(h, k)
    requires MarkInv(k, MutatorSlack(k)) && NonWhite(h, h.main) && NonWhite(h, h.registry)
    ensures Inv(k)
  {
    MarksScans(h, k);
    SameShapeKeeps(h, k);
    DarkensNoDead(h, k);
    NoDeadClosed(k);
  }

  lemma CloseWhite(g: State, t: Ref)
    requires WellFormed(g) && NoDead(g) && g.phase.Propagate? && PropagateOk(g) && HasOpen(g, t)
    requires !g.objs[FirstOpen(g, t)].color.Gray?
    ensures Inv(CloseOne(g, t))
  {
    var h := CloseLive(g, t);
    CloseOneCases(g, t);
    CloseLiveShape(g, t);
    CloseNoDead(g, t);
    CloseLiveColors(g, t);
    CloseWhiteMarks(g, t, MutatorSlack(g));
    assert MutatorSlack(h) == MutatorSlack(g) by { CloseLiveCells(g, t); }
    MarkedKeeps(h, h);
  }

  lemma CloseNoDead(g: State, t: Ref)
    requires HasOpen(g, t) && NoDead(g)
    ensures NoDead(CloseLive(g, t))
  {
    CloseLiveCells(g, t);
    forall r | r in g.objs ensures !IsDead(CloseLive(g, t), r) {
      assert !IsDead(g, r);
    }
  }

  lemma CloseAllWhite(g: State, t: Ref)
    requires HasOpen(g, t) && AllWhite(g) && FirstOpen(g, t) !in g.tmudata
    ensures AllWhite(CloseLive(g, t))
  {
    CloseLiveCells(g, t);
  }

  lemma CloseIdle(g: State, t: Ref)
    requires Inv(g) && (g.phase.Pause? || g.phase.Finalize?) && HasOpen(g, t)
    ensures Inv(CloseOne(g, t))
  {
    assert !IsDead(g, FirstOpen(g, t));
    CloseOneCases(g, t);
    CloseLiveShape(g, t);
    CloseLiveRoots(g, t);
    CloseNoDead(g, t);
    CloseLiveLive(g, t);
    CloseAllWhite(g, t);
  }

  lemma CloseSweeping(g: State, t: Ref)
    requires Inv(g) && (g.phase.SweepString? || g.phase.Sweep?) && HasOpen(g, t)
    ensures Inv(CloseOne(g, t))
  {
    FirstOpenAt(g, t);
    CloseOneCases(g, t);
    if IsDead(g, FirstOpen(g, t)) {
      FreeOpenKeeps(g, t);
    } else {
      CloseLiveShape(g, t);
      CloseLiveLive(g, t);
      CloseLiveSweep(g, t);
    }
  }

  lemma CloseOneList(g: State, t: Ref)
    requires HasOpen(g, t)
    ensures t in CloseOne(g, t).objs && CloseOne(g, t).objs[t].openupval == g.objs[t].openupval[1..]
  {
    FirstOpenAt(g, t);
    CloseOneCases(g, t);
    CloseLiveCells(g, t);
  }

  /** Closing an upvalue keeps the invariant in every phase. */
  lemma CloseOneKeeps(g: State, t: Ref)
    requires Inv(g) && t in g.objs && g.objs[t].openupval != []
    ensures Inv(CloseOne(g, t)) && t in CloseOne(g, t).objs
    ensures CloseOne(g, t).objs[t].openupval == g.objs[t].openupval[1..]
  {
    hide RootListOk, Kinds;
    assert HasOpen(g, t) by {
      assert OpenListOk(g, t);
      assert OpenAt(g, FirstOpen(g, t), t);
    }
    CloseOneList(g, t);
    match g.phase
    case Pause => CloseIdle(g, t);
    case Finalize => CloseIdle(g, t);
    case Propagate =>
      if g.objs[FirstOpen(g, t)].color.Gray? {
        CloseGray(g, t);
      } else {
        CloseWhite(g, t);
      }
    case SweepString => CloseSweeping(g, t);
    case Sweep => CloseSweeping(g, t);
  }

  // ----- luaF_close -----

  function LevelOf(g: State, u: Ref): nat {
    if u in g.objs && g.objs[u].kind.UpvalOpen? then g.objs[u].kind.level else 0
  }

  function CloseUpvals(g: State, t: Ref, level: nat): (h: State)
    requires Inv(g) && t in g.objs
    ensures Inv(h) && t in h.objs
    ensures level == 0 ==> h.objs[t].openupval == []
    ensures h.objs[t].openupval != [] ==> LevelOf(h, h.objs[t].openupval[0]) < level
    decreases |g.objs[t].openupval|
  {
    if g.objs[t].openupval != [] && LevelOf(g, g.objs[t].openupval[0]) >= level then
      CloseOneKeeps(g, t);
      CloseUpvals(CloseOne(g, t), t, level)
    else g
  }
}
