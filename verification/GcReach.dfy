/** What the marking of a collection reaches, and what it does to the slots of tables
    and to the lists of weak tables. */
module GcStrong {
  import opened LuaHeap
  import opened GcMark
  import opened GcState
  import opened GcPropagate
  import opened GcAtomic
  import opened GcFinish

  // ----- marking stays among what is strongly reachable -----

  /** A set that strong references do not lead out of, except from `b`. */
  ghost predicate StrongClosed(g: State, w: set<Ref>, b: set<Ref>) {
    forall r, x :: r in w && r !in b && r in g.objs && x in StrongKids(g, r) ==> x in w
  }

  /** Everything marked is in `w`, or in `b`, which was marked before. */
  ghost predicate Bounded(g: State, w: set<Ref>, b: set<Ref>) {
    && (forall r :: NonWhite(g, r) ==> r in w || r in b)
    && (forall r :: r in b ==> NonWhite(g, r))
  }

  ghost predicate In(s: seq<Ref>, w: set<Ref>) {
    forall x :: x in s ==> x in w
  }

  function ShadeColor(k: Kind): Color {
    if k.Udata? || k.UpvalClosed? then Black else Gray
  }

  ghost predicate Shades(g: State, h: State) {
    && h.objs.Keys == g.objs.Keys
    && forall r :: r in g.objs ==>
         h.objs[r].color == g.objs[r].color
         || (g.objs[r].color.White? && h.objs[r].color == ShadeColor(g.objs[r].kind))
  }

  lemma ShadesTrans(g: State, h: State, k: State)
    requires Shades(g, h) && Shades(h, k) && Marks(g, h)
    ensures Shades(g, k)
  {
  }

  lemma InnerStrong(g: State, r: Ref)
    requires r in g.objs
    ensures forall x :: x in Inner(g, r) ==> x in StrongKids(g, r)
  {
  }

  lemma MarksClosed(g: State, h: State, w: set<Ref>, b: set<Ref>)
    requires Marks(g, h) && StrongClosed(g, w, b)
    ensures StrongClosed(h, w, b)
  {
    hide StrongKids;
    forall r, x | r in w && r !in b && r in h.objs && x in StrongKids(h, r) ensures x in w {
      MarksKeepRefs(g, h, r);
    }
  }

  lemma ShadeBounded(g: State, r: Ref, w: set<Ref>, b: set<Ref>)
    requires IsWhite(g, r) && r in w && Bounded(g, w, b)
    ensures Bounded(Shade(g, r), w, b) && Shades(g, Shade(g, r))
  {
  }

  lemma {:induction false} ReallyMarkBounded(g: State, r: Ref, w: set<Ref>, b: set<Ref>)
    requires IsWhite(g, r) && r in w && StrongClosed(g, w, b) && Bounded(g, w, b)
    ensures Bounded(ReallyMark(g, r), w, b) && Shades(g, ReallyMark(g, r))
    decreases |Whites(g)|, 0
  {
    hide StrongClosed, Bounded, Shades;
    var g1 := Shade(g, r);
    WhitesDrop(g, g1, r);
    ShadeBounded(g, r, w, b);
    MarksClosed(g, g1, w, b);
    InnerIn(g, r, w, b);
    MarkAllBounded(g1, Inner(g, r), w, b);
    ShadesTrans(g, g1, MarkAll(g1, Inner(g, r)));
  }

  lemma InnerIn(g: State, r: Ref, w: set<Ref>, b: set<Ref>)
    requires IsWhite(g, r) && r in w && StrongClosed(g, w, b) && Bounded(g, w, b)
    ensures In(Inner(g, r), w)
  {
    InnerStrong(g, r);
  }

  lemma {:induction false} MarkAllBounded(g: State, s: seq<Ref>, w: set<Ref>, b: set<Ref>)
    requires In(s, w) && StrongClosed(g, w, b) && Bounded(g, w, b)
    ensures Bounded(MarkAll(g, s), w, b) && Shades(g, MarkAll(g, s))
    decreases |Whites(g)|, 2, |s|
  {
    if s == [] {
    } else {
      hide StrongClosed, Bounded, Shades;
      assert s[0] in s && In(s[1..], w);
      var g1 := Mark(g, s[0]);
      if IsWhite(g, s[0]) {
        ReallyMarkBounded(g, s[0], w, b);
      } else {
        ShadesSelf(g);
      }
      WhitesShrink(g, g1);
      MarksClosed(g, g1, w, b);
      MarkAllBounded(g1, s[1..], w, b);
      ShadesTrans(g, g1, MarkAll(g1, s[1..]));
    }
  }

  lemma ShadesSelf(g: State)
    ensures Shades(g, g)
  {
  }

  // ----- slots, and colours of tables -----

  /** A node without a value may lose its key. */
  predicate TidySlot(e: Slot, f: Slot) {
    f == e || (e.val.Nil? && e.key.KObj? && f == e.(key := Dead))
  }

  ghost predicate Tidy(s: seq<Slot>, t: seq<Slot>) {
    |t| == |s| && forall i :: 0 <= i < |s| ==> TidySlot(s[i], t[i])
  }

  /** What marking does to an object; a weak table does not become black. */
  ghost predicate TendsCell(c: Cell, d: Cell) {
    && d == c.(color := d.color, slots := d.slots) && Tidy(c.slots, d.slots)
    && (c.color.Black? ==> d.color.Black?)
    && (c.color.Gray? ==> !d.color.White?)
    && (d.color.Black? && IsWeak(c) ==> c.color.Black?)
  }

  ghost predicate Tends(g: State, h: State) {
    && h.objs.Keys == g.objs.Keys && h.tmudata == g.tmudata && h.rootgc == g.rootgc
    && h.main == g.main && h.cur == g.cur
    && forall r :: r in g.objs ==> TendsCell(g.objs[r], h.objs[r])
  }

  lemma TendsTrans(g: State, h: State, k: State)
    requires Tends(g, h) && Tends(h, k)
    ensures Tends(g, k)
  {
    forall r | r in g.objs ensures TendsCell(g.objs[r], k.objs[r]) {
      TendsCellTrans(g.objs[r], h.objs[r], k.objs[r]);
    }
  }

  lemma TendsCellTrans(c: Cell, d: Cell, e: Cell)
    requires TendsCell(c, d) && TendsCell(d, e)
    ensures TendsCell(c, e)
  {
    forall i | 0 <= i < |c.slots| ensures TidySlot(c.slots[i], e.slots[i]) {
      assert TidySlot(c.slots[i], d.slots[i]) && TidySlot(d.slots[i], e.slots[i]);
    }
  }

  /** The weak list holds weak tables only, and no table waits to be traversed again. */
  ghost predicate WeakOnly(g: State) {
    forall r :: r in g.weak ==> r in g.objs && IsWeak(g.objs[r])
  }

  ghost predicate NoTablesAgain(g: State) {
    forall r :: r in g.grayagain ==> r in g.objs && !g.objs[r].kind.Table?
  }

  lemma MarksTend(g: State, h: State)
    requires Marks(g, h) && Shades(g, h)
    ensures Tends(g, h) && h.weak == g.weak && h.grayagain == g.grayagain
  {
    forall r | r in g.objs ensures TendsCell(g.objs[r], h.objs[r]) {
    }
  }

  /** Any marking only shades. */
  lemma MarkAllShades(g: State, s: seq<Ref>)
    ensures Shades(g, MarkAll(g, s))
  {
    hide StrongClosed, Bounded;
    var all := g.objs.Keys + (set x | x in s) + set r, x | r in g.objs && x in StrongKids(g, r) :: x;
    AllClosed(g, s, all);
    MarkAllBounded(g, s, all, {});
  }

  lemma AllClosed(g: State, s: seq<Ref>, all: set<Ref>)
    requires all == g.objs.Keys + (set x | x in s) + set r, x | r in g.objs && x in StrongKids(g, r) :: x
    ensures StrongClosed(g, all, {}) && Bounded(g, all, {}) && In(s, all)
  {
  }

  lemma MarkAllTends(g: State, s: seq<Ref>)
    ensures Tends(g, MarkAll(g, s)) && MarkAll(g, s).weak == g.weak && MarkAll(g, s).grayagain == g.grayagain
  {
    hide Shades;
    MarkAllShades(g, s);
    MarksTend(g, MarkAll(g, s));
  }

  lemma {:induction false} CleanedAt(s: seq<Slot>, i: nat)
    requires i < |s|
    ensures CleanSlots(s)[i] == CleanSlot(s[i])
  {
    if i < |s| - 1 {
      CleanedAt(s[..|s| - 1], i);
    }
  }

  lemma ScannedTends(c: Cell)
    requires c.color.Gray?
    ensures TendsCell(c, Scanned(c))
  {
    forall i | 0 <= i < |c.slots| ensures TidySlot(c.slots[i], Scanned(c).slots[i]) {
      CleanedAt(c.slots, i);
    }
  }

  lemma PopTends(g: State)
    requires Lists(g) && g.gray != [] && g.gray[0] in g.objs
    ensures Tends(g, Pop(g))
    ensures WeakOnly(g) ==> WeakOnly(Pop(g))
    ensures NoTablesAgain(g) ==> NoTablesAgain(Pop(g))
  {
    assert g.gray[0] in Listed(g);
    var h := Pop(g);
    ScannedTends(g.objs[g.gray[0]]);
    forall r | r in g.objs ensures TendsCell(g.objs[r], h.objs[r]) {
      if r != g.gray[0] {
        assert h.objs[r] == g.objs[r];
      }
    }
  }

  lemma TendsLists(g: State, h: State)
    requires Tends(g, h) && h.weak == g.weak && h.grayagain == g.grayagain
    ensures WeakOnly(g) ==> WeakOnly(h)
    ensures NoTablesAgain(g) ==> NoTablesAgain(h)
  {
    forall r | r in g.objs ensures h.objs[r].kind == g.objs[r].kind && IsWeak(h.objs[r]) == IsWeak(g.objs[r]) {
      assert TendsCell(g.objs[r], h.objs[r]);
    }
  }

  lemma PropagateTends(g: State)
    requires Lists(g) && g.gray != [] && g.gray[0] in g.objs
    ensures Tends(g, PropagateMark(g))
    ensures WeakOnly(g) ==> WeakOnly(PropagateMark(g))
    ensures NoTablesAgain(g) ==> NoTablesAgain(PropagateMark(g))
  {
    hide Tends, WeakOnly, NoTablesAgain;
    PopTends(g);
    MarkAllTends(Pop(g), StrongKids(g, g.gray[0]));
    TendsTrans(g, Pop(g), PropagateMark(g));
    TendsLists(Pop(g), PropagateMark(g));
  }

  lemma {:induction false} PropagateAllTends(g: State)
    requires Basic(g)
    ensures Tends(g, PropagateAll(g))
    ensures WeakOnly(g) ==> WeakOnly(PropagateAll(g))
    ensures NoTablesAgain(g) ==> NoTablesAgain(PropagateAll(g))
    decreases |Whites(g)|, |g.gray|
  {
    hide Tends, WeakOnly, NoTablesAgain;
    if g.gray == [] {
      TendsSelf(g);
    } else {
      assert g.gray[0] in Listed(g);
      PropagateScans(g);
      PropagateMeasure(g);
      PropagateTends(g);
      PropagateAllTends(PropagateMark(g));
      TendsTrans(g, PropagateMark(g), PropagateAll(g));
    }
  }

  lemma TendsSelf(g: State)
    ensures Tends(g, g)
  {
  }

  // ----- the stages of the atomic step -----

  lemma {:induction false} RemarkUpvalsTends(g: State, l: seq<Ref>)
    ensures Tends(g, RemarkUpvals(g, l)) && RemarkUpvals(g, l).weak == g.weak
    ensures RemarkUpvals(g, l).grayagain == g.grayagain
    decreases |l|
  {
    hide Tends;
    if l == [] {
      TendsSelf(g);
    } else if l[0] in g.objs && g.objs[l[0]].color.Gray? {
      var h := MarkAll(g, OpenRefs(g, g.objs[l[0]]));
      MarkAllTends(g, OpenRefs(g, g.objs[l[0]]));
      RemarkUpvalsTends(h, l[1..]);
      TendsTrans(g, h, RemarkUpvals(g, l));
    } else {
      RemarkUpvalsTends(g, l[1..]);
    }
  }

  lemma UpvalsTends(g: State)
    requires Basic(g) && UpvalsListed(g)
    ensures Tends(g, Upvals(g))
  {
    hide Tends;
    var k := RemarkUpvals(g, g.uvhead);
    AnyMarkInv(g);
    UpvalsInv(g, AnySlack(g));
    RemarkUpvalsTends(g, g.uvhead);
    PropagateAllTends(k);
    TendsTrans(g, k, Upvals(g));
  }

  lemma TakeTends(g: State)
    ensures Tends(g, TakeWeak(g)) && Tends(g, TakeAgain(g))
  {
  }

  lemma WeakAgainTends(g: State)
    requires Basic(g) && g.gray == [] && forall x :: x in [g.running] + g.mt ==> x in g.objs
    ensures Tends(g, WeakAgain(g)) && WeakOnly(WeakAgain(g))
  {
    hide Tends, WeakOnly, NoTablesAgain;
    var g1, s := TakeWeak(g), [g.running] + g.mt;
    var k := MarkAll(g1, s);
    AnyMarkInv(g);
    WeakAgainInv(g, AnySlack(g));
    TakeTends(g);
    MarkAllTends(g1, s);
    NoneWeak(k);
    PropagateAllTends(k);
    TendsTrans(g, g1, k);
    TendsTrans(g, k, WeakAgain(g));
  }

  lemma NoneWeak(g: State)
    requires g.weak == []
    ensures WeakOnly(g)
  {
  }

  lemma NoneAgain(g: State)
    requires g.grayagain == []
    ensures NoTablesAgain(g)
  {
  }

  lemma GrayAgainTends(g: State)
    requires Basic(g) && g.gray == [] && WeakOnly(g)
    ensures Tends(g, GrayAgain(g)) && WeakOnly(GrayAgain(g)) && NoTablesAgain(GrayAgain(g))
  {
    hide Tends, NoTablesAgain;
    var k := TakeAgain(g);
    AnyMarkInv(g);
    TakeInv(g, AnySlack(g));
    TakeTends(g);
    NoneAgain(k);
    PropagateAllTends(k);
    TendsTrans(g, k, GrayAgain(g));
  }

  lemma RemarkTends(g: State)
    requires Ready(g)
    ensures Tends(g, Remark(g)) && WeakOnly(Remark(g)) && NoTablesAgain(Remark(g))
  {
    hide Tends, WeakOnly, NoTablesAgain;
    var g1 := Upvals(g);
    UpvalsTends(g);
    var g2 := WeakAgain(g1);
    WeakAgainTends(g1);
    GrayAgainTends(g2);
    TendsTrans(g, g1, g2);
    TendsTrans(g, g2, Remark(g));
  }

  lemma MarkOneTmuTends(g: State, u: Ref)
    requires u in g.objs && g.objs[u].kind.Udata?
    ensures var h := MarkOneTmu(g, u); Tends(g, h) && h.weak == g.weak && h.grayagain == g.grayagain
  {
    var g1 := SetColor(g, u, Black);
    assert Tends(g, g1);
    MarkAllTends(g1, g.objs[u].refs);
    TendsTrans(g, g1, MarkOneTmu(g, u));
  }

  lemma {:induction false} MarkTmuTends(g: State, l: seq<Ref>)
    requires forall u :: u in l ==> u in g.objs && g.objs[u].kind.Udata?
    ensures var h := MarkTmu(g, l); Tends(g, h) && h.weak == g.weak && h.grayagain == g.grayagain
    decreases |l|
  {
    if l == [] {
      TendsSelf(g);
    } else {
      var h := MarkOneTmu(g, l[0]);
      MarkOneTmuTends(g, l[0]);
      forall u | u in l[1..] ensures u in h.objs && h.objs[u].kind.Udata? {
        assert u in l && TendsCell(g.objs[u], h.objs[u]);
      }
      MarkTmuTends(h, l[1..]);
      TendsTrans(g, h, MarkTmu(g, l));
    }
  }

  lemma PreserveTends(g: State)
    requires Basic(g) && g.gray == [] && RootsOk(g) && WeakOnly(g) && NoTablesAgain(g)
    ensures Tends(g, Preserve(g)) && WeakOnly(Preserve(g)) && NoTablesAgain(Preserve(g))
  {
    hide Tends, WeakOnly, NoTablesAgain;
    var k := MarkTmu(g, g.tmudata);
    AnyMarkInv(g);
    MarkTmuInv(g, g.tmudata, AnySlack(g));
    MarkTmuTends(g, g.tmudata);
    TendsLists(g, k);
    PropagateAllTends(k);
    TendsTrans(g, k, Preserve(g));
  }

  // ----- all stages stay within a closed set -----

  ghost predicate Udatas(g: State, b: set<Ref>) {
    forall r :: r in b && r in g.objs ==> g.objs[r].kind.Udata?
  }

  ghost predicate Held(g: State, w: set<Ref>, b: set<Ref>) {
    StrongClosed(g, w, b) && Bounded(g, w, b) && Udatas(g, b)
  }

  lemma ScansClosed(g: State, h: State, w: set<Ref>, b: set<Ref>)
    requires Scans(g, h) && StrongClosed(g, w, b) && Udatas(g, b)
    ensures StrongClosed(h, w, b) && Udatas(h, b)
  {
    hide StrongKids;
    SameKinds(g, h);
    forall r, x | r in w && r !in b && r in h.objs && x in StrongKids(h, r) ensures x in w {
      assert StrongKids(h, r) == StrongKids(g, r);
    }
  }

  lemma MarkAllHeld(g: State, s: seq<Ref>, w: set<Ref>, b: set<Ref>)
    requires Kinds(g) && Held(g, w, b) && In(s, w)
    ensures Held(MarkAll(g, s), w, b)
  {
    hide StrongClosed, Bounded, Udatas;
    MarkAllBounded(g, s, w, b);
    MarksScans(g, MarkAll(g, s));
    ScansClosed(g, MarkAll(g, s), w, b);
  }

  lemma PopHeld(g: State, w: set<Ref>, b: set<Ref>)
    requires Basic(g) && Held(g, w, b) && g.gray != [] && g.gray[0] in g.objs
    ensures Held(Pop(g), w, b) && In(StrongKids(g, g.gray[0]), w)
  {
    hide StrongKids, Kinds;
    var r := g.gray[0];
    assert r in Listed(g) && NonWhite(g, r) && r !in b;
    PopScans(g);
    ScansClosed(g, Pop(g), w, b);
    forall q ensures NonWhite(Pop(g), q) <==> NonWhite(g, q) {
      PopColors(g, q);
    }
  }

  lemma PropagateHeld(g: State, w: set<Ref>, b: set<Ref>)
    requires Basic(g) && Held(g, w, b) && g.gray != [] && g.gray[0] in g.objs
    ensures Held(PropagateMark(g), w, b)
  {
    hide Held;
    PopHeld(g, w, b);
    PopKinds(g);
    MarkAllHeld(Pop(g), StrongKids(g, g.gray[0]), w, b);
  }

  lemma {:induction false} PropagateAllHeld(g: State, w: set<Ref>, b: set<Ref>)
    requires Basic(g) && Held(g, w, b)
    ensures Held(PropagateAll(g), w, b)
    decreases |Whites(g)|, |g.gray|
  {
    hide Held;
    if g.gray != [] {
      assert g.gray[0] in Listed(g);
      PropagateScans(g);
      PropagateMeasure(g);
      PropagateHeld(g, w, b);
      PropagateAllHeld(PropagateMark(g), w, b);
    }
  }

  lemma OpenIn(g: State, u: Ref, w: set<Ref>, b: set<Ref>)
    requires u in g.objs && g.objs[u].color.Gray? && g.objs[u].kind.UpvalOpen? && Held(g, w, b)
    ensures In(OpenRefs(g, g.objs[u]), w)
  {
    assert NonWhite(g, u) && u !in b;
    assert forall x :: x in OpenRefs(g, g.objs[u]) ==> x in StrongKids(g, u);
  }

  lemma {:induction false} RemarkUpvalsHeld(g: State, l: seq<Ref>, w: set<Ref>, b: set<Ref>)
    requires Basic(g) && Held(g, w, b) && forall u :: u in l && u in g.objs ==> g.objs[u].kind.UpvalOpen?
    ensures Held(RemarkUpvals(g, l), w, b)
    decreases |l|
  {
    hide Held;
    if l != [] {
      assert forall u :: u in l[1..] ==> u in l;
      if l[0] in g.objs && g.objs[l[0]].color.Gray? {
        var h := MarkAll(g, OpenRefs(g, g.objs[l[0]]));
        OpenIn(g, l[0], w, b);
        OpenThere(g, l[0]);
        MarkAllHeld(g, OpenRefs(g, g.objs[l[0]]), w, b);
        MarkedBasic(g, OpenRefs(g, g.objs[l[0]]));
        RemarkUpvalsHeld(h, l[1..], w, b);
      } else {
        RemarkUpvalsHeld(g, l[1..], w, b);
      }
    }
  }

  lemma MarkedBasic(g: State, s: seq<Ref>)
    requires Basic(g) && forall x :: x in s ==> x in g.objs
    ensures Basic(MarkAll(g, s))
    ensures forall u :: u in g.objs ==> MarkAll(g, s).objs[u].kind == g.objs[u].kind
  {
    hide Lists, Kinds, NoDangling;
    var h := MarkAll(g, s);
    AnyMarkInv(g);
    MarkAllInv(g, s, AnySlack(g));
    forall u | u in g.objs ensures h.objs[u].kind == g.objs[u].kind {
      assert h.objs[u] == g.objs[u].(color := h.objs[u].color);
    }
  }

  lemma OpenThere(g: State, u: Ref)
    requires NoDangling(g) && u in g.objs
    ensures forall x :: x in OpenRefs(g, g.objs[u]) ==> x in g.objs
  {
    forall x | x in OpenRefs(g, g.objs[u]) ensures x in g.objs {
      assert x in Kids(g, u);
    }
  }

  lemma UpvalsHeld(g: State, w: set<Ref>, b: set<Ref>)
    requires Basic(g) && UpvalsListed(g) && Held(g, w, b)
    ensures Held(Upvals(g), w, b)
  {
    hide Held;
    AnyMarkInv(g);
    UpvalsInv(g, AnySlack(g));
    RemarkUpvalsHeld(g, g.uvhead, w, b);
    PropagateAllHeld(RemarkUpvals(g, g.uvhead), w, b);
  }

  lemma TakeHeld(g: State, w: set<Ref>, b: set<Ref>)
    requires Kinds(g) && Held(g, w, b)
    ensures Held(TakeWeak(g), w, b) && Held(TakeAgain(g), w, b)
  {
    TakeScans(g);
    ScansClosed(g, TakeWeak(g), w, b);
    ScansClosed(g, TakeAgain(g), w, b);
  }

  lemma TakenBasic(g: State)
    requires Basic(g) && g.gray == []
    ensures Basic(TakeWeak(g))
  {
    hide Lists, NoDangling, Kinds;
    AnyMarkInv(g);
    TakeInv(g, AnySlack(g));
  }

  lemma WeakAgainHeld(g: State, w: set<Ref>, b: set<Ref>)
    requires Basic(g) && g.gray == [] && Held(g, w, b) && In([g.running] + g.mt, w)
    requires forall x :: x in [g.running] + g.mt ==> x in g.objs
    ensures Held(WeakAgain(g), w, b)
  {
    hide Held, Lists, NoDangling, Scans, Kinds;
    var g1, s := TakeWeak(g), [g.running] + g.mt;
    AnyMarkInv(g);
    WeakAgainInv(g, AnySlack(g));
    TakenBasic(g);
    TakeHeld(g, w, b);
    MarkAllHeld(g1, s, w, b);
    PropagateAllHeld(MarkAll(g1, s), w, b);
  }

  lemma GrayAgainHeld(g: State, w: set<Ref>, b: set<Ref>)
    requires Basic(g) && g.gray == [] && Held(g, w, b)
    ensures Held(GrayAgain(g), w, b)
  {
    hide Held;
    AnyMarkInv(g);
    TakeInv(g, AnySlack(g));
    TakeHeld(g, w, b);
    PropagateAllHeld(TakeAgain(g), w, b);
  }

  lemma RemarkHeld(g: State, w: set<Ref>, b: set<Ref>)
    requires Ready(g) && Held(g, w, b) && In([g.running] + g.mt, w)
    ensures Held(Remark(g), w, b)
  {
    hide Held;
    UpvalsHeld(g, w, b);
    WeakAgainHeld(Upvals(g), w, b);
    GrayAgainHeld(WeakAgain(Upvals(g)), w, b);
  }

  lemma MarkOneTmuHeld(g: State, u: Ref, w: set<Ref>)
    requires Kinds(g) && Held(g, w, {}) && u in g.objs && g.objs[u].kind.Udata? && u in w
    ensures Held(MarkOneTmu(g, u), w, {}) && Kinds(MarkOneTmu(g, u))
  {
    var g1 := SetColor(g, u, Black);
    assert Kinds(g1);
    forall r | r in g.objs ensures StrongKids(g1, r) == StrongKids(g, r) {
    }
    assert Held(g1, w, {});
    assert In(g.objs[u].refs, w) by {
      assert forall x :: x in g.objs[u].refs ==> x in StrongKids(g, u);
    }
    MarkAllHeld(g1, g.objs[u].refs, w, {});
    MarksKinds(g1, g.objs[u].refs);
  }

  lemma MarksKinds(g: State, s: seq<Ref>)
    requires Kinds(g)
    ensures Kinds(MarkAll(g, s))
  {
    hide MarkAll, Shaped;
    MarkAllShades(g, s);
    ShadedKinds(g, MarkAll(g, s));
  }

  lemma ShadedKinds(g: State, h: State)
    requires Kinds(g) && Marks(g, h) && Shades(g, h)
    ensures Kinds(h)
  {
    forall r | r in h.objs
      ensures h.objs[r].kind == g.objs[r].kind && h.objs[r].fixed == g.objs[r].fixed && Shaped(h.objs[r])
    {
      assert h.objs[r] == g.objs[r].(color := h.objs[r].color) && Shaped(g.objs[r]);
    }
  }

  lemma {:induction false} MarkTmuHeld(g: State, l: seq<Ref>, w: set<Ref>)
    requires Kinds(g) && Held(g, w, {}) && In(l, w) && forall u :: u in l ==> u in g.objs && g.objs[u].kind.Udata?
    ensures Held(MarkTmu(g, l), w, {})
    decreases |l|
  {
    hide Held, Kinds;
    if l != [] {
      var h := MarkOneTmu(g, l[0]);
      assert l[0] in l;
      MarkOneTmuHeld(g, l[0], w);
      MarkOneTmuTends(g, l[0]);
      forall u | u in l[1..] ensures u in h.objs && h.objs[u].kind.Udata? && u in w {
        assert u in l && TendsCell(g.objs[u], h.objs[u]);
      }
      MarkTmuHeld(h, l[1..], w);
    }
  }

  lemma PreserveHeld(g: State, w: set<Ref>)
    requires Basic(g) && g.gray == [] && RootsOk(g) && Held(g, w, {}) && In(g.tmudata, w)
    ensures Held(Preserve(g), w, {})
  {
    hide Held, Lists;
    AnyMarkInv(g);
    MarkTmuInv(g, g.tmudata, AnySlack(g));
    MarkTmuHeld(g, g.tmudata, w);
    PropagateAllHeld(MarkTmu(g, g.tmudata), w, {});
  }
}

/** What a collection that is not interrupted keeps, with weak tables and finalizers:
    what is strongly reachable from the roots or from userdata to be finalized; and
    which userdata those are. */
module GcReach {
  import opened LuaHeap
  import opened GcMark
  import opened GcState
  import opened GcPropagate
  import opened GcClear
  import opened GcAtomic
  import opened GcFinish
  import opened GcCycle
  import opened GcStrong
  import opened GcWeak

  // ----- strong reachability -----

  ghost predicate StrongEdge(g: State, b: set<Ref>, r: Ref, x: Ref) {
    r in g.objs && r !in b && x in StrongKids(g, r)
  }

  /** A path of strong references that goes on from no object of `b`. */
  ghost predicate StrongPath(g: State, base: set<Ref>, b: set<Ref>, p: seq<Ref>) {
    p != [] && p[0] in base && forall i, j :: 0 <= i && j == i + 1 < |p| ==> StrongEdge(g, b, p[i], p[j])
  }

  ghost predicate Strongly(g: State, base: set<Ref>, b: set<Ref>, x: Ref) {
    exists p :: StrongPath(g, base, b, p) && p[|p| - 1] == x
  }

  ghost function StrongSet(g: State, base: set<Ref>, b: set<Ref>): set<Ref> {
    set x | x in g.objs && Strongly(g, base, b, x)
  }

  lemma StronglyBase(g: State, base: set<Ref>, b: set<Ref>, x: Ref)
    requires x in base
    ensures Strongly(g, base, b, x)
  {
    var p := [x];
    assert StrongPath(g, base, b, p) && p[|p| - 1] == x;
  }

  lemma StronglyOn(g: State, base: set<Ref>, b: set<Ref>, r: Ref, x: Ref)
    requires Strongly(g, base, b, r) && StrongEdge(g, b, r, x)
    ensures Strongly(g, base, b, x)
  {
    hide StrongEdge;
    var p :| StrongPath(g, base, b, p) && p[|p| - 1] == r;
    var q := p + [x];
    forall i, j | 0 <= i && j == i + 1 < |q| ensures StrongEdge(g, b, q[i], q[j]) {
      if j < |p| {
        assert StrongEdge(g, b, p[i], p[j]);
      }
    }
    assert StrongPath(g, base, b, q) && q[|q| - 1] == x;
  }

  lemma {:induction false} PathIn(g: State, base: set<Ref>, b: set<Ref>, p: seq<Ref>, w: set<Ref>)
    requires StrongPath(g, base, b, p) && base <= w && StrongClosed(g, w, b)
    ensures p[|p| - 1] in w
    decreases |p|
  {
    if |p| > 1 {
      var q := p[..|p| - 1];
      assert StrongPath(g, base, b, q) by {
        forall i, j | 0 <= i && j == i + 1 < |q| ensures StrongEdge(g, b, q[i], q[j]) {
          assert StrongEdge(g, b, p[i], p[j]);
        }
      }
      PathIn(g, base, b, q, w);
      assert StrongEdge(g, b, p[|p| - 2], p[|p| - 1]);
    }
  }

  /** The least set that holds the base and that strong references do not leave. */
  lemma StrongLeast(g: State, base: set<Ref>, b: set<Ref>, w: set<Ref>)
    requires base <= w && StrongClosed(g, w, b)
    ensures StrongSet(g, base, b) <= w
  {
    forall x | x in StrongSet(g, base, b) ensures x in w {
      var p :| StrongPath(g, base, b, p) && p[|p| - 1] == x;
      PathIn(g, base, b, p, w);
    }
  }

  lemma StrongSetClosed(g: State, base: set<Ref>, b: set<Ref>)
    requires NoDangling(g) && base <= g.objs.Keys
    ensures base <= StrongSet(g, base, b) && StrongClosed(g, StrongSet(g, base, b), b)
  {
    hide StrongKids;
    var w := StrongSet(g, base, b);
    forall x | x in base ensures x in w {
      StronglyBase(g, base, b, x);
    }
    forall r, x | r in w && r !in b && r in g.objs && x in StrongKids(g, r) ensures x in w {
      StrongInKids(g, r);
      StronglyOn(g, base, b, r, x);
    }
  }

  /** More bases and fewer obstacles reach more. */
  lemma StrongMore(g: State, base: set<Ref>, b: set<Ref>, base2: set<Ref>)
    requires NoDangling(g) && base <= base2 <= g.objs.Keys
    ensures StrongSet(g, base, b) <= StrongSet(g, base2, {})
  {
    StrongSetClosed(g, base2, {});
    StrongLeast(g, base, b, StrongSet(g, base2, {}));
  }

  // ----- marked objects are closed under strong references -----

  ghost function Marked(h: State): set<Ref> {
    set x | x in h.objs && NonWhite(h, x)
  }

  lemma MarkedStrong(h: State, b: set<Ref>, all: set<Ref>)
    requires MarkInv(h, Slack(b, {}, {}, {}, all)) && h.gray == []
    ensures StrongClosed(h, Marked(h), b)
  {
    hide StrongKids, Kids, Trace;
    forall r, x | r in Marked(h) && r !in b && r in h.objs && x in StrongKids(h, r) ensures x in Marked(h) {
      StrongInKids(h, r);
      KidsInTrace(h, r);
      if h.objs[r].color.Gray? {
        if Traversable(h.objs[r].kind) {
          assert r in Listed(h);
        } else if !h.objs[r].kind.UpvalOpen? {
          StringsEmpty(h, r);
        }
      }
    }
  }

  lemma StringsEmpty(h: State, r: Ref)
    requires Kinds(h) && r in h.objs && h.objs[r].color.Gray? && !Traversable(h.objs[r].kind)
    requires !h.objs[r].kind.UpvalOpen?
    ensures Kids(h, r) == []
  {
    assert Shaped(h.objs[r]);
  }

  // ----- an uninterrupted mark phase -----

  /** The roots but for the userdata that wait for their finalizer. */
  ghost function Base(g: State): set<Ref> {
    {g.main, g.registry, g.running} + set x | x in g.mt
  }

  /** Of those that wait, the ones still marked: they are not traversed before the end. */
  ghost function Leftover(g: State): set<Ref> {
    set u | u in g.tmudata && NonWhite(g, u)
  }

  /** The state with which the atomic step starts, when nothing comes between. */
  function MarkPhase(s: State): State
    requires s.main in s.objs && Basic(MarkRoot(s))
  {
    PropagateAll(MarkRoot(s))
  }

  ghost predicate Starts(s: State) {
    Inv(s) && (s.phase.Pause? || s.phase.Finalize?)
  }

  lemma StartBasic(s: State)
    requires Starts(s)
    ensures s.main in s.objs && NoDangling(s) && Base(s) <= s.objs.Keys && Inv(MarkRoot(s)) && Basic(MarkRoot(s))
    ensures MarkRoot(s).phase.Propagate?
  {
    hide RootListOk, UpvalsOk, StringsOk, Kinds, LiveClosed, NoDangling, MarkRoot, Lists;
    ClosedNoDangling(s);
    MarkRootKeeps(s);
    RootPhase(s);
    StartBase(s);
  }

  lemma RootPhase(s: State)
    requires s.main in s.objs && Inv(MarkRoot(s))
    ensures MarkRoot(s).phase.Propagate? && Basic(MarkRoot(s))
  {
    hide RootListOk, UpvalsOk, StringsOk, LiveClosed, RootsOk, Kinds, Lists, NoDangling;
  }

  lemma StartBase(s: State)
    requires RootsOk(s)
    ensures Base(s) <= s.objs.Keys
  {
  }

  lemma {:induction false} PropagateAllKeeps(g: State)
    requires Inv(g) && g.phase.Propagate? && Basic(g)
    ensures Inv(PropagateAll(g)) && PropagateAll(g).phase.Propagate?
    decreases |Whites(g)|, |g.gray|
  {
    hide RootListOk, UpvalsOk, StringsOk, RootsOk, LiveClosed, WellFormed;
    if g.gray != [] {
      assert g.gray[0] in Listed(g);
      PropagateKeeps(g);
      PropagateScans(g);
      PropagateMeasure(g);
      PropagateAllKeeps(PropagateMark(g));
    }
  }

  lemma MainFree(s: State)
    requires RootsOk(s)
    ensures s.main !in Leftover(s)
  {
  }

  /** Same objects, same strong references. */
  ghost predicate SameStrong(g: State, h: State) {
    h.objs.Keys == g.objs.Keys && forall r :: r in g.objs ==> StrongKids(h, r) == StrongKids(g, r)
  }

  lemma SameStrongClosed(g: State, h: State, w: set<Ref>, b: set<Ref>)
    requires SameStrong(g, h)
    ensures StrongClosed(g, w, b) <==> StrongClosed(h, w, b)
  {
    hide StrongKids;
    if StrongClosed(g, w, b) {
      forall r, x | r in w && r !in b && r in h.objs && x in StrongKids(h, r) ensures x in w {
        assert StrongKids(h, r) == StrongKids(g, r);
      }
    }
    if StrongClosed(h, w, b) {
      forall r, x | r in w && r !in b && r in g.objs && x in StrongKids(g, r) ensures x in w {
        assert StrongKids(h, r) == StrongKids(g, r);
      }
    }
  }

  lemma RootStrong(s: State)
    requires Starts(s) && s.main in s.objs
    ensures SameStrong(s, MarkRoot(s))
    ensures Scans(s.(gray := [], grayagain := [], weak := []), MarkRoot(s).(phase := s.phase))
  {
    hide RootListOk, UpvalsOk, StringsOk, RootsOk, LiveClosed;
    var g0 := s.(gray := [], grayagain := [], weak := []);
    assert Kinds(g0);
    var k := MarkAll(g0, RootMarks(s));
    MarksScans(g0, k);
    forall r | r in s.objs ensures StrongKids(MarkRoot(s), r) == StrongKids(s, r) {
      SameRefs(s, g0, r);
      SameRefs(k, MarkRoot(s), r);
    }
  }

  lemma RootHeld(s: State)
    requires Starts(s) && s.main in s.objs && NoDangling(s) && Base(s) <= s.objs.Keys
    ensures Held(MarkRoot(s), StrongSet(s, Base(s), Leftover(s)), Leftover(s))
  {
    hide RootListOk, UpvalsOk, StringsOk, LiveClosed, StrongSet, MarkRoot;
    var w, b := StrongSet(s, Base(s), Leftover(s)), Leftover(s);
    StrongSetClosed(s, Base(s), b);
    var g0 := s.(gray := [], grayagain := [], weak := []);
    StartHeld(s, g0, w, b);
    MainFree(s);
    RootsIn(s, w, b);
    MarkAllHeld(g0, RootMarks(s), w, b);
    PhaseHeld(s, g0, w, b);
  }

  lemma StartHeld(s: State, g0: State, w: set<Ref>, b: set<Ref>)
    requires Starts(s) && g0 == s.(gray := [], grayagain := [], weak := []) && b == Leftover(s) && StrongClosed(s, w, b)
    ensures Held(g0, w, b) && Kinds(g0)
  {
    hide RootListOk, UpvalsOk, StringsOk, LiveClosed, StrongKids, StrongClosed;
    forall r | r in s.objs ensures StrongKids(g0, r) == StrongKids(s, r) {
      SameRefs(s, g0, r);
    }
    SameStrongClosed(s, g0, w, b);
    StartMarks(s, w, b);
    StartUdatas(s, b);
    StartKinds(s, g0);
  }

  lemma StartMarks(s: State, w: set<Ref>, b: set<Ref>)
    requires AllWhite(s) && b == Leftover(s)
    ensures Bounded(s, w, b)
  {
    forall r | NonWhite(s, r) ensures r in b {
      assert r in s.tmudata;
    }
  }

  lemma StartUdatas(s: State, b: set<Ref>)
    requires RootsOk(s) && b == Leftover(s)
    ensures Udatas(s, b)
  {
  }

  lemma StartKinds(s: State, g0: State)
    requires Kinds(s) && g0 == s.(gray := [], grayagain := [], weak := [])
    ensures Kinds(g0)
  {
    hide Shaped;
  }

  lemma RootsIn(s: State, w: set<Ref>, b: set<Ref>)
    requires s.main in s.objs && s.main !in b && Base(s) <= w && StrongClosed(s, w, b)
    ensures In(RootMarks(s), w)
  {
    forall x | x in RootMarks(s) ensures x in w {
      if x in s.objs[s.main].refs {
        assert x in StrongKids(s, s.main);
      }
    }
  }

  lemma PhaseHeld(s: State, g0: State, w: set<Ref>, b: set<Ref>)
    requires s.main in s.objs && g0 == s.(gray := [], grayagain := [], weak := [])
    requires Held(MarkAll(g0, RootMarks(s)), w, b)
    ensures Held(MarkRoot(s), w, b)
  {
    var k := MarkAll(g0, RootMarks(s));
    forall r | r in k.objs ensures StrongKids(MarkRoot(s), r) == StrongKids(k, r) {
      SameRefs(k, MarkRoot(s), r);
    }
    SameStrongClosed(k, MarkRoot(s), w, b);
  }

  ghost function Everything(s: State, b: set<Ref>): Slack {
    var all := s.objs.Keys;
    Slack(b, all, all, all, all)
  }

  lemma RootMarked(s: State)
    requires Starts(s) && s.main in s.objs && NoDangling(s)
    ensures MarkInv(MarkRoot(s), Everything(s, Leftover(s)))
    ensures NonWhite(MarkRoot(s), s.main) && NonWhite(MarkRoot(s), s.registry)
  {
    hide RootListOk, UpvalsOk, StringsOk, LiveClosed, MarkRoot;
    RootMarksIn(s);
    assert Within(s, s.objs.Keys);
    MarkRootInv(s, Everything(s, Leftover(s)));
  }

  /** The state at the end of the mark phase, before userdata are separated. */
  lemma PhaseMarked(s: State)
    requires Starts(s) && s.main in s.objs && Basic(MarkRoot(s)) && NoDangling(s) && Base(s) <= s.objs.Keys
    ensures var g := MarkPhase(s);
            && Inv(g) && g.phase.Propagate? && Ready(g) && g.gray == [] && SameStrong(s, g)
            && Held(g, StrongSet(s, Base(s), Leftover(s)), Leftover(s))
            && MarkInv(g, Everything(s, Leftover(s))) && NonWhite(g, s.main) && NonWhite(g, s.registry)
            && Base(g) == Base(s) && g.tmudata == s.tmudata && g.rootgc == s.rootgc && SameRoots(s, g)
  {
    hide RootListOk, UpvalsOk, StringsOk, RootsOk, LiveClosed, Held, StrongSet, MarkInv, MarkRoot, Kinds, Lists,
         NoDangling;
    var m := MarkRoot(s);
    StartBasic(s);
    RootHeld(s);
    RootMarked(s);
    RootStrong(s);
    PropagateAllKeeps(m);
    PropagateAllHeld(m, StrongSet(s, Base(s), Leftover(s)), Leftover(s));
    PropagateAllInv(m, Everything(s, Leftover(s)));
    PropagateReady(MarkPhase(s));
    PhaseShape(s);
  }

  lemma PhaseShape(s: State)
    requires s.main in s.objs && Basic(MarkRoot(s))
    ensures var g := MarkPhase(s);
            && Base(g) == Base(s) && g.tmudata == s.tmudata && g.rootgc == s.rootgc && SameRoots(s, g)
  {
    hide Lists, Kinds, NoDangling;
  }

  /** After the remarking exactly what is strongly reachable is marked, but for userdata
      still marked from the last cycle. */
  lemma RemarkExact(s: State, g: State)
    requires Inv(g) && Ready(g) && g.gray == [] && SameStrong(s, g) && Base(g) == Base(s) && NoDangling(s)
    requires Held(g, StrongSet(s, Base(s), Leftover(s)), Leftover(s)) && Base(s) <= s.objs.Keys
    requires MarkInv(g, Everything(s, Leftover(s))) && NonWhite(g, g.main) && NonWhite(g, g.registry)
    ensures forall x :: x in s.objs ==>
              (NonWhite(Remark(g), x) <==> x in StrongSet(s, Base(s), Leftover(s)) || x in Leftover(s))
  {
    hide Inv, StrongSet, Held, MarkInv, Everything, NoDangling;
    var w, b := StrongSet(s, Base(s), Leftover(s)), Leftover(s);
    BaseIn(s, g, w, b);
    RemarkHeld(g, w, b);
    RemarkLower(s, g, b);
    HeldExactly(Remark(g), w, b);
  }

  lemma HeldExactly(r: State, w: set<Ref>, b: set<Ref>)
    requires Held(r, w, b) && w <= Marked(r)
    ensures forall x :: NonWhite(r, x) <==> x in w || x in b
  {
    hide StrongClosed, Udatas;
  }

  lemma RemarkLower(s: State, g: State, b: set<Ref>)
    requires Ready(g) && SameStrong(s, g) && Base(g) == Base(s) && Base(s) <= s.objs.Keys
    requires MarkInv(g, Everything(s, b)) && NonWhite(g, g.main) && NonWhite(g, g.registry)
    ensures StrongSet(s, Base(s), b) <= Marked(Remark(g))
  {
    hide StrongSet, StrongClosed, MarkInv, SameStrong;
    var r := Remark(g);
    RemarkAllIn(s, g, b);
    RemarkedInv(g, Everything(s, b));
    assert Everything(s, b).(open := {}, weak := {}, again := {}) == Slack(b, {}, {}, {}, s.objs.Keys);
    MarkedStrong(r, b, s.objs.Keys);
    RemarkSame(s, g);
    SameStrongClosed(s, r, Marked(r), b);
    RemarkBase(s, g);
    StrongLeast(s, Base(s), b, Marked(r));
  }

  lemma RemarkAllIn(s: State, g: State, b: set<Ref>)
    requires Base(g) == Base(s) && Base(s) <= s.objs.Keys
    ensures forall x :: x in [g.running] + g.mt ==> x in Everything(s, b).within
  {
    assert forall x :: x in [g.running] + g.mt ==> x in Base(g);
  }

  lemma RemarkBase(s: State, g: State)
    requires Ready(g) && Base(g) == Base(s) && NonWhite(g, g.main) && NonWhite(g, g.registry)
    ensures Base(s) <= Marked(Remark(g))
  {
    hide Basic, Scans, Marked;
    RemarkRoots(g, Remark(g));
    ScansRoots(g, Remark(g));
    BaseMarked(g, Remark(g));
  }

  lemma BaseMarked(g: State, r: State)
    requires SameRoots(g, r) && AllNonWhite(r, [r.main, r.registry, r.running] + r.mt)
    ensures Base(g) <= Marked(r)
  {
    forall x | x in Base(g) ensures x in Marked(r) {
      assert x in [r.main, r.registry, r.running] + r.mt;
    }
  }

  lemma ScansRoots(g: State, h: State)
    requires Scans(g, h)
    ensures SameRoots(g, h)
  {
    hide Kids, StrongKids, SameCells;
  }

  ghost predicate SameRoots(g: State, h: State) {
    h.main == g.main && h.registry == g.registry && h.running == g.running && h.mt == g.mt
  }

  lemma BaseIn(s: State, g: State, w: set<Ref>, b: set<Ref>)
    requires NoDangling(s) && Base(s) <= s.objs.Keys && Base(g) == Base(s) && w == StrongSet(s, Base(s), b)
    ensures In([g.running] + g.mt, w)
  {
    StrongSetClosed(s, Base(s), b);
    forall x | x in [g.running] + g.mt ensures x in w {
      assert x in Base(g);
    }
  }

  lemma RemarkSame(s: State, g: State)
    requires Ready(g) && SameStrong(s, g)
    ensures SameStrong(s, Remark(g))
  {
  }

  // ----- which userdata are to be finalized -----

  ghost predicate Before(s: seq<Ref>, x: Ref, y: Ref) {
    exists i, j :: 0 <= i < j < |s| && s[i] == x && s[j] == y
  }

  lemma SplitBehind(g: State, u: Ref)
    requires RootListOk(g)
    ensures u in SplitAtMain(g).1 <==> Before(g.rootgc, g.main, u)
  {
    var (a, ud) := SplitAtMain(g);
    assert g.rootgc[|a| - 1] == g.main;
    if u in ud {
      var j :| 0 <= j < |ud| && ud[j] == u;
      assert g.rootgc[|a| + j] == u;
    }
    if Before(g.rootgc, g.main, u) {
      var i, j :| 0 <= i < j < |g.rootgc| && g.rootgc[i] == g.main && g.rootgc[j] == u;
      assert ud[j - |a|] == u;
    }
  }

  lemma PhaseCells(s: State)
    requires Starts(s) && s.main in s.objs && Basic(MarkRoot(s))
    ensures Tends(s, MarkPhase(s))
  {
    hide Tends, RootListOk, UpvalsOk, StringsOk, RootsOk, LiveClosed;
    var g0 := s.(gray := [], grayagain := [], weak := []);
    var k := MarkAll(g0, RootMarks(s));
    MarkAllTends(g0, RootMarks(s));
    ListsTend(s, g0, k, MarkRoot(s));
    PropagateAllTends(MarkRoot(s));
    TendsTrans(s, MarkRoot(s), MarkPhase(s));
  }

  lemma ListsTend(s: State, g0: State, k: State, m: State)
    requires g0 == s.(gray := [], grayagain := [], weak := []) && Tends(g0, k) && m == k.(phase := Propagate)
    ensures Tends(s, m)
  {
  }

  /** Tells whether userdata `u` is queued for its finalizer by a cycle that starts in
      `s`: it has one, which was not called, and nothing refers to it strongly. */
  ghost predicate Due(s: State, u: Ref) {
    && u in s.objs && Before(s.rootgc, s.main, u) && s.objs[u].hasgc && !s.objs[u].finalized
    && u !in StrongSet(s, Base(s), Leftover(s))
  }

  lemma CycleQueue(s: State)
    requires Starts(s)
    ensures s.main in s.objs && Basic(MarkRoot(s)) && Ready(MarkPhase(s)) && WellFormed(MarkPhase(s))
    ensures forall u :: u in Atomic(MarkPhase(s)).tmudata <==> u in s.tmudata || Due(s, u)
  {
    hide Inv, StrongSet, Held, MarkInv, Everything, SameStrong, NoDangling, Basic;
    StartBasic(s);
    PhaseMarked(s);
    PhaseWell(s);
    var g := MarkPhase(s);
    RemarkExact(s, g);
    PhaseCells(s);
    RemarkTends(g);
    TendsTrans(s, g, Remark(g));
    QueueIs(s, g);
    forall u ensures u in Atomic(g).tmudata <==> u in s.tmudata || Due(s, u) {
      DueIs(s, Remark(g), u);
    }
  }

  lemma PhaseWell(s: State)
    requires s.main in s.objs && Basic(MarkRoot(s)) && Inv(MarkPhase(s)) && Starts(s)
    ensures WellFormed(MarkPhase(s)) && RootListOk(s) && RootsOk(s)
  {
    hide RootListOk, UpvalsOk, StringsOk, RootsOk, LiveClosed, PhaseOk, MarkPhase;
  }

  lemma QueueIs(s: State, g: State)
    requires Ready(g) && WellFormed(g) && Tends(s, Remark(g)) && RootListOk(s)
    ensures s.main in s.rootgc && Remark(g).main in Remark(g).rootgc
    ensures Atomic(g).tmudata == s.tmudata + Pick(Remark(g), SplitAtMain(s).1, true)
  {
    hide Kinds, Lists, UpvalsOk, StringsOk, Pick, Remark, Separated, Atomic, NoDangling, Tidy;
    RemarkMain(g);
    SeparatedTmu(g);
    assert SplitAtMain(Remark(g)) == SplitAtMain(s);
    TmuKept(g);
  }

  lemma RemarkMain(g: State)
    requires Ready(g) && WellFormed(g)
    ensures RootListOk(Remark(g)) && Remark(g).main in Remark(g).rootgc
  {
    hide Kinds, Lists, Remark;
    SameShapeKeeps(g, Remark(g));
  }

  lemma SeparatedTmu(g: State)
    requires Ready(g) && WellFormed(g) && Remark(g).main in Remark(g).rootgc
    ensures Separated(g).tmudata == Remark(g).tmudata + Pick(Remark(g), SplitAtMain(Remark(g)).1, true)
  {
    hide Kinds, Lists, UpvalsOk, StringsOk, Pick, RootListOk, RootsOk, NoDangling, Remark;
  }

  lemma TmuKept(g: State)
    requires Ready(g) && WellFormed(g)
    ensures Atomic(g).tmudata == Separated(g).tmudata && Atomic(g).main == FinishMarks(g).main
  {
    hide Kinds, UpvalsOk, StringsOk, RootListOk, RootsOk, NoDangling, FinishMarks, Separated, Finishes, WeakOnly,
         NoTablesAgain;
    var f := FinishMarks(g);
    FinishCells(g);
    assert forall r :: r in f.weak ==> r in f.objs;
    ClearTmu(f, f.weak);
  }

  lemma {:induction false} ClearTmu(g: State, l: seq<Ref>)
    requires forall r :: r in l ==> r in g.objs
    ensures ClearTables(g, l).tmudata == g.tmudata && SameRoots(g, ClearTables(g, l))
    decreases |l|
  {
    if l != [] {
      assert l[0] in l;
      ClearTmu(ClearTable(g, l[0]), l[1..]);
    }
  }

  lemma DueIs(s: State, r: State, u: Ref)
    requires Tends(s, r) && RootListOk(s) && RootsOk(s)
    requires forall x :: x in s.objs ==>
               (NonWhite(r, x) <==> x in StrongSet(s, Base(s), Leftover(s)) || x in Leftover(s))
    ensures u in Pick(r, SplitAtMain(s).1, true) <==> Due(s, u)
  {
    hide StrongSet;
    SplitBehind(s, u);
    if u in SplitAtMain(s).1 {
      assert u in s.rootgc && u in s.objs && u !in s.tmudata;
      assert TendsCell(s.objs[u], r.objs[u]);
    }
  }

  // ----- what is kept -----

  ghost function Kept(s: State, tmudata: seq<Ref>): set<Ref> {
    StrongSet(s, Base(s) + set u | u in tmudata, {})
  }

  lemma SeparatedStrong(s: State, g: State)
    requires Ready(g) && WellFormed(g) && SameStrong(s, g)
    ensures SameStrong(s, Separated(g)) && SameRoots(g, Separated(g))
    ensures forall x :: NonWhite(Separated(g), x) <==> NonWhite(Remark(g), x)
  {
    hide Lists, UpvalsOk, StringsOk, RootsOk, NoDangling, Remark, Scans, SeparateUdata, SameStrong, SameRoots,
         RootListOk, Kinds;
    var r := Remark(g);
    RemarkMain(g);
    RemarkKinds(g);
    RemarkSame(s, g);
    ScansRoots(g, r);
    SeparateStrong(r);
    SameStrongTrans(s, r, SeparateUdata(r));
    SameRootsTrans(g, r, SeparateUdata(r));
  }

  lemma RemarkKinds(g: State)
    requires Ready(g)
    ensures Kinds(Remark(g))
  {
    hide Lists, NoDangling, Remark, Scans;
  }

  lemma SameStrongTrans(g: State, h: State, k: State)
    requires SameStrong(g, h) && SameStrong(h, k)
    ensures SameStrong(g, k)
  {
    hide StrongKids;
  }

  lemma SameRootsTrans(g: State, h: State, k: State)
    requires SameRoots(g, h) && SameRoots(h, k)
    ensures SameRoots(g, k)
  {
  }

  lemma SeparateStrong(r: State)
    requires RootListOk(r) && Kinds(r)
    ensures SameStrong(r, SeparateUdata(r)) && SameRoots(r, SeparateUdata(r))
    ensures forall x :: NonWhite(SeparateUdata(r), x) <==> NonWhite(r, x)
  {
    hide StrongKids, Pick, SplitAtMain;
    var h := SeparateUdata(r);
    SeparateCells(r);
    forall x | x in r.objs ensures StrongKids(h, x) == StrongKids(r, x) {
      SameRefs(r, h, x);
    }
    SameObjsColors(r, h);
  }

  lemma SameObjsColors(g: State, h: State)
    requires SameObjs(g, h)
    ensures forall x :: NonWhite(h, x) <==> NonWhite(g, x)
  {
  }

  lemma KeptUpper(s: State, g: State, w: set<Ref>, b: set<Ref>)
    requires Ready(g) && WellFormed(g) && SameStrong(s, g) && NoDangling(s)
    requires forall x :: x in s.objs && NonWhite(Remark(g), x) ==> x in w
    requires StrongClosed(s, w, {}) && In(Separated(g).tmudata, w)
    ensures Bounded(FinishMarks(g), w, {})
  {
    hide Lists, UpvalsOk, StringsOk, RootListOk, StrongClosed, Remark, Separated, Preserve, SameStrong, NoDangling,
         Kinds, Held;
    var h := Separated(g);
    SeparatedStrong(s, g);
    SameStrongClosed(s, h, w, {});
    BoundedFrom(s, h, w);
    PreserveHeld(h, w);
    HeldBounds(FinishMarks(g), w);
  }

  lemma BoundedFrom(s: State, h: State, w: set<Ref>)
    requires SameStrong(s, h) && StrongClosed(h, w, {}) && forall x :: x in s.objs && NonWhite(h, x) ==> x in w
    ensures Held(h, w, {})
  {
    hide StrongKids, StrongClosed;
  }

  lemma HeldBounds(h: State, w: set<Ref>)
    requires Held(h, w, {})
    ensures Bounded(h, w, {})
  {
    hide StrongClosed;
  }

  lemma KeptLower(s: State, g: State)
    requires Inv(g) && g.phase.Propagate? && Ready(g) && SameStrong(s, g) && Base(g) == Base(s)
    ensures Kept(s, Separated(g).tmudata) <= Marked(FinishMarks(g))
  {
    hide RootListOk, UpvalsOk, StringsOk, StrongSet, StrongClosed, Kinds, LiveClosed, Separated, FinishMarks, Ready,
         SameStrong, RootsOk;
    var f, h := FinishMarks(g), Separated(g);
    FinishClosed(g);
    FinishStrong(s, g);
    SameStrongClosed(s, f, Marked(f), {});
    FinishRoots(g);
    FinishBase(s, g);
    StrongLeast(s, Base(s) + (set u | u in h.tmudata), {}, Marked(f));
  }

  lemma FinishClosed(g: State)
    requires Inv(g) && g.phase.Propagate? && Ready(g)
    ensures StrongClosed(FinishMarks(g), Marked(FinishMarks(g)), {})
  {
    hide RootListOk, UpvalsOk, StringsOk, StrongClosed, Kinds, Lists, LiveClosed, StrongKids, Separated, FinishMarks;
    var all := g.objs.Keys;
    var e := Slack({}, all, all, all, all);
    assert WithBlack(e, g.tmudata) == MutatorSlack(g);
    assert MayBeMarked(g, all);
    FinishMarksInv(g, e);
    MarkedStrong(FinishMarks(g), {}, all);
  }

  lemma FinishStrong(s: State, g: State)
    requires Ready(g) && WellFormed(g) && SameStrong(s, g)
    ensures SameStrong(s, FinishMarks(g)) && SameRoots(g, FinishMarks(g))
    ensures FinishMarks(g).tmudata == Separated(g).tmudata
  {
    hide RootListOk, UpvalsOk, StringsOk, RootsOk, Kinds, Lists, NoDangling, Separated, FinishMarks, SameStrong,
         SameRoots, Scans;
    var h, f := Separated(g), FinishMarks(g);
    SeparatedStrong(s, g);
    ScansRoots(h, f);
    ScansStrong(h, f);
    SameStrongTrans(s, h, f);
    SameRootsTrans(g, h, f);
  }

  lemma ScansStrong(g: State, h: State)
    requires Scans(g, h)
    ensures SameStrong(g, h) && h.tmudata == g.tmudata
  {
    hide StrongKids, Kids;
  }

  lemma FinishBase(s: State, g: State)
    requires Ready(g) && WellFormed(g) && Base(g) == Base(s) && AllNonWhite(FinishMarks(g), Roots(FinishMarks(g)))
    requires SameRoots(g, FinishMarks(g)) && FinishMarks(g).tmudata == Separated(g).tmudata
    ensures Base(s) + (set u | u in Separated(g).tmudata) <= Marked(FinishMarks(g))
  {
    hide RootListOk, UpvalsOk, StringsOk, RootsOk, Kinds, Lists, NoDangling, Separated, FinishMarks;
    var f := FinishMarks(g);
    forall x | x in Base(g) + set u | u in f.tmudata ensures x in Marked(f) {
      assert x in Roots(f);
    }
  }

  /** A cycle that is not interrupted keeps, of all objects but strings, exactly what is
      strongly reachable from the roots and from the userdata to be finalized.  Weak
      references keep nothing. */
  lemma CycleLive(s: State, x: Ref)
    requires Starts(s) && x in s.objs && !s.objs[x].kind.Str?
    ensures s.main in s.objs && Basic(MarkRoot(s)) && Ready(MarkPhase(s)) && WellFormed(MarkPhase(s))
    ensures IsLive(Atomic(MarkPhase(s)), x) <==> x in Kept(s, Atomic(MarkPhase(s)).tmudata)
  {
    hide Inv, Kept, Held, MarkInv, Everything, NoDangling, Basic, FinishMarks, Separated, Remark, WellFormed,
         SameStrong, Bounded, Marked, Atomic, MarkPhase, Ready, IsLive, MarkRoot;
    StartBasic(s);
    PhaseMarked(s);
    PhaseWell(s);
    var g := MarkPhase(s);
    TmuKept(g);
    KeptLower(s, g);
    KeptBound(s, g);
    KeptExactly(FinishMarks(g), Kept(s, Separated(g).tmudata), x);
    PhaseKind(s, x);
    FinalLive(g, x);
  }

  lemma KeptExactly(f: State, w: set<Ref>, x: Ref)
    requires Bounded(f, w, {}) && w <= Marked(f)
    ensures NonWhite(f, x) <==> x in w
  {
  }

  lemma FinalLive(g: State, x: Ref)
    requires Inv(g) && g.phase.Propagate? && Ready(g) && WellFormed(g)
    requires x in FinishMarks(g).objs && !FinishMarks(g).objs[x].kind.Str?
    ensures IsLive(Atomic(g), x) <==> NonWhite(FinishMarks(g), x)
  {
    hide RootListOk, UpvalsOk, StringsOk, RootsOk, Kinds, LiveClosed, PropagateOk, FinishMarks, Atomic, Flipped,
         ClearedSlots;
    PhaseNoDead(g);
    ClearedWhole(g);
    RefStays(FinishMarks(g), Atomic(g), x, true);
  }

  lemma PhaseNoDead(g: State)
    requires Inv(g) && g.phase.Propagate?
    ensures NoDead(g)
  {
    hide RootListOk, UpvalsOk, StringsOk, RootsOk, Kinds, LiveClosed, PropagateOk;
  }

  lemma PhaseKind(s: State, x: Ref)
    requires Starts(s) && s.main in s.objs && Basic(MarkRoot(s)) && Ready(MarkPhase(s)) && WellFormed(MarkPhase(s))
    requires x in s.objs
    ensures x in FinishMarks(MarkPhase(s)).objs && FinishMarks(MarkPhase(s)).objs[x].kind == s.objs[x].kind
  {
    hide RootListOk, UpvalsOk, StringsOk, RootsOk, Kinds, Lists, NoDangling, FinishMarks, MarkPhase, Tidy;
    var g := MarkPhase(s);
    PhaseCells(s);
    assert TendsCell(s.objs[x], g.objs[x]);
    FinishCells(g);
    assert TendsCell(g.objs[x], FinishMarks(g).objs[x].(finalized := g.objs[x].finalized));
  }

  lemma KeptBound(s: State, g: State)
    requires Starts(s) && s.main in s.objs && Basic(MarkRoot(s)) && NoDangling(s) && Base(s) <= s.objs.Keys
    requires g == MarkPhase(s)
    requires Inv(g) && Ready(g) && WellFormed(g) && g.gray == [] && SameStrong(s, g) && Base(g) == Base(s)
    requires g.tmudata == s.tmudata && NonWhite(g, g.main) && NonWhite(g, g.registry)
    requires Held(g, StrongSet(s, Base(s), Leftover(s)), Leftover(s)) && MarkInv(g, Everything(s, Leftover(s)))
    ensures Bounded(FinishMarks(g), Kept(s, Separated(g).tmudata), {})
  {
    hide Inv, StrongSet, Held, MarkInv, Everything, NoDangling, Basic, FinishMarks, Remark, WellFormed, Starts,
         Separated, Ready;
    var h := Separated(g);
    var base2 := Base(s) + set u | u in h.tmudata;
    SeparatedThere(s, g);
    StrongSetClosed(s, base2, {});
    RemarkExact(s, g);
    StrongMore(s, Base(s), Leftover(s), base2);
    assert forall u :: u in Leftover(s) ==> u in base2;
    assert In(h.tmudata, Kept(s, h.tmudata)) by {
      assert forall u :: u in h.tmudata ==> u in base2;
    }
    KeptUpper(s, g, Kept(s, h.tmudata), {});
  }

  lemma SeparatedThere(s: State, g: State)
    requires Ready(g) && WellFormed(g) && SameStrong(s, g)
    ensures forall u :: u in Separated(g).tmudata ==> u in s.objs
    ensures forall u :: u in g.tmudata ==> u in Separated(g).tmudata
  {
    hide RootListOk, UpvalsOk, StringsOk, Kinds, Lists, NoDangling, Remark, Separated, Pick;
    SeparatedStrong(s, g);
    RemarkMainIn(g);
    SeparatedTmu(g);
  }

  lemma RemarkMainIn(g: State)
    requires Ready(g) && WellFormed(g)
    ensures Remark(g).main in Remark(g).rootgc && Remark(g).tmudata == g.tmudata
  {
    hide UpvalsOk, StringsOk, Kinds, Lists, NoDangling, Remark, SameCells;
    RemarkMain(g);
  }
}
