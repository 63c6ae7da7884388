/** markroot, and the atomic step that ends the mark phase. */
module GcAtomic {
  import opened LuaHeap
  import opened GcMark
  import opened GcState
  import opened GcPropagate

  // ----- markroot -----

  function RootMarks(g: State): seq<Ref>
    requires g.main in g.objs
  {
    [g.main] + g.objs[g.main].refs + [g.registry] + g.mt
  }

  function MarkRoot(g: State): State
    requires g.main in g.objs
  {
    MarkAll(g.(gray := [], grayagain := [], weak := []), RootMarks(g)).(phase := Propagate)
  }

  /** With everything white, the mark phase starts with its invariant. */
  lemma MarkRootInv(g: State, e: Slack)
    requires WellFormed(g) && NoDangling(g) && AllWhite(g)
    requires forall u :: u in g.tmudata && NonWhite(g, u) ==> u in e.black
    requires Within(g, e.within)
    requires forall x :: x in RootMarks(g) ==> x in e.within
    ensures MarkInv(MarkRoot(g), e)
    ensures NonWhite(MarkRoot(g), g.main) && NonWhite(MarkRoot(g), g.registry)
    ensures SameShape(g.(phase := Propagate), MarkRoot(g))
  {
    var g0 := g.(gray := [], grayagain := [], weak := []);
    StartInv(g, e);
    var s := RootMarks(g);
    forall x | x in s ensures x in g0.objs {
      if x in g.objs[g.main].refs {
        assert x in Kids(g, g.main);
      }
    }
    MarkAllInv(g0, s, e);
    var h := MarkAll(g0, s);
    assert g.main in s && g.registry in s;
    MarksScans(g0, h);
    SameMarks(h, h.(phase := Propagate), e);
  }

  lemma PendingAreUdata(g: State)
    requires RootsOk(g)
    ensures forall u :: u in g.tmudata ==> u in g.objs && g.objs[u].kind.Udata?
  {
  }

  lemma StartInv(g: State, e: Slack)
    requires WellFormed(g) && NoDangling(g) && AllWhite(g)
    requires forall u :: u in g.tmudata && NonWhite(g, u) ==> u in e.black
    requires Within(g, e.within)
    ensures MarkInv(g.(gray := [], grayagain := [], weak := []), e)
  {
    hide StringsOk, UpvalsOk, RootsOk, RootListOk;
    PendingAreUdata(g);
    var g0 := g.(gray := [], grayagain := [], weak := []);
    forall r | r in g0.objs ensures Kids(g0, r) == Kids(g, r) {
      SameRefs(g, g0, r);
    }
    assert Listed(g0) == [];
    forall r | r in g0.objs && !g0.objs[r].color.White? ensures g0.objs[r].kind.Udata? && r in e.black {
      assert r in g.tmudata;
    }
  }

  /** `h` has the objects of `g`, up to the finalized bit. */
  ghost predicate SameObjs(g: State, h: State) {
    && h.objs.Keys == g.objs.Keys
    && (forall r :: r in g.objs ==> h.objs[r] == g.objs[r].(finalized := h.objs[r].finalized))
  }

  lemma SameRefs(g: State, h: State, r: Ref)
    requires SameObjs(g, h) && r in g.objs
    ensures Kids(h, r) == Kids(g, r) && Trace(h, r) == Trace(g, r) && StrongKids(h, r) == StrongKids(g, r)
  {
  }

  lemma SameMarksRefs(g: State, h: State, e: Slack)
    requires SameObjs(g, h) && NoDangling(g) && Tri(g, e.black) && Open(g, e.open) && Within(g, e.within)
    ensures NoDangling(h) && Tri(h, e.black) && Open(h, e.open) && Within(h, e.within)
  {
    forall r | r in g.objs
      ensures Kids(h, r) == Kids(g, r) && Trace(h, r) == Trace(g, r)
    {
      SameRefs(g, h, r);
    }
    assert forall r :: NonWhite(h, r) == NonWhite(g, r);
  }

  /** The mark invariant depends on the objects and the three lists only. */
  lemma SameMarks(g: State, h: State, e: Slack)
    requires MarkInv(g, e) && SameObjs(g, h)
    requires h.gray == g.gray && h.grayagain == g.grayagain && h.weak == g.weak && h.main == g.main
    ensures MarkInv(h, e)
  {
    SameMarksRefs(g, h, e);
    forall r | r in g.objs
      ensures Kids(h, r) == Kids(g, r) && StrongKids(h, r) == StrongKids(g, r)
    {
      SameRefs(g, h, r);
    }
    assert Listed(h) == Listed(g);
    assert forall r :: NonWhite(h, r) == NonWhite(g, r);
  }

  // ----- remarkupvals -----

  function RemarkUpvals(g: State, l: seq<Ref>): State
    decreases |l|
  {
    if l == [] then g
    else if l[0] in g.objs && g.objs[l[0]].color.Gray? then
      RemarkUpvals(MarkAll(g, OpenRefs(g, g.objs[l[0]])), l[1..])
    else RemarkUpvals(g, l[1..])
  }

  lemma {:induction false} RemarkInv(g: State, l: seq<Ref>, e: Slack)
    requires MarkInv(g, e.(open := set u | u in l))
    requires forall u :: u in l && u in g.objs ==> g.objs[u].kind.UpvalOpen?
    ensures MarkInv(RemarkUpvals(g, l), e.(open := {})) && Scans(g, RemarkUpvals(g, l))
    decreases |l|
  {
    hide RootListOk, Lists, OpenRefs;
    if l == [] {
      assert (set u | u in l) == {};
    } else if l[0] in g.objs && g.objs[l[0]].color.Gray? {
      var u := l[0];
      var s := OpenRefs(g, g.objs[u]);
      var h := MarkAll(g, s);
      assert Shaped(g.objs[u]) && NonWhite(g, u);
      TraceOfInner(g, u);
      MarkAllInv(g, s, e.(open := set u | u in l));
      MarksKeepRefs(g, h, u);
      MarksScans(g, h);
      ShrinkOpen(h, l, e);
      RemarkInv(h, l[1..], e);
      ScansTrans(g, h, RemarkUpvals(g, l));
    } else {
      ShrinkOpen(g, l, e);
      RemarkInv(g, l[1..], e);
    }
  }

  lemma ShrinkOpen(g: State, l: seq<Ref>, e: Slack)
    requires l != [] && MarkInv(g, e.(open := set u | u in l))
    requires l[0] in g.objs && g.objs[l[0]].color.Gray? ==> AllNonWhite(g, Kids(g, l[0]))
    ensures MarkInv(g, e.(open := set u | u in l[1..]))
  {
    assert forall u :: u in l ==> u == l[0] || u in l[1..];
  }

  // ----- the weak and grayagain lists become gray -----

  function TakeWeak(g: State): State {
    g.(gray := g.weak, weak := [])
  }

  function TakeAgain(g: State): State {
    g.(gray := g.grayagain, grayagain := [])
  }

  lemma {:induction false} Rotate(a: seq<Ref>, b: seq<Ref>)
    requires Distinct(a + b)
    ensures Distinct(b + a)
  {
    var s, t := a + b, b + a;
    forall i, j | 0 <= i < j < |t| ensures t[i] != t[j] {
      var i' := if i < |b| then i + |a| else i - |b|;
      var j' := if j < |b| then j + |a| else j - |b|;
      assert t[i] == s[i'] && t[j] == s[j'];
    }
  }

  lemma TakeLists(g: State)
    requires Lists(g) && g.gray == []
    ensures Lists(TakeWeak(g)) && Lists(TakeAgain(g))
  {
    assert Listed(g) == g.grayagain + g.weak;
    Rotate(g.grayagain, g.weak);
    assert Listed(TakeWeak(g)) == g.weak + g.grayagain;
    assert Listed(TakeAgain(g)) == g.grayagain + g.weak;
  }

  lemma TakeInv(g: State, e: Slack)
    requires MarkInv(g, e) && g.gray == []
    ensures MarkInv(TakeWeak(g), e.(weak := {}))
    ensures MarkInv(TakeAgain(g), e.(again := {}))
  {
    TakeLists(g);
    SameMarksRefs(g, TakeWeak(g), e);
    SameMarksRefs(g, TakeAgain(g), e);
    forall r | r in g.objs
      ensures Kids(TakeWeak(g), r) == Kids(g, r) && StrongKids(TakeWeak(g), r) == StrongKids(g, r)
      ensures Kids(TakeAgain(g), r) == Kids(g, r) && StrongKids(TakeAgain(g), r) == StrongKids(g, r)
    {
      SameRefs(g, TakeWeak(g), r);
      SameRefs(g, TakeAgain(g), r);
    }
    assert forall r :: NonWhite(TakeWeak(g), r) == NonWhite(g, r) == NonWhite(TakeAgain(g), r);
  }

  // ----- userdata with finalizers -----

  predicate NeedsTm(g: State, r: Ref) {
    r in g.objs && g.objs[r].color.White? && !g.objs[r].finalized && g.objs[r].hasgc
  }

  function Pick(g: State, l: seq<Ref>, tm: bool): (s: seq<Ref>)
    ensures forall x :: x in s <==> x in l && NeedsTm(g, x) == tm
  {
    if l == [] then []
    else
      assert forall x :: x in l <==> x == l[0] || x in l[1..];
      if NeedsTm(g, l[0]) == tm then [l[0]] + Pick(g, l[1..], tm) else Pick(g, l[1..], tm)
  }

  lemma {:induction false} PickDistinct(g: State, l: seq<Ref>, tm: bool)
    requires Distinct(l)
    ensures Distinct(Pick(g, l, tm))
  {
    if l != [] {
      assert l == [l[0]] + l[1..];
      Behead(l[1..], l[0]);
      PickDistinct(g, l[1..], tm);
    }
  }

  function IndexOf(s: seq<Ref>, x: Ref): (i: nat)
    requires x in s
    ensures i < |s| && s[i] == x
  {
    if s[0] == x then 0 else 1 + IndexOf(s[1..], x)
  }

  function MarkFinalized(g: State, ud: seq<Ref>): map<Ref, Cell> {
    map r | r in g.objs ::
      if r in ud && g.objs[r].color.White? then g.objs[r].(finalized := true) else g.objs[r]
  }

  /** luaC_separateudata(L, 0): unmarked userdata with a finalizer move to
      tmudata, in order; every unmarked userdata counts as finalized from now on. */
  function SeparateUdata(g: State): State
    requires g.main in g.rootgc
  {
    var (a, ud) := SplitAtMain(g);
    g.(objs := MarkFinalized(g, ud), rootgc := a + Pick(g, ud, false), tmudata := g.tmudata + Pick(g, ud, true))
  }

  /** rootgc up to the main thread, and the userdata after it. */
  function SplitAtMain(g: State): (s: (seq<Ref>, seq<Ref>))
    requires g.main in g.rootgc
    ensures s.0 + s.1 == g.rootgc && s.0 != [] && s.0[|s.0| - 1] == g.main
  {
    var m := IndexOf(g.rootgc, g.main);
    (g.rootgc[..m + 1], g.rootgc[m + 1..])
  }

  /** marktmu: the userdata on `l` are marked again, whatever their colour. */
  function MarkTmu(g: State, l: seq<Ref>): State
    requires forall u :: u in l ==> u in g.objs
    decreases |l|
  {
    if l == [] then g
    else MarkTmu(MarkOneTmu(g, l[0]), l[1..])
  }

  function MarkOneTmu(g: State, u: Ref): (h: State)
    requires u in g.objs
    ensures h.objs.Keys == g.objs.Keys
  {
    MarkAll(SetColor(g, u, Black), g.objs[u].refs)
  }

  lemma BlackenInv(g: State, u: Ref, e: Slack)
    requires u in g.objs && g.objs[u].kind.Udata? && u in e.black && u in e.within && MarkInv(g, e)
    ensures MarkInv(SetColor(g, u, Black), e) && Scans(g, SetColor(g, u, Black))
  {
    hide Within, Kinds, SetColor, Scans;
    BlackenIs(g, u);
    var h := SetColor(g, u, Black);
    if g.objs[u].color.White? {
      ShadeInv(g, u, e);
      assert e.black + {u} == e.black;
      MarksScans(g, h);
    } else {
      MarksScans(g, g);
    }
  }

  lemma BlackenIs(g: State, u: Ref)
    requires u in g.objs && g.objs[u].kind.Udata? && Kinds(g)
    ensures g.objs[u].color.White? ==> SetColor(g, u, Black) == Shade(g, u)
    ensures !g.objs[u].color.White? ==> SetColor(g, u, Black) == g && Marks(g, g)
  {
    var h := SetColor(g, u, Black);
    assert g.objs[u].color.Black? ==> h.objs == g.objs;
  }

  function WithBlack(e: Slack, l: seq<Ref>): Slack {
    e.(black := e.black + set u | u in l)
  }

  lemma {:induction false} MarkTmuInv(g: State, l: seq<Ref>, e: Slack)
    requires MarkInv(g, WithBlack(e, l))
    requires forall u :: u in l ==> u in g.objs && g.objs[u].kind.Udata? && u in e.within
    ensures MarkInv(MarkTmu(g, l), e) && Scans(g, MarkTmu(g, l))
    ensures forall u :: u in l ==> NonWhite(MarkTmu(g, l), u)
    decreases |l|
  {
    if l == [] {
      assert WithBlack(e, l) == e;
      assert Marks(g, g);
      MarksScans(g, g);
    } else {
      var h := MarkOneTmu(g, l[0]);
      MarkOneTmuInv(g, l, e);
      assert forall x :: x in l[1..] ==> x in l;
      MarkTmuInv(h, l[1..], e);
      ScansTrans(g, h, MarkTmu(g, l));
    }
  }

  lemma MarkOneTmuInv(g: State, l: seq<Ref>, e: Slack)
    requires l != [] && MarkInv(g, WithBlack(e, l))
    requires l[0] in g.objs && g.objs[l[0]].kind.Udata? && l[0] in e.within
    ensures MarkInv(MarkOneTmu(g, l[0]), WithBlack(e, l[1..]))
    ensures Scans(g, MarkOneTmu(g, l[0])) && NonWhite(MarkOneTmu(g, l[0]), l[0])
  {
    hide Lists, SameCells;
    var u := l[0];
    var e1 := WithBlack(e, l);
    var g1 := SetColor(g, u, Black);
    BlackenInv(g, u, e1);
    assert Shaped(g1.objs[u]) && NonWhite(g1, u);
    TraceOfInner(g1, u);
    MarkAllInv(g1, g.objs[u].refs, e1);
    var h := MarkAll(g1, g.objs[u].refs);
    MarksScans(g1, h);
    ScansTrans(g, g1, h);
    MarksKeepRefs(g1, h, u);
    ShrinkBlack(h, l, e);
  }

  lemma ShrinkBlack(g: State, l: seq<Ref>, e: Slack)
    requires l != [] && MarkInv(g, WithBlack(e, l))
    requires l[0] in g.objs && AllNonWhite(g, Trace(g, l[0]))
    ensures MarkInv(g, WithBlack(e, l[1..]))
  {
    assert forall u :: u in l ==> u == l[0] || u in l[1..];
  }
}
