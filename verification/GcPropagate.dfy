/** propagatemark, propagateall, markroot and the atomic step that ends the
    mark phase. */
module GcPropagate {
  import opened LuaHeap
  import opened GcMark
  import opened GcState

  // ----- slots of a traversed table -----

  /** removeentry on a node without a value. */
  function CleanSlot(e: Slot): Slot {
    if e.val.Nil? && e.key.KObj? then e.(key := Dead) else e
  }

  function CleanSlots(s: seq<Slot>): (t: seq<Slot>)
    ensures |t| == |s|
  {
    if s == [] then [] else CleanSlots(s[..|s| - 1]) + [CleanSlot(s[|s| - 1])]
  }

  lemma {:induction false} CleanKeepsKids(s: seq<Slot>, wk: bool, wv: bool)
    ensures SlotKids(CleanSlots(s)) == SlotKids(s)
    ensures SlotStrong(CleanSlots(s), wk, wv) == SlotStrong(s, wk, wv)
    ensures SlotTrace(CleanSlots(s)) == SlotKids(s)
  {
    if s != [] {
      CleanKeepsKids(s[..|s| - 1], wk, wv);
      assert CleanSlots(s)[..|s| - 1] == CleanSlots(s[..|s| - 1]);
    }
  }

  lemma {:induction false} StrongIsKids(s: seq<Slot>, wk: bool, wv: bool, x: Ref)
    ensures x in SlotStrong(s, wk, wv) ==> x in SlotKids(s)
    ensures !wk && !wv ==> SlotStrong(s, wk, wv) == SlotKids(s)
  {
    if s != [] {
      StrongIsKids(s[..|s| - 1], wk, wv, x);
    }
  }

  // ----- propagatemark -----

  predicate IsWeak(c: Cell) {
    c.kind.Table? && (c.weakkey || c.weakvalue)
  }

  /** The traversed object after its traversal: gray again if it is a weak table
      or a thread, black otherwise; entries without a value lose their key,
      unless the traversal of a table weak in both ways stops before them. */
  function Scanned(c: Cell): Cell {
    c.(color := if IsWeak(c) || c.kind.Thread? then Gray else Black,
       slots := if c.weakkey && c.weakvalue then c.slots else CleanSlots(c.slots))
  }

  /** Take the first gray object off the list. */
  function Pop(g: State): State
    requires g.gray != [] && g.gray[0] in g.objs
  {
    var r := g.gray[0];
    var c := g.objs[r];
    g.(objs := g.objs[r := Scanned(c)],
       gray := g.gray[1..],
       grayagain := if c.kind.Thread? then [r] + g.grayagain else g.grayagain,
       weak := if IsWeak(c) then [r] + g.weak else g.weak)
  }

  function PropagateMark(g: State): State
    requires g.gray != [] && g.gray[0] in g.objs
  {
    MarkAll(Pop(g), StrongKids(g, g.gray[0]))
  }

  lemma PopRefs(g: State, q: Ref)
    requires g.gray != [] && g.gray[0] in g.objs && q in g.objs
    ensures Kids(Pop(g), q) == Kids(g, q) && StrongKids(Pop(g), q) == StrongKids(g, q)
    ensures q != g.gray[0] ==> Trace(Pop(g), q) == Trace(g, q)
  {
    var c := g.objs[g.gray[0]];
    PopOpenRefs(g, q);
    if q == g.gray[0] {
      CleanKeepsKids(c.slots, c.weakkey, c.weakvalue);
      assert Pop(g).objs[q] == Scanned(c);
    } else {
      assert Pop(g).objs[q] == g.objs[q];
    }
  }

  lemma PopOpenRefs(g: State, q: Ref)
    requires g.gray != [] && g.gray[0] in g.objs && q in g.objs
    ensures OpenRefs(Pop(g), Pop(g).objs[q]) == OpenRefs(g, g.objs[q])
  {
  }

  lemma StrongInKids(g: State, r: Ref)
    requires r in g.objs
    ensures forall x :: x in StrongKids(g, r) ==> x in Kids(g, r)
  {
    var c := g.objs[r];
    forall x | x in SlotStrong(c.slots, c.weakkey, c.weakvalue) ensures x in SlotKids(c.slots) {
      StrongIsKids(c.slots, c.weakkey, c.weakvalue, x);
    }
  }

  lemma PopLists(g: State)
    requires Lists(g) && g.gray != [] && g.gray[0] in g.objs
    ensures Lists(Pop(g))
  {
    var r := g.gray[0];
    var h := Pop(g);
    var c := g.objs[r];
    var was := g.gray[1..] + g.grayagain + g.weak;
    assert Listed(g) == [r] + was;
    Behead(was, r);
    PopDistinct(g);
    assert forall q :: q in Listed(h) <==> q in was || (q == r && h.objs[r].color.Gray?);
  }

  lemma PopDistinct(g: State)
    requires Distinct(Listed(g)) && g.gray != [] && g.gray[0] in g.objs && Traversable(g.objs[g.gray[0]].kind)
    ensures Distinct(Listed(Pop(g)))
  {
    var r := g.gray[0];
    var c := g.objs[r];
    var a, b, w := g.gray[1..], g.grayagain, g.weak;
    assert Listed(g) == [r] + (a + b + w);
    Behead(a + b + w, r);
    if c.kind.Thread? {
      assert a + b + w == a + (b + w);
      assert Listed(Pop(g)) == a + [r] + (b + w);
      Moved(a, b + w, r);
    } else if IsWeak(c) {
      assert Listed(Pop(g)) == (a + b) + [r] + w;
      Moved(a + b, w, r);
    } else {
      assert Listed(Pop(g)) == a + b + w;
    }
  }

  lemma Behead(s: seq<Ref>, r: Ref)
    requires Distinct([r] + s)
    ensures Distinct(s) && r !in s
  {
    var t := [r] + s;
    assert forall i :: 0 <= i < |s| ==> s[i] == t[i + 1];
    assert t[0] == r;
  }

  lemma Moved(a: seq<Ref>, b: seq<Ref>, r: Ref)
    requires Distinct(a + b) && r !in a + b
    ensures Distinct(a + [r] + b)
  {
    var t := a + [r] + b;
    var s := a + b;
    assert forall i :: 0 <= i < |a| ==> t[i] == s[i];
    assert forall i :: |a| < i < |t| ==> t[i] == s[i - 1];
  }

  lemma PopKinds(g: State)
    requires Lists(g) && Kinds(g) && g.gray != [] && g.gray[0] in g.objs
    ensures Kinds(Pop(g))
  {
    assert g.gray[0] in Listed(g);
  }

  lemma PopColors(g: State, q: Ref)
    requires Lists(g) && g.gray != [] && g.gray[0] in g.objs
    ensures NonWhite(Pop(g), q) <==> NonWhite(g, q)
  {
    assert g.gray[0] in Listed(g);
  }

  lemma PopRefsInv(g: State, e: Slack)
    requires MarkInv(g, e) && g.gray != [] && g.gray[0] in g.objs
    ensures NoDangling(Pop(g)) && Within(Pop(g), e.within)
    ensures Tri(Pop(g), e.black + {g.gray[0]}) && Open(Pop(g), e.open)
  {
    var h := Pop(g);
    forall q | q in g.objs
      ensures Kids(h, q) == Kids(g, q)
      ensures q != g.gray[0] ==> Trace(h, q) == Trace(g, q)
    {
      PopRefs(g, q);
    }
    forall q ensures NonWhite(h, q) <==> NonWhite(g, q) {
      PopColors(g, q);
    }
    assert g.gray[0] in Listed(g);
  }

  lemma PopListsInv(g: State, e: Slack)
    requires MarkInv(g, e) && g.gray != [] && g.gray[0] in g.objs
    ensures Again(Pop(g), e.again + {g.gray[0]}) && Weak(Pop(g), e.weak + {g.gray[0]})
  {
    var h := Pop(g);
    forall q | q in g.objs
      ensures Kids(h, q) == Kids(g, q) && StrongKids(h, q) == StrongKids(g, q)
    {
      PopRefs(g, q);
    }
    forall q ensures NonWhite(h, q) <==> NonWhite(g, q) {
      PopColors(g, q);
    }
  }

  /** The references of the popped object are excused until they are marked. */
  lemma PopInv(g: State, e: Slack)
    requires MarkInv(g, e) && g.gray != [] && g.gray[0] in g.objs
    ensures MarkInv(Pop(g), Excuse(e, g.gray[0]))
  {
    PopLists(g);
    PopKinds(g);
    PopRefsInv(g, e);
    PopListsInv(g, e);
  }

  function Excuse(e: Slack, r: Ref): Slack {
    e.(black := e.black + {r}, again := e.again + {r}, weak := e.weak + {r})
  }

  lemma PropagateMarkInv(g: State, e: Slack)
    requires MarkInv(g, e) && g.gray != [] && g.gray[0] in g.objs
    ensures MarkInv(PropagateMark(g), e)
  {
    var r := g.gray[0];
    var g1 := Pop(g);
    var s := StrongKids(g, r);
    var h := PropagateMark(g);
    assert r in Listed(g) && NonWhite(g, r);
    PopInv(g, e);
    StrongInKids(g, r);
    MarkAllInv(g1, s, Excuse(e, r));
    MarksKeepRefs(g1, h, r);
    PopRefs(g, r);
    assert AllNonWhite(h, StrongKids(h, r));
    var c := g1.objs[r];
    assert h.objs[r] == c;
    if !IsWeak(g.objs[r]) {
      ScannedTrace(g, r);
      MarksKeepRefs(g1, h, r);
      assert AllNonWhite(h, Trace(h, r)) && AllNonWhite(h, Kids(h, r));
    } else {
      assert r in g1.weak && g1.objs[r].color.Gray? && h.objs[r].kind.Table?;
      assert r !in h.grayagain by {
        PopDistinct(g);
        assert g1.weak[0] == r;
        OneList(g1, r);
      }
    }
    DropExcuse(h, e, r);
  }

  lemma OneList(g: State, r: Ref)
    requires Distinct(Listed(g)) && r in g.weak
    ensures r !in g.grayagain
  {
    var j :| 0 <= j < |g.weak| && g.weak[j] == r;
    assert Listed(g)[|g.gray| + |g.grayagain| + j] == r;
    forall i | 0 <= i < |g.grayagain| ensures g.grayagain[i] != r {
      assert Listed(g)[|g.gray| + i] == g.grayagain[i];
    }
  }

  lemma DropExcuse(h: State, e: Slack, r: Ref)
    requires r in h.objs && MarkInv(h, Excuse(e, r))
    requires AllNonWhite(h, StrongKids(h, r))
    requires (AllNonWhite(h, Trace(h, r)) && AllNonWhite(h, Kids(h, r)))
             || (h.objs[r].color.Gray? && r !in h.grayagain)
    ensures MarkInv(h, e)
  {
  }

  lemma ScannedTrace(g: State, r: Ref)
    requires g.gray != [] && g.gray[0] == r && r in g.objs
    requires !IsWeak(g.objs[r]) && Shaped(g.objs[r])
    ensures forall x :: x in Trace(Pop(g), r) ==> x in StrongKids(g, r)
    ensures forall x :: x in Kids(Pop(g), r) ==> x in StrongKids(g, r)
  {
    var c := g.objs[r];
    CleanKeepsKids(c.slots, c.weakkey, c.weakvalue);
    StrongIsKids(c.slots, c.weakkey, c.weakvalue, 0);
    if !c.kind.Table? {
      assert c.slots == [];
    }
    assert OpenRefs(Pop(g), Pop(g).objs[r]) == OpenRefs(g, c);
  }

  // ----- propagateall -----

  lemma {:induction false} MarkAllMeasure(g: State, s: seq<Ref>)
    ensures MarkAll(g, s) == g || |Whites(MarkAll(g, s))| < |Whites(g)|
    decreases |s|
  {
    if s != [] {
      var g1 := Mark(g, s[0]);
      MarkAllMeasure(g1, s[1..]);
      if IsWhite(g, s[0]) {
        WhitesDrop(g, g1, s[0]);
        WhitesShrink(g1, MarkAll(g1, s[1..]));
      }
    }
  }

  /** Each propagation removes a white object or shortens the gray list. */
  lemma PropagateMeasure(g: State)
    requires Lists(g) && g.gray != [] && g.gray[0] in g.objs
    ensures |Whites(PropagateMark(g))| < |Whites(g)|
            || (|Whites(PropagateMark(g))| == |Whites(g)| && |PropagateMark(g).gray| < |g.gray|)
  {
    var g1 := Pop(g);
    assert g.gray[0] in Listed(g);
    assert Whites(g1) == Whites(g);
    MarkAllMeasure(g1, StrongKids(g, g.gray[0]));
  }

  /** What scanning changes: whites may be marked, nodes without a value lose
      their key. */
  ghost predicate Scans(g: State, h: State) {
    && SameShape(g, h)
    && (forall r :: r in g.objs ==> h.objs[r].color == g.objs[r].color || NonWhite(h, r))
    && (forall r :: r in g.objs ==> Kids(h, r) == Kids(g, r) && StrongKids(h, r) == StrongKids(g, r))
  }

  lemma MarksScans(g: State, h: State)
    requires Marks(g, h) && Kinds(g)
    ensures Scans(g, h)
  {
    forall r | r in g.objs ensures SameCell(g.objs[r], h.objs[r]) {
      assert Shaped(g.objs[r]);
    }
    assert SameShape(g, h);
    forall r | r in g.objs
      ensures Kids(h, r) == Kids(g, r) && StrongKids(h, r) == StrongKids(g, r)
    {
      MarksKeepRefs(g, h, r);
    }
  }

  lemma ScansTrans(g: State, h: State, k: State)
    requires Scans(g, h) && Scans(h, k)
    ensures Scans(g, k)
  {
    forall r | r in g.objs ensures SameCell(g.objs[r], k.objs[r]) {
      assert SameCell(g.objs[r], h.objs[r]) && SameCell(h.objs[r], k.objs[r]);
    }
  }

  lemma PopScans(g: State)
    requires Lists(g) && Kinds(g) && g.gray != [] && g.gray[0] in g.objs
    ensures Scans(g, Pop(g))
  {
    var h := Pop(g);
    PopShape(g);
    forall r | r in g.objs ensures h.objs[r].color == g.objs[r].color || NonWhite(h, r) {
      assert r != g.gray[0] ==> h.objs[r] == g.objs[r];
    }
    forall q | q in g.objs
      ensures Kids(h, q) == Kids(g, q) && StrongKids(h, q) == StrongKids(g, q)
    {
      PopRefs(g, q);
    }
  }

  lemma PopShape(g: State)
    requires Kinds(g) && g.gray != [] && g.gray[0] in g.objs
    ensures SameShape(g, Pop(g))
  {
    var h := Pop(g);
    forall r | r in g.objs ensures SameCell(g.objs[r], h.objs[r]) {
      assert Shaped(g.objs[r]);
      ScannedCell(g.objs[r]);
      assert h.objs[r] == g.objs[r] || h.objs[r] == Scanned(g.objs[r]);
    }
  }

  lemma ScannedCell(c: Cell)
    requires Shaped(c)
    ensures SameCell(c, Scanned(c))
  {
  }

  lemma PropagateScans(g: State)
    requires Basic(g) && g.gray != [] && g.gray[0] in g.objs
    ensures Scans(g, PropagateMark(g)) && Basic(PropagateMark(g))
  {
    PropagateMarkInv(g, AnySlack(g));
    PopScans(g);
    PopKinds(g);
    MarksScans(Pop(g), PropagateMark(g));
    ScansTrans(g, Pop(g), PropagateMark(g));
  }

  ghost function AnySlack(g: State): Slack {
    var all := g.objs.Keys;
    Slack(all, all, all, all, all)
  }

  ghost predicate Basic(g: State) {
    Lists(g) && Kinds(g) && NoDangling(g)
  }

  function PropagateAll(g: State): (h: State)
    requires Basic(g)
    ensures Basic(h) && Scans(g, h) && h.gray == []
    decreases |Whites(g)|, |g.gray|
  {
    if g.gray == [] then g
    else
      assert g.gray[0] in Listed(g);
      PropagateScans(g);
      PropagateMeasure(g);
      var h := PropagateAll(PropagateMark(g));
      ScansTrans(g, PropagateMark(g), h);
      h
  }

  lemma {:induction false} PropagateAllInv(g: State, e: Slack)
    requires MarkInv(g, e)
    ensures MarkInv(PropagateAll(g), e)
    decreases |Whites(g)|, |g.gray|
  {
    if g.gray != [] {
      assert g.gray[0] in Listed(g);
      PropagateMarkInv(g, e);
      PropagateMeasure(g);
      PropagateAllInv(PropagateMark(g), e);
    }
  }
}
