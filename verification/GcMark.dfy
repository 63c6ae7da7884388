/** The mark phase: reallymarkobject, the traversals and propagatemark. */
module GcMark {
  import opened LuaHeap

  // ----- reallymarkobject and the mark macros -----

  ghost function Whites(g: State): set<Ref> {
    set r | r in g.objs && g.objs[r].color.White?
  }

  /** What marking may change: whites take another colour, and the gray list
      grows. */
  ghost predicate Marks(g: State, h: State) {
    && h == g.(objs := h.objs, gray := h.gray)
    && h.objs.Keys == g.objs.Keys
    && (forall r :: r in g.objs ==> h.objs[r] == g.objs[r].(color := h.objs[r].color))
    && (forall r :: r in g.objs ==>
          h.objs[r].color == g.objs[r].color || (g.objs[r].color.White? && !h.objs[r].color.White?))
  }

  lemma WhitesShrink(g: State, h: State)
    requires Marks(g, h)
    ensures Whites(h) <= Whites(g) && |Whites(h)| <= |Whites(g)|
  {
    Subset(Whites(h), Whites(g));
  }

  lemma {:induction false} Subset(a: set<Ref>, b: set<Ref>)
    requires a <= b
    ensures |a| <= |b|
    ensures a != b ==> |a| < |b|
  {
    if a == {} {
    } else {
      var x :| x in a;
      Subset(a - {x}, b - {x});
    }
  }

  lemma WhitesDrop(g: State, h: State, r: Ref)
    requires Marks(g, h) && IsWhite(g, r) && NonWhite(h, r)
    ensures |Whites(h)| < |Whites(g)|
  {
    assert r in Whites(g) && r !in Whites(h);
    Subset(Whites(h), Whites(g));
  }

  lemma MarksTrans(g: State, h: State, k: State)
    requires Marks(g, h) && Marks(h, k)
    ensures Marks(g, k)
  {
  }

  lemma RecolorMarks(g: State, r: Ref, c: Color, l: seq<Ref>)
    requires IsWhite(g, r) && !c.White?
    ensures Marks(g, SetColor(g, r, c).(gray := l))
  {
  }

  /** The colour reallymarkobject gives.  Userdata and closed upvalues turn black
      at once (the source passes a closed upvalue through gray while it marks the
      value, which no test can tell apart), everything else gray; the
      traversable kinds go to the gray list. */
  function Shade(g: State, r: Ref): (h: State)
    requires IsWhite(g, r)
    ensures Marks(g, h) && NonWhite(h, r)
  {
    var k := g.objs[r].kind;
    var c := if k.Udata? || k.UpvalClosed? then Black else Gray;
    var l := if Traversable(k) then [r] + g.gray else g.gray;
    RecolorMarks(g, r, c, l);
    SetColor(g, r, c).(gray := l)
  }

  /** The references reallymarkobject marks itself: metatable and environment of
      a userdata, the value of an upvalue. */
  function Inner(g: State, r: Ref): seq<Ref>
    requires r in g.objs
  {
    var c := g.objs[r];
    if c.kind.Udata? || c.kind.UpvalClosed? then c.refs
    else if c.kind.UpvalOpen? then OpenRefs(g, c)
    else []
  }

  function ReallyMark(g: State, r: Ref): (h: State)
    requires IsWhite(g, r)
    ensures Marks(g, h) && NonWhite(h, r)
    decreases |Whites(g)|, 0
  {
    var g1 := Shade(g, r);
    WhitesDrop(g, g1, r);
    var h := MarkAll(g1, Inner(g, r));
    MarksTrans(g, g1, h);
    h
  }

  /** markobject and markvalue. */
  function Mark(g: State, r: Ref): (h: State)
    ensures Marks(g, h) && (r in g.objs ==> NonWhite(h, r))
    decreases |Whites(g)|, 1
  {
    if IsWhite(g, r) then ReallyMark(g, r) else g
  }

  function MarkAll(g: State, s: seq<Ref>): (h: State)
    ensures Marks(g, h)
    ensures forall x :: x in s && x in g.objs ==> NonWhite(h, x)
    decreases |Whites(g)|, 2, |s|
  {
    if s == [] then g
    else
      var g1 := Mark(g, s[0]);
      WhitesShrink(g, g1);
      var h := MarkAll(g1, s[1..]);
      MarksTrans(g, g1, h);
      h
  }

  // ----- the invariant of the mark phase -----

  /** Which parts of an object its kind may use. */
  ghost predicate Shaped(c: Cell) {
    && (!c.kind.Table? ==> c.slots == [])
    && (!c.kind.Thread? ==> c.stack == [] && c.openupval == [])
    && (c.kind.Str? || c.kind.UpvalOpen? ==> c.refs == [])
  }

  /** Where the invariant is suspended: `black`, `open`, `again` and `weak` list
      objects whose references may still be white; `within` bounds what may be
      marked. */
  datatype Slack = Slack(black: set<Ref>, open: set<Ref>, again: set<Ref>, weak: set<Ref>, within: set<Ref>)

  ghost predicate Distinct(s: seq<Ref>) {
    forall i, j :: 0 <= i < j < |s| ==> s[i] != s[j]
  }

  function Listed(g: State): seq<Ref> {
    g.gray + g.grayagain + g.weak
  }

  /** Gray tables, functions, prototypes and threads are exactly the members of
      the three lists, each in one place; threads, open upvalues and strings are
      never black, userdata and closed upvalues never gray. */
  ghost predicate Lists(g: State) {
    && Distinct(Listed(g))
    && (forall r :: r in Listed(g) ==> r in g.objs && g.objs[r].color.Gray? && Traversable(g.objs[r].kind))
    && (forall r :: r in g.objs && g.objs[r].color.Gray? && Traversable(g.objs[r].kind) ==> r in Listed(g))
    && (forall r :: r in g.weak ==> r in g.objs && g.objs[r].kind.Table?)
  }

  ghost predicate Kinds(g: State) {
    forall r :: r in g.objs ==>
      && Shaped(g.objs[r])
      && (g.objs[r].color.Black? ==> !g.objs[r].kind.Thread? && !g.objs[r].kind.UpvalOpen? && !g.objs[r].kind.Str?)
      && (g.objs[r].color.Gray? ==> !g.objs[r].kind.Udata? && !g.objs[r].kind.UpvalClosed?)
      && (g.objs[r].fixed ==> g.objs[r].kind.Str? || (g.objs[r].kind.Thread? && r == g.main))
  }

  ghost predicate NoDangling(g: State) {
    forall r, x :: r in g.objs && x in Kids(g, r) ==> x in g.objs
  }

  /** No black object refers to a white one. */
  ghost predicate Tri(g: State, ex: set<Ref>) {
    forall r :: r in g.objs && g.objs[r].color.Black? && r !in ex ==> AllNonWhite(g, Trace(g, r))
  }

  ghost predicate Open(g: State, ex: set<Ref>) {
    forall r :: r in g.objs && g.objs[r].color.Gray? && g.objs[r].kind.UpvalOpen? && r !in ex
      ==> AllNonWhite(g, Kids(g, r))
  }

  ghost predicate Again(g: State, ex: set<Ref>) {
    forall r :: r in g.grayagain && r in g.objs && r !in ex ==> AllNonWhite(g, Kids(g, r))
  }

  ghost predicate Weak(g: State, ex: set<Ref>) {
    forall r :: r in g.weak && r in g.objs && r !in ex ==> AllNonWhite(g, StrongKids(g, r))
  }

  /** Everything marked lies in `s`, and marking cannot lead out of it. */
  ghost predicate Within(g: State, s: set<Ref>) {
    && (forall r :: NonWhite(g, r) ==> r in s)
    && (forall r, x :: r in s && r in g.objs && x in Kids(g, r) ==> x in s)
  }

  ghost predicate MarkInv(g: State, e: Slack) {
    && Lists(g) && Kinds(g) && NoDangling(g)
    && Tri(g, e.black) && Open(g, e.open) && Again(g, e.again) && Weak(g, e.weak)
    && Within(g, e.within)
  }

  lemma MarksKeepRefs(g: State, h: State, r: Ref)
    requires Marks(g, h) && r in g.objs
    ensures Kids(h, r) == Kids(g, r) && Trace(h, r) == Trace(g, r) && StrongKids(h, r) == StrongKids(g, r)
  {
  }

  lemma TraceOfInner(g: State, r: Ref)
    requires r in g.objs && Shaped(g.objs[r])
    requires !Traversable(g.objs[r].kind)
    ensures Trace(g, r) == Kids(g, r) == Inner(g, r)
  {
    assert OpenRefs(g, g.objs[r]) == [] || g.objs[r].kind.UpvalOpen?;
  }

  lemma ShadeLists(g: State, r: Ref)
    requires IsWhite(g, r) && Lists(g)
    ensures Lists(Shade(g, r))
  {
    var h := Shade(g, r);
    assert r !in Listed(g);
    if Traversable(g.objs[r].kind) {
      assert Listed(h) == [r] + Listed(g);
    } else {
      assert Listed(h) == Listed(g);
    }
  }

  /** Marking keeps the parts of the invariant that are about references, as
      long as the objects it recolours are excused. */
  lemma MarksKeep(g: State, h: State, e: Slack, ex: set<Ref>)
    requires Marks(g, h) && NoDangling(g) && Tri(g, e.black) && Open(g, e.open)
    requires forall r :: r in g.objs && r !in ex ==> h.objs[r].color == g.objs[r].color
    ensures NoDangling(h) && Tri(h, e.black + ex) && Open(h, e.open + ex)
  {
    forall q | q in g.objs
      ensures Kids(h, q) == Kids(g, q) && Trace(h, q) == Trace(g, q)
    {
      MarksKeepRefs(g, h, q);
    }
  }

  lemma MarksKeepLists(g: State, h: State, e: Slack)
    requires Marks(g, h) && Again(g, e.again) && Weak(g, e.weak)
    ensures Again(h, e.again) && Weak(h, e.weak)
  {
    forall q | q in g.objs
      ensures Kids(h, q) == Kids(g, q) && StrongKids(h, q) == StrongKids(g, q)
    {
      MarksKeepRefs(g, h, q);
    }
  }

  lemma ShadeWithin(g: State, r: Ref, s: set<Ref>)
    requires IsWhite(g, r) && Within(g, s) && r in s
    ensures Within(Shade(g, r), s)
  {
    var h := Shade(g, r);
    forall q | q in g.objs
      ensures Kids(h, q) == Kids(g, q)
    {
      MarksKeepRefs(g, h, q);
    }
  }

  lemma ShadeInv(g: State, r: Ref, e: Slack)
    requires IsWhite(g, r) && MarkInv(g, e) && r in e.within
    ensures MarkInv(Shade(g, r), e.(black := e.black + {r}, open := e.open + {r}))
  {
    var h := Shade(g, r);
    ShadeLists(g, r);
    MarksKeep(g, h, e, {r});
    MarksKeepLists(g, h, e);
    ShadeWithin(g, r, e.within);
  }

  lemma {:induction false} ReallyMarkInv(g: State, r: Ref, e: Slack)
    requires IsWhite(g, r) && MarkInv(g, e) && r in e.within
    ensures MarkInv(ReallyMark(g, r), e)
    decreases |Whites(g)|, 0
  {
    var g1 := Shade(g, r);
    var e1 := e.(black := e.black + {r}, open := e.open + {r});
    var s := Inner(g, r);
    ShadeInv(g, r, e);
    WhitesDrop(g, g1, r);
    if s != [] {
      TraceOfInner(g, r);
    }
    MarkAllInv(g1, s, e1);
    var h := ReallyMark(g, r);
    assert h == MarkAll(g1, s);
    MarksKeepRefs(g, h, r);
    if !Traversable(g.objs[r].kind) {
      TraceOfInner(g, r);
      assert AllNonWhite(h, Trace(h, r));
    } else {
      assert h.objs[r].color.Gray?;
    }
    DropSlack(h, e1, e, r);
  }

  /** An object stops being excused once what it refers to is marked. */
  lemma DropSlack(h: State, e1: Slack, e: Slack, r: Ref)
    requires r in h.objs && e1 == e.(black := e.black + {r}, open := e.open + {r})
    requires MarkInv(h, e1)
    requires (AllNonWhite(h, Trace(h, r)) && AllNonWhite(h, Kids(h, r)))
             || (h.objs[r].color.Gray? && !h.objs[r].kind.UpvalOpen?)
    ensures MarkInv(h, e)
  {
  }

  lemma {:induction false} MarkAllInv(g: State, s: seq<Ref>, e: Slack)
    requires MarkInv(g, e)
    requires forall x :: x in s ==> x in g.objs && x in e.within
    ensures MarkInv(MarkAll(g, s), e)
    decreases |Whites(g)|, 2, |s|
  {
    if s != [] {
      var g1 := Mark(g, s[0]);
      assert s[0] in s;
      if IsWhite(g, s[0]) {
        ReallyMarkInv(g, s[0], e);
      }
      WhitesShrink(g, g1);
      MarkAllInv(g1, s[1..], e);
    }
  }
}
