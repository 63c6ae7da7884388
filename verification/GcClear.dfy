/** cleartable: removing collected entries from weak tables. */
module GcClear {
  import opened LuaHeap
  import opened GcMark
  import opened GcState
  import opened GcPropagate

  /** iscleared; strings are values, so they are never removed. */
  predicate IsCleared(g: State, r: Ref, iskey: bool) {
    r in g.objs && !g.objs[r].kind.Str?
    && (g.objs[r].color.White? || (g.objs[r].kind.Udata? && !iskey && g.objs[r].finalized))
  }

  predicate KeyCleared(g: State, k: Key) {
    k.KObj? && IsCleared(g, k.ref, true)
  }

  predicate ValCleared(g: State, v: Val) {
    v.Obj? && IsCleared(g, v.ref, false)
  }

  function ClearSlot(g: State, wv: bool, e: Slot): Slot {
    if e.key.Index? then
      if wv && ValCleared(g, e.val) then e.(val := Nil) else e
    else if !e.val.Nil? && (KeyCleared(g, e.key) || ValCleared(g, e.val)) then
      Slot(if e.key.KObj? then Dead else e.key, Nil)
    else e
  }

  function Strings(g: State, s: seq<Ref>): (t: seq<Ref>)
    ensures forall x :: x in t <==> x in s && x in g.objs && g.objs[x].kind.Str?
  {
    if s == [] then []
    else
      assert forall x :: x in s <==> x == s[0] || x in s[1..];
      (if s[0] in g.objs && g.objs[s[0]].kind.Str? then [s[0]] else []) + Strings(g, s[1..])
  }

  /** The strings iscleared marks on its way through a slot. */
  function SlotStrings(g: State, wv: bool, e: Slot): seq<Ref> {
    if e.key.Index? then if wv then Strings(g, ValRefs(e.val)) else []
    else if e.val.Nil? then []
    else Strings(g, KeyRefs(e.key)) + if KeyCleared(g, e.key) then [] else Strings(g, ValRefs(e.val))
  }

  function ClearSlots(g: State, wv: bool, s: seq<Slot>): (t: seq<Slot>)
    ensures |t| == |s|
  {
    if s == [] then [] else ClearSlots(g, wv, s[..|s| - 1]) + [ClearSlot(g, wv, s[|s| - 1])]
  }

  function SeenStrings(g: State, wv: bool, s: seq<Slot>): seq<Ref> {
    if s == [] then [] else SlotStrings(g, wv, s[|s| - 1]) + SeenStrings(g, wv, s[..|s| - 1])
  }

  lemma {:induction false} SeenAreStrings(g: State, wv: bool, s: seq<Slot>, x: Ref)
    requires x in SeenStrings(g, wv, s)
    ensures x in SlotKids(s) && x in g.objs && g.objs[x].kind.Str?
  {
    var n := |s| - 1;
    if x !in SlotStrings(g, wv, s[n]) {
      SeenAreStrings(g, wv, s[..n], x);
    }
  }

  /** What is left in a cleared table was there before, and is marked by the end
      of the clearing. */
  lemma {:induction false} ClearedKids(g: State, wk: bool, wv: bool, s: seq<Slot>, x: Ref)
    requires AllNonWhite(g, SlotStrong(s, wk, wv))
    requires forall y :: y in SlotKids(s) ==> y in g.objs
    requires x in SlotKids(ClearSlots(g, wv, s))
    ensures x in SlotKids(s)
    ensures NonWhite(g, x) || x in SeenStrings(g, wv, s)
  {
    var n := |s| - 1;
    var t := ClearSlots(g, wv, s);
    assert t[..n] == ClearSlots(g, wv, s[..n]);
    if x in SlotKids(t[..n]) {
      ClearedKids(g, wk, wv, s[..n], x);
    } else {
      assert x in KeyRefs(t[n].key) + ValRefs(t[n].val);
      assert t[n] == s[n];
    }
  }

  lemma {:induction false} ClearedStrong(g: State, wk: bool, wv: bool, s: seq<Slot>, x: Ref)
    requires x in SlotStrong(ClearSlots(g, wv, s), wk, wv)
    ensures x in SlotStrong(s, wk, wv)
  {
    var n := |s| - 1;
    var t := ClearSlots(g, wv, s);
    assert t[..n] == ClearSlots(g, wv, s[..n]);
    if x in SlotStrong(t[..n], wk, wv) {
      ClearedStrong(g, wk, wv, s[..n], x);
    } else {
      assert t[n] == s[n];
    }
  }

  function ClearTable(g: State, r: Ref): State
    requires r in g.objs
  {
    WithSlots(MarkAll(g, Seen(g, r)), r, Kept(g, r))
  }

  function Seen(g: State, r: Ref): seq<Ref>
    requires r in g.objs
  {
    SeenStrings(g, g.objs[r].weakvalue, g.objs[r].slots)
  }

  function Kept(g: State, r: Ref): seq<Slot>
    requires r in g.objs
  {
    ClearSlots(g, g.objs[r].weakvalue, g.objs[r].slots)
  }

  function ClearTables(g: State, l: seq<Ref>): State
    requires forall r :: r in l ==> r in g.objs
    decreases |l|
  {
    if l == [] then g else ClearTables(ClearTable(g, l[0]), l[1..])
  }

  lemma {:induction false} MarkStringsOnly(g: State, s: seq<Ref>)
    requires forall x :: x in s ==> x in g.objs && g.objs[x].kind.Str?
    ensures MarkAll(g, s).gray == g.gray
    ensures forall r :: r in g.objs && !g.objs[r].kind.Str? ==> MarkAll(g, s).objs[r] == g.objs[r]
    decreases |s|
  {
    if s != [] {
      var h := Mark(g, s[0]);
      assert s[0] in s;
      if IsWhite(g, s[0]) {
        assert Inner(g, s[0]) == [];
        assert ReallyMark(g, s[0]) == Shade(g, s[0]);
      }
      assert forall x :: x in s[1..] ==> x in s;
      MarkStringsOnly(h, s[1..]);
    }
  }

  // ----- clearing keeps the mark invariant -----

  function WithSlots(g: State, r: Ref, t: seq<Slot>): State
    requires r in g.objs
  {
    g.(objs := g.objs[r := g.objs[r].(slots := t)])
  }

  lemma WithSlotsRefs(g: State, r: Ref, t: seq<Slot>, q: Ref)
    requires r in g.objs && q in g.objs && q != r
    ensures var h := WithSlots(g, r, t);
            Kids(h, q) == Kids(g, q) && Trace(h, q) == Trace(g, q) && StrongKids(h, q) == StrongKids(g, q)
  {
    assert OpenRefs(WithSlots(g, r, t), g.objs[q]) == OpenRefs(g, g.objs[q]);
  }

  ghost predicate Fewer(s: seq<Ref>, t: seq<Ref>) {
    forall x :: x in s ==> x in t
  }

  lemma WithSlotsSelf(g: State, r: Ref, t: seq<Slot>)
    requires r in g.objs && g.objs[r].kind.Table?
    requires Fewer(SlotKids(t), SlotKids(g.objs[r].slots))
    requires Fewer(SlotStrong(t, g.objs[r].weakkey, g.objs[r].weakvalue),
                   SlotStrong(g.objs[r].slots, g.objs[r].weakkey, g.objs[r].weakvalue))
    ensures Fewer(Kids(WithSlots(g, r, t), r), Kids(g, r))
    ensures Fewer(StrongKids(WithSlots(g, r, t), r), StrongKids(g, r))
  {
    assert OpenRefs(WithSlots(g, r, t), WithSlots(g, r, t).objs[r]) == [];
  }

  /** Dropping entries of a gray table keeps the mark invariant. */
  lemma DropSlotsInv(g: State, r: Ref, t: seq<Slot>, e: Slack)
    requires MarkInv(g, e) && r in g.objs && g.objs[r].kind.Table? && g.objs[r].color.Gray?
    requires Fewer(SlotKids(t), SlotKids(g.objs[r].slots))
    requires Fewer(SlotStrong(t, g.objs[r].weakkey, g.objs[r].weakvalue),
                   SlotStrong(g.objs[r].slots, g.objs[r].weakkey, g.objs[r].weakvalue))
    ensures MarkInv(WithSlots(g, r, t), e)
    ensures forall q :: q in g.objs ==> Fewer(Kids(WithSlots(g, r, t), q), Kids(g, q))
  {
    DropSlotsRefs(g, r, t, e);
    DropSlotsLists(g, r, t, e);
    DropSlotsKinds(g, r, t);
  }

  lemma DropSlotsRefs(g: State, r: Ref, t: seq<Slot>, e: Slack)
    requires NoDangling(g) && Tri(g, e.black) && Open(g, e.open) && Within(g, e.within)
    requires r in g.objs && g.objs[r].kind.Table? && g.objs[r].color.Gray?
    requires Fewer(SlotKids(t), SlotKids(g.objs[r].slots))
    requires Fewer(SlotStrong(t, g.objs[r].weakkey, g.objs[r].weakvalue),
                   SlotStrong(g.objs[r].slots, g.objs[r].weakkey, g.objs[r].weakvalue))
    ensures var h := WithSlots(g, r, t);
            NoDangling(h) && Tri(h, e.black) && Open(h, e.open) && Within(h, e.within)
    ensures forall q :: q in g.objs ==> Fewer(Kids(WithSlots(g, r, t), q), Kids(g, q))
  {
    var h := WithSlots(g, r, t);
    WithSlotsSelf(g, r, t);
    forall q | q in g.objs && q != r
      ensures Kids(h, q) == Kids(g, q) && Trace(h, q) == Trace(g, q)
    {
      WithSlotsRefs(g, r, t, q);
    }
    DroppedRefs(g, h, r, e);
  }

  /** One gray table refers to less, everything else to the same. */
  lemma DroppedRefs(g: State, h: State, r: Ref, e: Slack)
    requires NoDangling(g) && Tri(g, e.black) && Open(g, e.open) && Within(g, e.within)
    requires h.objs.Keys == g.objs.Keys && r in g.objs && g.objs[r].color.Gray? && g.objs[r].kind.Table?
    requires forall q :: q in g.objs ==> h.objs[q].color == g.objs[q].color && h.objs[q].kind == g.objs[q].kind
    requires forall q :: q in g.objs && q != r ==> Kids(h, q) == Kids(g, q) && Trace(h, q) == Trace(g, q)
    requires Fewer(Kids(h, r), Kids(g, r))
    ensures NoDangling(h) && Tri(h, e.black) && Open(h, e.open) && Within(h, e.within)
    ensures forall q :: q in g.objs ==> Fewer(Kids(h, q), Kids(g, q))
  {
    forall q ensures NonWhite(h, q) == NonWhite(g, q) {
    }
    forall q | q in g.objs ensures Fewer(Kids(h, q), Kids(g, q)) {
    }
    forall q | q in h.objs && h.objs[q].color.Black? && q !in e.black ensures AllNonWhite(h, Trace(h, q)) {
      assert AllNonWhite(g, Trace(g, q));
    }
  }

  lemma DropSlotsLists(g: State, r: Ref, t: seq<Slot>, e: Slack)
    requires Again(g, e.again) && Weak(g, e.weak)
    requires r in g.objs && g.objs[r].kind.Table? && g.objs[r].color.Gray?
    requires Fewer(SlotKids(t), SlotKids(g.objs[r].slots))
    requires Fewer(SlotStrong(t, g.objs[r].weakkey, g.objs[r].weakvalue),
                   SlotStrong(g.objs[r].slots, g.objs[r].weakkey, g.objs[r].weakvalue))
    ensures var h := WithSlots(g, r, t);
            Again(h, e.again) && Weak(h, e.weak)
  {
    hide Fewer, SlotKids;
    var h := WithSlots(g, r, t);
    WithSlotsSelf(g, r, t);
    forall q | q in g.objs && q != r
      ensures Kids(h, q) == Kids(g, q) && StrongKids(h, q) == StrongKids(g, q)
    {
      WithSlotsRefs(g, r, t, q);
    }
    assert forall q :: NonWhite(h, q) == NonWhite(g, q);
  }

  lemma DropSlotsKinds(g: State, r: Ref, t: seq<Slot>)
    requires Kinds(g) && Lists(g) && r in g.objs && g.objs[r].kind.Table?
    ensures Kinds(WithSlots(g, r, t)) && Lists(WithSlots(g, r, t))
  {
    assert Listed(WithSlots(g, r, t)) == Listed(g);
  }

  /** What clearing changes. */
  ghost predicate Clears(g: State, h: State) {
    && SameShape(g, h) && h.gray == g.gray && h.grayagain == g.grayagain && h.weak == g.weak
    && (forall r :: r in g.objs ==> h.objs[r].color == g.objs[r].color || NonWhite(h, r))
    && (forall r :: r in g.objs ==> Fewer(Kids(h, r), Kids(g, r)))
  }

  lemma ClearedFewer(g: State, r: Ref)
    requires r in g.objs && AllNonWhite(g, StrongKids(g, r)) && NoDangling(g)
    ensures Fewer(SlotKids(Kept(g, r)), SlotKids(g.objs[r].slots))
    ensures Fewer(SlotStrong(Kept(g, r), g.objs[r].weakkey, g.objs[r].weakvalue),
                  SlotStrong(g.objs[r].slots, g.objs[r].weakkey, g.objs[r].weakvalue))
    ensures forall x :: x in SlotKids(Kept(g, r)) ==> NonWhite(g, x) || x in Seen(g, r)
  {
    var c := g.objs[r];
    var t := ClearSlots(g, c.weakvalue, c.slots);
    assert AllNonWhite(g, SlotStrong(c.slots, c.weakkey, c.weakvalue));
    forall y | y in SlotKids(c.slots) ensures y in g.objs {
      assert y in Kids(g, r);
    }
    forall x | x in SlotKids(t)
      ensures x in SlotKids(c.slots) && (NonWhite(g, x) || x in SeenStrings(g, c.weakvalue, c.slots))
    {
      ClearedKids(g, c.weakkey, c.weakvalue, c.slots, x);
    }
    forall x | x in SlotStrong(t, c.weakkey, c.weakvalue) ensures x in SlotStrong(c.slots, c.weakkey, c.weakvalue) {
      ClearedStrong(g, c.weakkey, c.weakvalue, c.slots, x);
    }
  }

  lemma SeenInv(g: State, r: Ref, e: Slack)
    requires MarkInv(g, e) && r in g.objs && NonWhite(g, r)
    ensures forall x :: x in Seen(g, r) ==> x in g.objs && g.objs[x].kind.Str?
    ensures MarkInv(MarkAll(g, Seen(g, r)), e) && Scans(g, MarkAll(g, Seen(g, r)))
  {
    var c := g.objs[r];
    var s := SeenStrings(g, c.weakvalue, c.slots);
    forall x | x in s ensures x in Kids(g, r) && x in g.objs && g.objs[x].kind.Str? {
      SeenAreStrings(g, c.weakvalue, c.slots, x);
    }
    MarkAllInv(g, s, e);
    MarksScans(g, MarkAll(g, s));
  }

  lemma ClearShape(g: State, g1: State, r: Ref, t: seq<Slot>)
    requires Scans(g, g1) && g1.gray == g.gray && g1.grayagain == g.grayagain && g1.weak == g.weak
    requires r in g.objs && g1.objs[r].kind.Table?
    requires forall q :: q in g1.objs ==> Fewer(Kids(WithSlots(g1, r, t), q), Kids(g1, q))
    ensures Clears(g, WithSlots(g1, r, t))
  {
    var h := WithSlots(g1, r, t);
    ClearCells(g, g1, r, t);
    forall q | q in g.objs ensures Fewer(Kids(h, q), Kids(g, q)) {
      assert Kids(g1, q) == Kids(g, q);
    }
  }

  lemma ClearCells(g: State, g1: State, r: Ref, t: seq<Slot>)
    requires SameShape(g, g1) && r in g.objs && g1.objs[r].kind.Table?
    ensures SameShape(g, WithSlots(g1, r, t))
  {
    var h := WithSlots(g1, r, t);
    forall q | q in g.objs ensures SameCell(g.objs[q], h.objs[q]) {
      assert SameCell(g.objs[q], g1.objs[q]);
    }
  }

  /** Replacing the slots of a weak table, once the remaining strings are marked. */
  lemma ClearStep(g: State, g1: State, r: Ref, t: seq<Slot>, e: Slack)
    requires MarkInv(g1, e) && Marks(g, g1) && Scans(g, g1) && g1.gray == g.gray
    requires r in g.objs && Shaped(g.objs[r]) && g.objs[r].kind.Table? && g.objs[r].color.Gray?
    requires AllNonWhite(g, g.objs[r].refs)
    requires Fewer(SlotKids(t), SlotKids(g.objs[r].slots))
    requires Fewer(SlotStrong(t, g.objs[r].weakkey, g.objs[r].weakvalue),
                   SlotStrong(g.objs[r].slots, g.objs[r].weakkey, g.objs[r].weakvalue))
    requires forall x :: x in SlotKids(t) ==> NonWhite(g1, x)
    ensures var h := WithSlots(g1, r, t);
            MarkInv(h, e) && Clears(g, h) && AllNonWhite(h, Kids(h, r))
  {
    assert g1.objs[r] == g.objs[r];
    DropSlotsInv(g1, r, t, e);
    ClearShape(g, g1, r, t);
    ClearedAllMarked(g, g1, r, t);
  }

  lemma ClearTableInv(g: State, r: Ref, e: Slack)
    requires MarkInv(g, e) && e.weak == {} && r in g.weak
    ensures r in g.objs && MarkInv(ClearTable(g, r), e) && Clears(g, ClearTable(g, r))
    ensures AllNonWhite(ClearTable(g, r), Kids(ClearTable(g, r), r))
  {
    hide RootListOk, SameCells, Clears, MarkAll, NoDangling;
    assert r in Listed(g);
    var g1 := MarkAll(g, Seen(g, r));
    SeenInv(g, r, e);
    MarkStringsOnly(g, Seen(g, r));
    ClearedFewer(g, r);
    assert Fewer(g.objs[r].refs, StrongKids(g, r));
    ClearStep(g, g1, r, Kept(g, r), e);
  }

  lemma ClearedAllMarked(g: State, g1: State, r: Ref, t: seq<Slot>)
    requires r in g.objs && Shaped(g.objs[r]) && g.objs[r].kind.Table? && Marks(g, g1)
    requires AllNonWhite(g, g.objs[r].refs)
    requires forall x :: x in SlotKids(t) ==> NonWhite(g1, x)
    ensures AllNonWhite(WithSlots(g1, r, t), Kids(WithSlots(g1, r, t), r))
  {
    var h := WithSlots(g1, r, t);
    assert OpenRefs(h, h.objs[r]) == [];
    assert Kids(h, r) == g.objs[r].refs + SlotKids(t) + [] + [];
    assert forall x :: NonWhite(g1, x) ==> NonWhite(h, x);
  }

  lemma ClearsTrans(g: State, h: State, k: State)
    requires Clears(g, h) && Clears(h, k)
    ensures Clears(g, k)
  {
    hide Kids;
    forall r | r in g.objs ensures SameCell(g.objs[r], k.objs[r]) {
      assert SameCell(g.objs[r], h.objs[r]) && SameCell(h.objs[r], k.objs[r]);
    }
  }

  lemma ClearsKeepNonWhite(g: State, h: State, q: Ref)
    requires Clears(g, h) && q in g.objs && AllNonWhite(g, Kids(g, q))
    ensures AllNonWhite(h, Kids(h, q))
  {
  }

  /** After the weak list `l` is cleared its tables refer to marked objects only. */
  lemma {:induction false} ClearTablesInv(g: State, l: seq<Ref>, e: Slack)
    requires MarkInv(g, e) && e.weak == {}
    requires forall r :: r in l ==> r in g.weak && r in g.objs
    ensures MarkInv(ClearTables(g, l), e) && Clears(g, ClearTables(g, l))
    ensures forall r :: r in l ==> AllNonWhite(ClearTables(g, l), Kids(ClearTables(g, l), r))
    decreases |l|
  {
    hide RootListOk, AllNonWhite;
    if l == [] {
      assert forall r :: r in g.objs ==> Shaped(g.objs[r]);
      assert SameShape(g, g);
    } else {
      assert l[0] in l;
      var h := ClearTable(g, l[0]);
      ClearTableInv(g, l[0], e);
      assert forall r :: r in l[1..] ==> r in l;
      ClearTablesInv(h, l[1..], e);
      var k := ClearTables(g, l);
      ClearsTrans(g, h, k);
      ClearsKeepNonWhite(h, k, l[0]);
    }
  }
}
