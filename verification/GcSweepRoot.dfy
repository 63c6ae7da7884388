/** Sweeping rootgc: each object, and with a thread its open upvalues. */
module GcSweepRoot {
  import opened LuaHeap
  import opened GcMark
  import opened GcState
  import opened GcAtomic
  import opened GcSweep
  import opened GcUpval

  // ----- the open upvalues of a thread -----

  function SweepOpen(g: State, t: Ref): State
    requires t in g.objs
  {
    var l := g.objs[t].openupval;
    g.(objs := SweepCells(g, l)[t := g.objs[t].(openupval := Survivors(g, l))],
       uvhead := RemoveFreed(g, g.uvhead, l))
  }

  function RemoveFreed(g: State, s: seq<Ref>, l: seq<Ref>): (t: seq<Ref>)
    ensures forall x :: x in t <==> x in s && !(x in l && Freeable(g, x))
  {
    if s == [] then []
    else
      assert forall x :: x in s <==> x == s[0] || x in s[1..];
      (if s[0] in l && Freeable(g, s[0]) then [] else [s[0]]) + RemoveFreed(g, s[1..], l)
  }

  ghost predicate Descending(g: State, l: seq<Ref>, t: Ref) {
    && (forall x :: x in l ==> OpenAt(g, x, t))
    && (forall i, j :: 0 <= i < j < |l| && OpenAt(g, l[i], t) && OpenAt(g, l[j], t) ==>
          g.objs[l[i]].kind.level > g.objs[l[j]].kind.level)
  }

  lemma DescendTail(g: State, l: seq<Ref>, t: Ref)
    requires l != [] && Descending(g, l, t)
    ensures Descending(g, l[1..], t)
    ensures forall x :: x in l[1..] && OpenAt(g, x, t) && OpenAt(g, l[0], t) ==>
              g.objs[l[0]].kind.level > g.objs[x].kind.level
  {
    var m := l[1..];
    assert forall i :: 0 <= i < |m| ==> m[i] == l[i + 1];
    forall x | x in m ensures x in l {
      var k :| 0 <= k < |m| && m[k] == x;
      assert l[k + 1] == x;
    }
  }

  lemma DescendCons(g: State, u: Ref, r: seq<Ref>, t: Ref)
    requires Descending(g, r, t) && OpenAt(g, u, t)
    requires forall x :: x in r && OpenAt(g, x, t) ==> g.objs[u].kind.level > g.objs[x].kind.level
    ensures Descending(g, [u] + r, t)
  {
    var s := [u] + r;
    assert forall i :: 1 <= i < |s| ==> s[i] == r[i - 1] && s[i] in r;
  }

  lemma {:induction false} SurvivorsDescend(g: State, l: seq<Ref>, t: Ref)
    requires Descending(g, l, t)
    ensures Descending(g, Survivors(g, l), t)
  {
    if l != [] {
      DescendTail(g, l, t);
      SurvivorsDescend(g, l[1..], t);
      if !Freeable(g, l[0]) {
        assert l[0] in l;
        DescendCons(g, l[0], Survivors(g, l[1..]), t);
      }
    }
  }

  ghost predicate OpenThread(g: State, t: Ref) {
    UpvalsOk(g) && Kinds(g) && t in g.objs && g.objs[t].kind.Thread?
  }

  /** `h` is `g` with the open upvalues of `t` swept. */
  ghost predicate OpenSwept(g: State, t: Ref, h: State)
    requires t in g.objs
  {
    var l := g.objs[t].openupval;
    && h == g.(objs := h.objs, uvhead := RemoveFreed(g, g.uvhead, l))
    && t !in l && t in h.objs && h.objs[t] == g.objs[t].(openupval := Survivors(g, l))
    && (forall r :: r in h.objs <==> r in g.objs && !(r in l && Freeable(g, r)))
    && (forall r :: r in h.objs && r != t ==>
          h.objs[r] == if r in l then g.objs[r].(color := White(g.cur)) else g.objs[r])
    && (forall u :: u in l ==> OpenAt(g, u, t) && !g.objs[u].fixed)
  }

  lemma SweepOpenCells(g: State, t: Ref)
    requires OpenThread(g, t)
    ensures OpenSwept(g, t, SweepOpen(g, t))
  {
    var l := g.objs[t].openupval;
    assert OpenListOk(g, t);
    forall u | u in l ensures OpenAt(g, u, t) && !g.objs[u].fixed && u != t {
      assert OpenAt(g, u, t);
    }
  }

  lemma SweepOpenOther(g: State, t: Ref, h: State, q: Ref)
    requires OpenThread(g, t) && OpenSwept(g, t, h) && q in h.objs && q != t
    ensures OpenOrdered(h, q) && forall x :: x in h.objs[q].openupval ==> StillOpen(h, x)
  {
    var s := g.objs[q].openupval;
    assert OpenListOk(g, q);
    forall x | x in s ensures OpenAt(g, x, q) && x in h.objs && h.objs[x] == g.objs[x] {
      assert OpenAt(g, x, q);
    }
    forall i, j | 0 <= i < j < |s| && OpenAt(h, s[i], q) && OpenAt(h, s[j], q)
      ensures h.objs[s[i]].kind.level > h.objs[s[j]].kind.level
    {
      assert OpenAt(g, s[i], q) && OpenAt(g, s[j], q);
    }
  }

  lemma SweepOpenOwn(g: State, t: Ref, h: State)
    requires OpenThread(g, t) && OpenSwept(g, t, h)
    ensures && t in h.objs && OpenOrdered(h, t)
            && (forall x :: x in h.objs[t].openupval <==> x in g.objs[t].openupval && StillOpen(h, x))
  {
    hide Kinds, RemoveFreed, Survivors;
    var s := g.objs[t].openupval;
    assert OpenListOk(g, t);
    SurvivorsDescend(g, s, t);
    var l := h.objs[t].openupval;
    assert forall x :: x in l ==> h.objs[x].kind == g.objs[x].kind;
    forall i, j | 0 <= i < j < |l| && OpenAt(h, l[i], t) && OpenAt(h, l[j], t)
      ensures h.objs[l[i]].kind.level > h.objs[l[j]].kind.level
    {
      assert OpenAt(g, l[i], t) && OpenAt(g, l[j], t);
    }
  }

  lemma SweepOpenUpvals(g: State, t: Ref, h: State)
    requires OpenThread(g, t) && OpenSwept(g, t, h)
    ensures UpvalsOk(h)
  {
    hide Kinds;
    forall q | q in h.objs
      ensures OpenOrdered(h, q) && forall x :: x in h.objs[q].openupval <==> x in g.objs[q].openupval && StillOpen(h, x)
    {
      if q == t {
        SweepOpenOwn(g, t, h);
      } else {
        SweepOpenOther(g, t, h, q);
      }
    }
    SweepOpenFewer(g, t, h);
    FewerOpenOk(g, h);
  }

  lemma SweepOpenFewer(g: State, t: Ref, h: State)
    requires OpenThread(g, t) && OpenSwept(g, t, h)
    requires forall q :: q in h.objs ==>
               && OpenOrdered(h, q)
               && forall x :: x in h.objs[q].openupval <==> x in g.objs[q].openupval && StillOpen(h, x)
    ensures FewerOpen(g, h)
  {
    hide Kinds, OpenListOk, OpenOrdered, RemoveFreed, Survivors, Freeable;
    forall r | StillOpen(h, r) && r in g.objs && g.objs[r].kind.UpvalOpen? ensures g.objs[r].kind.thread in h.objs {
      assert g.objs[r].kind.thread in g.objs && g.objs[g.objs[r].kind.thread].kind.Thread?;
    }
  }

  lemma SweepOpenKids(g: State, t: Ref, h: State, r: Ref)
    requires OpenThread(g, t) && OpenSwept(g, t, h) && r in h.objs
    ensures Kids(h, r) == Kids(g, r)
  {
    if g.objs[r].kind.UpvalOpen? {
      var q := g.objs[r].kind.thread;
      assert q in g.objs && g.objs[q].kind.Thread?;
      assert q in h.objs && h.objs[q].stack == g.objs[q].stack;
    }
    assert OpenRefs(h, h.objs[r]) == OpenRefs(g, g.objs[r]);
  }

  lemma SweepOpenLive(g: State, t: Ref, h: State)
    requires OpenThread(g, t) && OpenSwept(g, t, h) && LiveClosed(g)
    ensures LiveClosed(h)
  {
    forall r | IsLive(h, r) ensures IsLive(g, r) && Kids(h, r) == Kids(g, r) {
      SweepOpenKids(g, t, h, r);
    }
    assert Roots(h) == Roots(g);
    LiveFrame(g, h);
  }

  lemma SweepOpenRoots(g: State, t: Ref, h: State)
    requires OpenThread(g, t) && OpenSwept(g, t, h) && LiveClosed(g) && RootsOk(g)
    ensures RootsOk(h)
  {
    forall x | x in Roots(g) ensures x in h.objs && h.objs[x].kind == g.objs[x].kind {
      assert IsLive(g, x);
    }
    assert forall x :: x in g.mt || x in g.tmudata ==> x in Roots(g);
    assert g.main in Roots(g) && g.running in Roots(g) && g.registry in Roots(g);
  }

  lemma SweepOpenLists(g: State, t: Ref, h: State)
    requires OpenThread(g, t) && OpenSwept(g, t, h) && RootListOk(g) && StringsOk(g)
    ensures RootListOk(h) && StringsOk(h)
  {
    hide UpvalsOk, Kinds;
    assert forall r :: r in h.objs ==> h.objs[r].kind == g.objs[r].kind && h.objs[r].text == g.objs[r].text;
    RootListFrame(g, h);
    StringsFrame(g, h);
  }

  lemma SweepOpenKinds(g: State, t: Ref, h: State)
    requires OpenThread(g, t) && OpenSwept(g, t, h)
    ensures Kinds(h)
  {
    forall r | r in h.objs ensures Shaped(h.objs[r]) {
      assert Shaped(g.objs[r]);
    }
  }

  lemma SweepOpenColors(g: State, t: Ref, h: State)
    requires OpenThread(g, t) && OpenSwept(g, t, h) && g.strt != [] && SweepOk(g)
    ensures SweepOk(h)
  {
    forall r | r in h.objs && r !in h.tmudata && !Unswept(h, r) ensures h.objs[r].color == White(h.cur) {
      assert Bucket(h, h.objs[r].text) == Bucket(g, g.objs[r].text);
      assert !Unswept(g, r);
    }
  }

  lemma SweepOpenKeeps(g: State, t: Ref)
    requires Inv(g) && Sweeping(g) && t in g.objs && g.objs[t].kind.Thread?
    ensures Inv(SweepOpen(g, t))
  {
    var h := SweepOpen(g, t);
    SweepOpenCells(g, t);
    SweepOpenUpvals(g, t, h);
    SweepOpenLive(g, t, h);
    SweepOpenRoots(g, t, h);
    SweepOpenLists(g, t, h);
    SweepOpenKinds(g, t, h);
    SweepOpenColors(g, t, h);
  }

  // ----- freeing an object on rootgc -----

  /** Unlink `r` from rootgc and free it. */
  function FreeRoot(g: State, r: Ref): State
    requires r in g.rootgc
  {
    var i := IndexOf(g.rootgc, r);
    g.(objs := g.objs - {r}, rootgc := g.rootgc[..i] + g.rootgc[i + 1..])
  }

  /** `h` is `g` without the dead object `r`, which stood between `a` and `b`. */
  ghost predicate Freed(g: State, r: Ref, h: State, a: seq<Ref>, b: seq<Ref>) {
    && h == g.(objs := g.objs - {r}, rootgc := a + b) && g.rootgc == a + [r] + b
    && r in g.objs && IsDead(g, r) && g.objs[r].openupval == []
    && !g.objs[r].kind.Str? && !g.objs[r].kind.UpvalOpen?
  }

  lemma FreeRootFrees(g: State, r: Ref)
    requires r in g.rootgc && IsDead(g, r) && g.objs[r].openupval == []
    requires !g.objs[r].kind.Str? && !g.objs[r].kind.UpvalOpen?
    ensures var i := IndexOf(g.rootgc, r);
            Freed(g, r, FreeRoot(g, r), g.rootgc[..i], g.rootgc[i + 1..])
  {
  }

  lemma FreedKids(g: State, r: Ref, h: State, a: seq<Ref>, b: seq<Ref>, q: Ref)
    requires Freed(g, r, h, a, b) && UpvalsOk(g) && q in h.objs
    ensures Kids(h, q) == Kids(g, q)
  {
    if g.objs[q].kind.UpvalOpen? {
      assert g.objs[q].kind.thread in g.objs && q in g.objs[g.objs[q].kind.thread].openupval;
      assert g.objs[q].kind.thread != r;
    }
    assert OpenRefs(h, h.objs[q]) == OpenRefs(g, g.objs[q]);
  }

  lemma FreedUpvals(g: State, r: Ref, h: State, a: seq<Ref>, b: seq<Ref>)
    requires Freed(g, r, h, a, b) && UpvalsOk(g)
    ensures UpvalsOk(h)
  {
    forall q | q in h.objs
      ensures OpenOrdered(h, q) && forall x :: x in h.objs[q].openupval <==> x in g.objs[q].openupval && StillOpen(h, x)
    {
      assert OpenListOk(g, q);
      var l := g.objs[q].openupval;
      forall x | x in l ensures OpenAt(g, x, q) && x != r {
        assert OpenAt(g, x, q);
      }
      forall i, j | 0 <= i < j < |l| && OpenAt(h, l[i], q) && OpenAt(h, l[j], q)
        ensures h.objs[l[i]].kind.level > h.objs[l[j]].kind.level
      {
        assert OpenAt(g, l[i], q) && OpenAt(g, l[j], q);
      }
    }
    forall x | StillOpen(h, x) ensures g.objs[x].kind.thread in h.objs {
      assert x in g.objs[g.objs[x].kind.thread].openupval;
    }
    FewerOpenOk(g, h);
  }

  lemma FreedList(g: State, r: Ref, h: State, a: seq<Ref>, b: seq<Ref>)
    requires Freed(g, r, h, a, b) && RootListOk(g) && r != g.main
    ensures RootListOk(h)
  {
    hide Distinct, IsDead;
    var s := g.rootgc;
    FreedDistinct(a, b, r);
    FreedMembers(a, b, r);
    forall i, j | 0 <= i < j < |h.rootgc| && h.rootgc[i] == h.main
      ensures h.rootgc[j] in h.objs && h.objs[h.rootgc[j]].kind.Udata?
    {
      var i' := if i < |a| then i else i + 1;
      var j' := if j < |a| then j else j + 1;
      assert s[i'] == h.rootgc[i] && s[j'] == h.rootgc[j];
    }
  }

  lemma FreedMembers(a: seq<Ref>, b: seq<Ref>, r: Ref)
    requires Distinct(a + [r] + b)
    ensures forall x :: x in a + b <==> x in a + [r] + b && x != r
  {
    var s := a + [r] + b;
    assert forall i :: 0 <= i < |a| ==> s[i] == a[i];
    assert forall i :: 0 <= i < |b| ==> s[|a| + 1 + i] == b[i];
    assert s[|a|] == r;
  }

  lemma FreedDistinct(a: seq<Ref>, b: seq<Ref>, r: Ref)
    requires Distinct(a + [r] + b)
    ensures Distinct(a + b)
  {
    var s, t := a + [r] + b, a + b;
    forall i, j | 0 <= i < j < |t| ensures t[i] != t[j] {
      var i' := if i < |a| then i else i + 1;
      var j' := if j < |a| then j else j + 1;
      assert s[i'] == t[i] && s[j'] == t[j];
    }
  }

  lemma FreedShape(g: State, r: Ref, h: State, a: seq<Ref>, b: seq<Ref>)
    requires Freed(g, r, h, a, b) && RootsOk(g) && StringsOk(g) && Kinds(g) && LiveClosed(g)
    ensures RootsOk(h) && StringsOk(h) && Kinds(h) && r != g.main
  {
    assert r !in Roots(g);
    assert g.main in Roots(g) && g.running in Roots(g) && g.registry in Roots(g);
    assert forall x :: x in g.mt || x in g.tmudata ==> x in Roots(g);
    StringsFrame(g, h);
  }

  lemma FreedLive(g: State, r: Ref, h: State, a: seq<Ref>, b: seq<Ref>)
    requires Freed(g, r, h, a, b) && UpvalsOk(g) && LiveClosed(g)
    ensures LiveClosed(h)
  {
    forall q | IsLive(h, q) ensures IsLive(g, q) && Kids(h, q) == Kids(g, q) {
      FreedKids(g, r, h, a, b, q);
    }
    assert Roots(h) == Roots(g);
    LiveFrame(g, h);
  }

  lemma FreedColors(g: State, r: Ref, h: State, a: seq<Ref>, b: seq<Ref>)
    requires Freed(g, r, h, a, b) && UpvalsOk(g) && g.strt != [] && SweepOk(g) && g.sweepgc <= |a|
    ensures SweepOk(h)
  {
    assert g.rootgc[g.sweepgc..] == a[g.sweepgc..] + [r] + b;
    assert h.rootgc[h.sweepgc..] == a[g.sweepgc..] + b;
    forall q | q in h.objs && q !in h.tmudata && !Unswept(h, q) ensures h.objs[q].color == White(h.cur) {
      assert Bucket(h, h.objs[q].text) == Bucket(g, g.objs[q].text);
      if g.objs[q].kind.UpvalOpen? {
        assert q in g.objs[g.objs[q].kind.thread].openupval;
      }
      assert !Unswept(g, q);
    }
  }

  /** Freeing a dead object that the sweep has not passed keeps the invariant. */
  lemma FreeRootKeeps(g: State, r: Ref)
    requires Inv(g) && Sweeping(g) && r in g.rootgc[g.sweepgc..] && IsDead(g, r) && g.objs[r].openupval == []
    ensures r in g.rootgc && Inv(FreeRoot(g, r))
  {
    hide Freed, UpvalsOk, RootsOk, StringsOk, Kinds;
    var i := IndexOf(g.rootgc, r);
    var a, b := g.rootgc[..i], g.rootgc[i + 1..];
    var h := FreeRoot(g, r);
    var j :| g.sweepgc <= j < |g.rootgc| && g.rootgc[j] == r;
    assert i == j;
    FreeRootFrees(g, r);
    FreedUpvals(g, r, h, a, b);
    FreedShape(g, r, h, a, b);
    FreedList(g, r, h, a, b);
    FreedLive(g, r, h, a, b);
    FreedColors(g, r, h, a, b);
  }
}
