/** The sweep phases: freeing what is dead, returning the rest to white. */
module GcSweep {
  import opened LuaHeap
  import opened GcMark
  import opened GcState

  /** The test sweeplist makes: dead and not fixed. */
  predicate Freeable(g: State, r: Ref) {
    IsDead(g, r) && !g.objs[r].fixed
  }

  /** The objects after sweeping the list `l`. */
  function SweepCells(g: State, l: seq<Ref>): map<Ref, Cell> {
    map r | r in g.objs && !(r in l && Freeable(g, r)) ::
      if r in l then g.objs[r].(color := White(g.cur)) else g.objs[r]
  }

  function Survivors(g: State, l: seq<Ref>): (s: seq<Ref>)
    ensures forall x :: x in s <==> x in l && !Freeable(g, x)
  {
    if l == [] then []
    else
      assert forall x :: x in l <==> x == l[0] || x in l[1..];
      (if Freeable(g, l[0]) then [] else [l[0]]) + Survivors(g, l[1..])
  }

  ghost predicate Sweeping(g: State) {
    g.phase.SweepString? || g.phase.Sweep?
  }

  // ----- colours under a sweep -----

  /** `h` has the objects of `g` after sweeping `l`, a list without threads. */
  ghost predicate SweptCells(g: State, h: State, l: seq<Ref>) {
    && h.objs == SweepCells(g, l) && h.cur == g.cur
    && (forall r :: r in l && r in g.objs ==> !g.objs[r].kind.Thread?)
  }

  lemma SweptKids(g: State, h: State, l: seq<Ref>, r: Ref)
    requires SweptCells(g, h, l) && r in h.objs && !IsDead(g, r) && UpvalsOk(g)
    ensures Kids(h, r) == Kids(g, r)
  {
    if g.objs[r].kind.UpvalOpen? {
      assert g.objs[r].kind.thread !in l;
    }
    assert OpenRefs(h, h.objs[r]) == OpenRefs(g, g.objs[r]);
  }

  lemma SweptLive(g: State, h: State, l: seq<Ref>)
    requires SweptCells(g, h, l) && LiveClosed(g) && UpvalsOk(g) && Kinds(g)
    requires Roots(h) == Roots(g) && h.main == g.main
    ensures LiveClosed(h)
    ensures forall r :: IsLive(g, r) ==> IsLive(h, r)
  {
    hide RootListOk, UpvalsOk;
    forall r | IsLive(h, r) ensures AllLive(h, Kids(h, r)) {
      if IsDead(g, r) {
        assert g.objs[r].fixed;
        assert g.main in Roots(g);
        assert g.objs[r].kind.Str? && Shaped(g.objs[r]);
        assert Kids(h, r) == [];
      } else {
        SweptKids(g, h, l, r);
        assert AllLive(g, Kids(g, r));
      }
    }
  }

  lemma SweptKinds(g: State, h: State, l: seq<Ref>)
    requires SweptCells(g, h, l) && Kinds(g) && h.main == g.main
    ensures Kinds(h)
  {
    forall r | r in h.objs
      ensures Shaped(h.objs[r])
    {
      assert Shaped(g.objs[r]);
    }
  }

  // ----- GCSsweepstring -----

  function SweepStrings(g: State): State
    requires g.sweepstrgc < |g.strt|
  {
    var b := g.sweepstrgc;
    g.(objs := SweepCells(g, g.strt[b]),
       strt := g.strt[b := Survivors(g, g.strt[b])],
       sweepstrgc := b + 1,
       phase := if b + 1 >= |g.strt| then Sweep else SweepString)
  }

  lemma SweepStringsRoots(g: State)
    requires WellFormed(g) && LiveClosed(g) && g.sweepstrgc < |g.strt|
    ensures RootsOk(SweepStrings(g)) && RootListOk(SweepStrings(g))
  {
    var h := SweepStrings(g);
    var l := g.strt[g.sweepstrgc];
    assert forall r :: r in g.objs && !g.objs[r].kind.Str? ==> r in h.objs && h.objs[r] == g.objs[r];
    forall x | x in Roots(g) ensures x in h.objs {
      assert IsLive(g, x);
    }
  }

  lemma SweepStringsTable(g: State)
    requires StringsOk(g) && g.sweepstrgc < |g.strt|
    ensures StringsOk(SweepStrings(g))
  {
    var h := SweepStrings(g);
    var l := g.strt[g.sweepstrgc];
    assert forall t :: Bucket(h, t) == Bucket(g, t);
    forall r | IsText(h, r)
      ensures IsText(g, r) && h.objs[r].text == g.objs[r].text && r in h.strt[Bucket(h, h.objs[r].text)]
    {
      assert IsText(g, r);
    }
    forall b, r | 0 <= b < |h.strt| && r in h.strt[b] ensures IsText(h, r) && Bucket(h, h.objs[r].text) == b {
      assert r in g.strt[b];
      assert IsText(g, r);
    }
  }

  lemma SweepStringsUpvals(g: State)
    requires UpvalsOk(g) && StringsOk(g) && g.sweepstrgc < |g.strt|
    ensures UpvalsOk(SweepStrings(g))
  {
    var h := SweepStrings(g);
    assert forall r :: r in g.objs && !g.objs[r].kind.Str? ==> r in h.objs;
    SameThreadsUpvals(g, h);
  }

  lemma SweepStringsColors(g: State)
    requires WellFormed(g) && SweepOk(g) && g.phase.SweepString?
    ensures SweepOk(SweepStrings(g))
  {
    hide UpvalsOk, Kinds, RootsOk;
    var h := SweepStrings(g);
    var l := g.strt[g.sweepstrgc];
    forall r | r in h.objs && r !in h.tmudata && !Unswept(h, r) ensures h.objs[r].color == White(h.cur) {
      assert Bucket(h, h.objs[r].text) == Bucket(g, g.objs[r].text);
      if r !in l {
        assert h.objs[r] == g.objs[r];
        assert !Unswept(g, r);
      }
    }
  }

  lemma SweepStringsKeeps(g: State)
    requires Inv(g) && g.phase.SweepString?
    ensures Inv(SweepStrings(g))
    ensures forall r :: r in g.objs && r !in SweepStrings(g).objs ==> IsDead(g, r)
  {
    hide RootListOk, UpvalsOk, LiveClosed, RootsOk, Kinds;
    var h := SweepStrings(g);
    var l := g.strt[g.sweepstrgc];
    SweepStringsRoots(g);
    SweepStringsTable(g);
    SweepStringsUpvals(g);
    assert SweptCells(g, h, l);
    SweptKinds(g, h, l);
    SweptLive(g, h, l);
    SweepStringsColors(g);
  }
}
