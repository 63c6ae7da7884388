/** luaS_resize, the finalize phase, and singlestep. */
module GcStep {
  import opened LuaHeap
  import opened GcMark
  import opened GcState
  import opened GcPropagate
  import opened GcAtomic
  import opened GcFinish
  import opened GcCycle
  import opened GcSweep
  import opened GcUpval
  import opened GcSweepRoot
  import opened GcSweepStep

  // ----- luaS_resize -----

  function Home(g: State, n: nat, x: Ref): nat
    requires n > 0
  {
    if x in g.objs then g.hash(g.objs[x].text) % n else 0
  }

  /** Chain the strings of one old bucket into the new table. */
  function Spread(g: State, l: seq<Ref>, acc: seq<seq<Ref>>): (t: seq<seq<Ref>>)
    requires acc != []
    ensures |t| == |acc|
    ensures forall b, x :: 0 <= b < |t| ==> (x in t[b] <==> x in acc[b] || (x in l && Home(g, |acc|, x) == b))
    decreases |l|
  {
    if l == [] then acc
    else
      var b := Home(g, |acc|, l[0]);
      assert forall x :: x in l <==> x == l[0] || x in l[1..];
      Spread(g, l[1..], acc[b := [l[0]] + acc[b]])
  }

  ghost predicate InSome(bs: seq<seq<Ref>>, x: Ref) {
    exists i :: 0 <= i < |bs| && x in bs[i]
  }

  ghost predicate Spreads(g: State, bs: seq<seq<Ref>>, acc: seq<seq<Ref>>, t: seq<seq<Ref>>) {
    && |t| == |acc| && acc != []
    && forall b, x :: 0 <= b < |t| ==> (x in t[b] <==> x in acc[b] || (InSome(bs, x) && Home(g, |acc|, x) == b))
  }

  function SpreadAll(g: State, bs: seq<seq<Ref>>, acc: seq<seq<Ref>>): (t: seq<seq<Ref>>)
    requires acc != []
    ensures Spreads(g, bs, acc, t)
    decreases |bs|
  {
    if bs == [] then acc
    else
      var mid := Spread(g, bs[0], acc);
      var t := SpreadAll(g, bs[1..], mid);
      SpreadsCons(g, bs, acc, mid, t);
      t
  }

  lemma SpreadsCons(g: State, bs: seq<seq<Ref>>, acc: seq<seq<Ref>>, mid: seq<seq<Ref>>, t: seq<seq<Ref>>)
    requires bs != [] && acc != [] && mid == Spread(g, bs[0], acc) && Spreads(g, bs[1..], mid, t)
    ensures Spreads(g, bs, acc, t)
  {
    InSomeCons(bs);
  }

  lemma InSomeCons(bs: seq<seq<Ref>>)
    requires bs != []
    ensures forall x :: InSome(bs, x) <==> x in bs[0] || InSome(bs[1..], x)
  {
    forall x ensures InSome(bs, x) <==> x in bs[0] || InSome(bs[1..], x) {
      if InSome(bs, x) && x !in bs[0] {
        var i :| 0 <= i < |bs| && x in bs[i];
        assert bs[1..][i - 1] == bs[i];
      }
      if InSome(bs[1..], x) {
        var i :| 0 <= i < |bs[1..]| && x in bs[1..][i];
        assert bs[i + 1] == bs[1..][i];
      }
    }
  }

  function Resize(g: State, n: nat): State
    requires n > 0
  {
    if g.phase.SweepString? then g else g.(strt := SpreadAll(g, g.strt, seq(n, _ => [])))
  }

  lemma ResizeStrings(g: State, n: nat)
    requires StringsOk(g) && n > 0
    ensures StringsOk(Resize(g, n))
  {
    if !g.phase.SweepString? {
      var h := Resize(g, n);
      forall r | IsText(g, r) ensures InSome(g.strt, r) {
        assert r in g.strt[Bucket(g, g.objs[r].text)];
      }
      forall b, r | 0 <= b < n && r in h.strt[b] ensures IsText(h, r) && Bucket(h, h.objs[r].text) == b {
        assert InSome(g.strt, r);
        var i :| 0 <= i < |g.strt| && r in g.strt[i];
        assert IsText(g, r);
      }
      forall r | IsText(h, r) ensures r in h.strt[Bucket(h, h.objs[r].text)] {
        assert IsText(g, r);
      }
      assert forall r, q :: IsText(h, r) && IsText(h, q) ==> IsText(g, r) && IsText(g, q);
    }
  }

  /** Resizing the string table between sweeps of it keeps the invariant. */
  lemma ResizeKeeps(g: State, n: nat)
    requires Inv(g) && n > 0
    ensures Inv(Resize(g, n))
  {
    var h := Resize(g, n);
    if !g.phase.SweepString? {
      ResizeStrings(g, n);
      ResizeOther(g, h);
      if g.phase.Propagate? {
        SameMarks(g, h, MutatorSlack(g));
      } else if g.phase.Sweep? {
        forall r | r in h.objs ensures Unswept(h, r) == Unswept(g, r) {
        }
      }
    }
  }

  lemma ResizeLive(g: State, h: State)
    requires h == g.(strt := h.strt) && LiveClosed(g)
    ensures LiveClosed(h)
  {
    hide LiveClosed, Kids;
    assert forall r :: IsLive(h, r) == IsLive(g, r);
    forall r | r in g.objs ensures Kids(h, r) == Kids(g, r) {
      SameRefs(g, h, r);
    }
    LiveFrame(g, h);
  }

  lemma ResizeOther(g: State, h: State)
    requires h == g.(strt := h.strt) && RootsOk(g) && RootListOk(g) && UpvalsOk(g) && Kinds(g) && LiveClosed(g)
    ensures RootsOk(h) && RootListOk(h) && UpvalsOk(h) && Kinds(h) && LiveClosed(h)
  {
    hide UpvalsOk, LiveClosed;
    ResizeLive(g, h);
    assert SameCells(g, h) by {
      assert forall r :: r in g.objs ==> Shaped(g.objs[r]);
    }
    SameUpvals(g, h);
  }

  // ----- GCSsweep -----

  const GCSWEEPMAX: nat := 40
  const MINSTRTABSIZE: nat := 32

  ghost predicate SweepRun(g: State, h: State) {
    Sweeps(g, h) && |Pending(h)| <= |Pending(g)|
  }

  lemma SweepRunTrans(g: State, h: State, k: State)
    requires SweepRun(g, h) && SweepRun(h, k)
    ensures SweepRun(g, k) && (|Pending(h)| < |Pending(g)| ==> |Pending(k)| < |Pending(g)|)
  {
    SweepsTrans(g, h, k);
  }

  /** At most `n` rounds of sweeplist. */
  function SweepRoot(g: State, n: nat): (h: State)
    requires Inv(g) && g.phase.Sweep?
    ensures Inv(h) && h.phase.Sweep? && SweepRun(g, h)
    ensures n > 0 && g.sweepgc < |g.rootgc| ==> |Pending(h)| < |Pending(g)|
    decreases n
  {
    if n == 0 || g.sweepgc == |g.rootgc| then
      SweepsRefl(g);
      g
    else
      SweepOneKeeps(g);
      var g1 := SweepOne(g);
      var h := SweepRoot(g1, n - 1);
      SweepRunTrans(g, g1, h);
      h
  }

  lemma SweepsRefl(g: State)
    ensures Sweeps(g, g)
  {
  }

  function CountStrings(bs: seq<seq<Ref>>): nat {
    if bs == [] then 0 else |bs[0]| + CountStrings(bs[1..])
  }

  /** checkSizes: halve a string table that is mostly empty. */
  function CheckSizes(g: State): State
    requires g.strt != []
  {
    var size := |g.strt|;
    if CountStrings(g.strt) < size / 4 && size > MINSTRTABSIZE * 2 then Resize(g, size / 2) else g
  }

  lemma CheckSizesKeeps(g: State)
    requires Inv(g)
    ensures Inv(CheckSizes(g)) && CheckSizes(g) == g.(strt := CheckSizes(g).strt)
  {
    if CountStrings(g.strt) < |g.strt| / 4 && |g.strt| > MINSTRTABSIZE * 2 {
      ResizeKeeps(g, |g.strt| / 2);
    }
  }

  function SweepStep(g: State): State
    requires Inv(g) && g.phase.Sweep?
  {
    var h := SweepRoot(g, GCSWEEPMAX);
    if h.sweepgc == |h.rootgc| then CheckSizes(h).(phase := Finalize) else h
  }

  /** When the sweep reaches the end, everything has the current white again. */
  lemma SweepEnd(g: State)
    requires Inv(g) && g.phase.Sweep? && g.sweepgc == |g.rootgc|
    ensures Inv(g.(phase := Finalize))
  {
    hide UpvalsOk;
    var h := g.(phase := Finalize);
    PhaseWellFormed(g, Finalize);
    forall r | r in h.objs && r !in h.tmudata ensures h.objs[r].color == White(h.cur) {
      assert g.rootgc[g.sweepgc..] == [];
      assert !Unswept(g, r);
    }
    forall r | r in h.objs ensures !IsDead(h, r) {
      if r in h.tmudata {
        assert r in Roots(g);
      }
    }
    PhaseLive(g, Finalize);
  }

  lemma PhaseLive(g: State, p: Phase)
    requires LiveClosed(g)
    ensures LiveClosed(g.(phase := p))
  {
    var h := g.(phase := p);
    assert Roots(h) == Roots(g);
    forall r | IsLive(h, r) ensures Kids(h, r) == Kids(g, r) {
      SameRefs(g, h, r);
    }
    LiveFrame(g, h);
  }

  lemma SweepLast(h: State)
    requires Inv(h) && h.phase.Sweep? && h.sweepgc == |h.rootgc|
    ensures Inv(CheckSizes(h).(phase := Finalize)) && Sweeps(h, CheckSizes(h).(phase := Finalize))
  {
    CheckSizesKeeps(h);
    SweepEnd(CheckSizes(h));
    SameObjsSweep(h, CheckSizes(h).(phase := Finalize));
  }

  lemma SameObjsSweep(g: State, h: State)
    requires h.objs == g.objs && h.cur == g.cur && h.tmudata == g.tmudata && Roots(h) == Roots(g)
    ensures Sweeps(g, h)
  {
    forall x | IsLive(g, x) ensures IsLive(h, x) && Kids(h, x) == Kids(g, x) {
      SameRefs(g, h, x);
    }
  }

  ghost predicate SweepAdvances(g: State, h: State) {
    h.phase.Finalize? || (h.phase.Sweep? && |Pending(h)| < |Pending(g)|)
  }

  lemma SweepStepKeeps(g: State)
    requires Inv(g) && g.phase.Sweep?
    ensures Inv(SweepStep(g)) && Sweeps(g, SweepStep(g)) && SweepAdvances(g, SweepStep(g))
  {
    var h := SweepRoot(g, GCSWEEPMAX);
    if h.sweepgc == |h.rootgc| {
      SweepLast(h);
      SweepsTrans(g, h, CheckSizes(h).(phase := Finalize));
    } else {
      assert g.sweepgc == |g.rootgc| ==> h == g;
    }
  }

  // ----- GCSfinalize -----

  /** Link a userdata after the main thread. */
  function LinkUdata(g: State, u: Ref): State
    requires g.main in g.rootgc
  {
    var (a, b) := SplitAtMain(g);
    g.(rootgc := a + [u] + b, sweepgc := if |a| < g.sweepgc then g.sweepgc + 1 else g.sweepgc)
  }

  lemma LinkUdataLinks(g: State, k: State, u: Ref)
    requires g.main in g.rootgc && k.main == g.main && k.rootgc == g.rootgc
    ensures var h := LinkUdata(k, u);
            && h == k.(rootgc := h.rootgc, sweepgc := h.sweepgc)
            && h.rootgc == SplitAtMain(g).0 + [u] + SplitAtMain(g).1
  {
  }
}
