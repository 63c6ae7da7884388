/** The end of an expression: all its jumps get their targets. */
module LuaFinish {
  import opened LuaMachine
  import opened LuaPatch
  import opened LuaMeaning

  /** The jumps `f`, `t` of the lists and the pending jumps `q`, patched in turn. */
  function Finish(b: seq<Instr>, f: set<nat>, t: set<nat>, q: set<nat>, reg: nat, pf: int, pt: int): (w: seq<Instr>)
    ensures |w| == |b|
  {
    Patch(Patch(Patch(b, f, |b|, reg, pf), t, |b|, reg, pt), q, |b|, NO_REG, |b|)
  }

  ghost predicate Apart(b: seq<Instr>, f: set<nat>, t: set<nat>, q: set<nat>) {
    && f !! t && f !! q && t !! q
    && (forall x :: x in f ==> x < |b| && b[x].Jmp?)
    && (forall x :: x in t ==> x < |b| && b[x].Jmp?)
    && (forall x :: x in q ==> x < |b| && b[x].Jmp?)
  }

  lemma ApartLists(b: seq<Instr>, f: seq<nat>, t: seq<nat>, q: seq<nat>)
    requires Apart(b, Elems(f), Elems(t), Elems(q))
    ensures forall x :: x in t ==> x !in f && x !in q && x < |b|
    ensures forall x :: x in f ==> x !in q && x < |b|
  {
    forall x | x in t ensures x !in f && x !in q && x < |b| {
      assert x in Elems(t);
      assert x in f ==> x in Elems(f);
      assert x in q ==> x in Elems(q);
    }
    forall x | x in f ensures x !in q && x < |b| {
      assert x in Elems(f);
      assert x in q ==> x in Elems(q);
    }
  }

  lemma FinishJump(b: seq<Instr>, f: set<nat>, t: set<nat>, q: set<nat>, reg: nat, pf: int, pt: int, i: nat)
    requires Apart(b, f, t, q) && (i in f || i in t || i in q)
    ensures i < |b|
    ensures Finish(b, f, t, q, reg, pf, pt)[i]
            == Jmp((if i in q || IsValue(b, i) then |b| else if i in f then pf else pt) - (i + 1))
  {
    var w := Patch(b, f, |b|, reg, pf);
    assert i !in f ==> w[i] == b[i] && IsValue(w, i) == IsValue(b, i);
  }

  lemma FinishOther(b: seq<Instr>, f: set<nat>, t: set<nat>, q: set<nat>, reg: nat, pf: int, pt: int, i: nat)
    requires Apart(b, f, t, q) && i < |b| && i !in f && i !in t && i !in q
    ensures Finish(b, f, t, q, reg, pf, pt)[i]
            == if !b[i].TestSet? then b[i]
               else if i + 1 in f || i + 1 in t then Retarget(b[i], reg)
               else if i + 1 in q then Test(b[i].b, b[i].cond)
               else b[i]
  {
    var w := Patch(b, f, |b|, reg, pf);
    var u := Patch(w, t, |b|, reg, pt);
    assert i + 1 in f ==> i + 1 !in t && i + 1 !in q;
    assert i + 1 in t ==> i + 1 !in q;
  }

  /** Before `end` the code `b` is that of `v`, in which the pending jumps `q` have
      been led to `end` already. */
  ghost predicate Built(v: seq<Instr>, end: nat, b: seq<Instr>, open: set<nat>, q: set<nat>) {
    end <= |v| && end <= |b| && forall i :: 0 <= i < end ==> BuiltAt(v, end, b, open, q, i)
  }

  ghost predicate BuiltAt(v: seq<Instr>, end: nat, b: seq<Instr>, open: set<nat>, q: set<nat>, i: nat)
    requires i < |v| && i < |b|
  {
    || (b[i] == v[i] && i !in q && (b[i].TestSet? ==> i + 1 !in q))
    || (i in open && v[i].Jmp?)
    || (i in q && v[i] == Jmp(end - (i + 1)))
    || (i + 1 in q && b[i].TestSet? && v[i] == Test(b[i].b, b[i].cond))
  }

  lemma FinishAlike(v: seq<Instr>, end: nat, b: seq<Instr>, f: set<nat>, t: set<nat>, t0: set<nat>, q: set<nat>,
                    reg: nat, pf: int, pt: int, i: nat)
    requires Apart(b, f, t, q) && Built(v, end, b, t0 + f, q) && i < end && t0 <= t
    requires forall x :: x in t && x !in t0 ==> x > end
    requires end < |b| ==> end in q || forall x :: x in q ==> x > end
    ensures Alike(v, t0 + f, end, Finish(b, f, t, q, reg, pf, pt), {}, |b|, i)
  {
    var w := Finish(b, f, t, q, reg, pf, pt);
    assert BuiltAt(v, end, b, t0 + f, q, i);
    if i in q {
      FinishJump(b, f, t, q, reg, pf, pt, i);
      if end < |b| && end in q {
        FinishJump(b, f, t, q, reg, pf, pt, end);
        assert LedOn(v, end, w, {}, |b|, i);
      }
    } else if i in f || i in t {
      FinishJump(b, f, t, q, reg, pf, pt, i);
    } else {
      FinishOther(b, f, t, q, reg, pf, pt, i);
    }
  }

  /** Where a jump of the lists finds its boolean, if it does not carry a value. */
  ghost predicate Landing(w: seq<Instr>, reg: nat, pf: int, pt: int) {
    && 0 <= pf && pf + 2 == |w| && pt == pf + 1
    && w[pf] == LoadBool(reg, false, true) && w[pt] == LoadBool(reg, true, false)
  }

  lemma FinishSets(v: seq<Instr>, end: nat, b: seq<Instr>, f: set<nat>, t: set<nat>, t0: set<nat>, q: set<nat>,
                   reg: nat, pf: int, pt: int, j: nat)
    requires Apart(b, f, t, q) && Built(v, end, b, t0 + f, q) && t0 <= t && reg != NO_REG
    requires (j in t0 || j in f) && 0 < j < end
    requires IsValue(b, j) || (Landing(Finish(b, f, t, q, reg, pf, pt), reg, pf, pt) && end <= pf)
    ensures JumpSets(v, Finish(b, f, t, q, reg, pf, pt), reg, j, j in t)
  {
    var w := Finish(b, f, t, q, reg, pf, pt);
    FinishJump(b, f, t, q, reg, pf, pt, j);
    assert BuiltAt(v, end, b, t0 + f, q, j - 1);
    if j - 1 in f || j - 1 in t || j - 1 in q {
      FinishJump(b, f, t, q, reg, pf, pt, j - 1);
    } else {
      FinishOther(b, f, t, q, reg, pf, pt, j - 1);
    }
    if IsValue(b, j) {
      ValueJumpSets(v, w, reg, j, j in t);
    } else {
      BoolJumpSets(v, w, reg, j, j in t, j in f);
    }
  }

  /** An expression all of whose jumps have their targets. */
  lemma FinishLoads(v: seq<Instr>, d: Desc, b: seq<Instr>, f: set<nat>, t: set<nat>, t0: set<nat>, q: set<nat>,
                    pc: nat, fr: nat, x: Expr, reg: nat, pf: int, pt: int)
    requires Means(v, d, t0, f, pc, fr, x) && Inside(v, d, t0 + f, pc) && reg != NO_REG && t0 <= t
    requires Apart(b, f, t, q) && Built(v, End(v, d), b, t0 + f, q)
    requires forall y :: y in t && y !in t0 ==> y > End(v, d)
    requires End(v, d) < |b| ==> End(v, d) in q || forall y :: y in q ==> y > End(v, d)
    requires EndSets(v, d, Finish(b, f, t, q, reg, pf, pt), reg)
    requires (forall j :: j in t0 || j in f ==> IsValue(b, j))
             || (Landing(Finish(b, f, t, q, reg, pf, pt), reg, pf, pt) && End(v, d) <= pf)
    ensures Loads(Finish(b, f, t, q, reg, pf, pt), pc, fr, reg, x)
  {
    hide Means, EndSets, Landing, JumpSets;
    var w, end, none: set<nat> := Finish(b, f, t, q, reg, pf, pt), End(v, d), {};
    forall i | pc <= i < end ensures Alike(v, t0 + f, end, w, none, |w|, i) {
      FinishAlike(v, end, b, f, t, t0, q, reg, pf, pt, i);
    }
    forall j | j in t0 ensures JumpSets(v, w, reg, j, true) {
      FinishSets(v, end, b, f, t, t0, q, reg, pf, pt, j);
    }
    forall j | j in f ensures JumpSets(v, w, reg, j, false) {
      FinishSets(v, end, b, f, t, t0, q, reg, pf, pt, j);
    }
    LoadsFrom(v, d, t0, f, pc, fr, x, w, reg);
  }

  // ----- exp2reg -----

  /** The code `c` once the value is loaded, or the comparison listed with the
      jumps out of the expression. */
  ghost predicate Loaded(v: seq<Instr>, d: Desc, c: seq<Instr>, t0: seq<nat>, t: seq<nat>, f: seq<nat>, q: seq<nat>,
                         reg: nat) {
    && Fits(v, d) && Inside(v, d, Elems(t0) + Elems(f), 0)
    && Apart(c, Elems(f), Elems(t), Elems(q)) && Built(v, End(v, d), c, Elems(t0) + Elems(f), Elems(q))
    && (d.VJmp? ==> q == [] && |c| == |v| && t == t0 + [d.info] && c[|v| - 2] == v[|v| - 2])
    && (!d.VJmp? ==>
          && t == t0 && |c| == End(v, d) + |Loader(v, d, reg)|
          && (Loader(v, d, reg) != [] ==> q == [] && c[End(v, d)] == Loader(v, d, reg)[0]))
    && (c != [] ==> !IsTest(c[|c| - 1]))
  }

  /** Every jump carries its value, or there is none. */
  lemma LoadedDone(v: seq<Instr>, d: Desc, c: seq<Instr>, t: seq<nat>, f: seq<nat>, q: seq<nat>,
                   pc: nat, fr: nat, x: Expr, reg: nat, pf: int, pt: int)
    requires Loaded(v, d, c, t, t, f, q, reg) && !d.VJmp? && reg != NO_REG
    requires Means(v, d, Elems(t), Elems(f), pc, fr, x) && Inside(v, d, Elems(t) + Elems(f), pc)
    requires forall j :: j in t || j in f ==> IsValue(c, j)
    ensures Loads(Finish(c, Elems(f), Elems(t), Elems(q), reg, pf, pt), pc, fr, reg, x)
  {
    hide Means, EndSets;
    var w := Finish(c, Elems(f), Elems(t), Elems(q), reg, pf, pt);
    if Loader(v, d, reg) != [] {
      FinishOther(c, Elems(f), Elems(t), Elems(q), reg, pf, pt, End(v, d));
    }
    LoaderSets(v, d, w, reg);
    FinishLoads(v, d, c, Elems(f), Elems(t), Elems(t), Elems(q), pc, fr, x, reg, pf, pt);
  }

  /** The code `b` goes on from `c` with the instructions that load booleans. */
  ghost predicate WithBools(c: seq<Instr>, q: seq<nat>, b: seq<Instr>, q2: seq<nat>, reg: nat, over: bool) {
    && |b| == |c| + (if over then 3 else 2) && b[..|c|] == c
    && b[|b| - 2] == LoadBool(reg, false, true) && b[|b| - 1] == LoadBool(reg, true, false)
    && q2 == (if over then [|c|] + q else []) && (over ==> b[|c|].Jmp?)
  }

  lemma BoolsApart(c: seq<Instr>, b: seq<Instr>, t: seq<nat>, f: seq<nat>, q: seq<nat>, q2: seq<nat>, reg: nat,
                   over: bool)
    requires Apart(c, Elems(f), Elems(t), Elems(q)) && WithBools(c, q, b, q2, reg, over) && (!over ==> q == [])
    ensures Apart(b, Elems(f), Elems(t), Elems(q2))
    ensures forall i :: 0 <= i < |c| ==> b[i] == c[i]
    ensures forall x :: x in q2 <==> x in q || (over && x == |c|)
  {
    ApartLists(c, f, t, q);
    forall i | 0 <= i < |c| ensures b[i] == c[i] {
      assert b[..|c|][i] == c[i];
    }
    forall x | x in Elems(q2) ensures x < |b| && b[x].Jmp? && x !in Elems(f) && x !in Elems(t) {
      if over && x == |c| {
        assert b[x].Jmp?;
      } else {
        assert x in q && x in Elems(q);
      }
    }
  }

  lemma BoolsBuilt(v: seq<Instr>, d: Desc, c: seq<Instr>, b: seq<Instr>, t0: seq<nat>, t: seq<nat>, f: seq<nat>,
                   q: seq<nat>, q2: seq<nat>, reg: nat)
    requires Loaded(v, d, c, t0, t, f, q, reg) && WithBools(c, q, b, q2, reg, !d.VJmp?)
    ensures Built(v, End(v, d), b, Elems(t0) + Elems(f), Elems(q2))
  {
    BoolsApart(c, b, t, f, q, q2, reg, !d.VJmp?);
    forall i | 0 <= i < End(v, d) ensures BuiltAt(v, End(v, d), b, Elems(t0) + Elems(f), Elems(q2), i) {
      assert BuiltAt(v, End(v, d), c, Elems(t0) + Elems(f), Elems(q), i);
    }
  }

  lemma BoolsEnd(v: seq<Instr>, d: Desc, c: seq<Instr>, b: seq<Instr>, t0: seq<nat>, t: seq<nat>, f: seq<nat>,
                 q: seq<nat>, q2: seq<nat>, reg: nat)
    requires Loaded(v, d, c, t0, t, f, q, reg) && WithBools(c, q, b, q2, reg, !d.VJmp?)
    ensures var w := Finish(b, Elems(f), Elems(t), Elems(q2), reg, |b| - 2, |b| - 1);
            Landing(w, reg, |b| - 2, |b| - 1) && EndSets(v, d, w, reg)
  {
    hide Finish, Inside, Apart, Built, IsTest;
    var end, w := End(v, d), Finish(b, Elems(f), Elems(t), Elems(q2), reg, |b| - 2, |b| - 1);
    assert forall x :: x in t0 || x in f ==> x in Elems(t0) + Elems(f);
    BoolsApart(c, b, t, f, q, q2, reg, !d.VJmp?);
    FinishOther(b, Elems(f), Elems(t), Elems(q2), reg, |b| - 2, |b| - 1, |b| - 2);
    FinishOther(b, Elems(f), Elems(t), Elems(q2), reg, |b| - 2, |b| - 1, |b| - 1);
    if d.VJmp? {
      FinishOther(b, Elems(f), Elems(t), Elems(q2), reg, |b| - 2, |b| - 1, end);
      FinishJump(b, Elems(f), Elems(t), Elems(q2), reg, |b| - 2, |b| - 1, end + 1);
      ComparisonSets(v, d, w, reg);
    } else {
      if Loader(v, d, reg) != [] {
        FinishOther(b, Elems(f), Elems(t), Elems(q2), reg, |b| - 2, |b| - 1, end);
      }
      FinishJump(b, Elems(f), Elems(t), Elems(q2), reg, |b| - 2, |b| - 1, |c|);
      LoaderSets(v, d, w, reg);
    }
  }

  /** Some jump stands for a boolean. */
  lemma LoadedBools(v: seq<Instr>, d: Desc, c: seq<Instr>, b: seq<Instr>, t0: seq<nat>, t: seq<nat>, f: seq<nat>,
                    q: seq<nat>, q2: seq<nat>, pc: nat, fr: nat, x: Expr, reg: nat)
    requires Loaded(v, d, c, t0, t, f, q, reg) && WithBools(c, q, b, q2, reg, !d.VJmp?) && reg != NO_REG
    requires Means(v, d, Elems(t0), Elems(f), pc, fr, x) && Inside(v, d, Elems(t0) + Elems(f), pc)
    ensures Loads(Finish(b, Elems(f), Elems(t), Elems(q2), reg, |b| - 2, |b| - 1), pc, fr, reg, x)
  {
    hide Means, EndSets, Landing;
    BoolsApart(c, b, t, f, q, q2, reg, !d.VJmp?);
    BoolsBuilt(v, d, c, b, t0, t, f, q, q2, reg);
    BoolsEnd(v, d, c, b, t0, t, f, q, q2, reg);
    FinishLoads(v, d, b, Elems(f), Elems(t), Elems(t0), Elems(q2), pc, fr, x, reg, |b| - 2, |b| - 1);
  }

  /** Closing lists behind `pc` does not touch what is before it. */
  lemma FinishPrefix(b: seq<Instr>, f: set<nat>, t: set<nat>, q: set<nat>, reg: nat, pf: int, pt: int, pc: nat)
    requires pc <= |b| && forall x :: x in f || x in t || x in q ==> x > pc
    ensures Finish(b, f, t, q, reg, pf, pt)[..pc] == b[..pc]
    ensures Patch(Patch(b, f, |b|, reg, pf), t, |b|, reg, pt)[..pc] == b[..pc]
  {
    var w := Patch(b, f, |b|, reg, pf);
    var u := Patch(w, t, |b|, reg, pt);
    forall i | 0 <= i < pc ensures w[i] == b[i] && u[i] == b[i] && Finish(b, f, t, q, reg, pf, pt)[i] == b[i] {
      assert i !in f && i !in t && i !in q && i + 1 !in f && i + 1 !in t && i + 1 !in q;
    }
  }

  lemma LoadedPrefix(v: seq<Instr>, d: Desc, c: seq<Instr>, t0: seq<nat>, t: seq<nat>, f: seq<nat>, q: seq<nat>,
                     reg: nat, pc: nat)
    requires Loaded(v, d, c, t0, t, f, q, reg) && pc <= End(v, d)
    requires forall x :: x in t0 || x in f || x in q ==> x > pc
    ensures c[..pc] == v[..pc] && forall x :: x in t || x in f ==> x > pc
  {
    forall i | 0 <= i < pc ensures c[i] == v[i] {
      assert BuiltAt(v, End(v, d), c, Elems(t0) + Elems(f), Elems(q), i);
    }
  }
}
