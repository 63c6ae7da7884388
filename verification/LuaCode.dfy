/** liblua/lcode.c on expressions made of locals, comparisons, `not`, `and`, `or`. */
module LuaCode {
  import opened LuaMachine
  import opened LuaPatch
  import opened LuaMeaning
  import opened LuaFinish

  datatype Status = Ok | TooComplex {
    predicate IsFailure() {
      this.TooComplex?
    }
    function PropagateFailure(): Status {
      this
    }
  }

  const MAXSTACK := 250

  // ----- how many registers an expression takes -----

  function Max(a: nat, b: nat): nat {
    if a < b then b else a
  }

  /** Is the value of `x` known from a comparison and its jump? */
  predicate IsComparison(x: Expr) {
    match x
    case Local(_) => false
    case Rel(_, _, _) => true
    case Negate(y) => IsComparison(y)
    case And(_, r) => IsComparison(r)
    case Or(_, r) => IsComparison(r)
  }

  /** Does it end with a `not` that still wants a register? */
  predicate IsNot(x: Expr) {
    match x
    case Local(_) => false
    case Rel(_, _, _) => false
    case Negate(y) => !IsComparison(y)
    case And(_, r) => IsNot(r)
    case Or(_, r) => IsNot(r)
  }

  /** The registers that the code of `x` takes at the same time, besides the one
      for its value: one for the operand of a `not` behind another `not`, and those
      of the operands of a comparison. */
  function Need(x: Expr): nat
    decreases x, 0
  {
    match x
    case Local(_) => 0
    case Rel(_, l, r) => Max(OperandNeed(l), (if l.Local? then 0 else 1) + OperandNeed(r))
    case Negate(y) => Max(Need(y), if IsNot(y) then 1 else 0)
    case And(l, r) => Max(Need(l), Need(r))
    case Or(l, r) => Max(Need(l), Need(r))
  }

  function OperandNeed(x: Expr): nat
    decreases x, 1
  {
    if x.Local? then 0 else Max(Need(x), 1)
  }

  lemma ChoiceNeed(want: bool, l: Expr, r: Expr, fr: nat)
    ensures fr + Need(Choice(want, l, r)) < MAXSTACK <==> fr + Need(l) < MAXSTACK && fr + Need(r) < MAXSTACK
  {
  }

  lemma RelNeed(rel: Rel, l: Expr, r: Expr, fr: nat)
    ensures fr + Need(Expr.Rel(rel, l, r)) < MAXSTACK
       <==> fr + OperandNeed(l) < MAXSTACK && (if l.Local? then fr else fr + 1) + OperandNeed(r) < MAXSTACK
  {
  }

  /** The descriptor that the compiler gives `x`. */
  ghost predicate Shaped(x: Expr, d: Desc, ts: seq<nat>, fs: seq<nat>) {
    && (d.VJmp? <==> IsComparison(x)) && (d.VReloc? <==> IsNot(x)) && (x.Local? ==> d.VLocal?)
    && (x.Local? <==> Held(d) == 0 && ts == [] && fs == [])
  }

  /** A local emits no code; otherwise jumps that are pending belong to `x`. */
  ghost predicate Pends(x: Expr, c: seq<Instr>, c0: seq<Instr>, q: seq<nat>, q0: seq<nat>) {
    if x.Local? then c == c0 && q == q0 else forall y :: y in q ==> y > |c0|
  }

  /** In the code `c`, with `q` pending, the descriptor `d` with its two lists. */
  ghost predicate Describes(c: seq<Instr>, q: seq<nat>, n: nat, d: Desc, t: int, f: int, ts: seq<nat>, fs: seq<nat>,
                            pc: nat) {
    && Fits(c, d) && IsList(c, t, ts) && IsList(c, f, fs) && Closed(c)
    && (forall x :: x in ts ==> x !in fs && x !in q)
    && (forall x :: x in fs ==> x !in q)
    && pc <= End(c, d) && (forall x :: x in ts || x in fs ==> pc < x < End(c, d))
    && (Held(d) > 0 ==> q == [])
    && (Held(d) == 0 ==> d.info < n)
    && (d.VJmp? ==> c[d.info] == Jmp(NO_JUMP))
  }

  /** From code `c`, seen as `v`, to `c2`, seen as `v2`. */
  ghost predicate Grew(c: seq<Instr>, v: seq<Instr>, c2: seq<Instr>, v2: seq<Instr>, pc: nat) {
    && pc <= |c| == |v| && pc <= |c2| == |v2| && v2[..pc] == v[..pc]
    && (forall i :: 0 <= i < pc ==> c2[i] == c[i] || c2[i] == v[i])
  }

  lemma GrewMore(c: seq<Instr>, v: seq<Instr>, c1: seq<Instr>, v1: seq<Instr>, c2: seq<Instr>, v2: seq<Instr>, pc: nat)
    requires Grew(c, v, c1, v1, pc) && Grew(c1, v1, c2, v2, |c1|)
    ensures Grew(c, v, c2, v2, pc)
  {
    assert v2[..pc] == v2[..|c1|][..pc] && v1[..|c1|] == v1;
    assert forall i :: 0 <= i < pc ==> v1[i] == v1[..pc][i] && v[i] == v[..pc][i];
  }

  lemma GrewPrefix(c: seq<Instr>, v: seq<Instr>, c2: seq<Instr>, v2: seq<Instr>)
    requires Grew(c, v, c2, v2, |c|)
    ensures |c| <= |c2| && |v| == |c| <= |v2| && v2[..|v|] == v
  {
    assert v[..|v|] == v;
  }

  /** The code of a function under construction. */
  class FuncState {
    const nactvar: nat           // registers of active local variables
    var code: seq<Instr>
    var jpc: int                 // list of jumps to the next instruction
    var freereg: nat
    ghost var pend: seq<nat>     // the jumps of that list

    ghost predicate Valid()
      reads this
    {
      IsList(code, jpc, pend) && nactvar <= freereg < MAXSTACK
    }

    /** The code as it will be when the next instruction is added. */
    ghost function View(): seq<Instr>
      reads this
    {
      Patch(code, Elems(pend), |code|, NO_REG, |code|)
    }

    constructor (n: nat)
      requires n < MAXSTACK
      ensures Valid() && nactvar == n && freereg == n && code == [] && pend == []
    {
      nactvar, code, jpc, freereg, pend := n, [], NO_JUMP, n, [];
    }

    method FixJump(pc: nat, dest: int)
      requires pc < |code|
      modifies this`code
      ensures code == old(code)[pc := Jmp(dest - (pc + 1))]
    {
      code := code[pc := Jmp(dest - (pc + 1))];
    }

    /** patchtestreg: false when the jump does not carry a value. */
    method PatchTestReg(node: nat, reg: nat) returns (ok: bool)
      requires node < |code| && code[node].Jmp?
      modifies this`code
      ensures ok == IsValue(old(code), node)
      ensures code == if ok then old(code)[node - 1 := Retarget(old(code)[node - 1], reg)] else old(code)
    {
      var i := if node >= 1 && IsTest(code[node - 1]) then node - 1 else node;
      if !code[i].TestSet? {
        return false;
      }
      code := code[i := if reg != NO_REG && reg != code[i].b then TestSet(reg, code[i].b, code[i].cond)
                        else Test(code[i].b, code[i].cond)];
      return true;
    }

    /** patchlistaux. */
    method PatchListAux(list: int, vtarget: int, reg: nat, dtarget: int, ghost s: seq<nat>)
      requires IsList(code, list, s)
      modifies this`code
      ensures code == Patch(old(code), Elems(s), vtarget, reg, dtarget)
    {
      var l := list;
      ghost var k := 0;
      PatchNone(code, vtarget, reg, dtarget);
      while l != NO_JUMP
        invariant 0 <= k <= |s| && l == Head(s[k..])
        invariant code == Patch(old(code), Elems(s[..k]), vtarget, reg, dtarget)
        decreases |s| - k
      {
        PatchStep(old(code), s, k, vtarget, reg, dtarget);
        assert LinkAt(old(code), s, k);
        var next := GetJump(code, l);
        var ok := PatchTestReg(l, reg);
        FixJump(l, if ok then vtarget else dtarget);
        l, k := next, k + 1;
      }
      assert s[..k] == s;
    }

    /** luaK_concat. */
    method Concat(l1: int, l2: int, ghost s: seq<nat>, ghost t: seq<nat>) returns (l: int)
      requires IsList(code, l1, s) && IsList(code, l2, t) && forall x :: x in s ==> x !in t
      modifies this`code
      ensures IsList(code, l, s + t) && SameBut(old(code), code, Elems(s)) && (s == [] || t == [] ==> code == old(code))
    {
      if l2 == NO_JUMP {
        assert s + t == s;
        return l1;
      }
      if l1 == NO_JUMP {
        assert s + t == t;
        return l2;
      }
      var list := l1;
      assert LinkAt(code, s, 0);
      var next := GetJump(code, list);
      ghost var k := 0;
      while next != NO_JUMP
        invariant 0 <= k < |s| && list == s[k] && list < |code| && code[list].Jmp? && next == Head(s[k + 1..])
        decreases |s| - k
      {
        list, k := next, k + 1;
        assert LinkAt(code, s, k);
        next := GetJump(code, list);
      }
      ListAppend(code, s, t, code[list := Jmp(l2 - (list + 1))]);
      FixJump(list, l2);
      return l1;
    }

    /** need_value. */
    method NeedValue(list: int, ghost s: seq<nat>) returns (need: bool)
      requires IsList(code, list, s)
      ensures need <==> exists i :: 0 <= i < |s| && !IsValue(code, s[i])
    {
      var l := list;
      ghost var k := 0;
      while l != NO_JUMP
        invariant 0 <= k <= |s| && l == Head(s[k..])
        invariant forall i :: 0 <= i < k ==> IsValue(code, s[i])
        decreases |s| - k
      {
        assert LinkAt(code, s, k);
        var i := if l >= 1 && IsTest(code[l - 1]) then l - 1 else l;
        if !code[i].TestSet? {
          assert !IsValue(code, s[k]);
          return true;
        }
        l, k := GetJump(code, l), k + 1;
      }
      return false;
    }

    /** removevalues. */
    method RemoveValues(list: int, ghost s: seq<nat>)
      requires IsList(code, list, s)
      modifies this`code
      ensures code == Unvalued(old(code), Elems(s))
    {
      var l := list;
      ghost var k := 0;
      assert code == Unvalued(code, Elems(s[..0]));
      while l != NO_JUMP
        invariant 0 <= k <= |s| && l == Head(s[k..])
        invariant code == Unvalued(old(code), Elems(s[..k]))
        decreases |s| - k
      {
        UnvaluedStep(old(code), s, k);
        assert LinkAt(old(code), s, k);
        var next := GetJump(code, l);
        var ok := PatchTestReg(l, NO_REG);
        l, k := next, k + 1;
      }
      assert s[..k] == s;
    }

    /** luaK_code. */
    method Emit(i: Instr) returns (pc: nat)
      requires Valid()
      modifies this`code, this`jpc, this`pend
      ensures Valid() && pend == [] && pc == |old(code)| && code == old(View()) + [i]
    {
      PatchListAux(jpc, |code|, NO_REG, |code|, pend);
      jpc, pend := NO_JUMP, [];
      pc := |code|;
      code := code + [i];
    }

    /** luaK_jump: the pending jumps go wherever the new one will go. */
    method Jump() returns (j: int)
      requires Valid()
      modifies this`code, this`jpc, this`pend
      ensures Valid() && pend == [] && j == |old(code)| && |code| == j + 1 && code[..j] == old(code) && code[j].Jmp?
      ensures IsList(code, j, [j] + old(pend)) && (old(pend) == [] ==> code[j] == Jmp(NO_JUMP))
    {
      var hold := jpc;
      ghost var held := pend;
      jpc, pend := NO_JUMP, [];
      PatchNone(code, |code|, NO_REG, |code|);
      var pc := Emit(Jmp(NO_JUMP));
      assert code[pc] == Jmp(NO_JUMP);
      ListFrame(old(code), code, held);
      ListOne(code, pc);
      forall x | x in held ensures x < pc {
        ListInside(old(code), held, x);
      }
      ghost var c := code;
      j := Concat(pc, hold, [pc], held);
      assert forall i :: 0 <= i < pc ==> code[i] == c[i];
    }

    method CondJump(i: Instr) returns (j: int)
      requires Valid()
      modifies this`code, this`jpc, this`pend
      ensures Valid() && pend == [] && code == old(View()) + [i, Jmp(NO_JUMP)] && j == |code| - 1
    {
      var pc := Emit(i);
      j := Jump();
      assert code == code[..j] + [code[j]];
    }

    /** luaK_patchtohere. */
    method PatchToHere(list: int, ghost s: seq<nat>)
      requires Valid() && IsList(code, list, s) && forall x :: x in pend ==> x !in s
      modifies this`code, this`jpc, this`pend
      ensures Valid() && pend == old(pend) + s && |code| == |old(code)|
      ensures SameBut(old(code), code, Elems(old(pend))) && (old(pend) == [] ==> code == old(code))
    {
      jpc := Concat(jpc, list, pend, s);
      pend := pend + s;
    }

    // ----- expressions -----

    /** A descriptor with its two lists, for code from `pc` on. */
    ghost predicate Described(d: Desc, t: int, f: int, ts: seq<nat>, fs: seq<nat>, pc: nat)
      reads this
    {
      Valid() && Describes(code, pend, nactvar, d, t, f, ts, fs, pc)
    }

    /** What came before `pc` is left as it was, or as it would have become. */
    ghost predicate Grown(c: seq<Instr>, v: seq<Instr>, pc: nat)
      reads this
    {
      Grew(c, v, code, View(), pc)
    }

    method JumpOnCond(d: Desc, want: bool, ghost t: int, ghost f: int, ghost ts: seq<nat>, ghost fs: seq<nat>,
                      ghost pc: nat)
      returns (j: int, ghost test: Instr)
      requires Described(d, t, f, ts, fs, pc) && !d.VJmp?
      modifies this`code, this`jpc, this`pend
      ensures Fits(old(View()), d) && Tests(old(View()), d, test, want)
      ensures Valid() && pend == [] && code == Tested(old(View()), d, test) && j == |code| - 1
    {
      PatchNone(code, |code|, NO_REG, |code|);
      if d.VReloc? {
        var b := code[d.info].b;
        code := code[..|code| - 1];
        PatchNone(code, |code|, NO_REG, |code|);
        test := Test(b, want);
        j := CondJump(Test(b, want));
      } else {
        test := TestSet(NO_REG, d.info, !want);
        j := CondJump(TestSet(NO_REG, d.info, !want));
      }
    }

    lemma ListsInside(d: Desc, t: int, f: int, ts: seq<nat>, fs: seq<nat>, pc: nat)
      requires Described(d, t, f, ts, fs, pc)
      ensures Fits(View(), d) && Inside(View(), d, Elems(ts) + Elems(fs), pc) && Elems(ts) !! Elems(fs)
      ensures forall x :: x in ts || x in fs ==> View()[x] == code[x] && IsValue(View(), x) == IsValue(code, x)
    {
      PatchNone(code, |code|, NO_REG, |code|);
      forall x | x in ts || x in fs ensures x < |code| && code[x].Jmp? {
        if x in ts {
          ListInside(code, ts, x);
        } else {
          ListInside(code, fs, x);
        }
      }
      forall x | x in pend ensures x < |code| && code[x].Jmp? {
        ListInside(code, pend, x);
      }
    }

    /** The value is tested, by a new test or by the comparison that computes it. */
    method TestJump(want: bool, d: Desc, ghost t: int, ghost f: int, ghost ts: seq<nat>, ghost fs: seq<nat>,
                    ghost pc: nat)
      returns (j: int, ghost test: Instr)
      requires Described(d, t, f, ts, fs, pc)
      modifies this`code, this`jpc, this`pend
      ensures Fits(old(View()), d) && Tests(old(View()), d, test, want)
      ensures Valid() && pend == [] && code == Tested(old(View()), d, test) && j == |code| - 1
    {
      if d.VJmp? {
        PatchNone(code, |code|, NO_REG, |code|);
        if want {
          var i := code[d.info - 1];
          code := code[d.info - 1 := Compare(i.op, !i.want, i.b, i.c)];
        }
        test := code[d.info - 1];
        j := d.info;
      } else {
        j, test := JumpOnCond(d, want, t, f, ts, fs, pc);
      }
    }

    /** The jump `j` joins the list `s`; the jumps of `g` are to come here. */
    method Branch(j: nat, l: int, g: int, ghost ls: seq<nat>, ghost gs: seq<nat>) returns (r: int)
      requires Valid() && pend == [] && IsList(code, l, ls) && IsList(code, g, gs) && IsList(code, j, [j])
      requires j !in ls && j !in gs && forall x :: x in ls ==> x !in gs
      modifies this`code, this`jpc, this`pend
      ensures Valid() && pend == gs && IsList(code, r, ls + [j]) && SameBut(old(code), code, Elems(ls))
    {
      r := Concat(l, j, ls, [j]);
      forall i | 0 <= i < |gs| ensures gs[i] < |code| && code[gs[i]] == old(code)[gs[i]] {
        ListInside(old(code), gs, gs[i]);
      }
      ListFrame(old(code), code, gs);
      PatchToHere(g, gs);
    }

    /** luaK_goiftrue when `want`, luaK_goiffalse otherwise. */
    method GoIf(want: bool, d: Desc, t: int, f: int, ghost ts: seq<nat>, ghost fs: seq<nat>, ghost pc: nat,
                ghost x: Expr)
      returns (l: int, ghost ls: seq<nat>)
      requires Described(d, t, f, ts, fs, pc) && Means(View(), d, Elems(ts), Elems(fs), pc, freereg, x)
      modifies this`code, this`jpc, this`pend
      ensures Valid() && Closed(code) && IsList(code, l, ls) && Cond(View(), Elems(ls), pc, freereg, want, x)
      ensures Grown(old(code), old(View()), pc)
      ensures (forall y :: y in ls ==> pc < y < |code| && y !in pend) && (forall y :: y in pend ==> pc < y)
      ensures ls != []
    {
      hide Means, Cond, Tests, LinkAt, Distinct, Patch, Grew, Closed, Fits;
      ghost var v := View();
      ghost var go, stay := if want then ts else fs, if want then fs else ts;
      ListsInside(d, t, f, ts, fs, pc);
      var j, test := TestJump(want, d, t, f, ts, fs, pc);
      ghost var b := code;
      assert Elems(go) + Elems(stay) == Elems(ts) + Elems(fs);
      TestedCond(v, d, Elems(go), Elems(stay), pc, freereg, want, x, test);
      TestedLists(old(code), v, d, test, ts, fs, pc);
      ListOne(code, j);
      l := Branch(j, if want then f else t, if want then t else f, stay, go);
      ls := stay + [j];
      assert Elems(ls) == Elems(stay) + {j};
      PatchSame(b, code, Elems(go), Elems(ls));
      CondSame(Patch(b, Elems(go), |b|, NO_REG, |b|), View(), Elems(ls), pc, freereg, want, x);
      PrefixKept(old(code), v, d, test, code, Elems(go), Elems(stay), pc);
    }

    /** luaK_reserveregs for one register. */
    method Reserve() returns (st: Status)
      modifies this`freereg
      ensures st.Ok? <==> old(freereg) + 1 < MAXSTACK
      ensures freereg == if st.Ok? then old(freereg) + 1 else old(freereg)
    {
      if freereg + 1 >= MAXSTACK {
        return TooComplex;
      }
      freereg := freereg + 1;
      return Ok;
    }

    /** The value becomes its negation. */
    method Invert(d: Desc, ghost t: int, ghost f: int, ghost ts: seq<nat>, ghost fs: seq<nat>, ghost pc: nat)
      returns (st: Status, r: Desc)
      requires Described(d, t, f, ts, fs, pc)
      modifies this
      ensures st.Ok? ==> Valid() && pend == [] && freereg == old(freereg) && Held(r) > 0 && Closed(code)
      ensures st.Ok? ==> Negates(old(View()), d, code, r, freereg) && End(old(View()), d) <= |code|
      ensures st.Ok? ==> forall i :: 0 <= i < End(old(View()), d) ==> code[i] == old(View())[i]
      ensures st.Ok? && r.VJmp? ==> code[r.info] == Jmp(NO_JUMP)
      ensures st.Ok? <==> old(freereg) + (if d.VReloc? then 1 else 0) < MAXSTACK
      ensures st.Ok? ==> (r.VJmp? <==> d.VJmp?) && Held(r) > 0
    {
      hide Negates, LinkAt, Distinct, Patch;
      ghost var v := View();
      PatchNone(code, |code|, NO_REG, |code|);
      NoElems();
      r := d;
      if d.VJmp? {
        var i := code[d.info - 1];
        code := code[d.info - 1 := Compare(i.op, !i.want, i.b, i.c)];
        NegatesJump(v, d, code, freereg);
      } else if d.VReloc? {
        :- Reserve();
        code := code[d.info := Not(freereg - 1, code[d.info].b)];
        freereg := freereg - 1;
        PatchNone(code, |code|, NO_REG, |code|);
        var pc2 := Emit(Not(0, freereg));
        r := VReloc(pc2);
        NegatesTwice(v, code, freereg);
      } else {
        var pc2 := Emit(Not(0, d.info));
        r := VReloc(pc2);
        NegatesOnce(v, d, code, freereg);
      }
      st := Ok;
    }

    /** codenot: the lists change their roles and carry no values any more. */
    method CodeNot(d: Desc, t: int, f: int, ghost ts: seq<nat>, ghost fs: seq<nat>, ghost pc: nat, ghost x: Expr)
      returns (st: Status, r: Desc)
      requires Described(d, t, f, ts, fs, pc) && Means(View(), d, Elems(ts), Elems(fs), pc, freereg, x)
      modifies this
      ensures st.Ok? ==>
                Described(r, f, t, fs, ts, pc) && Means(View(), r, Elems(fs), Elems(ts), pc, freereg, Negate(x))
      ensures st.Ok? ==> Grown(old(code), old(View()), pc) && freereg == old(freereg) && pend == []
      ensures st.Ok? <==> old(freereg) + (if d.VReloc? then 1 else 0) < MAXSTACK
      ensures st.Ok? ==> (r.VJmp? <==> d.VJmp?) && Held(r) > 0
    {
      hide Means, LinkAt, Distinct, Negates, Unvalued, Patch, Elems, Inside, Fits;
      ghost var v := View();
      ListsInside(d, t, f, ts, fs, pc);
      r := d;
      r :- Invert(d, t, f, ts, fs, pc);
      ghost var c := code;
      SameLists(old(code), c, ts, fs);
      RemoveValues(f, fs);
      UnvaluedList(c, ts, Elems(fs));
      RemoveValues(t, ts);
      UnvaluedBoth(c, Elems(ts), Elems(fs));
      NegatedCode(v, d, c, r, pc, freereg, x, ts, fs);
      PatchNone(code, |code|, NO_REG, |code|);
      assert Elems(pend) == {} by { NoElems(); }
      assert View() == code;
      st := Ok;
    }

    /** discharge2reg, for a value that is not a comparison. */
    method Discharge2Reg(d: Desc, reg: nat, ghost t: int, ghost f: int, ghost ts: seq<nat>, ghost fs: seq<nat>,
                         ghost pc: nat)
      requires Described(d, t, f, ts, fs, pc) && !d.VJmp?
      modifies this`code, this`jpc, this`pend
      ensures Valid() && Fits(old(View()), d)
      ensures var load := Loader(old(View()), d, reg);
              if load == [] then code == old(code) && pend == old(pend) && jpc == old(jpc)
              else pend == [] && code == old(View())[..End(old(View()), d)] + load
    {
      PatchNone(code, |code|, NO_REG, |code|);
      if d.VReloc? {
        code := code[d.info := Not(reg, code[d.info].b)];
      } else if reg != d.info {
        var pc2 := Emit(Move(reg, d.info));
      }
    }

    /** The two instructions that load a boolean, jumped over unless they are
        reached by a comparison. */
    method LoadBools(reg: nat, over: bool) returns (pf: nat, pt: nat)
      requires Valid() && (!over ==> pend == [])
      modifies this`code, this`jpc, this`pend
      ensures Valid() && pf == |code| - 2 && pt == |code| - 1 && |code| == |old(code)| + if over then 3 else 2
      ensures code[..|old(code)|] == old(code)
      ensures code[pf] == LoadBool(reg, false, true) && code[pt] == LoadBool(reg, true, false)
      ensures pend == if over then [|old(code)|] + old(pend) else []
      ensures over ==> code[|old(code)|].Jmp?
    {
      var fj := NO_JUMP;
      ghost var hold := pend;
      ghost var n := |code|;
      if over {
        fj := Jump();
      }
      ghost var c := code;
      PatchNone(code, |code|, NO_REG, |code|);
      pf := Emit(LoadBool(reg, false, true));
      PatchNone(code, |code|, NO_REG, |code|);
      pt := Emit(LoadBool(reg, true, false));
      assert code == c + [LoadBool(reg, false, true), LoadBool(reg, true, false)];
      if over {
        ListFrame(c, code, [n] + hold);
        PatchToHere(fj, [n] + hold);
      }
      assert code[..n] == c[..n];
    }

    /** The value is in `reg`, or its comparison is listed with the jumps taken
        when it is true. */
    method LoadValue(d: Desc, t: int, f: int, reg: nat, ghost ts: seq<nat>, ghost fs: seq<nat>, ghost pc: nat)
      returns (t1: int, ghost ts1: seq<nat>)
      requires Described(d, t, f, ts, fs, pc)
      modifies this`code, this`jpc, this`pend
      ensures Valid() && IsList(code, t1, ts1) && IsList(code, f, fs)
      ensures Loaded(old(View()), d, code, ts, ts1, fs, pend, reg)
      ensures forall i :: 0 <= i < pc ==> code[i] == old(code)[i] || code[i] == old(View())[i]
      ensures pend == [] || pend == old(pend)
    {
      hide LinkAt, Distinct, Loaded, Patch, Inside;
      ghost var c, v := code, View();
      ListsInside(d, t, f, ts, fs, pc);
      t1, ts1 := t, ts;
      if d.VJmp? {
        PatchNone(c, |c|, NO_REG, |c|);
        NoElems();
        ListOne(code, d.info);
        t1 := Concat(t, d.info, ts, [d.info]);
        ts1 := ts + [d.info];
        LoadedJump(c, d, code, ts, fs, reg);
      } else {
        Discharge2Reg(d, reg, t, f, ts, fs, pc);
        if Loader(v, d, reg) == [] {
          LoadedHeld(c, v, d, ts, fs, pend, reg);
        } else {
          LoadedMoved(c, v, d, code, ts, fs, reg);
        }
      }
    }

    /** The jumps of the two lists get their targets, the end or the instructions
        that load booleans. */
    method CloseLists(t: int, f: int, reg: nat, pf: int, pt: int, ghost ts: seq<nat>, ghost fs: seq<nat>)
      requires Valid() && IsList(code, t, ts) && IsList(code, f, fs)
      requires (forall x :: x in ts ==> x !in fs && x !in pend) && (forall x :: x in fs ==> x !in pend)
      modifies this`code
      ensures Valid() && View() == Finish(old(code), Elems(fs), Elems(ts), Elems(pend), reg, pf, pt)
      ensures code == Patch(Patch(old(code), Elems(fs), |code|, reg, pf), Elems(ts), |code|, reg, pt)
    {
      ListPatched(code, ts, Elems(fs), |code|, reg, pf);
      ListPatched(code, pend, Elems(fs), |code|, reg, pf);
      PatchListAux(f, |code|, reg, pf, fs);
      ListPatched(code, pend, Elems(ts), |code|, reg, pt);
      PatchListAux(t, |code|, reg, pt, ts);
    }

    /** Is there a jump that does not carry its value? */
    method HasBooleans(t: int, f: int, ghost ts: seq<nat>, ghost fs: seq<nat>) returns (need: bool)
      requires IsList(code, t, ts) && IsList(code, f, fs) && forall x :: x in ts ==> x !in fs
      ensures !need ==> forall j :: j in ts || j in fs ==> IsValue(code, j)
      ensures need ==> ts != [] || fs != []
    {
      if t == f {
        if ts != [] {
          HeadsDiffer(ts, fs);
        }
        return false;
      }
      need := NeedValue(t, ts);
      if !need {
        need := NeedValue(f, fs);
      }
    }

    method EndPlain(d: Desc, t: int, f: int, reg: nat, ghost v: seq<Instr>, ghost t0: seq<nat>, ghost ts: seq<nat>,
                    ghost fs: seq<nat>, ghost pc: nat, ghost fr: nat, ghost x: Expr)
      requires Valid() && IsList(code, t, ts) && IsList(code, f, fs) && Loaded(v, d, code, t0, ts, fs, pend, reg)
      requires reg != NO_REG && !d.VJmp? && pc <= |code| && forall j :: j in ts || j in fs ==> IsValue(code, j)
      requires Means(v, d, Elems(t0), Elems(fs), pc, fr, x) && Inside(v, d, Elems(t0) + Elems(fs), pc)
      requires forall y :: y in ts || y in fs ==> y > pc
      modifies this`code, this`jpc, this`pend
      ensures Valid() && Closed(code) && Loads(View(), pc, fr, reg, x) && |code| == |old(code)| && pend == old(pend)
      ensures (forall y :: y in old(pend) ==> y > pc) ==>
                code[..pc] == old(code)[..pc] && View()[..pc] == old(code)[..pc]
      ensures ts == [] && fs == [] ==> code == old(code)
    {
      hide Means, Loads, LinkAt, Distinct, Built;
      ghost var c, q := code, pend;
      ApartLists(c, fs, ts, q);
      CloseLists(t, f, reg, NO_JUMP, NO_JUMP, ts, fs);
      if ts == [] && fs == [] {
        assert Elems(ts) == {} && Elems(fs) == {};
        PatchNone(c, |c|, reg, NO_JUMP);
      }
      LoadedDone(v, d, c, t0, fs, q, pc, fr, x, reg, NO_JUMP, NO_JUMP);
      if forall y :: y in q ==> y > pc {
        FinishPrefix(c, Elems(fs), Elems(ts), Elems(q), reg, NO_JUMP, NO_JUMP, pc);
      }
    }

    method EndBools(d: Desc, t: int, f: int, reg: nat, ghost v: seq<Instr>, ghost t0: seq<nat>, ghost ts: seq<nat>,
                    ghost fs: seq<nat>, ghost pc: nat, ghost fr: nat, ghost x: Expr)
      requires Valid() && IsList(code, t, ts) && IsList(code, f, fs) && Loaded(v, d, code, t0, ts, fs, pend, reg)
      requires reg != NO_REG && pc < |code|
      requires Means(v, d, Elems(t0), Elems(fs), pc, fr, x) && Inside(v, d, Elems(t0) + Elems(fs), pc)
      requires forall y :: y in ts || y in fs ==> y > pc
      modifies this`code, this`jpc, this`pend
      ensures Valid() && Closed(code) && Loads(View(), pc, fr, reg, x) && |code| >= |old(code)|
      ensures (forall y :: y in old(pend) ==> y > pc) ==>
                code[..pc] == old(code)[..pc] && View()[..pc] == old(code)[..pc]
      ensures (forall y :: y in old(pend) ==> y > pc) ==> forall y :: y in pend ==> y > pc
    {
      hide Means, Loads, LinkAt, Distinct, Built;
      ghost var c, q := code, pend;
      var pf, pt := LoadBools(reg, !d.VJmp?);
      ghost var b := code;
      ApartLists(c, fs, ts, q);
      BoolsApart(c, b, ts, fs, q, pend, reg, !d.VJmp?);
      ApartLists(b, fs, ts, pend);
      SameLists(c, code, ts, fs);
      CloseLists(t, f, reg, pf, pt, ts, fs);
      LoadedBools(v, d, c, b, t0, ts, fs, q, pend, pc, fr, x, reg);
      if forall y :: y in q ==> y > pc {
        FinishPrefix(b, Elems(fs), Elems(ts), Elems(pend), reg, pf, pt, pc);
        assert b[..pc] == c[..pc];
      }
    }

    /** The lists are closed, with or without instructions that load booleans. */
    method EndExpr(d: Desc, t: int, f: int, reg: nat, ghost v: seq<Instr>, ghost t0: seq<nat>, ghost ts: seq<nat>,
                   ghost fs: seq<nat>, ghost pc: nat, ghost fr: nat, ghost x: Expr)
      requires Valid() && IsList(code, t, ts) && IsList(code, f, fs) && Loaded(v, d, code, t0, ts, fs, pend, reg)
      requires reg != NO_REG && pc <= End(v, d)
      requires Means(v, d, Elems(t0), Elems(fs), pc, fr, x) && Inside(v, d, Elems(t0) + Elems(fs), pc)
      modifies this`code, this`jpc, this`pend
      ensures Valid() && Closed(code) && Loads(View(), pc, fr, reg, x) && pc <= |code|
      ensures (forall y :: y in old(pend) ==> y > pc) ==> code[..pc] == v[..pc] && View()[..pc] == v[..pc]
      ensures (forall y :: y in old(pend) ==> y > pc) ==> forall y :: y in pend ==> y > pc
      ensures ts == [] && fs == [] ==> code == old(code) && pend == old(pend)
    {
      hide Means, Loads, LinkAt, Distinct, Built;
      ghost var q := pend;
      forall y | y in t0 || y in fs ensures pc < y < End(v, d) {
        assert y in Elems(t0) + Elems(fs);
      }
      if forall y :: y in q ==> y > pc {
        LoadedPrefix(v, d, code, t0, ts, fs, q, reg, pc);
      }
      ApartLists(code, fs, ts, pend);
      var need := HasBooleans(t, f, ts, fs);
      if need {
        assert (ts != [] ==> ts[0] in ts) && (fs != [] ==> fs[0] in fs);
        EndBools(d, t, f, reg, v, t0, ts, fs, pc, fr, x);
      } else {
        assert d.VJmp? ==> d.info in ts && !IsValue(code, d.info);
        EndPlain(d, t, f, reg, v, t0, ts, fs, pc, fr, x);
      }
    }

    /** The pending jumps belong to the expression, or it has not emitted any code. */
    static ghost predicate Early(d: Desc, ts: seq<nat>, fs: seq<nat>, q: seq<nat>, pc: nat) {
      (forall y :: y in q ==> y > pc) || (d.VLocal? && ts == [] && fs == [])
    }

    /** exp2reg. */
    method Exp2Reg(d: Desc, t: int, f: int, reg: nat, ghost ts: seq<nat>, ghost fs: seq<nat>, ghost pc: nat,
                   ghost fr: nat, ghost x: Expr)
      requires Described(d, t, f, ts, fs, pc) && Means(View(), d, Elems(ts), Elems(fs), pc, fr, x) && reg != NO_REG
      modifies this`code, this`jpc, this`pend
      ensures Valid() && Closed(code) && Loads(View(), pc, fr, reg, x)
      ensures reg >= nactvar ==> Grown(old(code), old(View()), pc) && forall y :: y in pend ==> y > pc
      ensures Early(d, ts, fs, old(pend), pc) ==> Grown(old(code), old(View()), pc)
    {
      hide Means, Loads, LinkAt, Distinct;
      ghost var v := View();
      ListsInside(d, t, f, ts, fs, pc);
      var t1, ts1 := LoadValue(d, t, f, reg, ts, fs, pc);
      EndExpr(d, t1, f, reg, v, ts, ts1, fs, pc, fr, x);
      assert forall i :: 0 <= i < pc && i < |code| ==> code[i] == code[..pc][i];
    }

    /** luaK_exp2nextreg. */
    method Exp2NextReg(d: Desc, t: int, f: int, ghost ts: seq<nat>, ghost fs: seq<nat>, ghost pc: nat, ghost x: Expr)
      returns (st: Status)
      requires Described(d, t, f, ts, fs, pc) && Means(View(), d, Elems(ts), Elems(fs), pc, freereg, x)
      modifies this
      ensures st.Ok? ==> Valid() && Closed(code) && freereg == old(freereg) + 1
      ensures st.Ok? ==> Loads(View(), pc, old(freereg), old(freereg), x)
      ensures st.Ok? ==> Grown(old(code), old(View()), pc) && forall y :: y in pend ==> y > pc
      ensures st.Ok? <==> old(freereg) + 1 < MAXSTACK
    {
      hide Means, Loads, IsList, Fits, Grew, Patch, Elems;
      ghost var fr := freereg;
      :- Reserve();
      Exp2Reg(d, t, f, freereg - 1, ts, fs, pc, fr, x);
      st := Ok;
    }

    /** luaK_exp2anyreg. */
    method Exp2AnyReg(d: Desc, t: int, f: int, ghost ts: seq<nat>, ghost fs: seq<nat>, ghost pc: nat, ghost x: Expr)
      returns (st: Status, reg: nat)
      requires Described(d, t, f, ts, fs, pc) && Means(View(), d, Elems(ts), Elems(fs), pc, freereg, x)
      modifies this
      ensures st.Ok? ==> Valid() && Closed(code) && InReg(View(), pc, old(freereg), reg, x)
      ensures st.Ok? ==>
                reg < freereg && (if reg < nactvar then freereg == old(freereg) else reg == old(freereg) == freereg - 1)
      ensures st.Ok? ==> Grown(old(code), old(View()), pc) && (pend == old(pend) || forall y :: y in pend ==> y > pc)
      ensures st.Ok? <==> old(freereg) + (if Held(d) == 0 && ts == [] && fs == [] then 0 else 1) < MAXSTACK
      ensures st.Ok? ==> (reg < nactvar <==> Held(d) == 0 && ts == [] && fs == [])
    {
      reg := 0;
      if Held(d) == 0 && t == f {
        if ts != [] {
          HeadsDiffer(ts, fs);
        }
        assert Elems(ts) == {} && Elems(fs) == {};
        MeansInReg(View(), d, pc, freereg, x);
        return Ok, d.info;
      }
      ghost var fr := freereg;
      :- Exp2NextReg(d, t, f, ts, fs, pc, x);
      LoadedInReg(View(), pc, fr, freereg - 1, x);
      return Ok, freereg - 1;
    }

    // ----- the expression compiler -----

    /** codecomp behind luaK_posfix: `a > b` is compiled as `b < a`. */
    method CodeComp(rel: Rel, o1: nat, o2: nat) returns (j: int)
      requires Valid()
      modifies this`code, this`jpc, this`pend
      ensures Valid() && pend == [] && code == old(View()) + [Instruction(rel, o1, o2), Jmp(NO_JUMP)] && j == |code| - 1
    {
      var op := if rel.Eq? || rel.Ne? then EQ else if rel.Lt? || rel.Gt? then LT else LE;
      var cond := rel.Eq? || rel.Lt? || rel.Le?;
      var a, b := o1, o2;
      if !cond && op != EQ {
        a, b := b, a;
        cond := true;
      }
      j := CondJump(Compare(op, cond, a, b));
    }

    /** The code of `x`, appended: its value is where the descriptor says, or known
        from the list by which the code is left. */
    method Subexpr(x: Expr) returns (st: Status, d: Desc, t: int, f: int, ghost ts: seq<nat>, ghost fs: seq<nat>)
      requires Valid() && Closed(code) && Uses(x, nactvar)
      modifies this
      ensures st.Ok? ==> Described(d, t, f, ts, fs, |old(code)|) && freereg == old(freereg)
      ensures st.Ok? ==> Means(View(), d, Elems(ts), Elems(fs), |old(code)|, freereg, x)
      ensures st.Ok? ==> Grown(old(code), old(View()), |old(code)|)
      ensures st.Ok? ==> Pends(x, code, old(code), pend, old(pend))
      ensures st.Ok? <==> old(freereg) + Need(x) < MAXSTACK
      ensures st.Ok? ==> Shaped(x, d, ts, fs)
      decreases x, 1
    {
      hide Means, LinkAt, Distinct;
      d, t, f, ts, fs := VLocal(0), NO_JUMP, NO_JUMP, [], [];
      assert Elems(ts) == {} && Elems(fs) == {};
      match x {
        case Local(r) =>
          d := VLocal(r);
          ListEmpty(code);
          LocalMeans(View(), freereg, r);
          st := Ok;
        case Rel(rel, l, r) =>
          d :- Comparison(rel, l, r);
          st := Ok;
        case Negate(y) =>
          var pc := |code|;
          d, t, f, ts, fs :- Subexpr(y);
          d :- CodeNot(d, t, f, ts, fs, pc, y);
          t, f, ts, fs := f, t, fs, ts;
          st := Ok;
        case And(l, r) =>
          d, t, f, ts, fs :- Choose(true, l, r);
          st := Ok;
        case Or(l, r) =>
          d, t, f, ts, fs :- Choose(false, l, r);
          st := Ok;
      }
    }

    /** Both operands are put into registers, temporary ones unless they are
        locals; the result is a comparison with its jump. */
    method Comparison(rel: Rel, l: Expr, r: Expr) returns (st: Status, d: Desc)
      requires Valid() && Closed(code) && Uses(l, nactvar) && Uses(r, nactvar)
      modifies this
      ensures st.Ok? ==> Described(d, NO_JUMP, NO_JUMP, [], [], |old(code)|) && freereg == old(freereg) && pend == []
      ensures st.Ok? ==> Means(View(), d, {}, {}, |old(code)|, freereg, Expr.Rel(rel, l, r))
      ensures st.Ok? ==> Grown(old(code), old(View()), |old(code)|)
      ensures st.Ok? <==> old(freereg) + Need(Expr.Rel(rel, l, r)) < MAXSTACK
      ensures st.Ok? ==> d.VJmp?
      decreases Expr.Rel(rel, l, r), 0
    {
      hide Means, InReg, IsList, Grew, Patch, Uses, Elems, Instruction, Need, OperandNeed, Max, Closed;
      d := VLocal(0);
      ghost var pc, fr, c, v := |code|, freereg, code, View();
      RelNeed(rel, l, r, freereg);
      var o1 :- Operand(l);
      ghost var c1, v1, fr1 := code, View(), freereg;
      var o2 :- Operand(r);
      ghost var v2 := View();
      GrewMore(c, v, c1, v1, code, v2, pc);
      if o2 >= nactvar {
        freereg := freereg - 1;
      }
      if o1 >= nactvar {
        freereg := freereg - 1;
      }
      GrewPrefix(c1, v1, code, v2);
      GrewPrefix(c, v, code, v2);
      CompareMeans(v1, v2, pc, fr, fr1, nactvar, o1, o2, rel, l, r);
      var j := CodeComp(rel, o1, o2);
      d := VJmp(j);
      ComparisonDone(c, v, v2, code, rel, o1, o2);
      st := Ok;
    }

    /** An operand of a comparison. */
    method Operand(x: Expr) returns (st: Status, reg: nat)
      requires Valid() && Closed(code) && Uses(x, nactvar)
      modifies this
      ensures st.Ok? ==> Valid() && Closed(code) && InReg(View(), |old(code)|, old(freereg), reg, x)
      ensures st.Ok? ==>
                reg < freereg && (if reg < nactvar then freereg == old(freereg) else reg == old(freereg) == freereg - 1)
      ensures st.Ok? ==> Grown(old(code), old(View()), |old(code)|)
      ensures st.Ok? <==> old(freereg) + OperandNeed(x) < MAXSTACK
      ensures st.Ok? ==> (reg < nactvar <==> x.Local?)
      decreases x, 2
    {
      hide Means, InReg, LinkAt, Distinct;
      reg := 0;
      ghost var pc := |code|;
      var d, t, f, ts, fs :- Subexpr(x);
      reg :- Exp2AnyReg(d, t, f, ts, fs, pc, x);
      st := Ok;
    }

    /** The second operand behind the test of the first. */
    method Choose(want: bool, l: Expr, r: Expr)
      returns (st: Status, d: Desc, t: int, f: int, ghost ts: seq<nat>, ghost fs: seq<nat>)
      requires Valid() && Closed(code) && Uses(l, nactvar) && Uses(r, nactvar)
      modifies this
      ensures st.Ok? ==> Described(d, t, f, ts, fs, |old(code)|) && freereg == old(freereg)
      ensures st.Ok? ==> Means(View(), d, Elems(ts), Elems(fs), |old(code)|, freereg, Choice(want, l, r))
      ensures st.Ok? ==> Grown(old(code), old(View()), |old(code)|)
      ensures st.Ok? ==> forall y :: y in pend ==> y > |old(code)|
      ensures st.Ok? <==> old(freereg) + Need(Choice(want, l, r)) < MAXSTACK
      ensures st.Ok? ==> Shaped(Choice(want, l, r), d, ts, fs)
      decreases Choice(want, l, r), 0
    {
      hide Means, Cond, IsList, Fits, Grew, Patch, Elems, Uses, Shaped, Described, Closed, View, Need, Max, Held, Valid;
      d, t, f, ts, fs := VLocal(0), NO_JUMP, NO_JUMP, [], [];
      ghost var pc, c, v := |code|, code, View();
      ChoiceNeed(want, l, r, freereg);
      var l1, ls :- FirstOperand(want, l);
      ghost var c1, v1 := code, View();
      GrewPrefix(c, v, c1, v1);
      d, t, f, ts, fs :- SecondOperand(want, l, r, l1, ls, pc);
      GrewMore(c, v, c1, v1, code, View(), pc);
      st := Ok;
    }

    method SecondOperand(want: bool, ghost l: Expr, r: Expr, l1: int, ghost ls: seq<nat>, ghost pc: nat)
      returns (st: Status, d: Desc, t: int, f: int, ghost ts: seq<nat>, ghost fs: seq<nat>)
      requires Valid() && Closed(code) && IsList(code, l1, ls) && Uses(r, nactvar) && pc <= |code|
      requires Cond(View(), Elems(ls), pc, freereg, want, l) && (forall y :: y in pend ==> pc < y)
      requires (forall y :: y in ls ==> pc < y < |code| && y !in pend) && ls != []
      modifies this
      ensures st.Ok? ==> Described(d, t, f, ts, fs, pc) && freereg == old(freereg)
      ensures st.Ok? ==> Means(View(), d, Elems(ts), Elems(fs), pc, freereg, Choice(want, l, r))
      ensures st.Ok? ==> Grown(old(code), old(View()), |old(code)|)
      ensures st.Ok? ==> forall y :: y in pend ==> y > pc
      ensures st.Ok? <==> old(freereg) + Need(r) < MAXSTACK
      ensures st.Ok? ==> Shaped(Choice(want, l, r), d, ts, fs)
      decreases r, 2
    {
      hide Means, Cond, IsList, Fits, Patch, Elems, Uses, Need, Described;
      d, t, f, ts, fs := VLocal(0), NO_JUMP, NO_JUMP, [], [];
      ghost var c, v, q := code, View(), pend;
      d, t, f, ts, fs :- Subexpr(r);
      Followed(want, l, r, c, q, l1, ls, d, t, f, ts, fs, pc);
      if d.VLocal? {
        d := VNonReloc(d.info);
      }
      t, f, ts, fs := Merge(want, d, t, f, l1, ts, fs, ls, |c|, pc, freereg, Choice(want, l, r));
      st := Ok;
    }

    /** What the second operand leaves, seen together with the first. */
    lemma Followed(want: bool, l: Expr, r: Expr, c: seq<Instr>, q: seq<nat>, l1: int, ls: seq<nat>,
                   d: Desc, t: int, f: int, ts: seq<nat>, fs: seq<nat>, pc: nat)
      requires IsList(c, l1, ls) && Uses(r, nactvar) && pc <= |c|
      requires Cond(Patch(c, Elems(q), |c|, NO_REG, |c|), Elems(ls), pc, freereg, want, l)
      requires (forall y :: y in q ==> pc < y) && (forall y :: y in ls ==> pc < y < |c| && y !in q)
      requires Described(d, t, f, ts, fs, |c|) && Means(View(), d, Elems(ts), Elems(fs), |c|, freereg, r)
      requires Grown(c, Patch(c, Elems(q), |c|, NO_REG, |c|), |c|) && Pends(r, code, c, pend, q)
      ensures var d2 := if d.VLocal? then VNonReloc(d.info) else d;
              && Described(d2, t, f, ts, fs, |c|)
              && Means(View(), d2, if want then Elems(ts) else Elems(ts) + Elems(ls),
                       if want then Elems(fs) + Elems(ls) else Elems(fs), pc, freereg, Choice(want, l, r))
      ensures IsList(code, l1, ls) && (forall y :: y in ls ==> y !in pend) && (forall y :: y in pend ==> y > pc)
    {
      hide Means, Cond, LinkAt, Distinct, Behind, Uses, PatchInstr;
      var c1 := Patch(c, Elems(q), |c|, NO_REG, |c|);
      var d2 := if d.VLocal? then VNonReloc(d.info) else d;
      PatchedList(c, ls, q);
      if d.VLocal? {
        NonRelocMeans(View(), d, Elems(ts), Elems(fs), |c1|, freereg, r);
      }
      ChoiceList(c, c1, code, ls);
      BehindNow(c1, View(), d2, ls, ts, fs, pc);
      ChoiceMeans(c1, Elems(ls), View(), d2, Elems(ts), Elems(fs), pc, freereg, nactvar, want, l, r);
    }

    /** luaK_infix on `and` and `or`. */
    method FirstOperand(want: bool, x: Expr) returns (st: Status, l: int, ghost ls: seq<nat>)
      requires Valid() && Closed(code) && Uses(x, nactvar)
      modifies this
      ensures st.Ok? ==> Valid() && Closed(code) && IsList(code, l, ls) && freereg == old(freereg)
      ensures st.Ok? ==> Cond(View(), Elems(ls), |old(code)|, freereg, want, x)
      ensures st.Ok? ==> Grown(old(code), old(View()), |old(code)|)
      ensures st.Ok? ==> forall y :: y in ls ==> |old(code)| < y < |code| && y !in pend
      ensures st.Ok? ==> (forall y :: y in pend ==> |old(code)| < y) && ls != []
      ensures st.Ok? <==> old(freereg) + Need(x) < MAXSTACK
      decreases x, 2
    {
      hide Means, Cond, LinkAt, Distinct;
      l, ls := NO_JUMP, [];
      ghost var pc := |code|;
      var d, t, f, ts, fs :- Subexpr(x);
      l, ls := GoIf(want, d, t, f, ts, fs, pc, x);
      st := Ok;
    }

    /** luaK_storevar on a local variable, which may occur in the expression. */
    method Assign(reg: nat, x: Expr) returns (st: Status)
      requires Valid() && Closed(code) && Uses(x, nactvar) && reg < nactvar
      modifies this
      ensures st.Ok? ==> Valid() && Closed(code) && freereg == old(freereg)
      ensures st.Ok? ==> Loads(View(), |old(code)|, freereg, reg, x) && Grown(old(code), old(View()), |old(code)|)
      ensures st.Ok? <==> old(freereg) + Need(x) < MAXSTACK
    {
      hide Means, Loads;
      ghost var pc := |code|;
      var d, t, f, ts, fs :- Subexpr(x);
      Exp2Reg(d, t, f, reg, ts, fs, pc, freereg, x);
      st := Ok;
    }

    /** The value of a new local variable. */
    method Init(x: Expr) returns (st: Status)
      requires Valid() && Closed(code) && Uses(x, nactvar)
      modifies this
      ensures st.Ok? ==> Valid() && Closed(code) && freereg == old(freereg) + 1
      ensures st.Ok? ==> Loads(View(), |old(code)|, old(freereg), old(freereg), x)
      ensures st.Ok? ==> Grown(old(code), old(View()), |old(code)|)
      ensures st.Ok? <==> old(freereg) + Max(Need(x), 1) < MAXSTACK
    {
      hide Means, Loads;
      ghost var pc := |code|;
      var d, t, f, ts, fs :- Subexpr(x);
      :- Exp2NextReg(d, t, f, ts, fs, pc, x);
      st := Ok;
    }

    /** Assignments one after the other. */
    method Block(ss: seq<Stmt>) returns (st: Status)
      requires Valid() && Closed(code)
      requires forall i :: 0 <= i < |ss| ==> Uses(ss[i].x, nactvar) && ss[i].reg < nactvar
      modifies this
      ensures st.Ok? ==> Valid() && Closed(code) && freereg == old(freereg)
      ensures st.Ok? ==> Performs(View(), |old(code)|, freereg, ss) && Grown(old(code), old(View()), |old(code)|)
      ensures st.Ok? <==> forall i :: 0 <= i < |ss| ==> old(freereg) + Need(ss[i].x) < MAXSTACK
    {
      hide Loads, Performs, Means, Need, IsList;
      ghost var pc, v, fr := |code|, View(), freereg;
      PerformsNone(View(), freereg);
      var i := 0;
      assert ss[..0] == [];
      while i < |ss|
        invariant 0 <= i <= |ss| && Valid() && Closed(code) && freereg == fr
        invariant Performs(View(), pc, fr, ss[..i]) && Grown(old(code), v, pc)
        invariant forall k :: 0 <= k < i ==> fr + Need(ss[k].x) < MAXSTACK
      {
        ghost var c := View();
        :- Assign(ss[i].reg, ss[i].x);
        UsesMore(ss[i].x, nactvar, fr);
        PerformsMore(c, View(), pc, fr, ss[..i], ss[i]);
        assert ss[..i + 1] == ss[..i] + [ss[i]];
        assert View()[..pc] == View()[..|c|][..pc];
        i := i + 1;
      }
      assert ss[..|ss|] == ss;
      st := Ok;
    }

    /** luaK_posfix on `and` and `or`: the jumps of the first operand join the list
        of the second. */
    method Merge(want: bool, d: Desc, t0: int, f0: int, l: int, ghost ts0: seq<nat>, ghost fs0: seq<nat>,
                 ghost ls: seq<nat>, ghost mid: nat, ghost pc: nat, ghost fr: nat, ghost x: Expr)
      returns (t: int, f: int, ghost ts: seq<nat>, ghost fs: seq<nat>)
      requires Described(d, t0, f0, ts0, fs0, mid) && IsList(code, l, ls) && pc <= mid
      requires forall y :: y in ls ==> pc < y < mid && y !in pend
      requires Means(View(), d, if want then Elems(ts0) else Elems(ts0) + Elems(ls),
                     if want then Elems(fs0) + Elems(ls) else Elems(fs0), pc, fr, x)
      modifies this`code
      ensures Described(d, t, f, ts, fs, pc) && Means(View(), d, Elems(ts), Elems(fs), pc, fr, x)
      ensures Grown(old(code), old(View()), mid) && |code| == |old(code)|
      ensures forall i :: 0 <= i < mid ==> code[i] == old(code)[i]
      ensures ls != [] ==> ts != [] || fs != []
    {
      hide Means, LinkAt, Distinct, Patch, Describes, SameBut, Elems, Grew;
      t, f, ts, fs := t0, f0, ts0, fs0;
      JoinApart(code, pend, nactvar, d, t, f, ts, fs, ls, mid);
      if want {
        f := Concat(f, l, fs0, ls);
        fs := fs0 + ls;
      } else {
        t := Concat(t, l, ts0, ls);
        ts := ts0 + ls;
      }
      Merged(want, old(code), code, pend, nactvar, d, t0, f0, t, f, ts0, fs0, ls, mid, pc, fr, x);
    }
  }

  lemma PerformsNone(c: seq<Instr>, fr: nat)
    ensures Performs(c, |c|, fr, [])
  {
  }

  lemma {:induction false} UsesMore(x: Expr, n: nat, m: nat)
    requires Uses(x, n) && n <= m
    ensures Uses(x, m)
  {
    match x
    case Local(_) =>
    case Rel(_, l, r) => UsesMore(l, n, m); UsesMore(r, n, m);
    case Negate(y) => UsesMore(y, n, m);
    case And(l, r) => UsesMore(l, n, m); UsesMore(r, n, m);
    case Or(l, r) => UsesMore(l, n, m); UsesMore(r, n, m);
  }

  /** No test stands at the end, without its jump. */
  predicate Closed(c: seq<Instr>) {
    c == [] || !IsTest(c[|c| - 1])
  }

  lemma TestedLists(c: seq<Instr>, v: seq<Instr>, d: Desc, test: Instr, ts: seq<nat>, fs: seq<nat>, pc: nat)
    requires IsList(c, Head(ts), ts) && IsList(c, Head(fs), fs) && Held(d) <= |v| && |v| == |c|
    requires forall x :: x in ts || x in fs ==> pc < x < End(v, d) && v[x] == c[x]
    ensures IsList(Tested(v, d, test), Head(ts), ts) && IsList(Tested(v, d, test), Head(fs), fs)
  {
    SameLists(c, Tested(v, d, test), ts, fs);
  }

  lemma SameLists(c: seq<Instr>, d: seq<Instr>, ts: seq<nat>, fs: seq<nat>)
    requires IsList(c, Head(ts), ts) && IsList(c, Head(fs), fs)
    requires forall x :: x in ts || x in fs ==> x < |c| && x < |d| && d[x] == c[x]
    ensures IsList(d, Head(ts), ts) && IsList(d, Head(fs), fs)
  {
    assert forall i :: 0 <= i < |ts| ==> ts[i] in ts;
    assert forall i :: 0 <= i < |fs| ==> fs[i] in fs;
    ListFrame(c, d, ts);
    ListFrame(c, d, fs);
  }

  lemma UnvaluedList(c: seq<Instr>, s: seq<nat>, p: set<nat>)
    requires IsList(c, Head(s), s)
    ensures IsList(Unvalued(c, p), Head(s), s)
  {
    forall i | 0 <= i < |s| ensures s[i] < |c| && Unvalued(c, p)[s[i]] == c[s[i]] {
      assert LinkAt(c, s, i);
    }
    ListFrame(c, Unvalued(c, p), s);
  }

  lemma NoElems()
    ensures Elems([]) == {}
  {
  }

  lemma UnvaluedBoth(c: seq<Instr>, p: set<nat>, q: set<nat>)
    ensures Unvalued(Unvalued(c, q), p) == Unvalued(c, p + q)
  {
  }

  lemma UnvaluedTail(v: seq<Instr>, c: seq<Instr>, pc: nat, end: nat, p: set<nat>)
    requires pc <= end <= |v| && end <= |c| && (forall x :: x in p ==> pc < x < end)
    requires forall i :: 0 <= i < end ==> c[i] == v[i]
    ensures Unvalued(c, p)[..pc] == v[..pc] && forall i :: 0 <= i < pc ==> Unvalued(c, p)[i] == v[i]
    ensures Unvalued(c, p)[end..] == c[end..]
    ensures forall i :: 0 <= i < end ==> Unvalued(c, p)[i] == Unvalued(v, p)[i]
  {
  }

  lemma NegatesOnce(v: seq<Instr>, d: Desc, c: seq<Instr>, fr: nat)
    requires Fits(v, d) && Held(d) == 0 && c == v + [Not(0, d.info)]
    ensures Negates(v, d, c, VReloc(|v|), fr)
  {
    forall e: Env ensures Run(c, {}, |v|, e, |v|) == At(e) {
    }
  }

  lemma NegatesJump(v: seq<Instr>, d: Desc, c: seq<Instr>, fr: nat)
    requires d.VJmp? && Fits(v, d)
    requires var i := v[d.info - 1]; c == v[d.info - 1 := Compare(i.op, !i.want, i.b, i.c)]
    ensures Negates(v, d, c, d, fr)
  {
    forall e: Env ensures Run(c, {}, End(v, d), e, End(v, d)) == At(e) {
    }
  }

  lemma NegatesTwice(v: seq<Instr>, c: seq<Instr>, fr: nat)
    requires v != [] && v[|v| - 1].Not? && c == v[..|v| - 1] + [Not(fr, v[|v| - 1].b), Not(0, fr)]
    ensures Negates(v, VReloc(|v| - 1), c, VReloc(|v|), fr)
  {
    var d, r, none: set<nat> := VReloc(|v| - 1), VReloc(|v|), {};
    forall e: Env, w: Val | Holds(v, d, e, w)
      ensures var out := Run(c, none, |v| - 1, e, |v|);
              out.At? && Keeps(e, out.e, fr) && Holds(c, r, out.e, Bool(!Truthy(w)))
    {
      var g := Set(e, fr, w);
      assert c[|v| - 1] == Not(fr, v[|v| - 1].b);
      assert Run(c, none, |v|, g, |v|) == At(g);
    }
  }

  lemma NegatesSame(v: seq<Instr>, d: Desc, c: seq<Instr>, c2: seq<Instr>, r: Desc, fr: nat)
    requires Negates(v, d, c, r, fr) && |c2| == |c| && c2[End(v, d)..] == c[End(v, d)..] && Fits(c2, r) && Held(r) > 0
    requires r.VJmp? ==> End(v, d) < r.info
    requires r.VReloc? ==> End(v, d) <= r.info
    ensures Negates(v, d, c2, r, fr)
  {
    var none: set<nat> := {};
    forall i | End(v, d) <= i < |c| ensures c2[i] == c[i] {
      assert c2[End(v, d)..][i - End(v, d)] == c[End(v, d)..][i - End(v, d)];
    }
    forall e: Env, w: Val | Holds(v, d, e, w)
      ensures var out := Run(c2, none, End(v, d), e, End(c2, r));
              out.At? && Keeps(e, out.e, fr) && Holds(c2, r, out.e, Bool(!Truthy(w)))
    {
      RunMore(c, none, End(c, r), c2, none, End(c, r), End(v, d), e);
    }
  }

  /** The negated expression once its lists carry no values. */
  lemma NegatedCode(v: seq<Instr>, d: Desc, c: seq<Instr>, r: Desc, pc: nat, fr: nat, x: Expr, ts: seq<nat>,
                    fs: seq<nat>)
    requires Means(v, d, Elems(ts), Elems(fs), pc, fr, x) && Negates(v, d, c, r, fr) && pc <= End(v, d)
    requires Inside(v, d, Elems(ts) + Elems(fs), pc) && Held(r) > 0 && Closed(c)
    requires forall i :: 0 <= i < End(v, d) ==> c[i] == v[i]
    requires IsList(c, Head(ts), ts) && IsList(c, Head(fs), fs)
    ensures var u := Unvalued(c, Elems(ts) + Elems(fs));
            && Means(u, r, Elems(fs), Elems(ts), pc, fr, Negate(x)) && Fits(u, r) && Closed(u)
            && IsList(u, Head(ts), ts) && IsList(u, Head(fs), fs) && u[r.info] == c[r.info]
            && End(v, d) <= End(u, r) && u[..pc] == v[..pc] && forall i :: 0 <= i < pc ==> u[i] == v[i]
  {
    var p := Elems(ts) + Elems(fs);
    var u := Unvalued(c, p);
    UnvaluedList(c, ts, p);
    UnvaluedList(c, fs, p);
    UnvaluedTail(v, c, pc, End(v, d), p);
    assert forall i :: End(v, d) <= i < |c| ==> u[i] == c[i];
    NegatesSame(v, d, c, u, r, fr);
    NegatedMeans(v, d, Elems(ts), Elems(fs), pc, fr, x, u, r);
  }

  /** Patching jumps behind `pc` does not touch what is before it. */
  lemma PrefixKept(c0: seq<Instr>, v: seq<Instr>, d: Desc, test: Instr, c: seq<Instr>, go: set<nat>, stay: set<nat>,
                   pc: nat)
    requires Held(d) <= |v| == |c0| && pc <= End(v, d) && SameBut(Tested(v, d, test), c, stay)
    requires forall x :: x in go || x in stay ==> pc < x
    ensures Grew(c0, v, c, Patch(c, go, |c|, NO_REG, |c|), pc) && Closed(c)
  {
    forall i | 0 <= i < pc ensures c[i] == v[i] && Patch(c, go, |c|, NO_REG, |c|)[i] == v[i] {
      assert Tested(v, d, test)[i] == v[i];
    }
  }

  lemma PatchSame(c: seq<Instr>, d: seq<Instr>, p: set<nat>, s: set<nat>)
    requires SameBut(c, d, s)
    ensures SameBut(Patch(c, p, |c|, NO_REG, |c|), Patch(d, p, |c|, NO_REG, |c|), s)
  {
  }

  lemma LoadedJump(c: seq<Instr>, d: Desc, c2: seq<Instr>, ts: seq<nat>, fs: seq<nat>, reg: nat)
    requires d.VJmp? && Fits(c, d) && Inside(c, d, Elems(ts) + Elems(fs), 0) && SameBut(c, c2, Elems(ts))
    requires IsList(c, Head(ts), ts) && IsList(c, Head(fs), fs) && forall x :: x in ts ==> x !in fs
    ensures Loaded(c, d, c2, ts, ts + [d.info], fs, [], reg) && IsList(c2, Head(fs), fs)
  {
    forall x | x in ts || x in fs ensures x < End(c, d) && c[x].Jmp? {
      assert x in Elems(ts) + Elems(fs);
    }
    forall i | 0 <= i < End(c, d) ensures BuiltAt(c, End(c, d), c2, Elems(ts) + Elems(fs), Elems([]), i) {
    }
    assert forall i :: 0 <= i < |fs| ==> fs[i] in fs;
    ListFrame(c, c2, fs);
  }

  lemma LoadedHeld(c: seq<Instr>, v: seq<Instr>, d: Desc, ts: seq<nat>, fs: seq<nat>, p: seq<nat>, reg: nat)
    requires !d.VJmp? && Fits(v, d) && Loader(v, d, reg) == [] && Closed(c)
    requires v == Patch(c, Elems(p), |c|, NO_REG, |c|) && IsList(c, Head(p), p)
    requires Inside(v, d, Elems(ts) + Elems(fs), 0)
             && (forall x :: x in ts || x in fs ==> x < |c| && x < |v| && c[x] == v[x] && x !in p)
    requires forall x :: x in ts ==> x !in fs
    ensures Loaded(v, d, c, ts, ts, fs, p, reg)
  {
    forall x | x in ts || x in fs ensures x < End(v, d) && v[x].Jmp? {
      assert x in Elems(ts) + Elems(fs);
    }
    forall x | x in p ensures x < |c| && c[x].Jmp? {
      ListInside(c, p, x);
    }
    forall i | 0 <= i < End(v, d) ensures BuiltAt(v, End(v, d), c, Elems(ts) + Elems(fs), Elems(p), i) {
    }
  }

  lemma LoadedMoved(c: seq<Instr>, v: seq<Instr>, d: Desc, c2: seq<Instr>, ts: seq<nat>, fs: seq<nat>, reg: nat)
    requires !d.VJmp? && Fits(v, d) && Loader(v, d, reg) != [] && c2 == v[..End(v, d)] + Loader(v, d, reg)
    requires IsList(c, Head(ts), ts) && IsList(c, Head(fs), fs) && |c| == |v|
    requires Inside(v, d, Elems(ts) + Elems(fs), 0) && (forall x :: x in ts || x in fs ==> x < |c| && c[x] == v[x])
    requires forall x :: x in ts ==> x !in fs
    ensures Loaded(v, d, c2, ts, ts, fs, [], reg) && IsList(c2, Head(ts), ts) && IsList(c2, Head(fs), fs)
  {
    forall x | x in ts || x in fs ensures x < End(v, d) && v[x].Jmp? && c2[x] == v[x] {
      assert x in Elems(ts) + Elems(fs);
    }
    forall i | 0 <= i < End(v, d) ensures BuiltAt(v, End(v, d), c2, Elems(ts) + Elems(fs), Elems([]), i) {
    }
    SameLists(c, c2, ts, fs);
  }

  lemma LocalMeans(c: seq<Instr>, fr: nat, r: nat)
    ensures Means(c, VLocal(r), {}, {}, |c|, fr, Local(r))
  {
    var none: set<nat> := {};
    forall e: Env ensures Run(c, none + none, |c|, e, |c|) == At(e) {
    }
  }

  lemma ComparisonDone(c: seq<Instr>, v: seq<Instr>, v2: seq<Instr>, c2: seq<Instr>, rel: Rel, o1: nat, o2: nat)
    requires |c| == |v| <= |v2| && v2[..|v|] == v && c2 == v2 + [Instruction(rel, o1, o2), Jmp(NO_JUMP)]
    ensures Patch(c2, {}, |c2|, NO_REG, |c2|) == c2 && Elems([]) == {} && Closed(c2) && Grew(c, v, c2, c2, |v|)
    ensures Fits(c2, VJmp(|c2| - 1)) && IsList(c2, NO_JUMP, [])
  {
    PatchNone(c2, |c2|, NO_REG, |c2|);
    ListEmpty(c2);
    assert c2[..|v|] == v2[..|v|];
    assert forall i :: 0 <= i < |v| ==> c2[i] == c2[..|v|][i];
  }

  lemma NonRelocMeans(c: seq<Instr>, d: Desc, t: set<nat>, f: set<nat>, pc: nat, fr: nat, x: Expr)
    requires Means(c, d, t, f, pc, fr, x) && d.VLocal?
    ensures Means(c, VNonReloc(d.info), t, f, pc, fr, x)
  {
    forall e: Env ensures Leaves(c, VNonReloc(d.info), t, f, fr, e, Eval(x, e), Run(c, t + f, pc, e, |c|)) {
      assert Leaves(c, d, t, f, fr, e, Eval(x, e), Run(c, t + f, pc, e, End(c, d)));
    }
  }

  lemma BehindNow(c1: seq<Instr>, c2: seq<Instr>, d: Desc, ls: seq<nat>, ts: seq<nat>, fs: seq<nat>, pc: nat)
    requires Held(d) <= |c2| && |c1| <= End(c2, d) && c2[..|c1|] == c1
    requires (forall j :: j in ls ==> pc < j < |c1|) && (forall j :: j in ts || j in fs ==> |c1| < j)
    ensures Behind(c1, Elems(ls), c2, d, Elems(ts), Elems(fs), pc)
  {
  }

  lemma PatchedList(c: seq<Instr>, s: seq<nat>, p: seq<nat>)
    requires IsList(c, Head(s), s) && forall y :: y in s ==> y !in p
    ensures forall y :: y in s ==> y < |c| && Patch(c, Elems(p), |c|, NO_REG, |c|)[y] == c[y]
  {
    forall y | y in s ensures y < |c| && Patch(c, Elems(p), |c|, NO_REG, |c|)[y] == c[y] {
      ListInside(c, s, y);
    }
  }

  /** The list of the first operand outlives the code of the second. */
  lemma ChoiceList(code1: seq<Instr>, c1: seq<Instr>, code: seq<Instr>, ls: seq<nat>)
    requires IsList(code1, Head(ls), ls) && |c1| == |code1| <= |code|
    requires forall i :: 0 <= i < |c1| ==> code[i] == code1[i] || code[i] == c1[i]
    requires forall y :: y in ls ==> y < |c1| && c1[y] == code1[y]
    ensures IsList(code, Head(ls), ls)
  {
    assert forall i :: 0 <= i < |ls| ==> ls[i] in ls;
    ListFrame(code1, code, ls);
  }

  /** Lists that were not joined are as before. */
  lemma MergedLists(c: seq<Instr>, c2: seq<Instr>, ts: seq<nat>, fs: seq<nat>, p: seq<nat>, want: bool)
    requires IsList(c, Head(ts), ts) && IsList(c, Head(fs), fs) && IsList(c, Head(p), p)
    requires SameBut(c, c2, if want then Elems(fs) else Elems(ts))
    requires (forall x :: x in ts ==> x !in fs && x !in p) && (forall x :: x in fs ==> x !in p)
    ensures IsList(c2, Head(p), p) && (want ==> IsList(c2, Head(ts), ts)) && (!want ==> IsList(c2, Head(fs), fs))
  {
    forall i | 0 <= i < |p| ensures p[i] < |c| && c2[p[i]] == c[p[i]] {
      assert p[i] in p;
      ListInside(c, p, p[i]);
    }
    ListFrame(c, c2, p);
    var s := if want then ts else fs;
    forall i | 0 <= i < |s| ensures s[i] < |c| && c2[s[i]] == c[s[i]] {
      assert s[i] in s;
      ListInside(c, s, s[i]);
    }
    ListFrame(c, c2, s);
  }

  lemma JoinApart(c: seq<Instr>, q: seq<nat>, n: nat, d: Desc, t: int, f: int, ts: seq<nat>, fs: seq<nat>,
                  ls: seq<nat>, mid: nat)
    requires Describes(c, q, n, d, t, f, ts, fs, mid) && forall y :: y in ls ==> y < mid
    ensures IsList(c, t, ts) && IsList(c, f, fs) && (forall y :: y in ts || y in fs ==> y !in ls)
  {
  }

  /** The list `ls` of earlier jumps was joined to the one that `want` says. */
  lemma Merged(want: bool, c: seq<Instr>, c2: seq<Instr>, q: seq<nat>, n: nat, d: Desc, t0: int, f0: int, t: int,
               f: int, ts0: seq<nat>, fs0: seq<nat>, ls: seq<nat>, mid: nat, pc: nat, fr: nat, x: Expr)
    requires Describes(c, q, n, d, t0, f0, ts0, fs0, mid) && IsList(c, Head(q), q) && pc <= mid
    requires forall y :: y in ls ==> pc < y < mid && y !in q
    requires Means(Patch(c, Elems(q), |c|, NO_REG, |c|), d, if want then Elems(ts0) else Elems(ts0) + Elems(ls),
                   if want then Elems(fs0) + Elems(ls) else Elems(fs0), pc, fr, x)
    requires SameBut(c, c2, Elems(if want then fs0 else ts0))
    requires if want then t == t0 && IsList(c2, f, fs0 + ls) else f == f0 && IsList(c2, t, ts0 + ls)
    ensures var ts, fs := if want then ts0 else ts0 + ls, if want then fs0 + ls else fs0;
            && Describes(c2, q, n, d, t, f, ts, fs, pc) && IsList(c2, Head(q), q)
            && Means(Patch(c2, Elems(q), |c2|, NO_REG, |c2|), d, Elems(ts), Elems(fs), pc, fr, x)
    ensures Grew(c, Patch(c, Elems(q), |c|, NO_REG, |c|), c2, Patch(c2, Elems(q), |c2|, NO_REG, |c2|), mid)
    ensures |c2| == |c| && forall i :: 0 <= i < mid ==> c2[i] == c[i]
  {
    hide Means, LinkAt, Distinct, Patch;
    var ts, fs := if want then ts0 else ts0 + ls, if want then fs0 + ls else fs0;
    assert Elems(fs0 + ls) == Elems(fs0) + Elems(ls) && Elems(ts0 + ls) == Elems(ts0) + Elems(ls);
    MergedLists(c, c2, ts0, fs0, q, want);
    assert SameBut(c, c2, Elems(ts) + Elems(fs));
    MergedMeans(c, c2, q, d, Elems(ts), Elems(fs), mid, pc, fr, x);
    MergedDescribes(want, c, c2, q, n, d, t0, f0, t, f, ts0, fs0, ls, mid, pc);
  }

  lemma MergedDescribes(want: bool, c: seq<Instr>, c2: seq<Instr>, q: seq<nat>, n: nat, d: Desc, t0: int, f0: int,
                        t: int, f: int, ts0: seq<nat>, fs0: seq<nat>, ls: seq<nat>, mid: nat, pc: nat)
    requires Describes(c, q, n, d, t0, f0, ts0, fs0, mid) && pc <= mid && Fits(c2, d)
    requires forall y :: y in ls ==> pc < y < mid && y !in q
    requires SameBut(c, c2, Elems(if want then fs0 else ts0))
    requires if want then t == t0 && IsList(c2, t, ts0) && IsList(c2, f, fs0 + ls)
             else f == f0 && IsList(c2, f, fs0) && IsList(c2, t, ts0 + ls)
    ensures Describes(c2, q, n, d, t, f, if want then ts0 else ts0 + ls, if want then fs0 + ls else fs0, pc)
  {
    hide IsList;
  }

  /** Nor is the meaning changed by how open jumps are linked. */
  lemma MergedMeans(c: seq<Instr>, c2: seq<Instr>, p: seq<nat>, d: Desc, t: set<nat>, f: set<nat>, mid: nat,
                    pc: nat, fr: nat, x: Expr)
    requires Means(Patch(c, Elems(p), |c|, NO_REG, |c|), d, t, f, pc, fr, x) && SameBut(c, c2, t + f)
    requires Fits(c, d) && (forall y :: y in t || y in f ==> y < End(c, d))
    requires (Held(d) > 0 ==> p == []) && mid <= |c| && forall i :: 0 <= i < mid ==> c2[i] == c[i]
    ensures Means(Patch(c2, Elems(p), |c|, NO_REG, |c|), d, t, f, pc, fr, x) && Fits(c2, d)
    ensures Patch(c2, Elems(p), |c|, NO_REG, |c|)[..mid] == Patch(c, Elems(p), |c|, NO_REG, |c|)[..mid]
  {
    PatchSame(c, c2, Elems(p), t + f);
    PatchNone(c2, |c|, NO_REG, |c|);
    assert forall i :: End(c, d) <= i < |c| ==> c2[i] == c[i];
    MeansSame(Patch(c, Elems(p), |c|, NO_REG, |c|), Patch(c2, Elems(p), |c|, NO_REG, |c|), d, t, f, pc, fr, x);
  }

  lemma MeansInReg(c: seq<Instr>, d: Desc, pc: nat, fr: nat, x: Expr)
    requires Means(c, d, {}, {}, pc, fr, x) && Held(d) == 0
    ensures InReg(c, pc, fr, d.info, x)
  {
    var none: set<nat> := {};
    assert none + none == none;
    forall e: Env
      ensures var out := Run(c, none, pc, e, |c|);
              out.At? && Keeps(e, out.e, fr) && Get(out.e, d.info) == Eval(x, e)
    {
      assert Leaves(c, d, none, none, fr, e, Eval(x, e), Run(c, none + none, pc, e, End(c, d)));
    }
  }

  lemma HeadsDiffer(s: seq<nat>, t: seq<nat>)
    requires s != [] && forall x :: x in s ==> x !in t
    ensures Head(s) != Head(t)
  {
    assert s[0] in s;
    assert t != [] ==> t[0] in t;
  }

  lemma UnvaluedStep(c: seq<Instr>, s: seq<nat>, k: nat)
    requires IsList(c, Head(s), s) && k < |s|
    ensures var d, j := Unvalued(c, Elems(s[..k])), s[k];
            && j < |c| && d[j] == c[j] && d[j].Jmp?
            && Unvalued(c, Elems(s[..k + 1]))
               == if IsValue(d, j) then d[j - 1 := Retarget(d[j - 1], NO_REG)] else d
  {
    var j := s[k];
    assert LinkAt(c, s, k);
    assert Elems(s[..k + 1]) == Elems(s[..k]) + {j};
    assert j !in Elems(s[..k]);
  }
}
