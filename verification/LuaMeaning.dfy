/** What compiled expressions mean. */
module LuaMeaning {
  import opened LuaMachine
  import opened LuaPatch

  // ----- the source language -----

  datatype Rel = Eq | Ne | Lt | Le | Gt | Ge

  datatype Expr =
    | Local(r: nat)
    | Rel(rel: Rel, l: Expr, r2: Expr)
    | Negate(e: Expr)
    | And(l: Expr, r2: Expr)
    | Or(l: Expr, r2: Expr)

  function Compared(e: Env, rel: Rel, v: Val, w: Val): bool {
    match rel
    case Eq => e.cmp(EQ, v, w)
    case Ne => !e.cmp(EQ, v, w)
    case Lt => e.cmp(LT, v, w)
    case Le => e.cmp(LE, v, w)
    case Gt => e.cmp(LT, w, v)
    case Ge => e.cmp(LE, w, v)
  }

  /** Section 2.5.3 of the Lua 5.1 Reference Manual. */
  function Eval(x: Expr, e: Env): Val {
    match x
    case Local(r) => Get(e, r)
    case Rel(rel, l, r) => Bool(Compared(e, rel, Eval(l, e), Eval(r, e)))
    case Negate(y) => Bool(!Truthy(Eval(y, e)))
    case And(l, r) => if Truthy(Eval(l, e)) then Eval(r, e) else Eval(l, e)
    case Or(l, r) => if Truthy(Eval(l, e)) then Eval(l, e) else Eval(r, e)
  }

  predicate Uses(x: Expr, n: nat) {
    match x
    case Local(r) => r < n
    case Rel(rel, l, r) => Uses(l, n) && Uses(r, n)
    case Negate(y) => Uses(y, n)
    case And(l, r) => Uses(l, n) && Uses(r, n)
    case Or(l, r) => Uses(l, n) && Uses(r, n)
  }

  /** The registers below `n` are the same. */
  ghost predicate Keeps(e: Env, f: Env, n: nat) {
    f.cmp == e.cmp && forall i :: 0 <= i < n ==> Get(f, i) == Get(e, i)
  }

  lemma {:induction false} EvalKeeps(x: Expr, e: Env, f: Env, n: nat)
    requires Uses(x, n) && Keeps(e, f, n)
    ensures Eval(x, f) == Eval(x, e)
  {
    match x
    case Local(r) =>
    case Rel(rel, l, r) => EvalKeeps(l, e, f, n); EvalKeeps(r, e, f, n);
    case Negate(y) => EvalKeeps(y, e, f, n);
    case And(l, r) => EvalKeeps(l, e, f, n); EvalKeeps(r, e, f, n);
    case Or(l, r) => EvalKeeps(l, e, f, n); EvalKeeps(r, e, f, n);
  }

  // ----- where the value of an expression is -----

  datatype Desc = VLocal(info: nat) | VNonReloc(info: nat) | VReloc(info: nat) | VJmp(info: nat)

  /** How much of the code a descriptor holds back: an instruction that still wants
      its register, or a comparison with its jump. */
  function Held(d: Desc): nat {
    if d.VReloc? then 1 else if d.VJmp? then 2 else 0
  }

  ghost predicate Fits(c: seq<Instr>, d: Desc) {
    && Held(d) <= |c|
    && (d.VReloc? ==> d.info == |c| - 1 && c[d.info].Not?)
    && (d.VJmp? ==> d.info == |c| - 1 && c[d.info].Jmp? && c[d.info - 1].Compare?)
  }

  function End(c: seq<Instr>, d: Desc): nat
    requires Held(d) <= |c|
  {
    |c| - Held(d)
  }

  ghost predicate Holds(c: seq<Instr>, d: Desc, e: Env, v: Val)
    requires Fits(c, d)
  {
    match d
    case VLocal(r) => Get(e, r) == v
    case VNonReloc(r) => Get(e, r) == v
    case VReloc(i) => v == Bool(!Truthy(Get(e, c[i].b)))
    case VJmp(i) => v == Bool(Taken(c[i - 1], e))
  }

  /** The value at a jump out of the expression: in the tested register, or the
      boolean that the jump stands for. */
  ghost predicate Carries(c: seq<Instr>, j: nat, e: Env, v: Val) {
    if IsValue(c, j) then Get(e, c[j - 1].b) == v else v.Bool?
  }

  ghost predicate Leaves(c: seq<Instr>, d: Desc, t: set<nat>, f: set<nat>, fr: nat, e: Env, v: Val, out: Out)
    requires Fits(c, d)
  {
    match out
    case At(g) => Keeps(e, g, fr) && Holds(c, d, g, v)
    case Exit(j, g) =>
      Keeps(e, g, fr) && (j in t || j in f) && (j in t ==> Truthy(v)) && (j in f ==> !Truthy(v)) && Carries(c, j, g, v)
    case Stuck => false
  }

  /** The code from `pc` computes `x`: it ends with the value where `d` says, or
      jumps out of the true list or the false list when that decides it. */
  ghost predicate Means(c: seq<Instr>, d: Desc, t: set<nat>, f: set<nat>, pc: nat, fr: nat, x: Expr) {
    Fits(c, d) && forall e: Env :: Leaves(c, d, t, f, fr, e, Eval(x, e), Run(c, t + f, pc, e, End(c, d)))
  }

  ghost predicate Decides(c: seq<Instr>, l: set<nat>, fr: nat, want: bool, e: Env, v: Val, out: Out) {
    match out
    case At(g) => Keeps(e, g, fr) && Truthy(v) == want
    case Exit(j, g) => Keeps(e, g, fr) && j in l && Truthy(v) == !want && Carries(c, j, g, v)
    case Stuck => false
  }

  /** The code from `pc` goes on to its end when `x` is `want`, and jumps otherwise. */
  ghost predicate Cond(c: seq<Instr>, l: set<nat>, pc: nat, fr: nat, want: bool, x: Expr) {
    forall e: Env :: Decides(c, l, fr, want, e, Eval(x, e), Run(c, l, pc, e, |c|))
  }

  ghost predicate Delivers(fr: nat, reg: nat, e: Env, v: Val, out: Out) {
    && out.At? && out.e.cmp == e.cmp && Get(out.e, reg) == v
    && forall i :: 0 <= i < fr && i != reg ==> Get(out.e, i) == Get(e, i)
  }

  /** The code from `pc` puts the value of `x` into `reg` and ends. */
  ghost predicate Loads(c: seq<Instr>, pc: nat, fr: nat, reg: nat, x: Expr) {
    forall e: Env :: Delivers(fr, reg, e, Eval(x, e), Run(c, {}, pc, e, |c|))
  }

  // ----- links between open jumps do not matter -----

  ghost predicate SameBut(c: seq<Instr>, d: seq<Instr>, s: set<nat>) {
    |d| == |c| && forall i :: 0 <= i < |c| ==> d[i] == c[i] || (i in s && c[i].Jmp? && d[i].Jmp?)
  }

  lemma MeansSame(c: seq<Instr>, c2: seq<Instr>, d: Desc, t: set<nat>, f: set<nat>, pc: nat, fr: nat, x: Expr)
    requires Means(c, d, t, f, pc, fr, x) && SameBut(c, c2, t + f) && Fits(c2, d)
    requires d.VJmp? ==> c2[d.info - 1] == c[d.info - 1]
    ensures Means(c2, d, t, f, pc, fr, x)
  {
    forall e: Env ensures Leaves(c2, d, t, f, fr, e, Eval(x, e), Run(c2, t + f, pc, e, End(c2, d))) {
      assert Leaves(c, d, t, f, fr, e, Eval(x, e), Run(c, t + f, pc, e, End(c, d)));
      RunMore(c, t + f, End(c, d), c2, t + f, End(c, d), pc, e);
    }
  }

  lemma CondSame(c: seq<Instr>, c2: seq<Instr>, l: set<nat>, pc: nat, fr: nat, want: bool, x: Expr)
    requires Cond(c, l, pc, fr, want, x) && SameBut(c, c2, l)
    ensures Cond(c2, l, pc, fr, want, x)
  {
    forall e: Env ensures Decides(c2, l, fr, want, e, Eval(x, e), Run(c2, l, pc, e, |c2|)) {
      assert Decides(c, l, fr, want, e, Eval(x, e), Run(c, l, pc, e, |c|));
      RunMore(c, l, |c|, c2, l, |c|, pc, e);
    }
  }

  // ----- `and`, `or` -----

  function Choice(want: bool, l: Expr, r: Expr): Expr {
    if want then And(l, r) else Or(l, r)
  }

  ghost predicate Behind(c1: seq<Instr>, l1: set<nat>, c2: seq<Instr>, d: Desc, t: set<nat>, f: set<nat>, pc: nat) {
    && Held(d) <= |c2| && |c1| <= End(c2, d) && c2[..|c1|] == c1
    && (forall j :: j in l1 ==> pc < j < |c1|)
    && (forall j :: j in t || j in f ==> |c1| < j)
  }

  lemma FirstAgain(c1: seq<Instr>, l1: set<nat>, c2: seq<Instr>, d: Desc, t: set<nat>, f: set<nat>, pc: nat, e: Env)
    requires Behind(c1, l1, c2, d, t, f, pc) && !Run(c1, l1, pc, e, |c1|).Stuck?
    ensures Run(c2, t + f + l1, pc, e, End(c2, d)) == Follow(c2, t + f + l1, Run(c1, l1, pc, e, |c1|), |c1|, End(c2, d))
  {
    forall i | pc <= i < |c1| ensures Alike(c1, l1, |c1|, c2, t + f + l1, End(c2, d), i) {
      assert c2[i] == c2[..|c1|][i];
    }
    RunMore(c1, l1, |c1|, c2, t + f + l1, End(c2, d), pc, e);
  }

  lemma SecondAgain(c1: seq<Instr>, l1: set<nat>, c2: seq<Instr>, d: Desc, t: set<nat>, f: set<nat>, pc: nat, e: Env)
    requires Behind(c1, l1, c2, d, t, f, pc) && !Run(c2, t + f, |c1|, e, End(c2, d)).Stuck?
    requires Run(c2, t + f, |c1|, e, End(c2, d)).Exit? ==> Run(c2, t + f, |c1|, e, End(c2, d)).j in t + f
    ensures Run(c2, t + f + l1, |c1|, e, End(c2, d)) == Run(c2, t + f, |c1|, e, End(c2, d))
  {
    RunMore(c2, t + f, End(c2, d), c2, t + f + l1, End(c2, d), |c1|, e);
  }

  lemma ChoiceSkips(c1: seq<Instr>, l1: set<nat>, c2: seq<Instr>, d: Desc, t: set<nat>, f: set<nat>,
                    pc: nat, fr: nat, want: bool, x: Expr, y: Expr, e: Env)
    requires Decides(c1, l1, fr, want, e, Eval(x, e), Run(c1, l1, pc, e, |c1|)) && Run(c1, l1, pc, e, |c1|).Exit?
    requires Fits(c2, d) && Behind(c1, l1, c2, d, t, f, pc)
    ensures var t2, f2 := if want then t else t + l1, if want then f + l1 else f;
            Leaves(c2, d, t2, f2, fr, e, Eval(Choice(want, x, y), e), Run(c2, t + f + l1, pc, e, End(c2, d)))
  {
    FirstAgain(c1, l1, c2, d, t, f, pc, e);
    var j := Run(c1, l1, pc, e, |c1|).j;
    assert c1[j - 1] == c2[..|c1|][j - 1];
  }

  lemma ChoiceLeaves(c1: seq<Instr>, l1: set<nat>, c2: seq<Instr>, d: Desc, t: set<nat>, f: set<nat>,
                     pc: nat, fr: nat, n: nat, want: bool, x: Expr, y: Expr, e: Env)
    requires Cond(c1, l1, pc, fr, want, x) && n <= fr && Uses(y, n)
    requires Means(c2, d, t, f, |c1|, fr, y) && Behind(c1, l1, c2, d, t, f, pc)
    ensures var t2, f2 := if want then t else t + l1, if want then f + l1 else f;
            Leaves(c2, d, t2, f2, fr, e, Eval(Choice(want, x, y), e), Run(c2, t + f + l1, pc, e, End(c2, d)))
  {
    hide Run, Uses, Holds, Truthy, Carries;
    var out := Run(c1, l1, pc, e, |c1|);
    assert Decides(c1, l1, fr, want, e, Eval(x, e), out);
    if out.Exit? {
      ChoiceSkips(c1, l1, c2, d, t, f, pc, fr, want, x, y, e);
    } else {
      FirstAgain(c1, l1, c2, d, t, f, pc, e);
      EvalKeeps(y, e, out.e, n);
      var rest := Run(c2, t + f, |c1|, out.e, End(c2, d));
      assert Leaves(c2, d, t, f, fr, out.e, Eval(y, e), rest);
      SecondAgain(c1, l1, c2, d, t, f, pc, out.e);
    }
  }

  /** The code of the second operand behind the test of the first. */
  lemma ChoiceMeans(c1: seq<Instr>, l1: set<nat>, c2: seq<Instr>, d: Desc, t: set<nat>, f: set<nat>,
                    pc: nat, fr: nat, n: nat, want: bool, x: Expr, y: Expr)
    requires Cond(c1, l1, pc, fr, want, x) && n <= fr && Uses(y, n)
    requires Means(c2, d, t, f, |c1|, fr, y) && Behind(c1, l1, c2, d, t, f, pc)
    ensures Means(c2, d, if want then t else t + l1, if want then f + l1 else f, pc, fr, Choice(want, x, y))
  {
    var t2, f2 := if want then t else t + l1, if want then f + l1 else f;
    assert t2 + f2 == t + f + l1;
    forall e: Env
      ensures Leaves(c2, d, t2, f2, fr, e, Eval(Choice(want, x, y), e), Run(c2, t2 + f2, pc, e, End(c2, d)))
    {
      ChoiceLeaves(c1, l1, c2, d, t, f, pc, fr, n, want, x, y, e);
    }
  }

  // ----- luaK_goiftrue, luaK_goiffalse -----

  /** `test` takes its jump exactly when the value that `d` describes is not `want`. */
  ghost predicate Tests(c: seq<Instr>, d: Desc, test: Instr, want: bool)
    requires Fits(c, d)
  {
    IsTest(test) && forall e: Env, v: Val :: Holds(c, d, e, v) ==>
      Taken(test, e) == (Truthy(v) != want) && (if test.TestSet? then Get(e, test.b) == v else v.Bool?)
  }

  function Tested(c: seq<Instr>, d: Desc, test: Instr): seq<Instr>
    requires Held(d) <= |c|
  {
    c[..End(c, d)] + [test, Jmp(NO_JUMP)]
  }

  ghost predicate Inside(c: seq<Instr>, d: Desc, s: set<nat>, pc: nat) {
    Held(d) <= |c| && forall j :: j in s ==> pc < j < End(c, d) && c[j].Jmp?
  }

  lemma TestedAgain(c: seq<Instr>, d: Desc, s: set<nat>, l: set<nat>, pc: nat, test: Instr, e: Env)
    requires Fits(c, d) && pc <= End(c, d) && s !! l && Inside(c, d, s + l, pc) && IsTest(test)
    requires !Run(c, s + l, pc, e, End(c, d)).Stuck?
    ensures var b := Tested(c, d, test);
            var c2 := Patch(b, s, |b|, NO_REG, |b|);
            Run(c2, l + {|b| - 1}, pc, e, |b|)
            == Follow(c2, l + {|b| - 1}, Run(c, s + l, pc, e, End(c, d)), End(c, d), |b|)
  {
    var b := Tested(c, d, test);
    var c2 := Patch(b, s, |b|, NO_REG, |b|);
    var open, now := s + l, l + {|b| - 1};
    forall i | pc <= i < End(c, d) ensures Alike(c, open, End(c, d), c2, now, |b|, i) {
      assert b[i] == c[i];
    }
    RunMore(c, open, End(c, d), c2, now, |b|, pc, e);
  }

  lemma TestedLast(c: seq<Instr>, d: Desc, s: set<nat>, open: set<nat>, pc: nat, test: Instr, e: Env)
    requires Fits(c, d) && Inside(c, d, s, pc) && IsTest(test) && |c| - Held(d) + 1 in open
    ensures var b := Tested(c, d, test);
            var c2 := Patch(b, s, |b|, NO_REG, |b|);
            && Run(c2, open, End(c, d), e, |b|) == (if Taken(test, e) then Exit(End(c, d) + 1, e) else At(e))
            && Run(c2, open, |b|, e, |b|) == At(e)
            && c2[End(c, d)] == test
  {
    var b := Tested(c, d, test);
    var c2 := Patch(b, s, |b|, NO_REG, |b|);
    assert c2[End(c, d)] == test && c2[End(c, d) + 1].Jmp?;
    assert Run(c2, open, |b|, e, |b|) == At(e);
  }

  lemma TestedJump(c: seq<Instr>, d: Desc, s: set<nat>, l: set<nat>, pc: nat, test: Instr, j: nat)
    requires Fits(c, d) && Inside(c, d, s + l, pc) && s !! l && IsTest(test) && j in s + l
    ensures var b := Tested(c, d, test);
            var c2 := Patch(b, s, |b|, NO_REG, |b|);
            && 0 < j < |b|
            && (j in s ==> Target(c2, j) == |b| && !c2[j - 1].TestSet?)
            && (j in l ==> c2[j - 1].TestSet? == c[j - 1].TestSet?)
            && (j in l && c[j - 1].TestSet? ==> c2[j - 1] == c[j - 1])
  {
    var b := Tested(c, d, test);
    assert b[j] == c[j] && b[j - 1] == c[j - 1];
  }

  lemma TestedDecides(c: seq<Instr>, d: Desc, s: set<nat>, l: set<nat>, pc: nat, fr: nat, want: bool, test: Instr,
                      e: Env, v: Val)
    requires Fits(c, d) && Tests(c, d, test, want) && pc <= End(c, d) && s !! l && Inside(c, d, s + l, pc)
    requires Leaves(c, d, if want then s else l, if want then l else s, fr, e, v, Run(c, s + l, pc, e, End(c, d)))
    ensures var b := Tested(c, d, test);
            var c2, open := Patch(b, s, |b|, NO_REG, |b|), l + {|b| - 1};
            Decides(c2, open, fr, want, e, v, Run(c2, open, pc, e, |b|))
  {
    hide Run, Patch, PatchInstr, Target;
    var b := Tested(c, d, test);
    var c2, open := Patch(b, s, |b|, NO_REG, |b|), l + {|b| - 1};
    var out := Run(c, s + l, pc, e, End(c, d));
    TestedAgain(c, d, s, l, pc, test, e);
    TestedLast(c, d, s, open, pc, test, out.e);
    if out.Exit? {
      TestedJump(c, d, s, l, pc, test, out.j);
    } else {
      assert Holds(c, d, out.e, v);
    }
  }

  /** The value is tested; the jumps `s` of the list that agrees with `want` go to
      the end, those of the other list stay open with the new one. */
  lemma TestedCond(c: seq<Instr>, d: Desc, s: set<nat>, l: set<nat>, pc: nat, fr: nat, want: bool, x: Expr, test: Instr)
    requires Means(c, d, if want then s else l, if want then l else s, pc, fr, x)
    requires Tests(c, d, test, want) && pc <= End(c, d) && s !! l && Inside(c, d, s + l, pc)
    ensures var b := Tested(c, d, test);
            Cond(Patch(b, s, |b|, NO_REG, |b|), l + {|b| - 1}, pc, fr, want, x)
  {
    var t, f := if want then s else l, if want then l else s;
    var b := Tested(c, d, test);
    var c2, open := Patch(b, s, |b|, NO_REG, |b|), l + {|b| - 1};
    assert t + f == s + l;
    forall e: Env ensures Decides(c2, open, fr, want, e, Eval(x, e), Run(c2, open, pc, e, |c2|)) {
      assert Leaves(c, d, t, f, fr, e, Eval(x, e), Run(c, s + l, pc, e, End(c, d)));
      TestedDecides(c, d, s, l, pc, fr, want, test, e, Eval(x, e));
    }
  }

  // ----- codenot -----

  /** The tests before the jumps `s` carry no value any more. */
  function Unvalued(c: seq<Instr>, s: set<nat>): (r: seq<Instr>)
    ensures |r| == |c|
  {
    seq(|c|, i requires 0 <= i < |c| =>
      if i + 1 in s && c[i].TestSet? then Test(c[i].b, c[i].cond) else c[i])
  }

  /** `d2` at the end of `c2` negates what `d` at the end of `c` holds. */
  ghost predicate Negates(c: seq<Instr>, d: Desc, c2: seq<Instr>, d2: Desc, fr: nat) {
    && Fits(c, d) && Fits(c2, d2) && End(c, d) <= End(c2, d2)
    && forall e: Env, v: Val :: Holds(c, d, e, v) ==>
         var out := Run(c2, {}, End(c, d), e, End(c2, d2));
         out.At? && Keeps(e, out.e, fr) && Holds(c2, d2, out.e, Bool(!Truthy(v)))
  }

  lemma RunOpen(c: seq<Instr>, open: set<nat>, pc: nat, e: Env, end: nat)
    requires end <= |c| && Run(c, {}, pc, e, end).At? && forall j :: j in open ==> j < pc
    ensures Run(c, open, pc, e, end) == Run(c, {}, pc, e, end)
  {
    RunMore(c, {}, end, c, open, end, pc, e);
    assert Run(c, open, end, Run(c, {}, pc, e, end).e, end) == Run(c, {}, pc, e, end);
  }

  lemma NegatedLeaves(c: seq<Instr>, d: Desc, t: set<nat>, f: set<nat>, pc: nat, fr: nat, v: Val,
                      c2: seq<Instr>, d2: Desc, e: Env)
    requires Negates(c, d, c2, d2, fr) && pc <= End(c, d) && Inside(c, d, t + f, pc)
    requires Leaves(c, d, t, f, fr, e, v, Run(c, t + f, pc, e, End(c, d)))
    requires forall i :: 0 <= i < End(c, d) ==> c2[i] == Unvalued(c, t + f)[i]
    ensures Leaves(c2, d2, f, t, fr, e, Bool(!Truthy(v)), Run(c2, t + f, pc, e, End(c2, d2)))
  {
    hide Run;
    var end, last, open := End(c, d), End(c2, d2), t + f;
    RunMore(c, open, end, c2, open, last, pc, e);
    match Run(c, open, pc, e, end)
    case At(g) =>
      assert Holds(c, d, g, v);
      RunOpen(c2, open, end, g, last);
    case Exit(j, g) => assert c2[j - 1] == Unvalued(c, t + f)[j - 1];
  }

  lemma NegatedMeans(c: seq<Instr>, d: Desc, t: set<nat>, f: set<nat>, pc: nat, fr: nat, x: Expr,
                     c2: seq<Instr>, d2: Desc)
    requires Means(c, d, t, f, pc, fr, x) && Negates(c, d, c2, d2, fr)
    requires pc <= End(c, d) && Inside(c, d, t + f, pc)
    requires forall i :: 0 <= i < End(c, d) ==> c2[i] == Unvalued(c, t + f)[i]
    ensures Means(c2, d2, f, t, pc, fr, Negate(x))
  {
    hide Run, Leaves, Unvalued;
    assert t + f == f + t;
    forall e: Env ensures Leaves(c2, d2, f, t, fr, e, Eval(Negate(x), e), Run(c2, f + t, pc, e, End(c2, d2))) {
      assert Leaves(c, d, t, f, fr, e, Eval(x, e), Run(c, t + f, pc, e, End(c, d)));
      NegatedLeaves(c, d, t, f, pc, fr, Eval(x, e), c2, d2, e);
    }
  }

  // ----- exp2reg -----

  /** From `pc` the code of `c` only puts `v` into `reg`. */
  ghost predicate Sets(c: seq<Instr>, pc: int, reg: nat, e: Env, v: Val) {
    && 0 <= pc <= |c|
    && var out := Run(c, {}, pc, e, |c|);
       && out.At? && out.e.cmp == e.cmp && Get(out.e, reg) == v
       && forall i :: 0 <= i && i != reg ==> Get(out.e, i) == Get(e, i)
  }

  /** In `c2` the end of the expression in `c` stores its value in `reg`. */
  ghost predicate EndSets(c: seq<Instr>, d: Desc, c2: seq<Instr>, reg: nat)
    requires Fits(c, d)
  {
    forall e: Env, v: Val :: Holds(c, d, e, v) ==> Sets(c2, End(c, d), reg, e, v)
  }

  /** So does the jump `j`, which stands for a value that is true or not. */
  ghost predicate JumpSets(c: seq<Instr>, c2: seq<Instr>, reg: nat, j: nat, truth: bool) {
    && 0 < j < |c2| && j < Target(c2, j) <= |c2|
    && forall e: Env, v: Val :: Carries(c, j, e, v) && Truthy(v) == truth ==>
         Sets(c2, Target(c2, j), reg, Passed(c2[j - 1], e), v)
         && forall i :: 0 <= i && i != reg ==> Get(Passed(c2[j - 1], e), i) == Get(e, i)
  }

  lemma LoadsFrom(c: seq<Instr>, d: Desc, t: set<nat>, f: set<nat>, pc: nat, fr: nat, x: Expr, c2: seq<Instr>, reg: nat)
    requires Means(c, d, t, f, pc, fr, x) && End(c, d) <= |c2|
    requires forall i :: pc <= i < End(c, d) ==> Alike(c, t + f, End(c, d), c2, {}, |c2|, i)
    requires EndSets(c, d, c2, reg)
    requires forall j :: j in t ==> JumpSets(c, c2, reg, j, true)
    requires forall j :: j in f ==> JumpSets(c, c2, reg, j, false)
    ensures Loads(c2, pc, fr, reg, x)
  {
    var end := End(c, d);
    forall e: Env ensures Delivers(fr, reg, e, Eval(x, e), Run(c2, {}, pc, e, |c2|)) {
      var out := Run(c, t + f, pc, e, end);
      assert Leaves(c, d, t, f, fr, e, Eval(x, e), out);
      RunMore(c, t + f, end, c2, {}, |c2|, pc, e);
      if out.At? {
        assert Sets(c2, end, reg, out.e, Eval(x, e));
      } else {
        assert JumpSets(c, c2, reg, out.j, out.j in t);
      }
    }
  }

  /** A jump that carries its value goes to the end. */
  lemma ValueJumpSets(c: seq<Instr>, c2: seq<Instr>, reg: nat, j: nat, truth: bool)
    requires IsValue(c, j) && j < |c2| && reg != NO_REG
    requires c2[j - 1] == Retarget(c[j - 1], reg) && Target(c2, j) == |c2|
    ensures JumpSets(c, c2, reg, j, truth)
  {
    forall e: Env, v: Val | Carries(c, j, e, v) && Truthy(v) == truth
      ensures Sets(c2, Target(c2, j), reg, Passed(c2[j - 1], e), v)
      ensures forall i :: 0 <= i && i != reg ==> Get(Passed(c2[j - 1], e), i) == Get(e, i)
    {
      assert Run(c2, {}, |c2|, Passed(c2[j - 1], e), |c2|) == At(Passed(c2[j - 1], e));
    }
  }

  /** Any other jump goes to an instruction that loads its boolean. */
  lemma BoolJumpSets(c: seq<Instr>, c2: seq<Instr>, reg: nat, j: nat, truth: bool, skip: bool)
    requires 0 < j < |c2| && !IsValue(c, j) && !c2[j - 1].TestSet?
    requires var p := Target(c2, j); j < p < |c2| && c2[p] == LoadBool(reg, truth, skip)
                                     && p + (if skip then 2 else 1) == |c2|
    ensures JumpSets(c, c2, reg, j, truth)
  {
    var p := Target(c2, j);
    forall e: Env, v: Val | Carries(c, j, e, v) && Truthy(v) == truth
      ensures Sets(c2, p, reg, Passed(c2[j - 1], e), v)
    {
      assert v == Bool(truth);
      var g := Set(e, reg, v);
      assert Run(c2, {}, |c2|, g, |c2|) == At(g);
      assert Run(c2, {}, p, e, |c2|) == Run(c2, {}, |c2|, g, |c2|);
    }
  }

  /** What puts the value into `reg`. */
  function Loader(c: seq<Instr>, d: Desc, reg: nat): seq<Instr>
    requires Fits(c, d)
  {
    match d
    case VLocal(r) => if r == reg then [] else [Move(reg, r)]
    case VNonReloc(r) => if r == reg then [] else [Move(reg, r)]
    case VReloc(i) => [Not(reg, c[i].b)]
    case VJmp(i) => []
  }

  /** The value is loaded, and a jump over what follows it may come after. */
  lemma LoaderSets(c: seq<Instr>, d: Desc, c2: seq<Instr>, reg: nat)
    requires Fits(c, d) && !d.VJmp? && End(c, d) + |Loader(c, d, reg)| <= |c2|
    requires Loader(c, d, reg) != [] ==> c2[End(c, d)] == Loader(c, d, reg)[0]
    requires var q := End(c, d) + |Loader(c, d, reg)|; q == |c2| || (c2[q].Jmp? && Target(c2, q) == |c2|)
    ensures EndSets(c, d, c2, reg)
  {
    var none: set<nat>, q := {}, End(c, d) + |Loader(c, d, reg)|;
    forall e: Env, v: Val | Holds(c, d, e, v) ensures Sets(c2, End(c, d), reg, e, v) {
      var g := if Loader(c, d, reg) == [] then e else Set(e, reg, v);
      assert Run(c2, none, |c2|, g, |c2|) == At(g);
      assert Run(c2, none, q, g, |c2|) == At(g);
    }
  }

  /** The comparison jumps to the instruction that loads true, or falls into the
      one that loads false. */
  lemma ComparisonSets(c: seq<Instr>, d: Desc, c2: seq<Instr>, reg: nat)
    requires Fits(c, d) && d.VJmp? && |c2| == |c| + 2 && c2[|c| - 2] == c[|c| - 2]
    requires c2[|c| - 1].Jmp? && Target(c2, |c| - 1) == |c| + 1
    requires c2[|c|] == LoadBool(reg, false, true) && c2[|c| + 1] == LoadBool(reg, true, false)
    ensures EndSets(c, d, c2, reg)
  {
    var none: set<nat>, end := {}, |c| - 2;
    forall e: Env, v: Val | Holds(c, d, e, v) ensures Sets(c2, end, reg, e, v) {
      var g := Set(e, reg, v);
      assert Run(c2, none, |c2|, g, |c2|) == At(g);
      assert Taken(c[end], e) ==> Run(c2, none, end, e, |c2|) == Run(c2, none, |c| + 1, e, |c2|);
      assert !Taken(c[end], e) ==> Run(c2, none, end, e, |c2|) == Run(c2, none, |c|, e, |c2|);
    }
  }

  // ----- comparisons -----

  /** The value of `x` is in `reg` at the end. */
  ghost predicate InReg(c: seq<Instr>, pc: nat, fr: nat, reg: nat, x: Expr) {
    forall e: Env :: var out := Run(c, {}, pc, e, |c|);
                     out.At? && Keeps(e, out.e, fr) && Get(out.e, reg) == Eval(x, e)
  }

  lemma LoadedInReg(c: seq<Instr>, pc: nat, fr: nat, reg: nat, x: Expr)
    requires Loads(c, pc, fr, reg, x) && fr <= reg
    ensures InReg(c, pc, fr, reg, x)
  {
    forall e: Env
      ensures var out := Run(c, {}, pc, e, |c|);
              out.At? && Keeps(e, out.e, fr) && Get(out.e, reg) == Eval(x, e)
    {
      assert Delivers(fr, reg, e, Eval(x, e), Run(c, {}, pc, e, |c|));
    }
  }

  ghost predicate BothIn(c: seq<Instr>, pc: nat, fr: nat, o1: nat, o2: nat, e: Env, v: Val, w: Val, out: Out) {
    out.At? && Keeps(e, out.e, fr) && Get(out.e, o1) == v && Get(out.e, o2) == w
  }

  lemma BothInRegs(c1: seq<Instr>, c2: seq<Instr>, pc: nat, fr: nat, fr2: nat, n: nat, o1: nat, o2: nat,
                   x: Expr, y: Expr, e: Env)
    requires InReg(c1, pc, fr, o1, x) && InReg(c2, |c1|, fr2, o2, y) && Uses(y, n) && n <= fr <= fr2 && o1 < fr2
    requires |c1| <= |c2| && c2[..|c1|] == c1
    ensures BothIn(c2, pc, fr, o1, o2, e, Eval(x, e), Eval(y, e), Run(c2, {}, pc, e, |c2|))
  {
    var out := Run(c1, {}, pc, e, |c1|);
    forall i | pc <= i < |c1| ensures Alike(c1, {}, |c1|, c2, {}, |c2|, i) {
      assert c2[i] == c2[..|c1|][i];
    }
    RunMore(c1, {}, |c1|, c2, {}, |c2|, pc, e);
    EvalKeeps(y, e, out.e, n);
    assert Run(c2, {}, |c1|, out.e, |c2|).At?;
  }

  /** The comparison that stands for `rel`: its operation, and whether the operands
      are exchanged. */
  function Instruction(rel: Rel, o1: nat, o2: nat): Instr {
    match rel
    case Eq => Compare(EQ, true, o1, o2)
    case Ne => Compare(EQ, false, o1, o2)
    case Lt => Compare(LT, true, o1, o2)
    case Le => Compare(LE, true, o1, o2)
    case Gt => Compare(LT, true, o2, o1)
    case Ge => Compare(LE, true, o2, o1)
  }

  lemma CompareMeans(c1: seq<Instr>, c2: seq<Instr>, pc: nat, fr: nat, fr2: nat, n: nat, o1: nat, o2: nat,
                     rel: Rel, x: Expr, y: Expr)
    requires InReg(c1, pc, fr, o1, x) && InReg(c2, |c1|, fr2, o2, y) && Uses(y, n) && n <= fr <= fr2 && o1 < fr2
    requires |c1| <= |c2| && c2[..|c1|] == c1
    ensures var c3 := c2 + [Instruction(rel, o1, o2), Jmp(NO_JUMP)];
            Means(c3, VJmp(|c3| - 1), {}, {}, pc, fr, Expr.Rel(rel, x, y))
  {
    var c3 := c2 + [Instruction(rel, o1, o2), Jmp(NO_JUMP)];
    var d, none: set<nat> := VJmp(|c3| - 1), {};
    assert none + none == none;
    forall e: Env
      ensures Leaves(c3, d, none, none, fr, e, Eval(Expr.Rel(rel, x, y), e), Run(c3, none + none, pc, e, End(c3, d)))
    {
      BothInRegs(c1, c2, pc, fr, fr2, n, o1, o2, x, y, e);
      RunMore(c2, none, |c2|, c3, none, |c2|, pc, e);
      var g := Run(c2, none, pc, e, |c2|).e;
      assert Run(c3, none, |c2|, g, |c2|) == At(g);
    }
  }

  // ----- assignments one after the other -----

  datatype Stmt = Stmt(reg: nat, x: Expr)

  function Exec(ss: seq<Stmt>, e: Env): Env {
    if ss == [] then e
    else
      var g, last := Exec(ss[..|ss| - 1], e), ss[|ss| - 1];
      Set(g, last.reg, Eval(last.x, g))
  }

  /** The code from `pc` does the assignments `ss` to the registers below `fr`. */
  ghost predicate Performs(c: seq<Instr>, pc: nat, fr: nat, ss: seq<Stmt>) {
    forall e: Env :: var out := Run(c, {}, pc, e, |c|); out.At? && Keeps(Exec(ss, e), out.e, fr)
  }

  lemma PerformsMore(c1: seq<Instr>, c2: seq<Instr>, pc: nat, fr: nat, ss: seq<Stmt>, s: Stmt)
    requires Performs(c1, pc, fr, ss) && Loads(c2, |c1|, fr, s.reg, s.x) && Uses(s.x, fr)
    requires |c1| <= |c2| && c2[..|c1|] == c1
    ensures Performs(c2, pc, fr, ss + [s])
  {
    forall e: Env
      ensures var out := Run(c2, {}, pc, e, |c2|); out.At? && Keeps(Exec(ss + [s], e), out.e, fr)
    {
      var mid := Run(c1, {}, pc, e, |c1|);
      forall i | pc <= i < |c1| ensures Alike(c1, {}, |c1|, c2, {}, |c2|, i) {
        assert c2[i] == c2[..|c1|][i];
      }
      RunMore(c1, {}, |c1|, c2, {}, |c2|, pc, e);
      EvalKeeps(s.x, Exec(ss, e), mid.e, fr);
      assert Delivers(fr, s.reg, mid.e, Eval(s.x, mid.e), Run(c2, {}, |c1|, mid.e, |c2|));
      assert (ss + [s])[..|ss|] == ss;
    }
  }
}
