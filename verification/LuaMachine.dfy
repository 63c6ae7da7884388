/** The instructions that the expression compiler emits for locals, comparisons,
    `not`, `and` and `or`, and what they do. */
module LuaMachine {
  datatype Val = Nil | Bool(b: bool) | Other(id: int)

  predicate Truthy(v: Val) {
    !v.Nil? && v != Bool(false)
  }

  datatype Op = EQ | LT | LE

  /** The registers of a call, and how values compare. */
  datatype Env = Env(reg: map<nat, Val>, cmp: (Op, Val, Val) -> bool)

  function Get(e: Env, r: nat): Val {
    if r in e.reg then e.reg[r] else Nil
  }

  function Set(e: Env, r: nat, v: Val): Env {
    e.(reg := e.reg[r := v])
  }

  datatype Instr =
    | Move(a: nat, b: nat)
    | LoadBool(a: nat, v: bool, skip: bool)
    | Not(a: nat, b: nat)
    | Jmp(sbx: int)
    | Compare(op: Op, want: bool, b: nat, c: nat)
    | Test(a: nat, cond: bool)
    | TestSet(a: nat, b: nat, cond: bool)

  /** Instructions that are followed by the jump they control. */
  predicate IsTest(i: Instr) {
    i.Compare? || i.Test? || i.TestSet?
  }

  /** Does the test take the jump that follows it? */
  predicate Taken(i: Instr, e: Env)
    requires IsTest(i)
  {
    match i
    case Compare(op, want, b, c) => e.cmp(op, Get(e, b), Get(e, c)) == want
    case Test(a, cond) => !Truthy(Get(e, a)) != cond
    case TestSet(a, b, cond) => !Truthy(Get(e, b)) != cond
  }

  /** A TESTSET that takes its jump copies the value it tested. */
  function Passed(i: Instr, e: Env): Env {
    if i.TestSet? then Set(e, i.a, Get(e, i.b)) else e
  }

  function Target(c: seq<Instr>, j: nat): int
    requires j < |c|
  {
    if c[j].Jmp? then j + 1 + c[j].sbx else -1
  }

  /** How a stretch of code is left: at its end, or by one of the jumps whose
      target is not known yet.  `Stuck` covers what generated code never does. */
  datatype Out = At(e: Env) | Exit(j: nat, e: Env) | Stuck

  function Run(c: seq<Instr>, open: set<nat>, pc: nat, e: Env, end: nat): Out
    requires end <= |c|
    decreases end - pc
  {
    if pc >= end then
      if pc == end then At(e) else Stuck
    else
      match c[pc]
      case Move(a, b) => Run(c, open, pc + 1, Set(e, a, Get(e, b)), end)
      case LoadBool(a, v, skip) => Run(c, open, if skip then pc + 2 else pc + 1, Set(e, a, Bool(v)), end)
      case Not(a, b) => Run(c, open, pc + 1, Set(e, a, Bool(!Truthy(Get(e, b)))), end)
      case Jmp(_) =>
        if pc in open || !(pc < Target(c, pc) <= end) then Stuck
        else Run(c, open, Target(c, pc), e, end)
      case _ =>
        if pc + 1 >= end then Stuck
        else if !Taken(c[pc], e) then Run(c, open, pc + 2, e, end)
        else if pc + 1 in open then Exit(pc + 1, e)
        else if !(pc + 1 < Target(c, pc + 1) <= end) then Stuck
        else Run(c, open, Target(c, pc + 1), Passed(c[pc], e), end)
  }

  // ----- code that is extended and patched -----

  /** Instruction `i` of `d` is that of `c`, where a jump that was open in `c` may
      have got a target and the TESTSET before it a register or none.  A jump to
      the end of `c` may have been led on by a jump that now stands there. */
  ghost predicate Alike(c: seq<Instr>, open: set<nat>, end: nat, d: seq<Instr>, now: set<nat>, last: nat, i: nat)
    requires i < |c| && i < |d|
  {
    || (c[i] == d[i] && (i !in open ==> i !in now))
    || (c[i].Jmp? && i in open && d[i].Jmp?)
    || (c[i].TestSet? && i + 1 in open && d[i].TestSet? && d[i] == c[i].(a := d[i].a))
    || (c[i].TestSet? && i + 1 in open && d[i] == Test(c[i].b, c[i].cond))
    || (i !in open && i !in now && LedOn(c, end, d, now, last, i))
  }

  ghost predicate LedOn(c: seq<Instr>, end: nat, d: seq<Instr>, now: set<nat>, last: nat, i: nat)
    requires i < |c| && i < |d|
  {
    && c[i].Jmp? && d[i].Jmp? && Target(c, i) == end
    && end < last <= |d| && d[end].Jmp? && end !in now && end < Target(d, end) == Target(d, i)
  }

  /** What the jump that left `c` does in `d`. */
  function Follow(d: seq<Instr>, now: set<nat>, out: Out, end: nat, last: nat): Out
    requires last <= |d|
  {
    match out
    case At(e) => Run(d, now, end, e, last)
    case Exit(j, e) =>
      if j in now then Exit(j, e)
      else if 0 < j < |d| && j < Target(d, j) <= last then Run(d, now, Target(d, j), Passed(d[j - 1], e), last)
      else Stuck
    case Stuck => Stuck
  }

  /** A test that is alike decides alike, and only before an open jump is it changed. */
  lemma TestAlike(c: seq<Instr>, open: set<nat>, end: nat, d: seq<Instr>, now: set<nat>, last: nat, i: nat, e: Env)
    requires i < |c| && i < |d| && Alike(c, open, end, d, now, last, i) && IsTest(c[i])
    ensures IsTest(d[i]) && Taken(d[i], e) == Taken(c[i], e) && (i + 1 in open || d[i] == c[i])
  {
  }

  lemma {:induction false} RunMore(c: seq<Instr>, open: set<nat>, end: nat,
                                   d: seq<Instr>, now: set<nat>, last: nat, pc: nat, e: Env)
    requires end <= |c| && end <= last <= |d|
    requires forall i :: pc <= i < end ==> Alike(c, open, end, d, now, last, i)
    requires !Run(c, open, pc, e, end).Stuck?
    ensures Run(d, now, pc, e, last) == Follow(d, now, Run(c, open, pc, e, end), end, last)
    decreases end - pc
  {
    hide Get, Set, Truthy, Taken, Passed;
    if pc < end {
      assert Alike(c, open, end, d, now, last, pc);
      match c[pc]
      case Move(a, b) => RunMore(c, open, end, d, now, last, pc + 1, Set(e, a, Get(e, b)));
      case LoadBool(a, v, skip) =>
        RunMore(c, open, end, d, now, last, if skip then pc + 2 else pc + 1, Set(e, a, Bool(v)));
      case Not(a, b) => RunMore(c, open, end, d, now, last, pc + 1, Set(e, a, Bool(!Truthy(Get(e, b)))));
      case Jmp(_) => RunMore(c, open, end, d, now, last, Target(c, pc), e);
      case _ =>
        TestAlike(c, open, end, d, now, last, pc, e);
        assert pc + 1 < end ==> Alike(c, open, end, d, now, last, pc + 1);
        if !Taken(c[pc], e) {
          RunMore(c, open, end, d, now, last, pc + 2, e);
        } else if pc + 1 !in open {
          RunMore(c, open, end, d, now, last, Target(c, pc + 1), Passed(c[pc], e));
        }
    }
  }
}
