/** Lists of jumps that wait for their target, threaded through the jump offsets. */
module LuaPatch {
  import opened LuaMachine

  const NO_JUMP := -1
  const NO_REG := 255

  /** The position after `pc` in its list; an offset that makes a jump point to
      itself marks the end. */
  function GetJump(c: seq<Instr>, pc: nat): int
    requires pc < |c| && c[pc].Jmp?
  {
    if c[pc].sbx == NO_JUMP then NO_JUMP else pc + 1 + c[pc].sbx
  }

  function Head(s: seq<nat>): int {
    if s == [] then NO_JUMP else s[0]
  }

  ghost predicate Distinct(s: seq<nat>) {
    forall i, j :: 0 <= i < j < |s| ==> s[i] != s[j]
  }

  ghost predicate LinkAt(c: seq<Instr>, s: seq<nat>, i: nat)
    requires i < |s|
  {
    s[i] < |c| && c[s[i]].Jmp? && GetJump(c, s[i]) == Head(s[i + 1..])
  }

  /** The jumps `s`, linked in this order from `head`. */
  ghost predicate IsList(c: seq<Instr>, head: int, s: seq<nat>) {
    head == Head(s) && Distinct(s) && forall i :: 0 <= i < |s| ==> LinkAt(c, s, i)
  }

  ghost function Elems(s: seq<nat>): set<nat> {
    set x | x in s
  }

  /** The jump at `j` is controlled by an instruction that can carry the value. */
  predicate IsValue(c: seq<Instr>, j: nat) {
    0 < j <= |c| && c[j - 1].TestSet?
  }

  /** A TESTSET that is to put its value into `reg`. */
  function Retarget(i: Instr, reg: nat): Instr
    requires i.TestSet?
  {
    if reg != NO_REG && reg != i.b then TestSet(reg, i.b, i.cond) else Test(i.b, i.cond)
  }

  function PatchInstr(c: seq<Instr>, s: set<nat>, vt: int, reg: nat, dt: int, i: nat): Instr
    requires i < |c|
  {
    if i in s then Jmp((if IsValue(c, i) then vt else dt) - (i + 1))
    else if i + 1 in s && c[i].TestSet? then Retarget(c[i], reg)
    else c[i]
  }

  /** Every jump of `s` led to its target: `vt` when it carries a value, then put
      into `reg`, `dt` otherwise.  Nothing else changes. */
  function Patch(c: seq<Instr>, s: set<nat>, vt: int, reg: nat, dt: int): (d: seq<Instr>)
    ensures |d| == |c|
  {
    seq(|c|, i requires 0 <= i < |c| => PatchInstr(c, s, vt, reg, dt, i))
  }

  lemma PatchNone(c: seq<Instr>, vt: int, reg: nat, dt: int)
    ensures Patch(c, {}, vt, reg, dt) == c
  {
  }

  lemma PatchStep(c: seq<Instr>, s: seq<nat>, k: nat, vt: int, reg: nat, dt: int)
    requires IsList(c, Head(s), s) && k < |s|
    ensures var d, j := Patch(c, Elems(s[..k]), vt, reg, dt), s[k];
            var t := (if IsValue(d, j) then vt else dt) - (j + 1);
            && j < |c| && d[j] == c[j] && IsValue(d, j) == IsValue(c, j)
            && Patch(c, Elems(s[..k + 1]), vt, reg, dt)
               == (if IsValue(d, j) then d[j - 1 := Retarget(d[j - 1], reg)] else d)[j := Jmp(t)]
  {
    var d, j := Patch(c, Elems(s[..k]), vt, reg, dt), s[k];
    assert LinkAt(c, s, k);
    assert j !in Elems(s[..k]);
    assert Elems(s[..k + 1]) == Elems(s[..k]) + {j};
    forall x | x in s[..k] ensures x < |c| && c[x].Jmp? {
      var i :| 0 <= i < k && s[i] == x;
      assert LinkAt(c, s, i);
    }
  }

  /** A list does not notice changes elsewhere. */
  lemma ListFrame(c: seq<Instr>, d: seq<Instr>, s: seq<nat>)
    requires IsList(c, Head(s), s) && forall i :: 0 <= i < |s| ==> s[i] < |c| ==> s[i] < |d| && d[s[i]] == c[s[i]]
    ensures IsList(d, Head(s), s)
  {
    forall i | 0 <= i < |s| ensures LinkAt(d, s, i) {
      assert LinkAt(c, s, i);
    }
  }

  lemma JoinDistinct(s: seq<nat>, t: seq<nat>)
    requires Distinct(s) && Distinct(t) && forall x :: x in s ==> x !in t
    ensures Distinct(s + t)
  {
    var u := s + t;
    forall i, j | 0 <= i < j < |u| ensures u[i] != u[j] {
      assert i < |s| ==> u[i] in s;
      assert j >= |s| ==> u[j] == t[j - |s|] && u[j] in t;
    }
  }

  lemma LinkFirst(c: seq<Instr>, s: seq<nat>, t: seq<nat>, d: seq<Instr>, i: nat)
    requires Distinct(s) && i < |s| && LinkAt(c, s, i) && t != []
    requires var l := s[|s| - 1]; l < |c| && d == c[l := Jmp(t[0] - (l + 1))] && t[0] != l
    ensures LinkAt(d, s + t, i)
  {
    assert (s + t)[i + 1..] == s[i + 1..] + t;
  }

  lemma LinkSecond(c: seq<Instr>, s: seq<nat>, t: seq<nat>, d: seq<Instr>, i: nat)
    requires i < |t| && LinkAt(c, t, i) && s != []
    requires var l := s[|s| - 1]; l < |c| && d == c[l := Jmp(t[0] - (l + 1))] && t[i] != l
    ensures LinkAt(d, s + t, |s| + i)
  {
    assert (s + t)[|s| + i + 1..] == t[i + 1..];
  }

  /** Linking the last jump of `s` to the first of `t`. */
  lemma ListAppend(c: seq<Instr>, s: seq<nat>, t: seq<nat>, d: seq<Instr>)
    requires IsList(c, Head(s), s) && IsList(c, Head(t), t) && s != [] && t != []
    requires forall x :: x in s ==> x !in t
    requires var l := s[|s| - 1]; l < |c| && d == c[l := Jmp(t[0] - (l + 1))]
    ensures IsList(d, Head(s), s + t)
  {
    hide Distinct;
    JoinDistinct(s, t);
    assert s[|s| - 1] in s;
    assert forall i :: 0 <= i < |t| ==> t[i] in t;
    forall i | 0 <= i < |s + t| ensures LinkAt(d, s + t, i) {
      if i < |s| {
        LinkFirst(c, s, t, d, i);
      } else {
        LinkSecond(c, s, t, d, i - |s|);
      }
    }
  }

  lemma ListEmpty(c: seq<Instr>)
    ensures IsList(c, NO_JUMP, [])
  {
  }

  lemma ListOne(c: seq<Instr>, j: nat)
    requires j < |c| && c[j] == Jmp(NO_JUMP)
    ensures IsList(c, j, [j])
  {
    assert [j][1..] == [];
  }

  lemma ListInside(c: seq<Instr>, s: seq<nat>, x: nat)
    requires IsList(c, Head(s), s) && x in s
    ensures x < |c| && c[x].Jmp?
  {
    var i :| 0 <= i < |s| && s[i] == x;
    assert LinkAt(c, s, i);
  }

  /** A list outlives a patch of other jumps. */
  lemma ListPatched(c: seq<Instr>, s: seq<nat>, p: set<nat>, vt: int, reg: nat, dt: int)
    requires IsList(c, Head(s), s) && forall x :: x in s ==> x !in p
    ensures IsList(Patch(c, p, vt, reg, dt), Head(s), s)
  {
    forall i | 0 <= i < |s| ensures s[i] < |c| && Patch(c, p, vt, reg, dt)[s[i]] == c[s[i]] {
      assert LinkAt(c, s, i) && s[i] in s;
    }
    ListFrame(c, Patch(c, p, vt, reg, dt), s);
  }
}
