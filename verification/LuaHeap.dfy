/** The heap of a Lua state as its garbage collector sees it: objects, their
    references, and the collector's own lists and phase. */
module LuaHeap {

  type Ref = nat

  datatype Val = Nil | Prim | Obj(ref: Ref)

  /** A key slot of a table.  `Index` is a position of the array part, `Dead` is
      a key whose entry was removed (LUA_TDEADKEY). */
  datatype Key = Index | KPrim | KObj(ref: Ref) | Dead

  datatype Slot = Slot(key: Key, val: Val)

  datatype Kind =
    | Str
    | Udata
    | UpvalClosed
    | UpvalOpen(thread: Ref, level: nat)
    | Func
    | Table
    | Thread
    | Proto

  /** Colours; `White(b)` is white of type 0 or 1. */
  datatype Color = White(b: bool) | Gray | Black

  datatype Cell = Cell(
    kind: Kind,
    color: Color,
    fixed: bool,
    refs: seq<Ref>,        // metatable, environment, upvalues, constants, ...
    slots: seq<Slot>,      // tables: array part and nodes
    weakkey: bool,         // tables: what __mode of the metatable says
    weakvalue: bool,
    stack: seq<Val>,       // threads: the stack below top
    openupval: seq<Ref>,   // threads: open upvalues, innermost first
    text: string,          // strings: the bytes
    hasgc: bool,           // userdata: the metatable has __gc
    finalized: bool)       // userdata: FINALIZEDBIT

  datatype Phase = Pause | Propagate | SweepString | Sweep | Finalize

  datatype State = State(
    objs: map<Ref, Cell>,
    cur: bool,                 // the type of the current white
    phase: Phase,
    rootgc: seq<Ref>,          // all objects but strings and open upvalues;
                               // userdata come after the main thread
    sweepgc: nat,              // position of the sweep in rootgc
    strt: seq<seq<Ref>>,       // string table
    sweepstrgc: nat,           // next bucket to sweep
    hash: string -> nat,
    gray: seq<Ref>,
    grayagain: seq<Ref>,
    weak: seq<Ref>,
    tmudata: seq<Ref>,         // userdata waiting for their finalizer
    uvhead: seq<Ref>,          // all open upvalues
    main: Ref,
    running: Ref,
    registry: Ref,
    mt: seq<Ref>)              // metatables of the basic types

  // ----- references held by an object -----

  function ValRefs(v: Val): seq<Ref> {
    if v.Obj? then [v.ref] else []
  }

  function KeyRefs(k: Key): seq<Ref> {
    if k.KObj? then [k.ref] else []
  }

  /** What a program can read from the slots: a node without a value has no
      visible key. */
  function SlotKids(s: seq<Slot>): seq<Ref> {
    if s == [] then []
    else
      var e := s[|s| - 1];
      (if e.val.Nil? then [] else KeyRefs(e.key) + ValRefs(e.val)) + SlotKids(s[..|s| - 1])
  }

  /** The same plus the keys still sitting in nodes without a value. */
  function SlotTrace(s: seq<Slot>): seq<Ref> {
    if s == [] then []
    else
      var e := s[|s| - 1];
      KeyRefs(e.key) + ValRefs(e.val) + SlotTrace(s[..|s| - 1])
  }

  /** What a traversal marks, given the weakness of the table. */
  function SlotStrong(s: seq<Slot>, wk: bool, wv: bool): seq<Ref> {
    if s == [] then []
    else
      var e := s[|s| - 1];
      (if e.val.Nil? then []
       else (if wk then [] else KeyRefs(e.key)) + (if wv then [] else ValRefs(e.val)))
      + SlotStrong(s[..|s| - 1], wk, wv)
  }

  function StackRefs(s: seq<Val>): seq<Ref> {
    if s == [] then [] else StackRefs(s[..|s| - 1]) + ValRefs(s[|s| - 1])
  }

  /** An open upvalue refers to what its stack slot holds. */
  function OpenRefs(g: State, c: Cell): seq<Ref> {
    if c.kind.UpvalOpen? && c.kind.thread in g.objs
       && c.kind.level < |g.objs[c.kind.thread].stack|
    then ValRefs(g.objs[c.kind.thread].stack[c.kind.level])
    else []
  }

  function Kids(g: State, r: Ref): seq<Ref>
    requires r in g.objs
  {
    var c := g.objs[r];
    c.refs + SlotKids(c.slots) + StackRefs(c.stack) + OpenRefs(g, c)
  }

  function Trace(g: State, r: Ref): seq<Ref>
    requires r in g.objs
  {
    var c := g.objs[r];
    c.refs + SlotTrace(c.slots) + StackRefs(c.stack) + OpenRefs(g, c)
  }

  function StrongKids(g: State, r: Ref): seq<Ref>
    requires r in g.objs
  {
    var c := g.objs[r];
    c.refs + SlotStrong(c.slots, c.weakkey, c.weakvalue) + StackRefs(c.stack) + OpenRefs(g, c)
  }

  function Roots(g: State): seq<Ref> {
    [g.main, g.registry, g.running] + g.mt + g.tmudata
  }

  // ----- colours -----

  predicate IsWhite(g: State, r: Ref) {
    r in g.objs && g.objs[r].color.White?
  }

  predicate NonWhite(g: State, r: Ref) {
    r in g.objs && !g.objs[r].color.White?
  }

  predicate IsDead(g: State, r: Ref) {
    r in g.objs && g.objs[r].color == White(!g.cur)
  }

  predicate IsLive(g: State, r: Ref) {
    r in g.objs && g.objs[r].color != White(!g.cur)
  }

  ghost predicate AllNonWhite(g: State, s: seq<Ref>) {
    forall x :: x in s ==> NonWhite(g, x)
  }

  ghost predicate AllLive(g: State, s: seq<Ref>) {
    forall x :: x in s ==> IsLive(g, x)
  }

  /** Kinds that reallymarkobject puts on the gray list. */
  predicate Traversable(k: Kind) {
    k.Func? || k.Table? || k.Thread? || k.Proto?
  }

  function SetColor(g: State, r: Ref, c: Color): State
    requires r in g.objs
  {
    g.(objs := g.objs[r := g.objs[r].(color := c)])
  }

  // ----- reachability -----

  ghost predicate Edge(g: State, r: Ref, x: Ref) {
    r in g.objs && x in Kids(g, r)
  }

  ghost predicate Path(g: State, p: seq<Ref>) {
    p != [] && p[0] in Roots(g)
    && forall i, j :: 0 <= i && j == i + 1 < |p| ==> Edge(g, p[i], p[j])
  }

  /** What the program can still get at, through strong or weak references. */
  ghost predicate Accessible(g: State, r: Ref) {
    exists p :: Path(g, p) && p[|p| - 1] == r
  }

  /** A set of objects that holds the roots and is closed under references
      holds everything accessible. */
  lemma {:induction false} AccessibleIn(g: State, live: set<Ref>, p: seq<Ref>)
    requires forall x :: x in Roots(g) ==> x in live
    requires live <= g.objs.Keys
    requires forall r, x :: r in live && x in Kids(g, r) ==> x in live
    requires Path(g, p)
    ensures p[|p| - 1] in live
    decreases |p|
  {
    if |p| > 1 {
      var q := p[..|p| - 1];
      assert Path(g, q);
      AccessibleIn(g, live, q);
      assert Edge(g, p[|p| - 2], p[|p| - 1]);
    }
  }
}
