/** Safety of every run that interleaves collector steps with programs. */
module GcSafety {
  import opened LuaHeap
  import opened GcMark
  import opened GcState
  import opened GcAtomic
  import opened GcCycle
  import opened GcSweep
  import opened GcUpval
  import opened GcUpdate
  import opened GcStore
  import opened GcSweepStep
  import opened GcStep
  import opened GcAlloc
  import opened GcRun

  /** What can happen next.  The last three are the collector's own. */
  datatype Op =
    | SetSlots(thread: Ref, stack: seq<Val>)
    | SetEnv(thread: Ref, refs: seq<Ref>)
    | WriteTable(table: Ref, refs: seq<Ref>, slots: seq<Slot>, stored: seq<Ref>)
    | WriteObject(target: Ref, refs: seq<Ref>, stored: seq<Ref>)
    | SetModes(target: Ref, weakkey: bool, weakvalue: bool, hasgc: bool)
    | FixString(target: Ref)
    | Create(ref: Ref, cell: Cell)
    | CreateUdata(ref: Ref, refs: seq<Ref>, hasgc: bool)
    | MakeString(text: string, spare: Ref)
    | Capture(closure: Ref, level: nat, spare: Ref)
    | CloseTo(level: nat)
    | SetBasicMt(refs: seq<Ref>)
    | Resume(thread: Ref)
    | CollectorStep
    | RestartSweep
    | RestartMark

  ghost predicate AllAccessible(g: State, s: seq<Ref>) {
    forall x :: x in s ==> Accessible(g, x)
  }

  /** A program reads and writes only what it can reach; a new object gets an
      unused reference. */
  ghost predicate Enabled(g: State, op: Op) {
    match op
    case SetSlots(t, st) => Accessible(g, t) && t in g.objs && g.objs[t].kind.Thread?
      && OpenBelow(g, t, |st|) && AllAccessible(g, StackRefs(st))
    case SetEnv(t, rs) => Accessible(g, t) && t in g.objs && g.objs[t].kind.Thread? && AllAccessible(g, rs)
    case WriteTable(o, rs, sl, stored) => Accessible(g, o) && o in g.objs && g.objs[o].kind.Table?
      && AllAccessible(g, stored) && AllAccessible(g, rs) && AllAccessible(g, SlotKids(sl))
      && forall x :: x in rs || x in SlotTrace(sl) ==> x in Trace(g, o) || x in stored
    case WriteObject(o, rs, stored) => Accessible(g, o) && o in g.objs && Plain(g.objs[o].kind)
      && AllAccessible(g, stored) && AllAccessible(g, rs)
      && forall x :: x in rs ==> x in Trace(g, o) || x in stored
    case SetModes(o, _, _, _) => Accessible(g, o) && o in g.objs
    case FixString(o) => Accessible(g, o) && o in g.objs && g.objs[o].kind.Str?
    case Create(r, c) => FreshCell(g, r, c) && AllAccessible(g, c.refs) && AllAccessible(g, SlotKids(c.slots))
    case CreateUdata(r, rs, _) => r !in g.objs && AllAccessible(g, rs)
    case MakeString(_, spare) => spare !in g.objs
    case Capture(o, level, spare) => Accessible(g, o) && o in g.objs && g.objs[o].kind.Func? && spare !in g.objs
      && g.running in g.objs && level < |g.objs[g.running].stack|
    case CloseTo(_) => true
    case SetBasicMt(rs) => AllAccessible(g, rs)
    case Resume(t) => Accessible(g, t) && t in g.objs && g.objs[t].kind.Thread?
    case CollectorStep => true
    case RestartSweep => g.phase.Pause? || g.phase.Propagate?
    case RestartMark => g.phase.Finalize?
  }

  /** luaC_fullgc, abandoning a mark phase: everything is to be swept, with the
      current white unchanged. */
  function Abandon(g: State): State {
    g.(sweepstrgc := 0, sweepgc := 0, gray := [], grayagain := [], weak := [], phase := SweepString)
  }

  function CaptureUpval(g: State, o: Ref, level: nat, spare: Ref): State
    requires g.running in g.objs && o in g.objs
  {
    var (h, u) := FindUpval(g, g.running, level, spare);
    if o in h.objs then StoreObj(h, o, h.objs[o].refs + [u], [u]) else h
  }

  function SetFlags(g: State, o: Ref, wk: bool, wv: bool, gc: bool): State
    requires o in g.objs
  {
    Update(g, o, g.objs[o].(weakkey := wk, weakvalue := wv, hasgc := gc))
  }

  function MadeString(g: State, t: string, spare: Ref): State
    requires Inv(g) && spare !in g.objs
  {
    InternKeeps(g, t, spare);
    var (h, s) := Intern(g, t, spare);
    Push(h, Obj(s))
  }

  predicate IsStore(op: Op) {
    op.SetSlots? || op.SetEnv? || op.WriteTable? || op.WriteObject? || op.SetModes? || op.FixString?
  }

  predicate IsCreation(op: Op) {
    op.Create? || op.CreateUdata? || op.MakeString? || op.Capture?
  }

  function ApplyStore(g: State, op: Op): State
    requires Inv(g) && Enabled(g, op) && IsStore(op)
  {
    match op
    case SetSlots(t, st) => SetStack(g, t, st)
    case SetEnv(t, rs) => SetGlobals(g, t, rs)
    case WriteTable(o, rs, sl, stored) => StoreTable(g, o, rs, sl, stored)
    case WriteObject(o, rs, stored) => StoreObj(g, o, rs, stored)
    case SetModes(o, wk, wv, gc) => SetFlags(g, o, wk, wv, gc)
    case FixString(o) => Update(g, o, g.objs[o].(fixed := true))
  }

  function ApplyCreation(g: State, op: Op): State
    requires Inv(g) && Enabled(g, op) && IsCreation(op)
  {
    match op
    case Create(r, c) => Push(NewObject(g, r, c), Obj(r))
    case CreateUdata(r, rs, gc) => Push(NewUdata(g, r, rs, gc), Obj(r))
    case MakeString(t, spare) => MadeString(g, t, spare)
    case Capture(o, level, spare) => CaptureUpval(g, o, level, spare)
  }

  function Apply(g: State, op: Op): State
    requires Inv(g) && Enabled(g, op)
  {
    if IsStore(op) then ApplyStore(g, op)
    else if IsCreation(op) then ApplyCreation(g, op)
    else
      match op
      case CloseTo(level) => CloseUpvals(g, g.running, level)
      case SetBasicMt(rs) => g.(mt := rs)
      case Resume(t) => g.(running := t)
      case CollectorStep => SingleStep(g)
      case RestartSweep => Abandon(g)
      case RestartMark => MarkRoot(g)
  }

  lemma AccessibleLive(g: State, s: seq<Ref>)
    requires LiveClosed(g) && AllAccessible(g, s)
    ensures AllLive(g, s)
  {
    forall x | x in s ensures IsLive(g, x) {
      AccessibleIsLive(g, x);
    }
  }

  // ----- stores -----

  lemma SetSlotsSafe(g: State, t: Ref, st: seq<Val>)
    requires Inv(g) && Accessible(g, t) && t in g.objs && g.objs[t].kind.Thread?
    requires OpenBelow(g, t, |st|) && AllAccessible(g, StackRefs(st))
    ensures Inv(SetStack(g, t, st))
  {
    AccessibleIsLive(g, t);
    AccessibleLive(g, StackRefs(st));
    SetStackKeeps(g, t, st);
  }

  lemma SetEnvSafe(g: State, t: Ref, rs: seq<Ref>)
    requires Inv(g) && Accessible(g, t) && t in g.objs && g.objs[t].kind.Thread? && AllAccessible(g, rs)
    ensures Inv(SetGlobals(g, t, rs))
  {
    AccessibleIsLive(g, t);
    AccessibleLive(g, rs);
    SetGlobalsKeeps(g, t, rs);
  }

  lemma WriteTableSafe(g: State, o: Ref, rs: seq<Ref>, sl: seq<Slot>, stored: seq<Ref>)
    requires Inv(g) && Accessible(g, o) && o in g.objs && g.objs[o].kind.Table?
    requires AllAccessible(g, stored) && AllAccessible(g, rs) && AllAccessible(g, SlotKids(sl))
    requires forall x :: x in rs || x in SlotTrace(sl) ==> x in Trace(g, o) || x in stored
    ensures Inv(StoreTable(g, o, rs, sl, stored))
  {
    AccessibleIsLive(g, o);
    AccessibleLive(g, stored);
    AccessibleLive(g, rs);
    AccessibleLive(g, SlotKids(sl));
    StoreTableKeeps(g, o, rs, sl, stored);
  }

  lemma WriteObjectSafe(g: State, o: Ref, rs: seq<Ref>, stored: seq<Ref>)
    requires Inv(g) && Accessible(g, o) && o in g.objs && Plain(g.objs[o].kind)
    requires AllAccessible(g, stored) && AllAccessible(g, rs)
    requires forall x :: x in rs ==> x in Trace(g, o) || x in stored
    ensures Inv(StoreObj(g, o, rs, stored))
  {
    AccessibleIsLive(g, o);
    AccessibleLive(g, stored);
    AccessibleLive(g, rs);
    StoreObjKeeps(g, o, rs, stored);
  }

  /** The flags of an object: what its metatable says, and luaS_fix. */
  ghost predicate NewFlags(g: State, o: Ref, d: Cell) {
    && o in g.objs
    && d == g.objs[o].(weakkey := d.weakkey, weakvalue := d.weakvalue, hasgc := d.hasgc, fixed := d.fixed)
    && (d.fixed == g.objs[o].fixed || d.kind.Str?)
  }

  lemma FlagsRefs(g: State, o: Ref, d: Cell)
    requires NewFlags(g, o, d)
    ensures Kids(Update(g, o, d), o) == Kids(g, o) && Trace(Update(g, o, d), o) == Trace(g, o)
  {
    assert OpenRefs(Update(g, o, d), d) == OpenRefs(g, g.objs[o]);
  }

  lemma FlagsWrite(g: State, o: Ref, d: Cell)
    requires UpvalsOk(g) && Kinds(g) && NewFlags(g, o, d)
    ensures Writes(g, o, d)
  {
    PushedBelow(g, o, |g.objs[o].stack|);
    assert Shaped(g.objs[o]);
  }

  lemma SetFlagsSafe(g: State, o: Ref, d: Cell)
    requires Inv(g) && Accessible(g, o) && NewFlags(g, o, d)
    ensures Inv(Update(g, o, d))
  {
    AccessibleIsLive(g, o);
    FlagsWrite(g, o, d);
    FlagsRefs(g, o, d);
    assert AllLive(g, Kids(g, o));
    assert AllLive(g, StackRefs(d.stack)) by {
      assert forall x :: x in StackRefs(d.stack) ==> x in Kids(g, o);
    }
    UpdateKeeps(g, o, d);
  }

  // ----- allocation -----

  lemma CreateSafe(g: State, r: Ref, c: Cell)
    requires Inv(g) && FreshCell(g, r, c) && AllAccessible(g, c.refs) && AllAccessible(g, SlotKids(c.slots))
    ensures Inv(NewObject(g, r, c)) && Inv(Push(NewObject(g, r, c), Obj(r)))
  {
    AccessibleLive(g, c.refs);
    AccessibleLive(g, SlotKids(c.slots));
    NewObjectKeeps(g, r, c);
    PushKeeps(NewObject(g, r, c), Obj(r));
  }

  lemma CreateUdataSafe(g: State, r: Ref, rs: seq<Ref>, gc: bool)
    requires Inv(g) && r !in g.objs && AllAccessible(g, rs)
    ensures Inv(NewUdata(g, r, rs, gc)) && Inv(Push(NewUdata(g, r, rs, gc), Obj(r)))
  {
    AccessibleLive(g, rs);
    NewUdataKeeps(g, r, rs, gc);
    PushKeeps(NewUdata(g, r, rs, gc), Obj(r));
  }

  lemma MakeStringSafe(g: State, t: string, spare: Ref)
    requires Inv(g) && spare !in g.objs
    ensures var (h, s) := Intern(g, t, spare);
            g.objs.Keys <= h.objs.Keys && Inv(h) && Inv(Push(h, Obj(s)))
  {
    InternKeeps(g, t, spare);
    var (h, s) := Intern(g, t, spare);
    PushKeeps(h, Obj(s));
    InternKeys(g, t, spare);
  }

  lemma InternKeys(g: State, t: string, spare: Ref)
    requires g.strt != []
    ensures g.objs.Keys <= Intern(g, t, spare).0.objs.Keys
  {
  }

  lemma FindUpvalCells(g: State, t: Ref, level: nat, spare: Ref, o: Ref)
    requires t in g.objs && o in g.objs && g.objs[o].kind.Func? && spare !in g.objs
    ensures var (h, u) := FindUpval(g, t, level, spare);
            g.objs.Keys <= h.objs.Keys && h.objs[o].kind.Func?
  {
  }

  lemma CapturedWrite(h: State, o: Ref, u: Ref)
    requires LiveClosed(h) && IsLive(h, o) && h.objs[o].kind.Func? && IsLive(h, u)
    ensures ObjWrite(h, o, h.objs[o].refs + [u], [u])
  {
    assert AllLive(h, Kids(h, o));
    assert forall x :: x in h.objs[o].refs ==> x in Kids(h, o) && x in Trace(h, o);
  }

  lemma CapturedStore(h: State, o: Ref, u: Ref)
    requires Inv(h) && IsLive(h, o) && h.objs[o].kind.Func? && IsLive(h, u)
    ensures Inv(StoreObj(h, o, h.objs[o].refs + [u], [u]))
    ensures StoreObj(h, o, h.objs[o].refs + [u], [u]).objs.Keys == h.objs.Keys
  {
    CapturedWrite(h, o, u);
    StoreObjKeeps(h, o, h.objs[o].refs + [u], [u]);
    StoreObjKeys(h, o, h.objs[o].refs + [u], [u]);
  }

  lemma StoreObjKeys(g: State, o: Ref, rs: seq<Ref>, stored: seq<Ref>)
    requires o in g.objs
    ensures StoreObj(g, o, rs, stored).objs.Keys == g.objs.Keys
  {
    assert ObjData(g, o, rs).objs.Keys == g.objs.Keys;
  }

  lemma CaptureSafe(g: State, o: Ref, level: nat, spare: Ref)
    requires Inv(g) && Accessible(g, o) && o in g.objs && g.objs[o].kind.Func? && spare !in g.objs
    requires level < |g.objs[g.running].stack|
    ensures Inv(CaptureUpval(g, o, level, spare)) && g.objs.Keys <= CaptureUpval(g, o, level, spare).objs.Keys
  {
    AccessibleIsLive(g, o);
    assert g.running in Roots(g);
    var h, u := FindUpval(g, g.running, level, spare).0, FindUpval(g, g.running, level, spare).1;
    FindUpvalCells(g, g.running, level, spare, o);
    assert Inv(h) && IsLive(h, o) && IsLive(h, u) by {
      FindUpvalKeeps(g, g.running, level, spare);
    }
    CapturedStore(h, o, u);
  }

  // ----- roots -----

  lemma SetBasicMtSafe(g: State, rs: seq<Ref>)
    requires Inv(g) && AllAccessible(g, rs)
    ensures Inv(g.(mt := rs))
  {
    AccessibleLive(g, rs);
    RootsChange(g, g.(mt := rs));
  }

  lemma ResumeSafe(g: State, t: Ref)
    requires Inv(g) && Accessible(g, t) && t in g.objs && g.objs[t].kind.Thread?
    ensures Inv(g.(running := t))
  {
    AccessibleIsLive(g, t);
    RootsChange(g, g.(running := t));
  }

  lemma RootsChange(g: State, h: State)
    requires Inv(g) && h == g.(mt := h.mt, running := h.running)
    requires AllLive(g, h.mt) && IsLive(g, h.running) && g.objs[h.running].kind.Thread?
    ensures Inv(h)
  {
    RootsChangeShape(g, h);
    RootsChangeLive(g, h);
    RootsChangePhase(g, h);
  }

  lemma RootsChangeShape(g: State, h: State)
    requires WellFormed(g) && h == g.(mt := h.mt, running := h.running)
    requires AllLive(g, h.mt) && IsLive(g, h.running) && g.objs[h.running].kind.Thread?
    ensures WellFormed(h)
  {
    hide UpvalsOk, StringsOk;
    assert forall x :: x in h.mt ==> IsLive(g, x);
    assert forall q :: q in g.objs ==> Shaped(g.objs[q]);
    assert SameCells(g, h);
    SameStrings(g, h);
    SameUpvals(g, h);
  }

  lemma RootsChangeLive(g: State, h: State)
    requires LiveClosed(g) && h == g.(mt := h.mt, running := h.running)
    requires AllLive(g, h.mt) && IsLive(g, h.running)
    ensures LiveClosed(h)
  {
    assert forall x :: IsLive(h, x) == IsLive(g, x);
    forall x | x in Roots(h) ensures IsLive(h, x) {
      assert x in Roots(g) || x in h.mt || x == h.running;
    }
    forall q | IsLive(h, q) ensures AllLive(h, Kids(h, q)) {
      SameRefs(g, h, q);
      assert AllLive(g, Kids(g, q));
    }
  }

  lemma RootsChangePhase(g: State, h: State)
    requires g.strt != [] && PhaseOk(g) && h == g.(mt := h.mt, running := h.running)
    ensures PhaseOk(h)
  {
    assert forall x :: IsDead(h, x) == IsDead(g, x);
    match g.phase
    case Pause =>
    case Finalize =>
    case Propagate =>
      SameMarks(g, h, MutatorSlack(g));
      assert MutatorSlack(h) == MutatorSlack(g);
    case SweepString => RootsChangeSweep(g, h);
    case Sweep => RootsChangeSweep(g, h);
  }

  lemma RootsChangeSweep(g: State, h: State)
    requires g.strt != [] && SweepOk(g) && h == g.(mt := h.mt, running := h.running)
    ensures SweepOk(h)
  {
    forall r | r in h.objs && r !in h.tmudata && !Unswept(h, r) ensures h.objs[r].color == White(h.cur) {
      assert Bucket(h, h.objs[r].text) == Bucket(g, g.objs[r].text);
      assert !Unswept(g, r);
    }
  }

  // ----- luaF_close frees dead upvalues only -----

  ghost predicate FreesDead(g: State, h: State) {
    && h.cur == g.cur
    && (forall x :: x in g.objs && x !in h.objs ==> IsDead(g, x))
    && (forall x :: x in g.objs && IsDead(h, x) ==> IsDead(g, x))
  }

  lemma CloseLiveDead(g: State, t: Ref)
    requires HasOpen(g, t)
    ensures FreesDead(g, CloseLive(g, t))
  {
    CloseLiveCells(g, t);
  }

  lemma MarksDead(g: State, h: State)
    requires Marks(g, h)
    ensures FreesDead(g, h)
  {
  }

  lemma CloseOneFrees(g: State, t: Ref)
    requires HasOpen(g, t)
    ensures FreesDead(g, CloseOne(g, t))
  {
    var u, h := FirstOpen(g, t), CloseLive(g, t);
    CloseOneCases(g, t);
    if IsDead(g, u) {
      FirstOpenAt(g, t);
    } else {
      CloseLiveDead(g, t);
      if g.objs[u].color.Gray? && g.phase.Propagate? {
        CloseLiveCells(g, t);
        MarksDead(h, MarkAll(h, h.objs[u].refs));
      }
    }
  }

  lemma {:induction false} CloseFrees(g: State, t: Ref, level: nat, x: Ref)
    requires Inv(g) && t in g.objs && x in g.objs && x !in CloseUpvals(g, t, level).objs
    ensures IsDead(g, x)
    decreases |g.objs[t].openupval|
  {
    if g.objs[t].openupval != [] && LevelOf(g, g.objs[t].openupval[0]) >= level {
      OpenHasOpen(g, t);
      CloseOneKeeps(g, t);
      CloseOneFrees(g, t);
      if x in CloseOne(g, t).objs {
        CloseFrees(CloseOne(g, t), t, level, x);
      }
    }
  }

  // ----- luaC_fullgc starting over -----

  lemma AbandonSafe(g: State)
    requires Inv(g) && (g.phase.Pause? || g.phase.Propagate?)
    ensures Inv(Abandon(g)) && NoDead(Abandon(g))
  {
    var h := Abandon(g);
    assert forall x :: IsDead(h, x) == IsDead(g, x);
    AbandonShape(g);
    ClosedNoDangling(g);
    forall q | q in g.objs ensures Kids(h, q) == Kids(g, q) {
      SameRefs(g, h, q);
    }
    NoDeadClosed(h);
    AbandonSweep(g);
  }

  lemma AbandonShape(g: State)
    requires WellFormed(g)
    ensures WellFormed(Abandon(g))
  {
    assert forall q :: q in g.objs ==> Shaped(g.objs[q]);
    WellFormedFrame(g, Abandon(g));
  }

  lemma AbandonSweep(g: State)
    requires RootsOk(g) && RootListOk(g) && UpvalsOk(g) && g.strt != []
    ensures SweepOk(Abandon(g))
  {
    var h := Abandon(g);
    assert h.rootgc[h.sweepgc..] == h.rootgc;
    forall r | r in h.objs && r !in h.tmudata ensures Unswept(h, r) {
    }
  }

  // ----- one step of a run -----

  lemma ProgramStores(g: State, op: Op)
    requires Inv(g) && Enabled(g, op)
    requires IsStore(op)
    ensures Inv(Apply(g, op)) && g.objs.Keys <= Apply(g, op).objs.Keys
  {
    hide Inv, StoreObj, Accessible, AllAccessible;
    match op
    case SetSlots(t, st) => SetSlotsSafe(g, t, st);
    case SetEnv(t, rs) => SetEnvSafe(g, t, rs);
    case WriteTable(o, rs, sl, stored) => WriteTableSafe(g, o, rs, sl, stored);
    case WriteObject(o, rs, stored) =>
      WriteObjectSafe(g, o, rs, stored);
      StoreObjKeys(g, o, rs, stored);
    case SetModes(o, wk, wv, gc) => SetFlagsSafe(g, o, g.objs[o].(weakkey := wk, weakvalue := wv, hasgc := gc));
    case FixString(o) => SetFlagsSafe(g, o, g.objs[o].(fixed := true));
  }

  lemma ProgramCreates(g: State, op: Op)
    requires Inv(g) && Enabled(g, op)
    requires IsCreation(op)
    ensures Inv(Apply(g, op)) && g.objs.Keys <= Apply(g, op).objs.Keys
  {
    hide LiveClosed, PhaseOk, WellFormed;
    match op
    case Create(r, c) => CreateSafe(g, r, c);
    case CreateUdata(r, rs, gc) => CreateUdataSafe(g, r, rs, gc);
    case MakeString(t, spare) => MakeStringSafe(g, t, spare);
    case Capture(o, level, spare) => CaptureSafe(g, o, level, spare);
  }

  lemma ProgramRoots(g: State, op: Op)
    requires Inv(g) && Enabled(g, op) && (op.SetBasicMt? || op.Resume?)
    ensures Inv(Apply(g, op)) && g.objs.Keys <= Apply(g, op).objs.Keys
  {
    match op
    case SetBasicMt(rs) => SetBasicMtSafe(g, rs);
    case Resume(t) => ResumeSafe(g, t);
  }

  lemma CollectorRestarts(g: State, op: Op)
    requires Inv(g) && Enabled(g, op) && (op.RestartSweep? || op.RestartMark?)
    ensures Inv(Apply(g, op)) && g.objs.Keys <= Apply(g, op).objs.Keys
  {
    match op
    case RestartSweep => AbandonSafe(g);
    case RestartMark =>
      MarkRootKeeps(g);
      MarkRootDarkens(g);
  }

  lemma ReachableIsLive(g: State, x: Ref)
    requires Inv(g) && Accessible(g, x)
    ensures IsLive(g, x)
  {
    AccessibleIsLive(g, x);
  }

  lemma ProgramCloses(g: State, op: Op)
    requires Inv(g) && Enabled(g, op) && op.CloseTo?
    ensures Inv(Apply(g, op)) && forall x :: x in g.objs && x !in Apply(g, op).objs ==> IsDead(g, x)
  {
    hide RootListOk, StringsOk, UpvalsOk, LiveClosed, PhaseOk;
    forall x | x in g.objs && x !in Apply(g, op).objs ensures IsDead(g, x) {
      CloseFrees(g, g.running, op.level, x);
    }
  }

  lemma CollectorSteps(g: State, op: Op)
    requires Inv(g) && Enabled(g, op) && op.CollectorStep?
    ensures Inv(Apply(g, op)) && forall x :: Accessible(g, x) ==> x in Apply(g, op).objs
  {
    hide Inv, SingleStep, SweepingStep, Accessible;
    if Sweeping(g) {
      SweepStepsKeep(g);
    } else {
      MarkStepKeeps(g);
    }
    forall x | Accessible(g, x) ensures x in Apply(g, op).objs {
      SingleStepSafe(g, x);
    }
  }

  lemma StepKeeps(g: State, op: Op)
    requires Inv(g) && Enabled(g, op)
    ensures Inv(Apply(g, op))
  {
    hide Inv, Enabled, Apply;
    if op.CloseTo? {
      ProgramCloses(g, op);
    } else if op.CollectorStep? {
      CollectorSteps(g, op);
    } else if op.SetBasicMt? || op.Resume? {
      ProgramRoots(g, op);
    } else if op.RestartSweep? || op.RestartMark? {
      CollectorRestarts(g, op);
    } else if IsCreation(op) {
      ProgramCreates(g, op);
    } else {
      ProgramStores(g, op);
    }
  }

  /** No step frees an object the program can reach. */
  lemma StepSafe(g: State, op: Op, x: Ref)
    requires Inv(g) && Enabled(g, op) && Accessible(g, x)
    ensures x in g.objs && x in Apply(g, op).objs
  {
    hide Inv, Enabled, Apply, Accessible;
    ReachableIsLive(g, x);
    if op.CloseTo? {
      ProgramCloses(g, op);
    } else if op.CollectorStep? {
      CollectorSteps(g, op);
    } else if op.SetBasicMt? || op.Resume? {
      ProgramRoots(g, op);
    } else if op.RestartSweep? || op.RestartMark? {
      CollectorRestarts(g, op);
    } else if IsCreation(op) {
      ProgramCreates(g, op);
    } else {
      ProgramStores(g, op);
    }
  }

  // ----- programs leave the phase alone -----

  predicate IsProgram(op: Op) {
    !op.CollectorStep? && !op.RestartSweep? && !op.RestartMark?
  }

  ghost predicate SameCycle(g: State, h: State) {
    h.phase == g.phase && h.tmudata == g.tmudata
  }

  lemma StoreCycle(g: State, op: Op)
    requires Inv(g) && Enabled(g, op) && IsStore(op)
    ensures SameCycle(g, ApplyStore(g, op))
  {
    hide WellFormed, LiveClosed, PhaseOk;
  }

  lemma CreationCycle(g: State, op: Op)
    requires Inv(g) && Enabled(g, op) && IsCreation(op)
    ensures SameCycle(g, ApplyCreation(g, op))
  {
    hide Inv, Intern, FindUpval, StoreObj;
    match op
    case Create(r, c) =>
    case CreateUdata(r, rs, gc) =>
    case MakeString(t, spare) => MadeCycle(g, t, spare);
    case Capture(o, level, spare) => CaptureCycle(g, o, level, spare);
  }

  lemma MadeCycle(g: State, t: string, spare: Ref)
    requires Inv(g) && spare !in g.objs
    ensures SameCycle(g, MadeString(g, t, spare))
  {
    hide LiveClosed, PhaseOk, RootListOk, UpvalsOk, Kinds;
    InternKeeps(g, t, spare);
  }

  lemma CaptureCycle(g: State, o: Ref, level: nat, spare: Ref)
    requires g.running in g.objs && o in g.objs
    ensures SameCycle(g, CaptureUpval(g, o, level, spare))
  {
  }

  lemma {:induction false} CloseCycle(g: State, t: Ref, level: nat)
    requires Inv(g) && t in g.objs
    ensures SameCycle(g, CloseUpvals(g, t, level))
    decreases |g.objs[t].openupval|
  {
    hide WellFormed, LiveClosed, PhaseOk;
    if g.objs[t].openupval != [] && LevelOf(g, g.objs[t].openupval[0]) >= level {
      CloseOneKeeps(g, t);
      CloseCycle(CloseOne(g, t), t, level);
    }
  }

  lemma ProgramCycle(g: State, op: Op)
    requires Inv(g) && Enabled(g, op) && IsProgram(op)
    ensures SameCycle(g, Apply(g, op))
  {
    hide LiveClosed, PhaseOk, RootListOk, UpvalsOk, StringsOk, Kinds, ApplyStore, ApplyCreation;
    if IsStore(op) {
      StoreCycle(g, op);
    } else if IsCreation(op) {
      CreationCycle(g, op);
    } else if op.CloseTo? {
      CloseCycle(g, g.running, op.level);
    }
  }

  /** `ops` is something a program can do in `g`. */
  ghost predicate Scripted(g: State, ops: seq<Op>)
    decreases |ops|
  {
    Inv(g) && (ops == [] || (IsProgram(ops[0]) && Enabled(g, ops[0]) && Scripted(Apply(g, ops[0]), ops[1..])))
  }
}
