/** Loading what was dumped. */
module ChunkTrip {
  import opened ChunkFormat

  const BAD_INTEGER := "bad integer"

  // ----- which values a chunk can hold -----

  predicate StringFits(m: Machine, s: Option<Text>) {
    s.Some? ==> |s.value| + 1 < Pow256(m.sizeSize)
  }

  predicate ConstFits(m: Machine, c: Const) {
    && (c.NumberK? ==> |c.raw| == m.numSize)
    && (c.StringK? ==> StringFits(m, c.s))
  }

  predicate LocVarFits(m: Machine, v: LocVar) {
    StringFits(m, v.varname) && IntFits(m, v.startpc) && IntFits(m, v.endpc)
  }

  predicate HeadFits(m: Machine, h: Head) {
    StringFits(m, h.source) && IntFits(m, h.linedefined) && IntFits(m, h.lastlinedefined)
  }

  predicate DebugFits(m: Machine, d: Debug) {
    && IntFits(m, |d.lineinfo|) && (forall x :: x in d.lineinfo ==> IntFits(m, x))
    && IntFits(m, |d.locvars|) && (forall v :: v in d.locvars ==> LocVarFits(m, v))
    && IntFits(m, |d.upvalues|) && (forall s :: s in d.upvalues ==> StringFits(m, s))
  }

  predicate FunctionFits(m: Machine, f: Proto) {
    && HeadFits(m, f.head) && DebugFits(m, f.debug)
    && IntFits(m, |f.code|) && (forall i :: i in f.code ==> i < Pow256(m.instrSize))
    && IntFits(m, |f.k|) && (forall c :: c in f.k ==> ConstFits(m, c))
    && IntFits(m, |f.p|) && FunctionsFit(m, f.p)
  }

  predicate FunctionsFit(m: Machine, ps: seq<Proto>) {
    ps == [] || (FunctionFits(m, ps[0]) && FunctionsFit(m, ps[1..]))
  }

  // ----- which of them LoadInt lets through -----

  predicate LocVarReadable(v: LocVar) {
    v.startpc >= 0 && v.endpc >= 0
  }

  predicate DebugReadable(d: Debug) {
    forall v :: v in d.locvars ==> LocVarReadable(v)
  }

  predicate HeadReadable(h: Head) {
    h.linedefined >= 0 && h.lastlinedefined >= 0
  }

  /** No line number is negative, and no position of a local variable that is dumped. */
  predicate Readable(f: Proto, strip: bool) {
    HeadReadable(f.head) && AllReadable(f.p, strip) && DebugReadable(Shown(f.debug, strip))
  }

  predicate AllReadable(ps: seq<Proto>, strip: bool) {
    ps == [] || (Readable(ps[0], strip) && AllReadable(ps[1..], strip))
  }

  // ----- what comes back -----

  function SourceOf(h: Head, p: Option<Text>, q: Option<Text>, strip: bool): Option<Text> {
    if h.source == p || strip || h.source.None? then q else h.source
  }

  /** `f`, dumped inside source `p` and loaded inside source `q`. */
  function Rebuilt(f: Proto, p: Option<Text>, q: Option<Text>, strip: bool): Proto {
    var source := SourceOf(f.head, p, q, strip);
    Proto(f.head.(source := source), f.code, f.k, RebuiltAll(f.p, f.head.source, source, strip), Shown(f.debug, strip))
  }

  function RebuiltAll(ps: seq<Proto>, p: Option<Text>, q: Option<Text>, strip: bool): seq<Proto> {
    if ps == [] then [] else [Rebuilt(ps[0], p, q, strip)] + RebuiltAll(ps[1..], p, q, strip)
  }

  predicate Accepted(ok: Proto -> bool, f: Proto) {
    ok(f) && AllAccepted(ok, f.p)
  }

  predicate AllAccepted(ok: Proto -> bool, ps: seq<Proto>) {
    ps == [] || (Accepted(ok, ps[0]) && AllAccepted(ok, ps[1..]))
  }

  function Outcome<T>(good: bool, x: T, rest: seq<Byte>): Parsed<T> {
    if good then Done(x, rest) else Fail(BAD_INTEGER)
  }

  // ----- single items -----

  lemma BlockLoads(b: seq<Byte>, rest: seq<Byte>)
    ensures ParseBlock(|b|, b + rest) == Done(b, rest)
  {
    assert (b + rest)[..|b|] == b && (b + rest)[|b|..] == rest;
  }

  lemma ByteLoads(b: Byte, rest: seq<Byte>)
    ensures ParseByte([b] + rest) == Done(b, rest)
  {
    BlockLoads([b], rest);
  }

  lemma IntLoads(m: Machine, x: int, rest: seq<Byte>)
    requires IntFits(m, x)
    ensures ParseInt(m, IntWord(m, x) + rest) == if x < 0 then Fail(BAD_INTEGER) else Done(x, rest)
  {
    BlockLoads(IntWord(m, x), rest);
    IntBack(m, x);
  }

  lemma StringLoads(m: Machine, s: Option<Text>, rest: seq<Byte>)
    requires StringFits(m, s)
    ensures ParseString(m, StringBytes(m, s) + rest) == Done(s, rest)
  {
    var size := if s.None? then 0 else |s.value| + 1;
    var w, t := Word(m, size, m.sizeSize), if s.None? then [] else s.value + [0];
    assert StringBytes(m, s) + rest == w + (t + rest);
    BlockLoads(w, t + rest);
    WordBack(m, size, m.sizeSize);
    BlockLoads(t, rest);
    assert s.Some? ==> t[..size - 1] == s.value;
  }

  lemma ConstLoads(m: Machine, c: Const, rest: seq<Byte>)
    requires ConstFits(m, c)
    ensures ParseConst(m, ConstBytes(m, c) + rest) == Done(c, rest)
  {
    hide StringBytes, ParseString, StringFits;
    var b := ConstBytes(m, c);
    var u := b[1..];
    assert b == [b[0]] + u && b + rest == [b[0]] + (u + rest);
    ByteLoads(b[0], u + rest);
    match c
    case NilK =>
      assert u + rest == rest;
    case BoolK(v) =>
      ByteLoads(if v then 1 else 0, rest);
    case NumberK(raw) =>
      assert u == raw;
      BlockLoads(raw, rest);
    case StringK(s) =>
      assert u == StringBytes(m, s);
      StringLoads(m, s, rest);
  }

  lemma LocVarLoads(m: Machine, v: LocVar, rest: seq<Byte>)
    requires LocVarFits(m, v)
    ensures ParseLocVar(m, LocVarBytes(m, v) + rest) == Outcome(LocVarReadable(v), v, rest)
  {
    hide StringBytes, ParseString, StringFits, IntWord, ParseInt;
    var a, b := IntWord(m, v.startpc), IntWord(m, v.endpc);
    assert LocVarBytes(m, v) + rest == StringBytes(m, v.varname) + (a + (b + rest));
    StringLoads(m, v.varname, a + (b + rest));
    IntLoads(m, v.startpc, b + rest);
    IntLoads(m, v.endpc, rest);
  }

  // ----- counted items -----

  ghost predicate Inverse<T(!new)>(item: seq<Byte> -> Parsed<T>, enc: T -> seq<Byte>, x: T, good: bool) {
    forall rest :: item(enc(x) + rest) == Outcome(good, x, rest)
  }

  lemma {:induction false} ItemsLoad<T(!new)>(item: seq<Byte> -> Parsed<T>, enc: T -> seq<Byte>, good: T -> bool,
                                              xs: seq<T>, rest: seq<Byte>, got: seq<T>)
    requires Shrinks(item) && forall x :: x in xs ==> Inverse(item, enc, x, good(x))
    ensures ParseItems(item, |xs|, Bytes(enc, xs) + rest, got)
         == Outcome(forall x :: x in xs ==> good(x), got + xs, rest)
  {
    if xs == [] {
      assert Bytes(enc, xs) + rest == rest && got + xs == got;
    } else {
      var x, ys := xs[0], xs[1..];
      assert xs == [x] + ys;
      assert Bytes(enc, xs) + rest == enc(x) + (Bytes(enc, ys) + rest);
      assert Inverse(item, enc, x, good(x));
      ItemsLoad(item, enc, good, ys, rest, got + [x]);
      assert got + [x] + ys == got + xs;
    }
  }

  lemma CountedLoads<T(!new)>(m: Machine, item: seq<Byte> -> Parsed<T>, enc: T -> seq<Byte>, good: T -> bool,
                              xs: seq<T>, rest: seq<Byte>)
    requires Shrinks(item) && IntFits(m, |xs|) && forall x :: x in xs ==> Inverse(item, enc, x, good(x))
    ensures ParseCounted(m, item, Counted(m, enc, xs) + rest) == Outcome(forall x :: x in xs ==> good(x), xs, rest)
  {
    var w, b := IntWord(m, |xs|), Bytes(enc, xs);
    assert Counted(m, enc, xs) + rest == w + (b + rest);
    IntLoads(m, |xs|, b + rest);
    ItemsLoad(item, enc, good, xs, rest, []);
    assert [] + xs == xs;
  }

  lemma {:induction false} CutBack<T(!new)>(from: seq<Byte> -> T, enc: T -> seq<Byte>, k: nat, xs: seq<T>)
    requires forall x :: x in xs ==> |enc(x)| == k && from(enc(x)) == x
    ensures |Bytes(enc, xs)| == |xs| * k && Cut(from, |xs|, k, Bytes(enc, xs)) == xs
  {
    if xs != [] {
      var x, ys := xs[0], xs[1..];
      CutBack(from, enc, k, ys);
      var b := Bytes(enc, xs);
      assert b[..k] == enc(x) && b[k..] == Bytes(enc, ys);
      assert |xs| * k == k + |ys| * k;
    }
  }

  lemma VectorLoads<T(!new)>(m: Machine, from: seq<Byte> -> T, enc: T -> seq<Byte>, k: nat, xs: seq<T>, rest: seq<Byte>)
    requires IntFits(m, |xs|) && forall x :: x in xs ==> |enc(x)| == k && from(enc(x)) == x
    ensures ParseVector(m, from, k, Counted(m, enc, xs) + rest) == Done(xs, rest)
  {
    var w, b := IntWord(m, |xs|), Bytes(enc, xs);
    assert Counted(m, enc, xs) + rest == w + (b + rest);
    IntLoads(m, |xs|, b + rest);
    CutBack(from, enc, k, xs);
    BlockLoads(b, rest);
  }

  // ----- functions -----

  lemma RegroupHead(s: seq<Byte>, a: seq<Byte>, b: seq<Byte>, c: seq<Byte>, rest: seq<Byte>)
    ensures s + (a + (b + c)) + rest == s + (a + (b + (c + rest)))
  {
  }

  lemma HeadLoads(m: Machine, h: Head, p: Option<Text>, q: Option<Text>, strip: bool, rest: seq<Byte>)
    requires HeadFits(m, h)
    ensures ParseHead(m, q, HeadBytes(m, h, p, strip) + rest)
         == Outcome(HeadReadable(h), h.(source := SourceOf(h, p, q, strip)), rest)
  {
    hide StringBytes, IntWord, ParseString, ParseInt, ParseByte, IntFits;
    var s := if h.source == p || strip then None else h.source;
    var a, b := IntWord(m, h.linedefined), IntWord(m, h.lastlinedefined);
    var r1 := [h.maxstacksize] + rest;
    var r2 := [h.isVararg] + r1;
    var r3 := [h.numparams] + r2;
    var r4 := [h.nups] + r3;
    assert [h.nups, h.numparams, h.isVararg, h.maxstacksize] + rest == r4;
    RegroupHead(StringBytes(m, s), a, b, [h.nups, h.numparams, h.isVararg, h.maxstacksize], rest);
    StringLoads(m, s, a + (b + r4));
    IntLoads(m, h.linedefined, b + r4);
    IntLoads(m, h.lastlinedefined, r4);
    ByteLoads(h.nups, r3);
    ByteLoads(h.numparams, r2);
    ByteLoads(h.isVararg, r1);
    ByteLoads(h.maxstacksize, rest);
  }

  lemma DebugLoads(m: Machine, d: Debug, strip: bool, rest: seq<Byte>)
    requires DebugFits(m, d)
    ensures ParseDebug(m, DebugBytes(m, d, strip) + rest)
         == Outcome(DebugReadable(Shown(d, strip)), Shown(d, strip), rest)
  {
    var e := Shown(d, strip);
    var l, v, u := Counted(m, Ints(m), e.lineinfo), Counted(m, LocVars(m), e.locvars),
      Counted(m, Strings(m), e.upvalues);
    assert DebugBytes(m, d, strip) + rest == l + (v + (u + rest));
    assert Pow256(m.intSize) > 0;
    forall x | x in e.lineinfo ensures FromIntWord(m)(Ints(m)(x)) == x {
      IntBack(m, x);
    }
    VectorLoads(m, FromIntWord(m), Ints(m), m.intSize, e.lineinfo, v + (u + rest));
    LocVarsLoad(m, e.locvars, u + rest);
    UpvaluesLoad(m, e.upvalues, rest);
  }

  lemma LocVarsLoad(m: Machine, vs: seq<LocVar>, rest: seq<Byte>)
    requires IntFits(m, |vs|) && forall v :: v in vs ==> LocVarFits(m, v)
    ensures ParseCounted(m, LocVarItem(m), Counted(m, LocVars(m), vs) + rest)
         == Outcome(forall v :: v in vs ==> LocVarReadable(v), vs, rest)
  {
    var good := v => LocVarReadable(v);
    forall v | v in vs ensures Inverse(LocVarItem(m), LocVars(m), v, good(v)) {
      forall r ensures LocVarItem(m)(LocVars(m)(v) + r) == Outcome(good(v), v, r) {
        LocVarLoads(m, v, r);
      }
    }
    CountedLoads(m, LocVarItem(m), LocVars(m), good, vs, rest);
  }

  lemma UpvaluesLoad(m: Machine, ss: seq<Option<Text>>, rest: seq<Byte>)
    requires IntFits(m, |ss|) && forall s :: s in ss ==> StringFits(m, s)
    ensures ParseCounted(m, StringItem(m), Counted(m, Strings(m), ss) + rest) == Done(ss, rest)
  {
    var good := (s: Option<Text>) => true;
    forall s | s in ss ensures Inverse(StringItem(m), Strings(m), s, good(s)) {
      forall r ensures StringItem(m)(Strings(m)(s) + r) == Outcome(good(s), s, r) {
        StringLoads(m, s, r);
      }
    }
    CountedLoads(m, StringItem(m), Strings(m), good, ss, rest);
  }

  lemma ConstsLoad(m: Machine, cs: seq<Const>, rest: seq<Byte>)
    requires IntFits(m, |cs|) && forall c :: c in cs ==> ConstFits(m, c)
    ensures ParseCounted(m, ConstItem(m), Counted(m, Consts(m), cs) + rest) == Done(cs, rest)
  {
    var good := (c: Const) => true;
    forall c | c in cs ensures Inverse(ConstItem(m), Consts(m), c, good(c)) {
      forall r ensures ConstItem(m)(Consts(m)(c) + r) == Outcome(good(c), c, r) {
        ConstLoads(m, c, r);
      }
    }
    CountedLoads(m, ConstItem(m), Consts(m), good, cs, rest);
  }

  lemma CodeLoads(m: Machine, code: seq<nat>, rest: seq<Byte>)
    requires IntFits(m, |code|) && forall i :: i in code ==> i < Pow256(m.instrSize)
    ensures ParseVector<nat>(m, FromInstr(m), m.instrSize, Counted(m, Instrs(m), code) + rest) == Done(code, rest)
  {
    forall i | i in code ensures FromInstr(m)(Instrs(m)(i)) == i {
      WordBack(m, i, m.instrSize);
    }
    VectorLoads(m, FromInstr(m), Instrs(m), m.instrSize, code, rest);
  }

  lemma Regroup(a: seq<Byte>, b: seq<Byte>, c: seq<Byte>, d: seq<Byte>, e: seq<Byte>, f: seq<Byte>, rest: seq<Byte>)
    ensures a + (b + (c + (d + (e + f)))) + rest == a + (b + (c + (d + (e + (f + rest)))))
  {
    assert d + (e + f) + rest == d + (e + (f + rest));
    assert b + (c + (d + (e + f))) + rest == b + (c + (d + (e + f) + rest));
  }

  /** A dumped function is rebuilt and exactly its bytes are consumed, unless a
      negative integer stops the load. */
  lemma {:induction false} FunctionLoads(m: Machine, ok: Proto -> bool, f: Proto, p: Option<Text>, q: Option<Text>,
                                         strip: bool, rest: seq<Byte>)
    requires IsMachine(m) && FunctionFits(m, f) && Accepted(ok, Rebuilt(f, p, q, strip))
    ensures ParseFunction(m, ok, q, FunctionBytes(m, f, p, strip) + rest)
         == Outcome(Readable(f, strip), Rebuilt(f, p, q, strip), rest)
    decreases f, 0
  {
    hide HeadBytes, DebugBytes, Counted, FunctionsBytes, IntWord, ParseHead, ParseVector, ParseCounted, ParseInt,
         ParseDebug, ParseFunctions, HeadFits, DebugFits, FunctionsFit, HeadReadable, DebugReadable, AllReadable,
         RebuiltAll, AllAccepted, SourceOf, IsMachine, Pow256;
    var s6 := rest;
    var s5 := DebugBytes(m, f.debug, strip) + s6;
    var s4 := FunctionsBytes(m, f.p, f.head.source, strip) + s5;
    var s3 := IntWord(m, |f.p|) + s4;
    var s2 := Counted(m, Consts(m), f.k) + s3;
    var s1 := Counted(m, Instrs(m), f.code) + s2;
    Regroup(HeadBytes(m, f.head, p, strip), Counted(m, Instrs(m), f.code), Counted(m, Consts(m), f.k),
            IntWord(m, |f.p|), FunctionsBytes(m, f.p, f.head.source, strip), DebugBytes(m, f.debug, strip), rest);
    HeadLoads(m, f.head, p, q, strip, s1);
    CodeLoads(m, f.code, s2);
    ConstsLoad(m, f.k, s3);
    IntLoads(m, |f.p|, s4);
    FunctionsLoad(m, ok, f.p, f.head.source, SourceOf(f.head, p, q, strip), strip, s5, []);
    assert [] + RebuiltAll(f.p, f.head.source, SourceOf(f.head, p, q, strip), strip)
        == RebuiltAll(f.p, f.head.source, SourceOf(f.head, p, q, strip), strip);
    DebugLoads(m, f.debug, strip, s6);
  }

  lemma {:induction false} FunctionsLoad(m: Machine, ok: Proto -> bool, ps: seq<Proto>, p: Option<Text>,
                                         q: Option<Text>, strip: bool, rest: seq<Byte>, got: seq<Proto>)
    requires IsMachine(m) && FunctionsFit(m, ps) && AllAccepted(ok, RebuiltAll(ps, p, q, strip))
    ensures ParseFunctions(m, ok, |ps|, q, FunctionsBytes(m, ps, p, strip) + rest, got)
         == Outcome(AllReadable(ps, strip), got + RebuiltAll(ps, p, q, strip), rest)
    decreases ps, 0
  {
    hide FunctionBytes, ParseFunction, Rebuilt, Readable, Accepted, FunctionFits, IsMachine;
    if ps == [] {
      assert FunctionsBytes(m, ps, p, strip) + rest == rest && got + RebuiltAll(ps, p, q, strip) == got;
    } else {
      var f, fs := ps[0], ps[1..];
      var s1 := FunctionsBytes(m, fs, p, strip) + rest;
      assert FunctionsBytes(m, ps, p, strip) + rest == FunctionBytes(m, f, p, strip) + s1;
      var g, gs := Rebuilt(f, p, q, strip), RebuiltAll(fs, p, q, strip);
      assert RebuiltAll(ps, p, q, strip) == [g] + gs && RebuiltAll(ps, p, q, strip)[1..] == gs;
      FunctionLoads(m, ok, f, p, q, strip, s1);
      FunctionsLoad(m, ok, fs, p, q, strip, rest, got + [g]);
      assert got + [g] + gs == got + RebuiltAll(ps, p, q, strip);
    }
  }

  // ----- chunks -----

  /** luaU_undump of what luaU_dump wrote. */
  lemma ChunkLoads(m: Machine, ok: Proto -> bool, f: Proto, strip: bool, rest: seq<Byte>)
    requires IsMachine(m) && FunctionFits(m, f) && Accepted(ok, Rebuilt(f, None, Some(NO_SOURCE), strip))
    ensures ParseChunk(m, ok, ChunkBytes(m, f, strip) + rest)
         == Outcome(Readable(f, strip), Rebuilt(f, None, Some(NO_SOURCE), strip), rest)
  {
    var b := FunctionBytes(m, f, None, strip);
    assert ChunkBytes(m, f, strip) + rest == Header(m) + (b + rest);
    BlockLoads(Header(m), b + rest);
    FunctionLoads(m, ok, f, None, Some(NO_SOURCE), strip, rest);
  }

  /** Every function has a source. */
  predicate Named(f: Proto) {
    f.head.source.Some? && AllNamed(f.p)
  }

  predicate AllNamed(ps: seq<Proto>) {
    ps == [] || (Named(ps[0]) && AllNamed(ps[1..]))
  }

  lemma {:induction false} RebuiltSame(f: Proto, p: Option<Text>, q: Option<Text>)
    requires q.Some? && (f.head.source == p && p.Some? ==> p == q)
    ensures Rebuilt(f, p, q, false) == f <==> Named(f)
    decreases f, 0
  {
    var source := SourceOf(f.head, p, q, false);
    if f.head.source.Some? {
      RebuiltAllSame(f.p, f.head.source, source);
    }
  }

  lemma {:induction false} RebuiltAllSame(ps: seq<Proto>, p: Option<Text>, q: Option<Text>)
    requires q.Some? && p == q
    ensures RebuiltAll(ps, p, q, false) == ps <==> AllNamed(ps)
    decreases ps, 0
  {
    if ps != [] {
      RebuiltSame(ps[0], p, q);
      RebuiltAllSame(ps[1..], p, q);
      var rs := RebuiltAll(ps, p, q, false);
      assert rs[0] == Rebuilt(ps[0], p, q, false) && rs[1..] == RebuiltAll(ps[1..], p, q, false);
      assert ps == [ps[0]] + ps[1..];
    }
  }

  /** Without stripping the same tree comes back exactly when it holds no negative
      line or position and every function has a source. */
  lemma RoundTrip(m: Machine, ok: Proto -> bool, f: Proto, rest: seq<Byte>)
    requires IsMachine(m) && FunctionFits(m, f) && Accepted(ok, Rebuilt(f, None, Some(NO_SOURCE), false))
    ensures ParseChunk(m, ok, ChunkBytes(m, f, false) + rest) == Done(f, rest) <==> Readable(f, false) && Named(f)
  {
    ChunkLoads(m, ok, f, false, rest);
    RebuiltSame(f, None, Some(NO_SOURCE));
  }

  /** A chunk from a machine of another kind is refused, whatever follows its header. */
  lemma OtherMachine(m: Machine, m2: Machine, ok: Proto -> bool, rest: seq<Byte>)
    requires IsMachine(m) && IsMachine(m2)
    ensures ParseChunk(m2, ok, Header(m) + rest) == Fail("bad header") <== m != m2
  {
    BlockLoads(Header(m), rest);
    assert m != m2 ==> Header(m) != Header(m2) by {
      assert Header(m)[6] == (if m.little then 1 else 0) && Header(m2)[6] == (if m2.little then 1 else 0);
      assert Header(m)[7] == m.intSize && Header(m2)[7] == m2.intSize;
      assert Header(m)[8] == m.sizeSize && Header(m2)[8] == m2.sizeSize;
      assert Header(m)[9] == m.instrSize && Header(m2)[9] == m2.instrSize;
      assert Header(m)[10] == m.numSize && Header(m2)[10] == m2.numSize;
      assert Header(m)[11] == (if m.integral then 1 else 0) && Header(m2)[11] == (if m2.integral then 1 else 0);
    }
  }

  // ----- what the loader returns -----

  lemma {:induction false} DigitsBound(s: seq<Byte>)
    ensures FromDigits(s) < Pow256(|s|)
  {
    if s != [] {
      DigitsBound(s[1..]);
    }
  }

  lemma WordBound(m: Machine, s: seq<Byte>)
    ensures FromWord(m, s) < Pow256(|s|)
    ensures |s| == m.intSize ==> IntFits(m, FromInt(m, s))
  {
    DigitsBound(if m.little then s else Reversed(s));
  }

  lemma IntParsed(m: Machine, s: seq<Byte>)
    ensures ParseInt(m, s).Done? ==> IntFits(m, ParseInt(m, s).value)
  {
    if m.intSize <= |s| {
      WordBound(m, s[..m.intSize]);
    }
  }

  lemma StringParsed(m: Machine, s: seq<Byte>)
    ensures ParseString(m, s).Done? ==> StringFits(m, ParseString(m, s).value)
  {
    if m.sizeSize <= |s| {
      WordBound(m, s[..m.sizeSize]);
    }
  }

  lemma LocVarParsed(m: Machine, s: seq<Byte>)
    ensures var r := ParseLocVar(m, s); r.Done? ==> LocVarFits(m, r.value) && LocVarReadable(r.value)
  {
    StringParsed(m, s);
    if ParseString(m, s).Done? {
      var s1 := ParseString(m, s).rest;
      IntParsed(m, s1);
      if ParseInt(m, s1).Done? {
        IntParsed(m, ParseInt(m, s1).rest);
      }
    }
  }

  lemma ConstParsed(m: Machine, s: seq<Byte>)
    ensures ParseConst(m, s).Done? ==> ConstFits(m, ParseConst(m, s).value)
  {
    if s != [] {
      StringParsed(m, s[1..]);
    }
  }

  lemma {:induction false} ItemsParsed<T(!new)>(item: seq<Byte> -> Parsed<T>, good: T -> bool, n: nat, s: seq<Byte>,
                                                got: seq<T>)
    requires Shrinks(item) && forall t :: item(t).Done? ==> good(item(t).value)
    requires forall x :: x in got ==> good(x)
    ensures var r := ParseItems(item, n, s, got);
            r.Done? ==> |r.value| == |got| + n && forall x :: x in r.value ==> good(x)
    decreases n
  {
    if n > 0 && item(s).Done? {
      ItemsParsed(item, good, n - 1, item(s).rest, got + [item(s).value]);
    }
  }

  lemma CountedParsed<T(!new)>(m: Machine, item: seq<Byte> -> Parsed<T>, good: T -> bool, s: seq<Byte>)
    requires Shrinks(item) && forall t :: item(t).Done? ==> good(item(t).value)
    ensures var r := ParseCounted(m, item, s);
            r.Done? ==> IntFits(m, |r.value|) && forall x :: x in r.value ==> good(x)
  {
    IntParsed(m, s);
    if ParseInt(m, s).Done? {
      ItemsParsed(item, good, ParseInt(m, s).value, ParseInt(m, s).rest, []);
    }
  }

  lemma {:induction false} CutParsed<T(!new)>(from: seq<Byte> -> T, good: T -> bool, n: nat, k: nat, b: seq<Byte>)
    requires |b| == n * k && forall p :: |p| == k ==> good(from(p))
    ensures forall x :: x in Cut(from, n, k, b) ==> good(x)
    decreases n
  {
    if n > 0 {
      assert n * k == (n - 1) * k + k && (n - 1) * k >= 0;
      CutParsed(from, good, n - 1, k, b[k..]);
      assert |b[..k]| == k;
    }
  }

  lemma VectorParsed<T(!new)>(m: Machine, from: seq<Byte> -> T, good: T -> bool, k: nat, s: seq<Byte>)
    requires forall p :: |p| == k ==> good(from(p))
    ensures var r := ParseVector(m, from, k, s);
            r.Done? ==> IntFits(m, |r.value|) && forall x :: x in r.value ==> good(x)
  {
    IntParsed(m, s);
    if ParseVector(m, from, k, s).Done? {
      var n, t := ParseInt(m, s).value, ParseInt(m, s).rest;
      CutParsed(from, good, n, k, t[..n * k]);
    }
  }

  lemma DebugParsed(m: Machine, s: seq<Byte>)
    ensures var r := ParseDebug(m, s); r.Done? ==> DebugFits(m, r.value) && DebugReadable(r.value)
  {
    hide ParseVector, ParseCounted, IntFits, LocVarFits, LocVarReadable, StringFits;
    forall p: seq<Byte> | |p| == m.intSize ensures IntFits(m, FromIntWord(m)(p)) {
      WordBound(m, p);
    }
    VectorParsed(m, FromIntWord(m), x => IntFits(m, x), m.intSize, s);
    var l := ParseVector(m, FromIntWord(m), m.intSize, s);
    if l.Done? {
      forall t ensures LocVarItem(m)(t).Done? ==>
                LocVarFits(m, LocVarItem(m)(t).value) && LocVarReadable(LocVarItem(m)(t).value) {
        LocVarParsed(m, t);
      }
      CountedParsed(m, LocVarItem(m), x => LocVarFits(m, x) && LocVarReadable(x), l.rest);
      var v := ParseCounted(m, LocVarItem(m), l.rest);
      if v.Done? {
        forall t ensures StringItem(m)(t).Done? ==> StringFits(m, StringItem(m)(t).value) {
          StringParsed(m, t);
        }
        CountedParsed(m, StringItem(m), x => StringFits(m, x), v.rest);
      }
    }
  }

  lemma HeadParsed(m: Machine, q: Option<Text>, s: seq<Byte>)
    requires q.Some? && StringFits(m, q)
    ensures var r := ParseHead(m, q, s);
            r.Done? ==> HeadFits(m, r.value) && HeadReadable(r.value) && r.value.source.Some?
  {
    hide ParseString, ParseInt, ParseByte, StringFits, IntFits;
    StringParsed(m, s);
    var n := ParseString(m, s);
    if n.Done? {
      IntParsed(m, n.rest);
      if ParseInt(m, n.rest).Done? {
        IntParsed(m, ParseInt(m, n.rest).rest);
      }
    }
  }

  /** A function that fits into a chunk, is accepted, and comes back unchanged. */
  predicate Sound(m: Machine, ok: Proto -> bool, f: Proto) {
    FunctionFits(m, f) && Readable(f, false) && Named(f) && Accepted(ok, f)
  }

  predicate AllSound(m: Machine, ok: Proto -> bool, ps: seq<Proto>) {
    FunctionsFit(m, ps) && AllReadable(ps, false) && AllNamed(ps) && AllAccepted(ok, ps)
  }

  lemma {:induction false} SoundSnoc(m: Machine, ok: Proto -> bool, ps: seq<Proto>, f: Proto)
    requires AllSound(m, ok, ps) && Sound(m, ok, f)
    ensures AllSound(m, ok, ps + [f])
    decreases |ps|
  {
    hide FunctionFits, Readable, Named, Accepted;
    var qs := ps + [f];
    if ps != [] {
      SoundSnoc(m, ok, ps[1..], f);
      assert qs[1..] == ps[1..] + [f] && qs[0] == ps[0];
    } else {
      assert qs[1..] == [] && qs[0] == f;
    }
  }

  lemma CodeParsed(m: Machine, s: seq<Byte>)
    ensures var r := ParseVector<nat>(m, FromInstr(m), m.instrSize, s);
            r.Done? ==> IntFits(m, |r.value|) && forall i :: i in r.value ==> i < Pow256(m.instrSize)
  {
    hide ParseVector, Pow256, FromWord, IntFits;
    forall p: seq<Byte> | |p| == m.instrSize ensures FromInstr(m)(p) < Pow256(m.instrSize) {
      WordBound(m, p);
    }
    VectorParsed<nat>(m, FromInstr(m), (i: nat) => i < Pow256(m.instrSize), m.instrSize, s);
  }

  lemma ConstsParsed(m: Machine, s: seq<Byte>)
    ensures var r := ParseCounted(m, ConstItem(m), s);
            r.Done? ==> IntFits(m, |r.value|) && forall c :: c in r.value ==> ConstFits(m, c)
  {
    forall t ensures ConstItem(m)(t).Done? ==> ConstFits(m, ConstItem(m)(t).value) {
      ConstParsed(m, t);
    }
    CountedParsed(m, ConstItem(m), c => ConstFits(m, c), s);
  }

  lemma {:induction false} FunctionParsed(m: Machine, ok: Proto -> bool, q: Option<Text>, s: seq<Byte>)
    requires IsMachine(m) && q.Some? && StringFits(m, q)
    ensures var r := ParseFunction(m, ok, q, s); r.Done? ==> Sound(m, ok, r.value)
    decreases |s|, 0
  {
    hide ParseHead, ParseVector, ParseCounted, ParseInt, ParseFunctions, ParseDebug, IntFits, StringFits, ConstFits,
         DebugFits, FunctionsFit, AllReadable, AllNamed, AllAccepted, DebugReadable, HeadReadable;
    if ParseFunction(m, ok, q, s).Done? {
      var h := ParseHead(m, q, s);
      var c := ParseVector<nat>(m, FromInstr(m), m.instrSize, h.rest);
      var k := ParseCounted(m, ConstItem(m), c.rest);
      var n := ParseInt(m, k.rest);
      var ps := ParseFunctions(m, ok, n.value, h.value.source, n.rest, []);
      HeadParsed(m, q, s);
      CodeParsed(m, h.rest);
      ConstsParsed(m, c.rest);
      IntParsed(m, k.rest);
      FunctionsParsed(m, ok, n.value, h.value.source, n.rest, []);
      DebugParsed(m, ps.rest);
    }
  }

  lemma {:induction false} FunctionsParsed(m: Machine, ok: Proto -> bool, n: nat, q: Option<Text>, s: seq<Byte>,
                                           got: seq<Proto>)
    requires IsMachine(m) && q.Some? && StringFits(m, q) && (got == [] || AllSound(m, ok, got))
    ensures var r := ParseFunctions(m, ok, n, q, s, got);
            r.Done? ==> AllSound(m, ok, r.value) && |r.value| == |got| + n
    decreases |s|, n + 1
  {
    hide ParseFunction, Sound, StringFits;
    NoneSound(m, ok);
    if n > 0 && ParseFunction(m, ok, q, s).Done? {
      var f := ParseFunction(m, ok, q, s);
      FunctionParsed(m, ok, q, s);
      SoundSnoc(m, ok, got, f.value);
      FunctionsParsed(m, ok, n - 1, q, f.rest, got + [f.value]);
    }
  }

  lemma NoneSound(m: Machine, ok: Proto -> bool)
    ensures AllSound(m, ok, [])
  {
  }

  lemma SoundSurvives(m: Machine, ok: Proto -> bool, f: Proto, rest: seq<Byte>)
    requires IsMachine(m) && Sound(m, ok, f)
    ensures ParseChunk(m, ok, ChunkBytes(m, f, false) + rest) == Done(f, rest)
  {
    RebuiltSame(f, None, Some(NO_SOURCE));
    RoundTrip(m, ok, f, rest);
  }

  /** Whatever the loader returns comes back unchanged from a further dump and load. */
  lemma LoadedSurvives(m: Machine, ok: Proto -> bool, s: seq<Byte>, rest: seq<Byte>)
    requires IsMachine(m) && ParseChunk(m, ok, s).Done?
    ensures var f := ParseChunk(m, ok, s).value;
            ParseChunk(m, ok, ChunkBytes(m, f, false) + rest) == Done(f, rest)
  {
    var f := ParseChunk(m, ok, s).value;
    assert Pow256(m.sizeSize) == 256 * Pow256(m.sizeSize - 1) && |NO_SOURCE| == 2;
    FunctionParsed(m, ok, Some(NO_SOURCE), s[HEADER_SIZE..]);
    SoundSurvives(m, ok, f, rest);
  }

  // ----- the bytes of one chunk -----

  /** 32-bit integers, least byte first, and numbers of eight bytes. */
  const INTEL := Machine(true, 4, 4, 4, 8, false)

  /** A main function with a constant of each kind, a line, a local variable and the
      name of an upvalue. */
  const SAMPLE := Proto(
    Head(Some([61, 120]), 0, 5, 1, 0, 2, 3), [0x80001e],
    [NilK, BoolK(true), NumberK([0, 0, 0, 0, 0, 0, 240, 63]), StringK(Some([112]))], [],
    Debug([7], [LocVar(Some([97]), 0, 1)], [Some([117])]))

  lemma FourBytes(n: nat)
    ensures Word(INTEL, n, 4) == [n % 256, n / 256 % 256, n / 0x10000 % 256, n / 0x100_0000 % 256]
    ensures Word(INTEL.(little := false), n, 4) == [n / 0x100_0000 % 256, n / 0x10000 % 256, n / 256 % 256, n % 256]
  {
    var a, b, c := n / 256, n / 256 / 256, n / 256 / 256 / 256;
    assert Digits(c, 1) == [c % 256] + Digits(c / 256, 0);
    assert Digits(b, 2) == [b % 256] + Digits(c, 1);
    assert Digits(a, 3) == [a % 256] + Digits(b, 2);
    assert Digits(n, 4) == [n % 256] + Digits(a, 3);
  }

  lemma SmallInt(n: nat)
    requires n < 256
    ensures IntWord(INTEL, n) == Word(INTEL, n, 4) == [n, 0, 0, 0]
  {
    FourBytes(n);
  }

  lemma SmallString(s: Text)
    requires |s| < 255
    ensures StringBytes(INTEL, Some(s)) == [|s| + 1, 0, 0, 0] + s + [0]
  {
    SmallInt(|s| + 1);
  }

  lemma OneItem<T>(enc: T -> seq<Byte>, x: T)
    ensures Bytes(enc, [x]) == enc(x)
  {
    assert [x][1..] == [];
  }

  lemma FirstItem<T>(enc: T -> seq<Byte>, x: T, rest: seq<T>)
    ensures Bytes(enc, [x] + rest) == enc(x) + Bytes(enc, rest)
  {
    assert ([x] + rest)[1..] == rest;
  }

  /** The header of Lua 5.1. */
  lemma SampleHeader()
    ensures Header(INTEL) == [0x1b, 0x4c, 0x75, 0x61, 0x51, 0, 1, 4, 4, 4, 8, 0]
  {
  }

  lemma SampleHead()
    ensures HeadBytes(INTEL, SAMPLE.head, None, false)
         == [3, 0, 0, 0, 61, 120, 0,  0, 0, 0, 0,  5, 0, 0, 0,  1, 0, 2, 3]
  {
    hide StringBytes, IntWord;
    SmallString([61, 120]);
    SmallInt(0);
    SmallInt(5);
  }

  lemma SampleCode()
    ensures Counted(INTEL, Instrs(INTEL), SAMPLE.code) == [1, 0, 0, 0,  0x1e, 0, 0x80, 0]
  {
    SmallInt(1);
    FourBytes(0x80001e);
    assert SAMPLE.code[1..] == [];
    assert Bytes(Instrs(INTEL), SAMPLE.code) == Instrs(INTEL)(0x80001e) + Bytes(Instrs(INTEL), []);
  }

  lemma SampleConstants()
    ensures Counted(INTEL, Consts(INTEL), SAMPLE.k)
         == [4, 0, 0, 0,  0,  1, 1,  3, 0, 0, 0, 0, 0, 0, 240, 63,  4, 2, 0, 0, 0, 112, 0]
  {
    hide StringBytes, IntWord, Bytes;
    SmallInt(4);
    SmallString([112]);
    var k, enc := SAMPLE.k, Consts(INTEL);
    OneItem(enc, k[3]);
    FirstItem(enc, k[2], [k[3]]);
    FirstItem(enc, k[1], [k[2], k[3]]);
    FirstItem(enc, k[0], [k[1], k[2], k[3]]);
    assert [k[2]] + [k[3]] == [k[2], k[3]];
    assert [k[1]] + [k[2], k[3]] == [k[1], k[2], k[3]];
    assert [k[0]] + [k[1], k[2], k[3]] == k;
  }

  lemma SampleLines()
    ensures Counted(INTEL, Ints(INTEL), SAMPLE.debug.lineinfo) == [1, 0, 0, 0,  7, 0, 0, 0]
  {
    hide IntWord, Bytes;
    SmallInt(1);
    SmallInt(7);
    OneItem(Ints(INTEL), 7);
  }

  lemma SampleLocals()
    ensures Counted(INTEL, LocVars(INTEL), SAMPLE.debug.locvars)
         == [1, 0, 0, 0,  2, 0, 0, 0, 97, 0,  0, 0, 0, 0,  1, 0, 0, 0]
  {
    hide StringBytes, IntWord, Bytes;
    SmallInt(0);
    SmallInt(1);
    SmallString([97]);
    OneItem(LocVars(INTEL), SAMPLE.debug.locvars[0]);
  }

  lemma SampleUpvalues()
    ensures Counted(INTEL, Strings(INTEL), SAMPLE.debug.upvalues) == [1, 0, 0, 0,  2, 0, 0, 0, 117, 0]
  {
    hide StringBytes, IntWord, Bytes;
    SmallInt(1);
    SmallString([117]);
    OneItem(Strings(INTEL), SAMPLE.debug.upvalues[0]);
  }

  lemma SampleDebug()
    ensures DebugBytes(INTEL, SAMPLE.debug, false)
         == [1, 0, 0, 0,  7, 0, 0, 0]
            + ([1, 0, 0, 0,  2, 0, 0, 0, 97, 0,  0, 0, 0, 0,  1, 0, 0, 0] + [1, 0, 0, 0,  2, 0, 0, 0, 117, 0])
  {
    hide Counted;
    SampleLines();
    SampleLocals();
    SampleUpvalues();
  }

  /** The whole chunk, byte by byte. */
  lemma SampleChunk()
    ensures ChunkBytes(INTEL, SAMPLE, false)
         == [0x1b, 0x4c, 0x75, 0x61, 0x51, 0, 1, 4, 4, 4, 8, 0]
            + ([3, 0, 0, 0, 61, 120, 0,  0, 0, 0, 0,  5, 0, 0, 0,  1, 0, 2, 3]
            + ([1, 0, 0, 0,  0x1e, 0, 0x80, 0]
            + ([4, 0, 0, 0,  0,  1, 1,  3, 0, 0, 0, 0, 0, 0, 240, 63,  4, 2, 0, 0, 0, 112, 0]
            + ([0, 0, 0, 0]
            + ([1, 0, 0, 0,  7, 0, 0, 0]
            + ([1, 0, 0, 0,  2, 0, 0, 0, 97, 0,  0, 0, 0, 0,  1, 0, 0, 0]
            + [1, 0, 0, 0,  2, 0, 0, 0, 117, 0]))))))
  {
    hide Header, HeadBytes, Counted, DebugBytes, IntWord;
    SampleHeader();
    SampleHead();
    SampleCode();
    SampleConstants();
    SmallInt(0);
    SampleDebug();
    var d := DebugBytes(INTEL, SAMPLE.debug, false);
    assert FunctionsBytes(INTEL, SAMPLE.p, SAMPLE.head.source, false) + d == d;
  }
}
