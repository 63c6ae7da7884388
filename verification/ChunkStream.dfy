/** liblua/lzio.c, liblua/lundump.c and liblua/ldump.c as they run. */
module ChunkStream {
  import opened ChunkFormat
  import ChunkTrip

  /** What the reader will return call by call, up to its first empty answer. */
  function Ahead(pieces: seq<seq<Byte>>): seq<Byte> {
    if pieces == [] || pieces[0] == [] then [] else pieces[0] + Ahead(pieces[1..])
  }

  lemma Copied(b: seq<Byte>, buffer: seq<Byte>, rest: seq<Byte>, k: nat)
    requires k <= |buffer|
    ensures b + buffer[..k] + (buffer[k..] + rest) == b + (buffer + rest)
  {
    assert buffer == buffer[..k] + buffer[k..];
  }

  lemma Split(b: seq<Byte>, rest: seq<Byte>)
    ensures (b + rest)[..|b|] == b && (b + rest)[|b|..] == rest
  {
  }

  class Zio {
    var buffer: seq<Byte>            // the n bytes from p on
    var pieces: seq<seq<Byte>>

    function Rest(): seq<Byte>
      reads this
    {
      buffer + Ahead(pieces)
    }

    /** luaZ_init. */
    constructor (pieces: seq<seq<Byte>>)
      ensures Rest() == Ahead(pieces)
    {
      this.buffer, this.pieces := [], pieces;
      new;
      assert Rest() == [] + Ahead(pieces);
    }

    /** luaZ_fill, with its first byte put back: is there another piece? */
    method Fill() returns (more: bool)
      requires buffer == []
      modifies this
      ensures more <==> old(Rest()) != []
      ensures more ==> buffer != [] && Rest() == old(Rest())
      ensures !more ==> buffer == []
    {
      if pieces == [] {
        return false;
      }
      var piece := pieces[0];
      pieces := pieces[1..];
      if piece == [] {
        return false;
      }
      buffer := piece;
      return true;
    }

    /** luaZ_lookahead: false at the end of the stream. */
    method Lookahead() returns (more: bool)
      modifies this
      ensures more <==> old(Rest()) != []
      ensures more ==> buffer != [] && Rest() == old(Rest())
    {
      if buffer == [] {
        more := Fill();
      } else {
        more := true;
      }
    }

    /** luaZ_read: up to `n` bytes, and how many are missing. */
    method Read(n: nat) returns (b: seq<Byte>, missing: nat)
      modifies this
      ensures n <= |old(Rest())| ==> missing == 0 && b == old(Rest())[..n] && Rest() == old(Rest())[n..]
      ensures n > |old(Rest())| ==> missing == n - |old(Rest())| && b == old(Rest())
    {
      hide Ahead;
      ghost var s := Rest();
      b, missing := [], n;
      assert b + Rest() == s;
      while missing > 0
        invariant |b| + missing == n && b + Rest() == s
      {
        var more := Lookahead();
        if !more {
          assert b + [] == b;
          return;
        }
        var k := if missing <= |buffer| then missing else |buffer|;
        Copied(b, buffer, Ahead(pieces), k);
        b := b + buffer[..k];
        buffer := buffer[k..];
        missing := missing - k;
      }
      Split(b, Rest());
    }
  }

  // ----- lundump.c -----

  datatype Loaded<+T> = Ok(value: T) | Error(why: string) {
    predicate IsFailure() { Error? }
    function PropagateFailure<U>(): Loaded<U>
      requires Error?
    {
      Error(why)
    }
    function Extract(): T
      requires Ok?
    {
      value
    }
  }

  class LoadState {
    const m: Machine
    const ok: Proto -> bool         // luaG_checkcode
    const z: Zio

    constructor (m: Machine, ok: Proto -> bool, z: Zio)
      ensures this.m == m && this.ok == ok && this.z == z
    {
      this.m, this.ok, this.z := m, ok, z;
    }

    /** The load went as `want` says. */
    ghost predicate Went<T>(r: Loaded<T>, want: Parsed<T>)
      reads z
    {
      match want
      case Done(v, rest) => r == Ok(v) && z.Rest() == rest
      case Fail(why) => r == Error(why)
    }

    method LoadBlock(n: nat) returns (r: Loaded<seq<Byte>>)
      modifies z
      ensures Went(r, ParseBlock(n, old(z.Rest())))
    {
      var b, missing := z.Read(n);
      if missing != 0 {
        return Error("unexpected end");
      }
      return Ok(b);
    }

    method LoadByte() returns (r: Loaded<Byte>)
      modifies z
      ensures Went(r, ParseByte(old(z.Rest())))
    {
      r := Error("");
      var b :- LoadBlock(1);
      return Ok(b[0]);
    }

    method LoadInt() returns (r: Loaded<nat>)
      modifies z
      ensures Went(r, ParseInt(m, old(z.Rest())))
    {
      r := Error("");
      var b :- LoadBlock(m.intSize);
      var x := FromInt(m, b);
      if x < 0 {
        return Error("bad integer");
      }
      return Ok(x);
    }

    method LoadString() returns (r: Loaded<Option<Text>>)
      modifies z
      ensures Went(r, ParseString(m, old(z.Rest())))
    {
      r := Error("");
      var b :- LoadBlock(m.sizeSize);
      var size := FromWord(m, b);
      if size == 0 {
        return Ok(None);
      }
      var t :- LoadBlock(size);
      return Ok(Some(t[..size - 1]));
    }

    /** LoadCode, and the line information of LoadDebug. */
    method LoadVector<T>(from: seq<Byte> -> T, k: nat) returns (r: Loaded<seq<T>>)
      modifies z
      ensures Went(r, ParseVector(m, from, k, old(z.Rest())))
    {
      r := Error("");
      var n :- LoadInt();
      var b :- LoadBlock(n * k);
      return Ok(Cut(from, n, k, b));
    }

    method LoadConst() returns (r: Loaded<Const>)
      modifies z
      ensures Went(r, ParseConst(m, old(z.Rest())))
    {
      r := Error("");
      var t :- LoadByte();
      if t == 0 {
        return Ok(NilK);
      } else if t == 1 {
        var b :- LoadByte();
        return Ok(BoolK(b != 0));
      } else if t == 3 {
        var b :- LoadBlock(m.numSize);
        return Ok(NumberK(b));
      } else if t == 4 {
        var s :- LoadString();
        return Ok(StringK(s));
      }
      return Error("bad constant");
    }

    method LoadConstants() returns (r: Loaded<seq<Const>>)
      modifies z
      ensures Went(r, ParseCounted(m, ConstItem(m), old(z.Rest())))
    {
      hide ParseConst, ParseInt;
      r := Error("");
      var n :- LoadInt();
      ghost var s := z.Rest();
      var k, i := [], 0;
      while i < n
        invariant 0 <= i <= n && ParseItems(ConstItem(m), n, s, []) == ParseItems(ConstItem(m), n - i, z.Rest(), k)
      {
        var c :- LoadConst();
        k, i := k + [c], i + 1;
      }
      return Ok(k);
    }

    method LoadLocVar() returns (r: Loaded<LocVar>)
      modifies z
      ensures Went(r, ParseLocVar(m, old(z.Rest())))
    {
      r := Error("");
      var name :- LoadString();
      var startpc :- LoadInt();
      var endpc :- LoadInt();
      return Ok(LocVar(name, startpc, endpc));
    }

    method LoadLocVars() returns (r: Loaded<seq<LocVar>>)
      modifies z
      ensures Went(r, ParseCounted(m, LocVarItem(m), old(z.Rest())))
    {
      hide ParseLocVar, ParseInt;
      r := Error("");
      var n :- LoadInt();
      ghost var s := z.Rest();
      var vs, i := [], 0;
      while i < n
        invariant 0 <= i <= n && ParseItems(LocVarItem(m), n, s, []) == ParseItems(LocVarItem(m), n - i, z.Rest(), vs)
      {
        var v :- LoadLocVar();
        vs, i := vs + [v], i + 1;
      }
      return Ok(vs);
    }

    method LoadUpvalues() returns (r: Loaded<seq<Option<Text>>>)
      modifies z
      ensures Went(r, ParseCounted(m, StringItem(m), old(z.Rest())))
    {
      hide ParseString, ParseInt;
      r := Error("");
      var n :- LoadInt();
      ghost var s := z.Rest();
      var us, i := [], 0;
      while i < n
        invariant 0 <= i <= n && ParseItems(StringItem(m), n, s, []) == ParseItems(StringItem(m), n - i, z.Rest(), us)
      {
        var u :- LoadString();
        us, i := us + [u], i + 1;
      }
      return Ok(us);
    }

    method LoadDebug() returns (r: Loaded<Debug>)
      modifies z
      ensures Went(r, ParseDebug(m, old(z.Rest())))
    {
      r := Error("");
      var lineinfo :- LoadVector(FromIntWord(m), m.intSize);
      var locvars :- LoadLocVars();
      var upvalues :- LoadUpvalues();
      return Ok(Debug(lineinfo, locvars, upvalues));
    }

    method LoadHead(q: Option<Text>) returns (r: Loaded<Head>)
      modifies z
      ensures Went(r, ParseHead(m, q, old(z.Rest())))
    {
      r := Error("");
      var source :- LoadString();
      var linedefined :- LoadInt();
      var lastlinedefined :- LoadInt();
      var nups :- LoadByte();
      var numparams :- LoadByte();
      var isVararg :- LoadByte();
      var maxstacksize :- LoadByte();
      return Ok(Head(if source.None? then q else source, linedefined, lastlinedefined, nups, numparams, isVararg,
                     maxstacksize));
    }

    /** LoadFunction: for every stream, well-formed or not, however it is cut. */
    method LoadFunction(q: Option<Text>) returns (r: Loaded<Proto>)
      requires IsMachine(m)
      modifies z
      ensures Went(r, ParseFunction(m, ok, q, old(z.Rest())))
      decreases |z.Rest()|, 0
    {
      r := Error("");
      var head :- LoadHead(q);
      var code :- LoadVector(FromInstr(m), m.instrSize);
      var k :- LoadConstants();
      var n :- LoadInt();
      var p :- LoadFunctions(n, head.source);
      var debug :- LoadDebug();
      var f := Proto(head, code, k, p, debug);
      if !ok(f) {
        return Error("bad code");
      }
      return Ok(f);
    }

    method LoadFunctions(n: nat, q: Option<Text>) returns (r: Loaded<seq<Proto>>)
      requires IsMachine(m)
      modifies z
      ensures Went(r, ParseFunctions(m, ok, n, q, old(z.Rest()), []))
      decreases |z.Rest()|, 1
    {
      hide ParseFunction, IsMachine;
      r := Error("");
      ghost var s := z.Rest();
      var p, i := [], 0;
      while i < n
        invariant 0 <= i <= n && |z.Rest()| <= |s|
        invariant ParseFunctions(m, ok, n, q, s, []) == ParseFunctions(m, ok, n - i, q, z.Rest(), p)
      {
        var f :- LoadFunction(q);
        p, i := p + [f], i + 1;
      }
      return Ok(p);
    }

    /** luaU_undump. */
    method Undump() returns (r: Loaded<Proto>)
      requires IsMachine(m)
      modifies z
      ensures Went(r, ParseChunk(m, ok, old(z.Rest())))
    {
      r := Error("");
      var h :- LoadBlock(HEADER_SIZE);
      if h != Header(m) {
        return Error("bad header");
      }
      r := LoadFunction(Some(NO_SOURCE));
    }
  }

  // ----- ldump.c -----

  /** From output `o` with status `st` to `o2` with `st2`, where `b` was to be
      written: all of it, or a beginning of it until the writer fails, and nothing
      after that. */
  ghost predicate Wrote(o: seq<Byte>, st: int, o2: seq<Byte>, st2: int, b: seq<Byte>) {
    if st != 0 then o2 == o && st2 == st
    else o <= o2 <= o + b && (st2 == 0 ==> o2 == o + b)
  }

  lemma WroteBoth(o: seq<Byte>, st: int, o1: seq<Byte>, st1: int, a: seq<Byte>, o2: seq<Byte>, st2: int, b: seq<Byte>)
    requires Wrote(o, st, o1, st1, a) && Wrote(o1, st1, o2, st2, b)
    ensures Wrote(o, st, o2, st2, a + b)
  {
    assert o + (a + b) == o + a + b;
  }

  lemma WroteNone(o: seq<Byte>, st: int)
    ensures Wrote(o, st, o, st, [])
  {
    assert o + [] == o;
  }

  lemma NoBytes<T>(enc: T -> seq<Byte>, xs: seq<T>)
    ensures Bytes(enc, xs[..0]) == []
  {
  }

  lemma {:induction false} BytesSnoc<T>(enc: T -> seq<Byte>, xs: seq<T>, i: nat)
    requires i < |xs|
    ensures Bytes(enc, xs[..i + 1]) == Bytes(enc, xs[..i]) + enc(xs[i])
  {
    var ys, zs := xs[..i], xs[..i + 1];
    if i > 0 {
      BytesSnoc(enc, xs[1..], i - 1);
      assert ys[1..] == xs[1..][..i - 1] && zs[1..] == xs[1..][..i];
    } else {
      assert zs[1..] == [];
    }
  }

  lemma {:induction false} FunctionsSnoc(m: Machine, ps: seq<Proto>, i: nat, p: Option<Text>, strip: bool)
    requires i < |ps|
    ensures FunctionsBytes(m, ps[..i + 1], p, strip)
         == FunctionsBytes(m, ps[..i], p, strip) + FunctionBytes(m, ps[i], p, strip)
    decreases i
  {
    hide FunctionBytes;
    var qs, rs := ps[..i], ps[..i + 1];
    if i > 0 {
      FunctionsSnoc(m, ps[1..], i - 1, p, strip);
      assert qs[1..] == ps[1..][..i - 1] && rs[1..] == ps[1..][..i];
    } else {
      assert rs[1..] == [];
    }
  }

  class DumpState {
    const m: Machine
    const strip: bool
    const writer: (seq<Byte>, seq<Byte>) -> int   // its status, given what it has got so far and the next block
    var out: seq<Byte>
    var status: int

    constructor (m: Machine, strip: bool, writer: (seq<Byte>, seq<Byte>) -> int)
      ensures this.m == m && this.strip == strip && out == [] && status == 0
    {
      this.m, this.strip, this.writer, out, status := m, strip, writer, [], 0;
    }

    method DumpBlock(b: seq<Byte>)
      modifies this
      ensures Wrote(old(out), old(status), out, status, b)
    {
      if status == 0 {
        status := writer(out, b);
        out := out + b;
      }
    }

    method DumpInt(x: int)
      modifies this
      ensures Wrote(old(out), old(status), out, status, IntWord(m, x))
    {
      DumpBlock(IntWord(m, x));
    }

    method DumpString(s: Option<Text>)
      modifies this
      ensures Wrote(old(out), old(status), out, status, StringBytes(m, s))
    {
      hide Wrote;
      match s {
        case None =>
          DumpBlock(Word(m, 0, m.sizeSize));
        case Some(t) =>
          DumpBlock(Word(m, |t| + 1, m.sizeSize));
          ghost var o, st := out, status;
          DumpBlock(t + [0]);
          WroteBoth(old(out), old(status), o, st, Word(m, |t| + 1, m.sizeSize), out, status, t + [0]);
      }
    }

    method DumpVector<T>(enc: T -> seq<Byte>, xs: seq<T>)
      modifies this
      ensures Wrote(old(out), old(status), out, status, Counted(m, enc, xs))
    {
      hide Wrote;
      DumpInt(|xs|);
      ghost var o, st := out, status;
      DumpBlock(Bytes(enc, xs));
      WroteBoth(old(out), old(status), o, st, IntWord(m, |xs|), out, status, Bytes(enc, xs));
    }

    method DumpConst(c: Const)
      modifies this
      ensures Wrote(old(out), old(status), out, status, ConstBytes(m, c))
    {
      hide Wrote, StringBytes;
      DumpBlock([match c case NilK => 0 case BoolK(_) => 1 case NumberK(_) => 3 case StringK(_) => 4]);
      ghost var o, st := out, status;
      match c {
        case NilK =>
        case BoolK(b) =>
          DumpBlock([if b then 1 else 0]);
          WroteBoth(old(out), old(status), o, st, [1], out, status, [if b then 1 else 0]);
        case NumberK(raw) =>
          DumpBlock(raw);
          WroteBoth(old(out), old(status), o, st, [3], out, status, raw);
        case StringK(s) =>
          DumpString(s);
          WroteBoth(old(out), old(status), o, st, [4], out, status, StringBytes(m, s));
      }
    }

    method DumpLocVar(v: LocVar)
      modifies this
      ensures Wrote(old(out), old(status), out, status, LocVarBytes(m, v))
    {
      hide Wrote, StringBytes, IntWord;
      DumpString(v.varname);
      ghost var o, st := out, status;
      DumpInt(v.startpc);
      ghost var o2, st2 := out, status;
      DumpInt(v.endpc);
      WroteBoth(o, st, o2, st2, IntWord(m, v.startpc), out, status, IntWord(m, v.endpc));
      WroteBoth(old(out), old(status), o, st, StringBytes(m, v.varname), out, status,
                IntWord(m, v.startpc) + IntWord(m, v.endpc));
    }

    /** The constants of DumpConstants. */
    method DumpConsts(cs: seq<Const>)
      modifies this
      ensures Wrote(old(out), old(status), out, status, Counted(m, Consts(m), cs))
    {
      hide Wrote, Bytes;
      DumpInt(|cs|);
      ghost var o, st := out, status;
      var i := 0;
      NoBytes(Consts(m), cs);
      WroteNone(o, st);
      while i < |cs|
        invariant 0 <= i <= |cs| && Wrote(o, st, out, status, Bytes(Consts(m), cs[..i]))
      {
        ghost var o1, st1 := out, status;
        DumpConst(cs[i]);
        WroteBoth(o, st, o1, st1, Bytes(Consts(m), cs[..i]), out, status, Consts(m)(cs[i]));
        BytesSnoc(Consts(m), cs, i);
        i := i + 1;
      }
      assert cs[..|cs|] == cs;
      WroteBoth(old(out), old(status), o, st, IntWord(m, |cs|), out, status, Bytes(Consts(m), cs));
    }

    method DumpLocVars(vs: seq<LocVar>)
      modifies this
      ensures Wrote(old(out), old(status), out, status, Counted(m, LocVars(m), vs))
    {
      hide Wrote, Bytes;
      DumpInt(|vs|);
      ghost var o, st := out, status;
      var i := 0;
      NoBytes(LocVars(m), vs);
      WroteNone(o, st);
      while i < |vs|
        invariant 0 <= i <= |vs| && Wrote(o, st, out, status, Bytes(LocVars(m), vs[..i]))
      {
        ghost var o1, st1 := out, status;
        DumpLocVar(vs[i]);
        WroteBoth(o, st, o1, st1, Bytes(LocVars(m), vs[..i]), out, status, LocVars(m)(vs[i]));
        BytesSnoc(LocVars(m), vs, i);
        i := i + 1;
      }
      assert vs[..|vs|] == vs;
      WroteBoth(old(out), old(status), o, st, IntWord(m, |vs|), out, status, Bytes(LocVars(m), vs));
    }

    method DumpUpvalues(ss: seq<Option<Text>>)
      modifies this
      ensures Wrote(old(out), old(status), out, status, Counted(m, Strings(m), ss))
    {
      hide Wrote, Bytes;
      DumpInt(|ss|);
      ghost var o, st := out, status;
      var i := 0;
      NoBytes(Strings(m), ss);
      WroteNone(o, st);
      while i < |ss|
        invariant 0 <= i <= |ss| && Wrote(o, st, out, status, Bytes(Strings(m), ss[..i]))
      {
        ghost var o1, st1 := out, status;
        DumpString(ss[i]);
        WroteBoth(o, st, o1, st1, Bytes(Strings(m), ss[..i]), out, status, Strings(m)(ss[i]));
        BytesSnoc(Strings(m), ss, i);
        i := i + 1;
      }
      assert ss[..|ss|] == ss;
      WroteBoth(old(out), old(status), o, st, IntWord(m, |ss|), out, status, Bytes(Strings(m), ss));
    }

    method DumpDebug(d: Debug)
      modifies this
      ensures Wrote(old(out), old(status), out, status, DebugBytes(m, d, strip))
    {
      hide Wrote, Counted;
      var e := Shown(d, strip);
      DumpVector(Ints(m), e.lineinfo);
      ghost var o, st := out, status;
      DumpLocVars(e.locvars);
      ghost var o2, st2 := out, status;
      DumpUpvalues(e.upvalues);
      WroteBoth(o, st, o2, st2, Counted(m, LocVars(m), e.locvars), out, status, Counted(m, Strings(m), e.upvalues));
      WroteBoth(old(out), old(status), o, st, Counted(m, Ints(m), e.lineinfo), out, status,
                Counted(m, LocVars(m), e.locvars) + Counted(m, Strings(m), e.upvalues));
    }

    method DumpHead(h: Head, p: Option<Text>)
      modifies this
      ensures Wrote(old(out), old(status), out, status, HeadBytes(m, h, p, strip))
    {
      hide Wrote, StringBytes, IntWord;
      ghost var s := if h.source == p || strip then None else h.source;
      DumpString(if h.source == p || strip then None else h.source);
      ghost var o1, st1 := out, status;
      DumpInt(h.linedefined);
      ghost var o2, st2 := out, status;
      DumpInt(h.lastlinedefined);
      ghost var o3, st3 := out, status;
      ghost var bytes := [h.nups, h.numparams, h.isVararg, h.maxstacksize];
      DumpBytes(h);
      WroteBoth(o2, st2, o3, st3, IntWord(m, h.lastlinedefined), out, status, bytes);
      WroteBoth(o1, st1, o2, st2, IntWord(m, h.linedefined), out, status, IntWord(m, h.lastlinedefined) + bytes);
      WroteBoth(old(out), old(status), o1, st1, StringBytes(m, s), out, status,
                IntWord(m, h.linedefined) + (IntWord(m, h.lastlinedefined) + bytes));
    }

    method DumpBytes(h: Head)
      modifies this
      ensures Wrote(old(out), old(status), out, status, [h.nups, h.numparams, h.isVararg, h.maxstacksize])
    {
      hide Wrote;
      DumpBlock([h.nups]);
      ghost var o1, st1 := out, status;
      DumpBlock([h.numparams]);
      ghost var o2, st2 := out, status;
      DumpBlock([h.isVararg]);
      ghost var o3, st3 := out, status;
      DumpBlock([h.maxstacksize]);
      WroteBoth(o2, st2, o3, st3, [h.isVararg], out, status, [h.maxstacksize]);
      WroteBoth(o1, st1, o2, st2, [h.numparams], out, status, [h.isVararg] + [h.maxstacksize]);
      WroteBoth(old(out), old(status), o1, st1, [h.nups], out, status,
                [h.numparams] + ([h.isVararg] + [h.maxstacksize]));
      assert [h.nups] + ([h.numparams] + ([h.isVararg] + [h.maxstacksize]))
          == [h.nups, h.numparams, h.isVararg, h.maxstacksize];
    }

    method DumpFunction(f: Proto, p: Option<Text>)
      modifies this
      ensures Wrote(old(out), old(status), out, status, FunctionBytes(m, f, p, strip))
      decreases f, 0
    {
      hide Wrote, HeadBytes, Counted, IntWord, FunctionsBytes, DebugBytes;
      ghost var b5 := DebugBytes(m, f.debug, strip);
      ghost var b4 := FunctionsBytes(m, f.p, f.head.source, strip);
      ghost var b3 := IntWord(m, |f.p|);
      ghost var b2 := Counted(m, Consts(m), f.k);
      ghost var b1 := Counted(m, Instrs(m), f.code);
      DumpHead(f.head, p);
      ghost var o1, st1 := out, status;
      DumpVector(Instrs(m), f.code);
      ghost var o2, st2 := out, status;
      DumpConsts(f.k);
      ghost var o3, st3 := out, status;
      DumpInt(|f.p|);
      ghost var o4, st4 := out, status;
      DumpFunctions(f.p, f.head.source);
      ghost var o5, st5 := out, status;
      DumpDebug(f.debug);
      WroteBoth(o4, st4, o5, st5, b4, out, status, b5);
      WroteBoth(o3, st3, o4, st4, b3, out, status, b4 + b5);
      WroteBoth(o2, st2, o3, st3, b2, out, status, b3 + (b4 + b5));
      WroteBoth(o1, st1, o2, st2, b1, out, status, b2 + (b3 + (b4 + b5)));
      WroteBoth(old(out), old(status), o1, st1, HeadBytes(m, f.head, p, strip), out, status,
                b1 + (b2 + (b3 + (b4 + b5))));
    }

    /** The functions of DumpConstants. */
    method DumpFunctions(ps: seq<Proto>, p: Option<Text>)
      modifies this
      ensures Wrote(old(out), old(status), out, status, FunctionsBytes(m, ps, p, strip))
      decreases ps, 0
    {
      hide Wrote, FunctionBytes;
      var i := 0;
      WroteNone(out, status);
      assert FunctionsBytes(m, ps[..0], p, strip) == [];
      while i < |ps|
        invariant 0 <= i <= |ps| && Wrote(old(out), old(status), out, status, FunctionsBytes(m, ps[..i], p, strip))
      {
        ghost var o, st := out, status;
        DumpFunction(ps[i], p);
        WroteBoth(old(out), old(status), o, st, FunctionsBytes(m, ps[..i], p, strip), out, status,
                  FunctionBytes(m, ps[i], p, strip));
        FunctionsSnoc(m, ps, i, p, strip);
        i := i + 1;
      }
      assert ps[..|ps|] == ps;
    }

    /** luaU_dump. */
    method Dump(f: Proto) returns (r: int)
      requires status == 0
      modifies this
      ensures r == status && Wrote(old(out), 0, out, r, ChunkBytes(m, f, strip))
    {
      hide Wrote, Header, FunctionBytes;
      DumpBlock(Header(m));
      ghost var o, st := out, status;
      DumpFunction(f, None);
      WroteBoth(old(out), 0, o, st, Header(m), out, status, FunctionBytes(m, f, None, strip));
      return status;
    }
  }

  // ----- both together -----

  /** A function dumped to a writer that does not fail is loaded again, however
      `cut` cuts what was written into the pieces that the reader returns. */
  method DumpAndLoad(m: Machine, ok: Proto -> bool, f: Proto, writer: (seq<Byte>, seq<Byte>) -> int,
                     cut: seq<Byte> -> seq<seq<Byte>>)
    returns (status: int, r: Loaded<Proto>)
    requires IsMachine(m) && ChunkTrip.Sound(m, ok, f) && forall s :: Ahead(cut(s)) == s
    ensures status == 0 ==> r == Ok(f)
  {
    hide ChunkTrip.Sound, Wrote;
    r := Error("");
    var d := new DumpState(m, false, writer);
    status := d.Dump(f);
    if status == 0 {
      AllWritten(d.out, ChunkBytes(m, f, false));
      var z := new Zio(cut(d.out));
      var l := new LoadState(m, ok, z);
      ChunkTrip.SoundSurvives(m, ok, f, []);
      assert d.out + [] == d.out;
      r := l.Undump();
    }
  }

  lemma AllWritten(o: seq<Byte>, b: seq<Byte>)
    requires Wrote([], 0, o, 0, b)
    ensures o == b
  {
  }
}
