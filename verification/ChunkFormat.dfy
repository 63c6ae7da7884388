/** Precompiled chunks: function trees as bytes, and back. */
module ChunkFormat {
  type Byte = b: int | 0 <= b < 256
  type Text = seq<Byte>

  datatype Option<+T> = None | Some(value: T)

  /** What luaU_header records: byte order, sizes of int, size_t, Instruction and
      lua_Number, and whether numbers are integers. */
  datatype Machine = Machine(little: bool, intSize: nat, sizeSize: nat, instrSize: nat, numSize: nat, integral: bool)

  predicate IsMachine(m: Machine) {
    0 < m.intSize < 256 && 0 < m.sizeSize < 256 && m.instrSize < 256 && m.numSize < 256
  }

  /** A number is its bytes; a string constant can be missing only in a bad chunk. */
  datatype Const = NilK | BoolK(b: bool) | NumberK(raw: seq<Byte>) | StringK(s: Option<Text>)

  datatype LocVar = LocVar(varname: Option<Text>, startpc: int, endpc: int)

  datatype Head = Head(source: Option<Text>, linedefined: int, lastlinedefined: int,
                       nups: Byte, numparams: Byte, isVararg: Byte, maxstacksize: Byte)

  datatype Debug = Debug(lineinfo: seq<int>, locvars: seq<LocVar>, upvalues: seq<Option<Text>>)

  datatype Proto = Proto(head: Head, code: seq<nat>, k: seq<Const>, p: seq<Proto>, debug: Debug)

  // ----- words -----

  function Pow256(k: nat): (p: nat)
    ensures p > 0
  {
    if k == 0 then 1 else 256 * Pow256(k - 1)
  }

  function Digits(n: nat, k: nat): (s: seq<Byte>)
    ensures |s| == k
  {
    if k == 0 then [] else [n % 256] + Digits(n / 256, k - 1)
  }

  function FromDigits(s: seq<Byte>): nat {
    if s == [] then 0 else s[0] + 256 * FromDigits(s[1..])
  }

  function Reversed(s: seq<Byte>): (r: seq<Byte>)
    ensures |r| == |s|
  {
    seq(|s|, i requires 0 <= i < |s| => s[|s| - 1 - i])
  }

  /** The low bytes of `n`, in the order of the machine. */
  function Word(m: Machine, n: nat, k: nat): (s: seq<Byte>)
    ensures |s| == k
  {
    if m.little then Digits(n, k) else Reversed(Digits(n, k))
  }

  function FromWord(m: Machine, s: seq<Byte>): nat {
    FromDigits(if m.little then s else Reversed(s))
  }

  /** Two's complement. */
  function IntWord(m: Machine, x: int): (s: seq<Byte>)
    ensures |s| == m.intSize
  {
    var p := Pow256(m.intSize);
    Word(m, if 0 <= x then x else if 0 <= x + p then x + p else 0, m.intSize)
  }

  function FromInt(m: Machine, s: seq<Byte>): int {
    var v := FromWord(m, s);
    if 2 * v < Pow256(|s|) then v else v - Pow256(|s|)
  }

  predicate IntFits(m: Machine, x: int) {
    -(Pow256(m.intSize) as int) <= 2 * x < Pow256(m.intSize)
  }

  lemma {:induction false} DigitsBack(n: nat, k: nat)
    requires n < Pow256(k)
    ensures FromDigits(Digits(n, k)) == n
  {
    if k > 0 {
      DigitsBack(n / 256, k - 1);
      assert Digits(n, k)[1..] == Digits(n / 256, k - 1);
    }
  }

  lemma WordBack(m: Machine, n: nat, k: nat)
    requires n < Pow256(k)
    ensures FromWord(m, Word(m, n, k)) == n
  {
    DigitsBack(n, k);
    assert Reversed(Reversed(Digits(n, k))) == Digits(n, k);
  }

  lemma IntBack(m: Machine, x: int)
    requires IntFits(m, x)
    ensures FromInt(m, IntWord(m, x)) == x
  {
    hide Word, FromWord, Pow256;
    var p := Pow256(m.intSize);
    WordBack(m, if 0 <= x then x else x + p, m.intSize);
  }

  // ----- ldump.c -----

  const SIGNATURE: seq<Byte> := [27, 76, 117, 97]
  const VERSION: Byte := 0x51
  const FORMAT: Byte := 0
  const HEADER_SIZE := 12

  /** luaU_header. */
  function Header(m: Machine): (h: seq<Byte>)
    ensures |h| == HEADER_SIZE
  {
    SIGNATURE + [VERSION, FORMAT, if m.little then 1 else 0, m.intSize % 256, m.sizeSize % 256,
                 m.instrSize % 256, m.numSize % 256, if m.integral then 1 else 0]
  }

  function Bytes<T>(enc: T -> seq<Byte>, xs: seq<T>): seq<Byte> {
    if xs == [] then [] else enc(xs[0]) + Bytes(enc, xs[1..])
  }

  function StringBytes(m: Machine, s: Option<Text>): seq<Byte> {
    match s
    case None => Word(m, 0, m.sizeSize)
    case Some(t) => Word(m, |t| + 1, m.sizeSize) + (t + [0])
  }

  function ConstBytes(m: Machine, c: Const): seq<Byte> {
    match c
    case NilK => [0]
    case BoolK(b) => [1] + [if b then 1 else 0]
    case NumberK(raw) => [3] + raw
    case StringK(s) => [4] + StringBytes(m, s)
  }

  function LocVarBytes(m: Machine, v: LocVar): seq<Byte> {
    StringBytes(m, v.varname) + (IntWord(m, v.startpc) + IntWord(m, v.endpc))
  }

  function Consts(m: Machine): Const -> seq<Byte> {
    c => ConstBytes(m, c)
  }

  function LocVars(m: Machine): LocVar -> seq<Byte> {
    v => LocVarBytes(m, v)
  }

  function Strings(m: Machine): Option<Text> -> seq<Byte> {
    s => StringBytes(m, s)
  }

  function Instrs(m: Machine): nat -> seq<Byte> {
    i => Word(m, i, m.instrSize)
  }

  function Ints(m: Machine): int -> seq<Byte> {
    x => IntWord(m, x)
  }

  function HeadBytes(m: Machine, h: Head, p: Option<Text>, strip: bool): seq<Byte> {
    StringBytes(m, if h.source == p || strip then None else h.source)
    + (IntWord(m, h.linedefined) + (IntWord(m, h.lastlinedefined) + [h.nups, h.numparams, h.isVararg, h.maxstacksize]))
  }

  /** A count, and as many items. */
  function Counted<T>(m: Machine, enc: T -> seq<Byte>, xs: seq<T>): seq<Byte> {
    IntWord(m, |xs|) + Bytes(enc, xs)
  }

  function Shown(d: Debug, strip: bool): Debug {
    if strip then Debug([], [], []) else d
  }

  function DebugBytes(m: Machine, d: Debug, strip: bool): seq<Byte> {
    var e := Shown(d, strip);
    Counted(m, Ints(m), e.lineinfo) + (Counted(m, LocVars(m), e.locvars) + Counted(m, Strings(m), e.upvalues))
  }

  /** DumpFunction, inside a function with source `p`. */
  function FunctionBytes(m: Machine, f: Proto, p: Option<Text>, strip: bool): seq<Byte> {
    HeadBytes(m, f.head, p, strip)
    + (Counted(m, Instrs(m), f.code)
    + (Counted(m, Consts(m), f.k)
    + (IntWord(m, |f.p|)
    + (FunctionsBytes(m, f.p, f.head.source, strip)
    + DebugBytes(m, f.debug, strip)))))
  }

  function FunctionsBytes(m: Machine, ps: seq<Proto>, p: Option<Text>, strip: bool): seq<Byte> {
    if ps == [] then [] else FunctionBytes(m, ps[0], p, strip) + FunctionsBytes(m, ps[1..], p, strip)
  }

  /** luaU_dump. */
  function ChunkBytes(m: Machine, f: Proto, strip: bool): seq<Byte> {
    Header(m) + FunctionBytes(m, f, None, strip)
  }

  // ----- lundump.c -----

  datatype Parsed<+T> = Done(value: T, rest: seq<Byte>) | Fail(why: string) {
    predicate IsFailure() { Fail? }
    function PropagateFailure<U>(): Parsed<U>
      requires Fail?
    {
      Fail(why)
    }
    function Extract(): (T, seq<Byte>)
      requires Done?
    {
      (value, rest)
    }
  }

  function ParseBlock(n: nat, s: seq<Byte>): Parsed<seq<Byte>> {
    if n <= |s| then Done(s[..n], s[n..]) else Fail("unexpected end")
  }

  function ParseByte(s: seq<Byte>): Parsed<Byte> {
    var b :- ParseBlock(1, s);
    Done(b.0[0], b.1)
  }

  function ParseInt(m: Machine, s: seq<Byte>): (r: Parsed<nat>)
    ensures r.Done? ==> |r.rest| + m.intSize == |s|
  {
    var b :- ParseBlock(m.intSize, s);
    var x := FromInt(m, b.0);
    if x < 0 then Fail("bad integer") else Done(x, b.1)
  }

  function ParseString(m: Machine, s: seq<Byte>): (r: Parsed<Option<Text>>)
    ensures r.Done? ==> |r.rest| + m.sizeSize <= |s|
  {
    var b :- ParseBlock(m.sizeSize, s);
    var size := FromWord(m, b.0);
    if size == 0 then Done(None, b.1)
    else
      var t :- ParseBlock(size, b.1);
      Done(Some(t.0[..size - 1]), t.1)
  }

  function ParseConst(m: Machine, s: seq<Byte>): (r: Parsed<Const>)
    ensures r.Done? ==> |r.rest| <= |s|
  {
    var t :- ParseByte(s);
    if t.0 == 0 then Done(NilK, t.1)
    else if t.0 == 1 then
      var b :- ParseByte(t.1);
      Done(BoolK(b.0 != 0), b.1)
    else if t.0 == 3 then
      var b :- ParseBlock(m.numSize, t.1);
      Done(NumberK(b.0), b.1)
    else if t.0 == 4 then
      var b :- ParseString(m, t.1);
      Done(StringK(b.0), b.1)
    else Fail("bad constant")
  }

  function ParseLocVar(m: Machine, s: seq<Byte>): (r: Parsed<LocVar>)
    ensures r.Done? ==> |r.rest| <= |s|
  {
    var v :- ParseString(m, s);
    var a :- ParseInt(m, v.1);
    var b :- ParseInt(m, a.1);
    Done(LocVar(v.0, a.0, b.0), b.1)
  }

  ghost predicate Shrinks<T(!new)>(item: seq<Byte> -> Parsed<T>) {
    forall s :: item(s).Done? ==> |item(s).rest| <= |s|
  }

  function ConstItem(m: Machine): (f: seq<Byte> -> Parsed<Const>)
    ensures Shrinks(f)
  {
    s => ParseConst(m, s)
  }

  function LocVarItem(m: Machine): (f: seq<Byte> -> Parsed<LocVar>)
    ensures Shrinks(f)
  {
    s => ParseLocVar(m, s)
  }

  function StringItem(m: Machine): (f: seq<Byte> -> Parsed<Option<Text>>)
    ensures Shrinks(f)
  {
    s => ParseString(m, s)
  }

  /** `n` more items, after those in `got`. */
  function ParseItems<T(!new)>(item: seq<Byte> -> Parsed<T>, n: nat, s: seq<Byte>, got: seq<T>): (r: Parsed<seq<T>>)
    requires Shrinks(item)
    ensures r.Done? ==> |r.rest| <= |s|
  {
    if n == 0 then Done(got, s)
    else
      var x :- item(s);
      ParseItems(item, n - 1, x.1, got + [x.0])
  }

  function ParseCounted<T(!new)>(m: Machine, item: seq<Byte> -> Parsed<T>, s: seq<Byte>): (r: Parsed<seq<T>>)
    requires Shrinks(item)
    ensures r.Done? ==> |r.rest| <= |s|
  {
    var n :- ParseInt(m, s);
    ParseItems(item, n.0, n.1, [])
  }

  /** A block of bytes as it lies in memory, seen as `n` values of size `k`. */
  function Cut<T>(from: seq<Byte> -> T, n: nat, k: nat, b: seq<Byte>): (r: seq<T>)
    ensures |r| == n
  {
    if n == 0 then []
    else if k <= |b| then [from(b[..k])] + Cut(from, n - 1, k, b[k..])
    else [from(b)] + Cut(from, n - 1, k, [])
  }

  function ParseVector<T>(m: Machine, from: seq<Byte> -> T, k: nat, s: seq<Byte>): (r: Parsed<seq<T>>)
    ensures r.Done? ==> |r.rest| <= |s|
  {
    var n :- ParseInt(m, s);
    var b :- ParseBlock(n.0 * k, n.1);
    Done(Cut(from, n.0, k, b.0), b.1)
  }

  function FromInstr(m: Machine): seq<Byte> -> nat {
    b => FromWord(m, b)
  }

  function FromIntWord(m: Machine): seq<Byte> -> int {
    b => FromInt(m, b)
  }

  function ParseHead(m: Machine, q: Option<Text>, s: seq<Byte>): (r: Parsed<Head>)
    ensures r.Done? ==> |r.rest| + m.sizeSize <= |s|
  {
    var n :- ParseString(m, s);
    var a :- ParseInt(m, n.1);
    var b :- ParseInt(m, a.1);
    var u :- ParseByte(b.1);
    var v :- ParseByte(u.1);
    var w :- ParseByte(v.1);
    var x :- ParseByte(w.1);
    Done(Head(if n.0.None? then q else n.0, a.0, b.0, u.0, v.0, w.0, x.0), x.1)
  }

  function ParseDebug(m: Machine, s: seq<Byte>): (r: Parsed<Debug>)
    ensures r.Done? ==> |r.rest| <= |s|
  {
    var l :- ParseVector(m, FromIntWord(m), m.intSize, s);
    var v :- ParseCounted(m, LocVarItem(m), l.1);
    var u :- ParseCounted(m, StringItem(m), v.1);
    Done(Debug(l.0, v.0, u.0), u.1)
  }

  /** LoadFunction inside a function with source `q`; `ok` stands for luaG_checkcode. */
  function ParseFunction(m: Machine, ok: Proto -> bool, q: Option<Text>, s: seq<Byte>): (r: Parsed<Proto>)
    requires IsMachine(m)
    ensures r.Done? ==> |r.rest| <= |s|
    decreases |s|, 0
  {
    var h :- ParseHead(m, q, s);
    var c :- ParseVector<nat>(m, FromInstr(m), m.instrSize, h.1);
    var k :- ParseCounted(m, ConstItem(m), c.1);
    var n :- ParseInt(m, k.1);
    var ps :- ParseFunctions(m, ok, n.0, h.0.source, n.1, []);
    var d :- ParseDebug(m, ps.1);
    var f := Proto(h.0, c.0, k.0, ps.0, d.0);
    if ok(f) then Done(f, d.1) else Fail("bad code")
  }

  function ParseFunctions(m: Machine, ok: Proto -> bool, n: nat, q: Option<Text>, s: seq<Byte>, got: seq<Proto>)
    : (r: Parsed<seq<Proto>>)
    requires IsMachine(m)
    ensures r.Done? ==> |r.rest| <= |s|
    decreases |s|, n + 1
  {
    if n == 0 then Done(got, s)
    else
      var f :- ParseFunction(m, ok, q, s);
      ParseFunctions(m, ok, n - 1, q, f.1, got + [f.0])
  }

  /** The source of a chunk that has none. */
  const NO_SOURCE: Text := [61, 63]

  /** luaU_undump. */
  function ParseChunk(m: Machine, ok: Proto -> bool, s: seq<Byte>): Parsed<Proto>
    requires IsMachine(m)
  {
    var h :- ParseBlock(HEADER_SIZE, s);
    if h.0 != Header(m) then Fail("bad header") else ParseFunction(m, ok, Some(NO_SOURCE), h.1)
  }
}
