/** The fast path of the dynamic schedule on machine words: when its counter stays
    within the word, when wrapping around does harm, and what the test with which
    gomp_loop_init chooses this path is worth. */
module LoopWords {
  import opened LoopChunks
  import opened F = LoopFetchAdd

  // ----- words -----

  predicate Fits(max: nat, x: int) {
    0 <= x + max + 1 && x <= max
  }

  function Remainder(x: int, m: int): int
    requires m > 0
  {
    x % m
  }

  /** Two's complement. */
  function Wrap(max: nat, x: int): int {
    Remainder(x + max + 1, 2 * max + 2) - max - 1
  }

  lemma Multiples(d: int, m: int)
    requires m > 0
    ensures (d >= 1 ==> d * m >= m) && (d <= -1 ==> d * m <= -m)
  {
    if d >= 1 {
      assert (d - 1) * m >= 0;
    } else if d <= -1 {
      assert (-d - 1) * m >= 0;
    }
  }

  lemma RemainderIs(x: int, m: int, q: int, r: int)
    requires 0 <= r < m && x == q * m + r
    ensures Remainder(x, m) == r
  {
    var p := x / m;
    assert x == p * m + x % m;
    assert (p - q) * m == p * m - q * m;
    Multiples(p - q, m);
  }

  lemma RemainderOf(x: int, m: int) returns (q: int)
    requires m > 0
    ensures x == q * m + Remainder(x, m) && 0 <= Remainder(x, m) < m
  {
    q := x / m;
  }

  lemma RemainderSum(x: int, m: int, c: int)
    requires m > 0
    ensures Remainder(Remainder(x, m) + c, m) == Remainder(x + c, m)
  {
    hide Remainder;
    var q := RemainderOf(x, m);
    var p := RemainderOf(Remainder(x, m) + c, m);
    assert (q + p) * m == q * m + p * m;
    RemainderIs(x + c, m, q + p, Remainder(Remainder(x, m) + c, m));
  }

  lemma WrapOnce(max: nat, x: int)
    ensures Fits(max, Wrap(max, x)) && (Fits(max, x) ==> Wrap(max, x) == x)
    ensures max < x <= 3 * max + 2 ==> Wrap(max, x) == x - (2 * max + 2)
    ensures 0 > x + max + 1 >= -2 * max - 2 ==> Wrap(max, x) == x + (2 * max + 2)
  {
    hide Remainder;
    var m, y := 2 * max + 2, x + max + 1;
    var q := RemainderOf(y, m);
    if 0 <= y < m {
      RemainderIs(y, m, 0, y);
    } else if m <= y < 2 * m {
      RemainderIs(y, m, 1, y - m);
    } else if -m <= y < 0 {
      RemainderIs(y, m, -1, y + m);
    }
  }

  lemma WrapSum(max: nat, x: int, c: int)
    ensures Wrap(max, Wrap(max, x) + c) == Wrap(max, x + c)
  {
    hide Remainder;
    RemainderSum(x + max + 1, 2 * max + 2, c);
  }

  // ----- the counter within the word -----

  /** A loop whose bounds and chunk are words. */
  ghost predicate WordLoop(l: Loop, max: nat) {
    Dynamic(l) && Fits(max, l.start) && Fits(max, l.end) && Fits(max, l.chunk)
  }

  ghost predicate StaysWithin(l: Loop, n: nat, max: nat) {
    forall ts, ss: seq<Team>, k :: F.Run(l, n, ts, ss) && 0 <= k < |ss| ==> Fits(max, ss[k].next)
  }

  /** `n` threads keep the counter within the word, whatever they do, exactly if the
      last chunk boundary that they can reach is within it. */
  lemma WithinWord(l: Loop, n: nat, max: nat)
    requires WordLoop(l, max) && n >= 1
    ensures StaysWithin(l, n, max) <==> Fits(max, Last(l, n))
  {
    hide Dynamic, Chunks, F.Run;
    if Fits(max, Last(l, n)) {
      forall ts, ss: seq<Team>, k | F.Run(l, n, ts, ss) && 0 <= k < |ss| ensures Fits(max, ss[k].next) {
        Progress(l, n, ts, ss, k);
        Between(l, max, k, Chunks(l) + n);
      }
    } else {
      ChunksReach(l);
      var ts, ss := Reach(l, n, Chunks(l), n);
      Progress(l, n, ts, ss, |ts|);
    }
  }

  lemma Between(l: Loop, max: nat, k: nat, m: nat)
    requires Dynamic(l) && Fits(max, l.start) && Fits(max, l.start + m * l.chunk) && k <= m
    ensures Fits(max, l.start + k * l.chunk)
  {
    hide Dynamic;
    AlongChunks(l, k);
    AlongChunks(l, m);
    Times(k, m, Size(l));
  }

  // ----- the counter wraps around -----

  /** One fetch-and-add on the word. */
  function AddWord(l: Loop, max: nat, s: Team, t: nat): Team
    requires F.Enabled(s, t)
  {
    var tmp := s.next;
    var s1 := s.(next := Wrap(max, tmp + l.chunk));
    if (l.incr > 0 && tmp >= l.end) || (l.incr <= 0 && tmp <= l.end) then s1.(done := s.done[t := true])
    else
      var nend := Wrap(max, tmp + l.chunk);
      var e := if (l.incr > 0 && nend > l.end) || (l.incr <= 0 && nend < l.end) then l.end else nend;
      s1.(log := s.log + [Block(tmp, e)])
  }

  ghost predicate WordRun(l: Loop, n: nat, max: nat, ts: seq<nat>, ss: seq<Team>) {
    && |ss| == |ts| + 1 && ss[0] == F.Initial(l, n)
    && (forall i :: 0 <= i < |ts| ==> F.Enabled(ss[i], ts[i]) && ss[i + 1] == AddWord(l, max, ss[i], ts[i]))
  }

  /** The team on words `s` is what the team on integers `e` looks like. */
  ghost predicate Image(max: nat, s: Team, e: Team) {
    s == e.(next := Wrap(max, e.next))
  }

  /** A thread that reads `x` gets the same answer on words. */
  ghost predicate Harmless(l: Loop, max: nat, x: int) {
    if Before(l, x) then Fits(max, x) && Fits(max, x + l.chunk) else !Before(l, Wrap(max, x))
  }

  lemma SameStep(l: Loop, max: nat, s: Team, e: Team, t: nat)
    requires l.incr != 0 && Image(max, s, e) && F.Enabled(e, t) && Harmless(l, max, e.next)
    ensures Image(max, AddWord(l, max, s, t), Add(l, e, t))
  {
    hide Wrap;
    WrapSum(max, e.next, l.chunk);
    WrapOnce(max, e.next);
    WrapOnce(max, e.next + l.chunk);
  }

  /** The chunk boundaries that refused threads read do not look like iterations. */
  ghost predicate Refuses(l: Loop, n: nat, max: nat) {
    forall r :: 0 <= r < n ==> !Before(l, Wrap(max, Last(l, r)))
  }

  /** A sum that leaves the word wraps around to before where it started. */
  lemma WrapsBack(l: Loop, max: nat, x: int)
    requires Dynamic(l) && Fits(max, l.chunk) && Fits(max, x) && !Fits(max, x + l.chunk)
    ensures Along(l, Wrap(max, x + l.chunk)) < Along(l, x)
  {
    hide Dynamic, Wrap;
    ChunkForward(l);
    WrapOnce(max, x + l.chunk);
  }

  /** What is read before the end, and one chunk more, is within the word, if the
      first boundary behind the end is. */
  lemma EarlyHarmless(l: Loop, max: nat, k: nat)
    requires WordLoop(l, max) && k < Chunks(l)
    requires k + 1 < Chunks(l) || Fits(max, Last(l, 0))
    ensures Harmless(l, max, l.start + k * l.chunk)
  {
    hide Dynamic, Chunks, Wrap;
    AlongChunks(l, k);
    AlongChunks(l, k + 1);
    assert l.start + k * l.chunk + l.chunk == l.start + (k + 1) * l.chunk;
    assert Fits(max, l.start + k * l.chunk);
    assert k + 1 < Chunks(l) ==> Fits(max, l.start + (k + 1) * l.chunk);
  }

  /** If a refused thread is never misled, that boundary is within the word. */
  lemma BoundaryFits(l: Loop, max: nat)
    requires WordLoop(l, max) && !Before(l, Wrap(max, Last(l, 0)))
    ensures Fits(max, Last(l, 0))
  {
    hide Dynamic, Chunks, Wrap;
    ChunksReach(l);
    if !Fits(max, Last(l, 0)) {
      BoundaryAt(l, max);
      var k := Chunks(l) - 1;
      AlongChunks(l, k);
      WrapsBack(l, max, l.start + k * l.chunk);
    }
  }

  lemma AllHarmless(l: Loop, n: nat, max: nat, k: nat)
    requires WordLoop(l, max) && n >= 1 && Refuses(l, n, max) && k < Chunks(l) + n
    ensures Harmless(l, max, l.start + k * l.chunk)
  {
    hide Dynamic, Chunks, Wrap;
    assert !Before(l, Wrap(max, Last(l, 0)));
    BoundaryFits(l, max);
    if k < Chunks(l) {
      EarlyHarmless(l, max, k);
    } else {
      ChunksReach(l);
      AlongChunks(l, k);
      assert l.start + k * l.chunk == Last(l, k - Chunks(l));
    }
  }

  ghost predicate Images(max: nat, ws: seq<Team>, ss: seq<Team>) {
    |ws| == |ss| && forall k :: 0 <= k < |ss| ==> Image(max, ws[k], ss[k])
  }

  /** Then every run on words is the image of a run on integers. */
  lemma {:induction false} Shadow(l: Loop, n: nat, max: nat, ts: seq<nat>, ws: seq<Team>) returns (ss: seq<Team>)
    requires WordLoop(l, max) && n >= 1 && Refuses(l, n, max) && WordRun(l, n, max, ts, ws)
    ensures F.Run(l, n, ts, ss) && Images(max, ws, ss)
    decreases |ts|
  {
    hide Dynamic, Chunks, Wrap, Refuses, Harmless;
    var m := |ts| - 1;
    if m < 0 {
      ss := [F.Initial(l, n)];
      WrapOnce(max, l.start);
    } else {
      ss := Shadow(l, n, max, ts[..m], ws[..m + 1]);
      var e, t := ss[m], ts[m];
      assert Image(max, ws[..m + 1][m], e) && F.Enabled(ws[m], t);
      Progress(l, n, ts[..m], ss, m);
      F.RunInv(l, n, ts[..m], ss, m);
      RefusedMore(e.done, t);
      ChunkForward(l);
      AllHarmless(l, n, max, m);
      SameStep(l, max, ws[m], e, t);
      RunOn(l, n, ts[..m], ss, t);
      ss := ss + [Add(l, e, t)];
      assert ts[..m] + [t] == ts;
    }
  }

  /** The blocks handed out so far lead on from the start. */
  ghost predicate InOrder(l: Loop, log: seq<Block>) {
    Chain(l, log, l.start, if log == [] then l.start else log[|log| - 1].hi)
  }

  ghost predicate AlwaysInOrder(l: Loop, n: nat, max: nat) {
    forall ts, ws: seq<Team>, k :: WordRun(l, n, max, ts, ws) && 0 <= k < |ws| ==> InOrder(l, ws[k].log)
  }

  lemma OrderKept(l: Loop, n: nat, max: nat)
    requires WordLoop(l, max) && n >= 1 && Refuses(l, n, max)
    ensures AlwaysInOrder(l, n, max)
  {
    hide WordLoop, Refuses, Images, F.Run, WordRun;
    forall ts, ws: seq<Team>, k | WordRun(l, n, max, ts, ws) && 0 <= k < |ws| ensures InOrder(l, ws[k].log) {
      var ss := Shadow(l, n, max, ts, ws);
      ImageAt(max, ws, ss, k);
      WordLoopDynamic(l, max);
      F.RunInv(l, n, ts, ss, k);
    }
  }

  lemma ImageAt(max: nat, ws: seq<Team>, ss: seq<Team>, k: nat)
    requires Images(max, ws, ss) && k < |ws|
    ensures k < |ss| && ws[k].log == ss[k].log && ws[k].done == ss[k].done
  {
    assert Image(max, ws[k], ss[k]);
  }

  lemma WordLoopDynamic(l: Loop, max: nat)
    requires WordLoop(l, max)
    ensures Dynamic(l)
  {
  }

  // ----- and does harm -----

  lemma ImageRun(l: Loop, n: nat, max: nat, ts: seq<nat>, ss: seq<Team>) returns (ws: seq<Team>)
    requires l.incr != 0 && F.Run(l, n, ts, ss) && Fits(max, l.start)
    requires forall k :: 0 <= k < |ts| ==> Harmless(l, max, ss[k].next)
    ensures WordRun(l, n, max, ts, ws) && Images(max, ws, ss)
  {
    hide Harmless, Wrap;
    ws := seq(|ss|, k requires 0 <= k < |ss| => ss[k].(next := Wrap(max, ss[k].next)));
    WrapOnce(max, l.start);
    forall k | 0 <= k < |ts| ensures F.Enabled(ws[k], ts[k]) && ws[k + 1] == AddWord(l, max, ws[k], ts[k]) {
      SameStep(l, max, ws[k], ss[k], ts[k]);
    }
  }

  lemma WordRunOn(l: Loop, n: nat, max: nat, ts: seq<nat>, ws: seq<Team>, t: nat)
    requires WordRun(l, n, max, ts, ws) && F.Enabled(ws[|ts|], t)
    ensures WordRun(l, n, max, ts + [t], ws + [AddWord(l, max, ws[|ts|], t)])
  {
  }

  lemma BoundaryAt(l: Loop, max: nat)
    requires WordLoop(l, max) && !Fits(max, Last(l, 0))
    ensures Chunks(l) > 0 && Last(l, 0) == l.start + (Chunks(l) - 1) * l.chunk + l.chunk
  {
    hide Dynamic, Chunks;
    ChunksReach(l);
    var q := Chunks(l);
    assert (q - 1) * l.chunk + l.chunk == q * l.chunk;
  }

  lemma BackwardBlock(l: Loop, max: nat, s: Team, e: Team, t: nat)
    requires WordLoop(l, max) && Image(max, s, e) && F.Enabled(s, t)
    requires Before(l, e.next) && Fits(max, e.next) && !Fits(max, e.next + l.chunk)
    ensures !InOrder(l, AddWord(l, max, s, t).log)
  {
    hide Wrap, Dynamic;
    ChunkForward(l);
    WrapOnce(max, e.next);
    WrapsBack(l, max, e.next);
  }

  /** The last block before the end wraps around. */
  lemma BoundaryAstray(l: Loop, n: nat, max: nat) returns (ts: seq<nat>, ws: seq<Team>)
    requires WordLoop(l, max) && n >= 1 && !Fits(max, Last(l, 0))
    ensures WordRun(l, n, max, ts, ws) && |ws| == |ts| + 1 && !InOrder(l, ws[|ts|].log)
  {
    hide Dynamic, Chunks, Wrap, F.Run, WordRun, Harmless;
    ChunksReach(l);
    BoundaryAt(l, max);
    var q := Chunks(l) - 1;
    var ss;
    ts, ss := Reach(l, n, q, 0);
    forall k | 0 <= k < |ts| ensures Harmless(l, max, ss[k].next) {
      Progress(l, n, ts, ss, k);
      EarlyHarmless(l, max, k);
    }
    ChunkForward(l);
    ws := ImageRun(l, n, max, ts, ss);
    Progress(l, n, ts, ss, q);
    assert Image(max, ws[q], ss[q]);
    AlongChunks(l, q);
    BackwardBlock(l, max, ws[q], ss[q], 0);
    WordRunOn(l, n, max, ts, ws, 0);
    ts, ws := ts + [0], ws + [AddWord(l, max, ws[q], 0)];
  }

  /** All blocks are handed out, and a thread that should be refused gets another. */
  lemma RefusedAstray(l: Loop, n: nat, max: nat, r: nat) returns (ts: seq<nat>, ws: seq<Team>)
    requires WordLoop(l, max) && r < n && Fits(max, Last(l, 0)) && Before(l, Wrap(max, Last(l, r)))
    requires forall i :: 0 <= i < r ==> !Before(l, Wrap(max, Last(l, i)))
    ensures WordRun(l, n, max, ts, ws) && |ws| == |ts| + 1 && !InOrder(l, ws[|ts|].log)
  {
    hide Dynamic, Chunks, Wrap, F.Run, WordRun, Harmless;
    ChunksReach(l);
    var q := Chunks(l);
    var ss;
    ts, ss := Reach(l, n, q, r);
    forall k | 0 <= k < |ts| ensures Harmless(l, max, ss[k].next) {
      Progress(l, n, ts, ss, k);
      LateHarmless(l, max, r, k);
    }
    ChunkForward(l);
    ws := ImageRun(l, n, max, ts, ss);
    var m := |ts|;
    Progress(l, n, ts, ss, m);
    assert ss[m].next == Last(l, r) && Image(max, ws[m], ss[m]);
    F.RunInv(l, n, ts, ss, m);
    AlongChunks(l, m);
    WordRunOn(l, n, max, ts, ws, r);
    OneTooMany(l, max, ws[m], ss[m], r);
    ts, ws := ts + [r], ws + [AddWord(l, max, ws[m], r)];
  }

  lemma LateHarmless(l: Loop, max: nat, r: nat, k: nat)
    requires WordLoop(l, max) && Fits(max, Last(l, 0)) && k < Chunks(l) + r
    requires forall i :: 0 <= i < r ==> !Before(l, Wrap(max, Last(l, i)))
    ensures Harmless(l, max, l.start + k * l.chunk)
  {
    hide Dynamic, Chunks, Wrap;
    ChunksReach(l);
    if k < Chunks(l) {
      EarlyHarmless(l, max, k);
    } else {
      AlongChunks(l, k);
      assert l.start + k * l.chunk == Last(l, k - Chunks(l));
    }
  }

  lemma OneTooMany(l: Loop, max: nat, s: Team, e: Team, t: nat)
    requires l.incr != 0 && Image(max, s, e) && F.Inv(l, e) && F.Enabled(s, t)
    requires !Before(l, e.next) && Before(l, s.next)
    ensures !InOrder(l, AddWord(l, max, s, t).log)
  {
    hide Wrap;
    var log := AddWord(l, max, s, t).log;
    assert log[..|log| - 1] == s.log;
    if InOrder(l, log) {
      ChainEnd(l, s.log, l.start, l.end, s.next);
    }
  }

  /** A chain ends in one place. */
  lemma ChainEnd(l: Loop, s: seq<Block>, a: int, b: int, c: int)
    requires Chain(l, s, a, b) && Chain(l, s, a, c)
    ensures b == c
  {
  }

  /** On words the blocks follow each other in every run, exactly if no boundary
      that a refused thread reads looks like an iteration. */
  lemma WordOrder(l: Loop, n: nat, max: nat)
    requires WordLoop(l, max) && n >= 1
    ensures AlwaysInOrder(l, n, max) <==> Refuses(l, n, max)
  {
    hide WordLoop, WordRun, InOrder, Wrap, Before;
    if Refuses(l, n, max) {
      OrderKept(l, n, max);
    } else if !Fits(max, Last(l, 0)) {
      var ts, ws := BoundaryAstray(l, n, max);
    } else {
      var r := FirstMisled(l, n, max);
      var ts, ws := RefusedAstray(l, n, max, r);
    }
  }

  lemma FirstMisled(l: Loop, n: nat, max: nat) returns (r: nat)
    requires !Refuses(l, n, max)
    ensures r < n && Before(l, Wrap(max, Last(l, r))) && forall i :: 0 <= i < r ==> !Before(l, Wrap(max, Last(l, i)))
  {
    hide Wrap, Before;
    r := 0;
    while !Before(l, Wrap(max, Last(l, r)))
      invariant r < n && forall i :: 0 <= i < r ==> !Before(l, Wrap(max, Last(l, i)))
      decreases n - r
    {
      r := r + 1;
    }
  }

  /** Then every iteration is handed out exactly once. */
  lemma EachIterationOnce(start: int, end: int, incr: int, c: nat, n: nat, max: nat, ts: seq<nat>, ws: seq<Team>,
                          k: nat, i: nat) returns (b: nat)
    requires incr != 0 && c >= 1 && n >= 1 && k < |ws|
    requires var l := LoopInit(start, end, incr, c, true);
             WordLoop(l, max) && Refuses(l, n, max) && WordRun(l, n, max, ts, ws)
    requires Refused(ws[k].done) > 0 && if incr > 0 then start + i * incr < end else start + i * incr > end
    ensures var l, v, log := LoopInit(start, end, incr, c, true), start + i * incr, ws[k].log;
            && b < |log| && Covers(l, log[b], v) && OnGrid(l, log[b].lo)
            && forall j :: 0 <= j < |log| && j != b ==> !Covers(l, log[j], v)
  {
    hide WordLoop, Refuses, Images, F.Run, WordRun;
    var ss := Shadow(LoopInit(start, end, incr, c, true), n, max, ts, ws);
    ImageAt(max, ws, ss, k);
    b := F.EachIterationOnce(start, end, incr, c, n, ts, ss, k, i);
  }

  // ----- the test of gomp_loop_init -----

  /** The exact part of the test, made for `m` threads, where LONG_MAX is `max`. */
  predicate Mode(l: Loop, m: nat, max: int) {
    if l.incr > 0 then l.end < max - (m + 1) * l.chunk
    else l.end > (m + 1) * -l.chunk - max
  }

  function Pow2(p: nat): (r: nat)
    ensures r >= 1
  {
    if p == 0 then 1 else 2 * Pow2(p - 1)
  }

  lemma {:induction false} Pow2Least(p: nat, q: nat)
    requires p <= q
    ensures Pow2(p) <= Pow2(q) && (p < q ==> 2 * Pow2(p) <= Pow2(q))
    decreases q - p
  {
    if p < q {
      Pow2Least(p, q - 1);
    }
  }

  /** The bits of `a` and those of `b`. */
  function Or(a: nat, b: nat): nat {
    if a == 0 && b == 0 then 0
    else 2 * Or(a / 2, b / 2) + if a % 2 == 1 || b % 2 == 1 then 1 else 0
  }

  lemma {:induction false} OrAtLeast(a: nat, b: nat, p: nat)
    ensures Or(a, b) >= Pow2(p) <==> a >= Pow2(p) || b >= Pow2(p)
    decreases p
  {
    if p > 0 {
      OrAtLeast(a / 2, b / 2, p - 1);
    } else {
      OrZero(a, b);
    }
  }

  lemma {:induction false} OrZero(a: nat, b: nat)
    ensures Or(a, b) == 0 <==> a == 0 && b == 0
    decreases a + b
  {
    if a > 0 || b > 0 {
      OrZero(a / 2, b / 2);
    }
  }

  /** The largest number in a signed word of `2 * p + 2` bits. */
  function MaxWord(p: nat): nat {
    2 * Pow2(p) * Pow2(p) - 1
  }

  lemma WordGrows(p: nat, q: nat)
    requires p <= q
    ensures MaxWord(p) <= MaxWord(q) && (p < q ==> MaxWord(q) >= 4 * MaxWord(p) + 3)
  {
    hide Pow2;
    Pow2Least(p, q);
    var a, b := Pow2(p), Pow2(q);
    Times(a, b, a);
    Times(a, b, b);
    if p < q {
      Times(2 * a, b, 2 * a);
      Times(2 * a, b, b);
      assert 2 * a * (2 * a) == 4 * (a * a) && b * (2 * a) == 2 * a * b;
    }
  }

  /** The test as gomp_loop_init makes it, where the word has `2 * p + 2` bits and
      `long` has `2 * q + 2`: neither the threads nor the chunk reach half a word,
      and then the exact condition. */
  predicate ModeTest(l: Loop, m: nat, p: nat, q: nat) {
    Or(m, Size(l)) < Pow2(p) && Mode(l, m, MaxWord(q))
  }

  /** The product that the test forms does not overflow. */
  lemma TestFits(l: Loop, m: nat, p: nat)
    requires Or(m, Size(l)) < Pow2(p)
    ensures 0 <= (m + 1) * Size(l) <= MaxWord(p)
  {
    hide Or, Pow2;
    OrAtLeast(m, Size(l), p);
    HalfWords(m, Size(l), Pow2(p));
  }

  lemma HalfWords(n: nat, c: nat, h: nat)
    requires n < h && c < h
    ensures 0 <= (n + 1) * c < 2 * h * h
  {
    Times(n + 1, h, c);
    Times(c, h, h);
    Times(1, h, h);
    assert h * c == c * h && 2 * h * h == h * h + h * h;
  }

  /** A loop that is given to this path. */
  ghost predicate Marked(l: Loop, m: nat, p: nat, q: nat) {
    WordLoop(l, MaxWord(p)) && ModeTest(l, m, p, q)
  }

  /** In such a loop `m` refused threads do not lead out of the word, if `long` is
      not wider than it. */
  lemma TestEnough(l: Loop, m: nat, p: nat, q: nat, r: nat)
    requires Marked(l, m, p, q) && q <= p && r <= m
    ensures Fits(MaxWord(p), Last(l, r))
  {
    hide Dynamic, Chunks, Or, MaxWord;
    ChunkForward(l);
    ChunksReach(l);
    AlongChunks(l, Chunks(l) + r);
    WordGrows(q, p);
    var s := Size(l);
    Times(r + 1, m + 1, s);
    assert (Chunks(l) + r) * s == Chunks(l) * s + r * s && (r + 1) * s == r * s + s;
    assert l.incr < 0 ==> (m + 1) * -l.chunk == (m + 1) * s;
  }

  ghost predicate KeepsWord(m: nat, n: nat, p: nat, q: nat) {
    forall l :: Marked(l, m, p, q) ==> StaysWithin(l, n, MaxWord(p))
  }

  ghost predicate KeepsOrder(m: nat, n: nat, p: nat, q: nat) {
    forall l :: Marked(l, m, p, q) ==> AlwaysInOrder(l, n, MaxWord(p))
  }

  /** The test is enough for as many threads as it was made for. */
  lemma NoOverflow(m: nat, n: nat, p: nat, q: nat)
    requires n >= 1 && q <= p
    ensures n <= m ==> KeepsWord(m, n, p, q)
    ensures n <= m + 1 ==> KeepsOrder(m, n, p, q)
  {
    hide WordLoop, StaysWithin, AlwaysInOrder, Wrap, Last, ModeTest, MaxWord;
    var max := MaxWord(p);
    forall l | Marked(l, m, p, q) && n <= m ensures StaysWithin(l, n, max) {
      TestEnough(l, m, p, q, n);
      WithinWord(l, n, max);
    }
    forall l | Marked(l, m, p, q) && n <= m + 1 ensures AlwaysInOrder(l, n, max) {
      forall r | 0 <= r < n ensures !Before(l, Wrap(max, Last(l, r))) {
        TestEnough(l, m, p, q, r);
        WrapOnce(max, Last(l, r));
        LastBehind(l, max, r);
      }
      WordOrder(l, n, max);
    }
  }

  lemma LastBehind(l: Loop, max: nat, r: nat)
    requires WordLoop(l, max)
    ensures !Before(l, Last(l, r))
  {
    hide Dynamic, Chunks;
    ChunksReach(l);
    AlongChunks(l, Chunks(l) + r);
  }

  /** One iteration, from `e - 1` to `e`, in a chunk of `c`. */
  lemma OneIteration(e: int, c: nat, r: nat)
    requires c >= 1
    ensures var l := LoopInit(e - 1, e, 1, c, true);
            Dynamic(l) && Size(l) == l.chunk == c && l.incr == 1 && l.end == e && Last(l, r) == e - 1 + (1 + r) * c
  {
    var l := LoopInit(e - 1, e, 1, c, true);
    assert l.chunk == c * l.incr;
    assert Chunks(l) == c / c == 1;
  }

  /** A loop that leads just out of the word once `r` threads are refused. */
  lemma JustOut(l: Loop, n: nat, max: nat, r: nat)
    requires WordLoop(l, max) && l.incr == 1 && n >= 1 && l.end + max >= 0
    ensures Last(l, n) > max ==> !StaysWithin(l, n, max)
    ensures r < n && Last(l, r) == max + 1 ==> !AlwaysInOrder(l, n, max)
  {
    hide Dynamic, Chunks, Wrap, StaysWithin, AlwaysInOrder, Last;
    WithinWord(l, n, max);
    WordOrder(l, n, max);
    WrapOnce(max, Last(l, r));
  }

  lemma SixBits(p: nat)
    requires p >= 2
    ensures Pow2(p) >= 4 && MaxWord(p) >= 8 * Pow2(p) - 1
  {
    hide Pow2;
    assert Pow2(2) == 4 by {
      Four();
    }
    Pow2Least(2, p);
    Times(4, Pow2(p), Pow2(p));
  }

  lemma Four()
    ensures Pow2(2) == 4
  {
    assert Pow2(1) == 2;
  }

  /** With more threads than it was made for, the test lets this loop through. */
  lemma TooManyThreads(m: nat, n: nat, p: nat) returns (l: Loop)
    requires p >= 2 && 1 <= m < Pow2(p) && m < n
    ensures Marked(l, m, p, p) && !StaysWithin(l, n, MaxWord(p)) && (m + 1 < n ==> !AlwaysInOrder(l, n, MaxWord(p)))
  {
    hide Or, Dynamic, Chunks, Last, StaysWithin, AlwaysInOrder, MaxWord, Pow2;
    SixBits(p);
    var max, e := MaxWord(p), MaxWord(p) - 3 * (m + 1) - 1;
    l := LoopInit(e - 1, e, 1, 3, true);
    OneIteration(e, 3, n);
    OneIteration(e, 3, m + 1);
    OrAtLeast(m, 3, p);
    JustOut(l, n, max, m + 1);
  }

  /** With a wider `long`, it lets this one through, which one thread is enough for. */
  lemma WideLong(m: nat, n: nat, p: nat, q: nat) returns (l: Loop)
    requires 2 <= p < q && 1 <= m < Pow2(p) && n >= 1
    ensures Marked(l, m, p, q) && !StaysWithin(l, n, MaxWord(p)) && !AlwaysInOrder(l, n, MaxWord(p))
  {
    hide Or, Dynamic, Chunks, Last, StaysWithin, AlwaysInOrder, MaxWord, Pow2;
    SixBits(p);
    WordGrows(p, q);
    var max := MaxWord(p);
    l := LoopInit(max - 1, max, 1, 2, true);
    OneIteration(max, 2, n);
    OneIteration(max, 2, 0);
    OrAtLeast(m, 2, p);
    JustOut(l, n, max, 0);
  }

  /** What the test is worth, for all words of six bits or more and a `long` at least
      as wide: made for `m` threads, it keeps a counter that `n` threads use within
      the word exactly if `n` is not larger; but one thread more does no harm. */
  lemma TestWorth(m: nat, n: nat, p: nat, q: nat)
    requires m >= 1 && n >= 1 && 2 <= p <= q
    ensures KeepsWord(m, n, p, q) <==> m >= Pow2(p) || (q == p && n <= m)
    ensures KeepsOrder(m, n, p, q) <==> m >= Pow2(p) || (q == p && n <= m + 1)
  {
    hide StaysWithin, AlwaysInOrder, WordLoop, Or, Mode;
    if m >= Pow2(p) {
      forall l ensures !Marked(l, m, p, q) {
        OrAtLeast(m, Size(l), p);
      }
    } else if q > p {
      var l := WideLong(m, n, p, q);
    } else {
      NoOverflow(m, n, p, q);
      if m < n {
        var l := TooManyThreads(m, n, p);
      }
    }
  }

  /** A combined parallel loop outside all teams: the test counts one thread, and of
      the five that come then the last is handed a block at the other end of the
      word. */
  lemma CombinedLoop(p: nat)
    requires p >= 2
    ensures var max := MaxWord(p);
            var l := LoopInit(max - 4, max - 3, 1, 1, true);
            Marked(l, 1, p, p) && !StaysWithin(l, 4, max) && !AlwaysInOrder(l, 5, max)
  {
    hide Or, Dynamic, Chunks, Last, StaysWithin, AlwaysInOrder, MaxWord, Pow2;
    SixBits(p);
    var max := MaxWord(p);
    var l := LoopInit(max - 4, max - 3, 1, 1, true);
    OneIteration(max - 3, 1, 4);
    OrAtLeast(1, 1, p);
    JustOut(l, 4, max, 4);
    JustOut(l, 5, max, 4);
  }

  /** Pointers of 16 bits and a `long` of 32: two threads, for which the test was
      made, and already one leads out of the word. */
  lemma NarrowWord()
    ensures MaxWord(7) == 0x7fff && MaxWord(15) == 0x7fff_ffff
    ensures var l := LoopInit(0x7ffe, 0x7fff, 1, 1, true);
            Marked(l, 2, 7, 15) && !StaysWithin(l, 1, 0x7fff) && !AlwaysInOrder(l, 2, 0x7fff)
  {
    hide Or, Dynamic, Chunks, Last, StaysWithin, AlwaysInOrder;
    Powers();
    var l := LoopInit(0x7ffe, 0x7fff, 1, 1, true);
    OneIteration(0x7fff, 1, 1);
    OrAtLeast(2, 1, 7);
    JustOut(l, 1, 0x7fff, 1);
    JustOut(l, 2, 0x7fff, 1);
  }

  lemma Powers()
    ensures Pow2(7) == 128 && Pow2(15) == 32768
  {
    Four();
    assert Pow2(5) == 32 && Pow2(7) == 128;
    assert Pow2(10) == 1024 && Pow2(13) == 8192;
  }
}
