/** Handing out the iterations of a loop to the threads of a team. */
module LoopChunks {
  /** A loop as gomp_loop_init leaves it.  `step` is the increment; `chunk` is the
      chunk size, for dynamic schedules times the increment. */
  datatype Loop = Loop(start: int, end: int, incr: int, chunk: int)

  function LoopInit(start: int, end: int, incr: int, chunk: int, dynamic: bool): Loop {
    var e := if (incr > 0 && start > end) || (incr < 0 && start < end) then start else end;
    Loop(start, e, incr, if dynamic then chunk * incr else chunk)
  }

  /** Loops that run downwards are seen in a mirror. */
  function Along(l: Loop, x: int): int {
    if l.incr > 0 then x else -x
  }

  function Size(l: Loop): nat {
    if l.chunk >= 0 then l.chunk else -l.chunk
  }

  ghost predicate Dynamic(l: Loop) {
    l.incr != 0 && Along(l, l.start) <= Along(l, l.end) && exists c: nat :: c >= 1 && l.chunk == c * l.incr
  }

  lemma ChunkForward(l: Loop)
    requires Dynamic(l)
    ensures Along(l, l.chunk) == Size(l) > 0 && l.incr != 0
  {
    var c: nat :| c >= 1 && l.chunk == c * l.incr;
    if l.incr > 0 {
      assert c * l.incr >= l.incr;
    } else {
      assert c * -l.incr >= -l.incr;
      assert c * l.incr == -(c * -l.incr);
    }
  }

  // ----- blocks that follow each other -----

  datatype Block = Block(lo: int, hi: int)

  /** The blocks lead from `a` to `b`, each going forward. */
  ghost predicate Chain(l: Loop, s: seq<Block>, a: int, b: int) {
    if s == [] then a == b
    else
      var z := s[|s| - 1];
      z.hi == b && Along(l, z.lo) < Along(l, z.hi) && Chain(l, s[..|s| - 1], a, z.lo)
  }

  predicate Covers(l: Loop, x: Block, v: int) {
    Along(l, x.lo) <= Along(l, v) < Along(l, x.hi)
  }

  /** Every value on the way is in exactly one block. */
  lemma {:induction false} ChainCovers(l: Loop, s: seq<Block>, a: int, b: int, v: int) returns (i: nat)
    requires Chain(l, s, a, b) && Along(l, a) <= Along(l, v) < Along(l, b)
    ensures i < |s| && Covers(l, s[i], v) && forall j :: 0 <= j < |s| && j != i ==> !Covers(l, s[j], v)
  {
    var n := |s| - 1;
    ChainForward(l, s[..n], a, s[n].lo);
    if Covers(l, s[n], v) {
      i := n;
      forall j | 0 <= j < n ensures !Covers(l, s[j], v) {
        assert s[..n][j] == s[j];
      }
    } else {
      i := ChainCovers(l, s[..n], a, s[n].lo, v);
      forall j | 0 <= j < |s| && j != i ensures !Covers(l, s[j], v) {
        assert j < n ==> s[..n][j] == s[j];
      }
    }
  }

  lemma {:induction false} ChainForward(l: Loop, s: seq<Block>, a: int, b: int)
    requires Chain(l, s, a, b)
    ensures Along(l, a) <= Along(l, b) && forall j :: 0 <= j < |s| ==> Along(l, s[j].hi) <= Along(l, b)
  {
    if s != [] {
      var n := |s| - 1;
      ChainForward(l, s[..n], a, s[n].lo);
      forall j | 0 <= j < |s| ensures Along(l, s[j].hi) <= Along(l, b) {
        assert j < n ==> s[..n][j] == s[j];
      }
    }
  }

  lemma ChainSnoc(l: Loop, s: seq<Block>, a: int, b: int, c: int)
    requires Chain(l, s, a, b) && Along(l, b) < Along(l, c)
    ensures Chain(l, s + [Block(b, c)], a, c)
  {
    var t := s + [Block(b, c)];
    assert t[..|t| - 1] == s;
  }

  /** The start of a block is an iteration of the loop. */
  ghost predicate OnGrid(l: Loop, x: int) {
    exists k: nat :: x == l.start + k * l.incr
  }

  lemma GridStep(l: Loop, x: int, q: nat)
    requires OnGrid(l, x)
    ensures OnGrid(l, x + q * l.incr)
  {
    var k: nat :| x == l.start + k * l.incr;
    assert x + q * l.incr == l.start + (k + q) * l.incr;
  }

  // ----- compare and swap, dynamic and guided -----

  /** A chunk, but not more than what is left behind `s`. */
  function Clipped(l: Loop, chunk: int, s: int): int {
    var left := l.end - s;
    if l.incr < 0 then (if chunk < left then left else chunk) else if chunk > left then left else chunk
  }

  /** The end of the block that starts at `s`, dynamic schedule. */
  function DynamicEnd(l: Loop, s: int): int {
    s + Clipped(l, l.chunk, s)
  }

  /** How often the increment fits into what is left. */
  function Full(l: Loop, s: int): int
    requires l.incr != 0
  {
    (if l.end >= s then l.end - s else s - l.end) / (if l.incr > 0 then l.incr else -l.incr)
  }

  /** The share of one of so many threads, rounded up. */
  function Portion(r: int, threads: nat): int
    requires threads > 0
  {
    (r + threads - 1) / threads
  }

  /** Guided schedule: a share of what is left, not less than the chunk size. */
  function GuidedEnd(l: Loop, nthreads: nat, s: int): int
    requires l.incr != 0 && nthreads > 0
  {
    var n := Full(l, s);
    var q := Portion(n, nthreads);
    var q2 := if q < l.chunk then l.chunk else q;
    if q2 <= n then s + q2 * l.incr else l.end
  }

  /** What a schedule needs to choose: a block that goes forward, and ends on the
      grid or at the end of the loop. */
  ghost predicate Advances(l: Loop, s: int, e: int) {
    Along(l, s) < Along(l, e) <= Along(l, l.end) && (OnGrid(l, e) || e == l.end)
  }

  lemma DynamicAdvances(l: Loop, s: int)
    requires Dynamic(l) && OnGrid(l, s) && Along(l, s) < Along(l, l.end)
    ensures Advances(l, s, DynamicEnd(l, s))
  {
    ChunkForward(l);
    var c: nat :| c >= 1 && l.chunk == c * l.incr;
    GridStep(l, s, c);
  }

  ghost predicate Guided(l: Loop) {
    l.incr != 0 && Along(l, l.start) <= Along(l, l.end) && l.chunk >= 1
  }

  lemma GuidedAdvances(l: Loop, nthreads: nat, s: int)
    requires Guided(l) && nthreads > 0 && OnGrid(l, s) && Along(l, s) < Along(l, l.end)
    ensures Advances(l, s, GuidedEnd(l, nthreads, s))
  {
    hide Full, Portion;
    var q2: nat := Most(l.chunk, Portion(Full(l, s), nthreads));
    GridStep(l, s, q2);
    if q2 <= Full(l, s) {
      Reaches(l, s, q2);
    }
  }

  // ----- how many iterations a block has -----

  function Least(a: int, b: int): int {
    if a < b then a else b
  }

  function Most(a: int, b: int): int {
    if a < b then b else a
  }

  /** So many of the values `x`, `x + incr`, ... come before `y`. */
  function Iterations(l: Loop, x: int, y: int): int
    requires l.incr != 0
  {
    var m := if l.incr > 0 then l.incr else -l.incr;
    (Along(l, y) - Along(l, x) + m - 1) / m
  }

  lemma IterationsAre(l: Loop, x: int, y: int, k: nat)
    requires l.incr != 0 && Along(l, x) <= Along(l, y)
    ensures k < Iterations(l, x, y) <==> Along(l, x + k * l.incr) < Along(l, y)
  {
    var m, d := if l.incr > 0 then l.incr else -l.incr, Along(l, y) - Along(l, x);
    assert l.incr < 0 ==> k * l.incr == -(k * m);
    Rounded(d, m, k);
  }

  lemma Times(a: nat, b: nat, c: nat)
    requires a <= b
    ensures a * c <= b * c
  {
    assert (b - a) * c >= 0;
    assert b * c == a * c + (b - a) * c;
  }

  lemma Quotient(x: nat, m: nat)
    requires m > 0
    ensures x / m * m <= x < x / m * m + m
  {
  }

  lemma QuotientIs(x: nat, m: nat, q: nat)
    requires m > 0 && q * m <= x < q * m + m
    ensures x / m == q
  {
    var p := x / m;
    Quotient(x, m);
    if p < q {
      Times(p + 1, q, m);
    } else if p > q {
      Times(q + 1, p, m);
    }
  }

  lemma Rounded(d: nat, m: nat, k: nat)
    requires m > 0
    ensures k < (d + m - 1) / m <==> k * m < d
  {
    var q := (d + m - 1) / m;
    Quotient(d + m - 1, m);
    if k < q {
      Times(k + 1, q, m);
    } else {
      Times(q, k, m);
    }
  }

  /** A block of `q` iterations, or the end if it comes first. */
  lemma BlockOf(l: Loop, s: int, e: int, q: nat)
    requires l.incr != 0 && Along(l, s) < Along(l, l.end) && q >= 1
    requires e == if Along(l, s + q * l.incr) <= Along(l, l.end) then s + q * l.incr else l.end
    ensures Iterations(l, s, e) == Least(Iterations(l, s, l.end), q)
  {
    var m, d := if l.incr > 0 then l.incr else -l.incr, Along(l, l.end) - Along(l, s);
    assert l.incr < 0 ==> q * l.incr == -(q * m);
    Rounded(d, m, q);
    if q * m <= d {
      Exactly(q, m);
      assert (q - 1) * m == q * m - m;
      Rounded(d, m, q - 1);
    }
  }

  lemma Exactly(q: nat, m: nat)
    requires m > 0
    ensures (q * m + m - 1) / m == q
  {
    QuotientIs(q * m + m - 1, m, q);
  }

  lemma DynamicBlock(l: Loop, s: int, c: nat)
    requires l.incr != 0 && c >= 1 && l.chunk == c * l.incr && Along(l, s) < Along(l, l.end)
    ensures Iterations(l, s, DynamicEnd(l, s)) == Least(Iterations(l, s, l.end), c)
  {
    BlockOf(l, s, DynamicEnd(l, s), c);
  }

  /** The increment divides what is left. */
  predicate Whole(l: Loop, s: int)
    requires l.incr != 0
  {
    (Along(l, l.end) - Along(l, s)) % (if l.incr > 0 then l.incr else -l.incr) == 0
  }

  /** What a guided block has: its share of what is left, but the source does not count
      a last iteration that the increment leads beyond the end. */
  function GuidedCount(l: Loop, nthreads: nat, s: int): int
    requires l.incr != 0 && nthreads > 0
  {
    var r := Iterations(l, s, l.end);
    Least(r, Most(l.chunk, Portion(if Whole(l, s) then r else r - 1, nthreads)))
  }

  lemma Remains(d: nat, m: nat)
    requires m > 0
    ensures (d + m - 1) / m == d / m + (if d % m == 0 then 0 else 1)
  {
    var q, r := d / m, d % m;
    Quotient(d, m);
    assert d == q * m + r;
    if r == 0 {
      Exactly(q, m);
    } else {
      assert (q + 1) * m == q * m + m;
      QuotientIs(d + m - 1, m, q + 1);
    }
  }

  lemma FullOrMore(l: Loop, s: int)
    requires l.incr != 0 && Along(l, s) < Along(l, l.end)
    ensures Full(l, s) >= 0 && Iterations(l, s, l.end) == Full(l, s) + (if Whole(l, s) then 0 else 1)
  {
    Remains(Along(l, l.end) - Along(l, s), if l.incr > 0 then l.incr else -l.incr);
  }

  lemma Reaches(l: Loop, s: int, q: nat)
    requires l.incr != 0 && Along(l, s) < Along(l, l.end) && 1 <= q <= Full(l, s)
    ensures Along(l, s) < Along(l, s + q * l.incr) <= Along(l, l.end)
  {
    var m, d := if l.incr > 0 then l.incr else -l.incr, Along(l, l.end) - Along(l, s);
    Quotient(d, m);
    Times(q, d / m, m);
    Times(1, q, m);
    assert l.incr < 0 ==> q * l.incr == -(q * m);
  }

  lemma GuidedBlock(l: Loop, nthreads: nat, s: int)
    requires l.incr != 0 && l.chunk >= 1 && nthreads > 0 && Along(l, s) < Along(l, l.end)
    ensures Iterations(l, s, GuidedEnd(l, nthreads, s)) == GuidedCount(l, nthreads, s)
  {
    hide Full, Portion, Iterations, Whole;
    var n := Full(l, s);
    FullOrMore(l, s);
    var q2 := Most(l.chunk, Portion(n, nthreads));
    if q2 <= n {
      Reaches(l, s, q2);
      BlockOf(l, s, GuidedEnd(l, nthreads, s), q2);
    }
  }

  /** That differs from its share of all that is left exactly if that last iteration
      would give it one more. */
  lemma GuidedShare(l: Loop, nthreads: nat, s: int)
    requires l.incr != 0 && l.chunk >= 1 && nthreads > 0 && Along(l, s) < Along(l, l.end)
    ensures var r := Iterations(l, s, l.end);
            && r >= 1
            && (GuidedCount(l, nthreads, s) == Least(r, Most(l.chunk, Portion(r, nthreads)))
                <==> Whole(l, s) || (r - 1) % nthreads != 0 || Portion(r, nthreads) <= l.chunk)
  {
    hide Iterations, Portion, Whole;
    IterationsAre(l, s, l.end, 0);
    var r := Iterations(l, s, l.end);
    PortionNext(r - 1, nthreads);
    PortionSmall(r, nthreads);
  }

  /** The least number of iterations with which so many threads get all `r`. */
  lemma PortionIs(r: nat, threads: nat, k: nat)
    requires threads > 0
    ensures Portion(r, threads) <= k <==> r <= k * threads
  {
    Rounded(r, threads, k);
  }

  lemma PortionNext(x: nat, m: nat)
    requires m > 0
    ensures Portion(x + 1, m) == Portion(x, m) + (if x % m == 0 then 1 else 0)
  {
    var q := x / m;
    Quotient(x, m);
    Remains(x, m);
    assert (q + 1) * m == q * m + m;
    QuotientIs(x + m, m, q + 1);
  }

  lemma PortionSmall(r: nat, threads: nat)
    requires threads > 0 && r >= 1
    ensures 1 <= Portion(r, threads) <= r
  {
    Rounded(r, threads, 0);
    assert r * threads >= r;
    Rounded(r, threads, r);
  }

  /** A thread in the compare-and-swap loop: outside, with the value of `next` it
      has seen and its own chunk, or told that nothing is left. */
  datatype Thread = Out | Seen(start: int, chunk: int) | Finished

  datatype Share = Share(next: int, threads: seq<Thread>, log: seq<Block>)

  datatype Step = Load(t: nat) | Swap(t: nat)

  predicate Enabled(s: Share, m: Step) {
    m.t < |s.threads| && match m
                         case Load(t) => s.threads[t].Out?
                         case Swap(t) => s.threads[t].Seen?
  }

  /** The schedule of the loop: guided among so many threads, or dynamic. */
  function BlockEnd(l: Loop, guided: nat, s: int): int
    requires l.incr != 0
  {
    if guided > 0 then GuidedEnd(l, guided, s) else DynamicEnd(l, s)
  }

  /** A chunk that was clipped once makes no difference while `next` goes forward
      to `x`: less than it is left. */
  ghost predicate Kept(l: Loop, chunk: int, x: int) {
    chunk == l.chunk || Along(l, l.end) - Along(l, x) <= Along(l, chunk) <= Along(l, l.chunk)
  }

  lemma ClippedAgain(l: Loop, chunk: int, s: int, x: int)
    requires l.incr != 0 && Kept(l, chunk, s) && Along(l, s) <= Along(l, x)
    ensures Clipped(l, chunk, s) == Clipped(l, l.chunk, s) && Kept(l, Clipped(l, chunk, s), x)
  {
  }

  function Apply(l: Loop, guided: nat, s: Share, m: Step): Share
    requires Enabled(s, m) && l.incr != 0
  {
    match m
    case Load(t) => s.(threads := s.threads[t := Seen(s.next, l.chunk)])
    case Swap(t) =>
      var start, chunk := s.threads[t].start, s.threads[t].chunk;
      if start == l.end then s.(threads := s.threads[t := Finished])
      else
        var c := if guided > 0 then chunk else Clipped(l, chunk, start);
        if s.next == start then
          var e := if guided > 0 then GuidedEnd(l, guided, start) else start + c;
          Share(e, s.threads[t := Out], s.log + [Block(start, e)])
        else s.(threads := s.threads[t := Seen(s.next, c)])
  }

  ghost predicate Scheduled(l: Loop, guided: nat) {
    if guided > 0 then Guided(l) else Dynamic(l)
  }

  /** gomp_loop_init prepares the loop for its schedule, and iterations are below
      the end it sets exactly if they are below the one it was given. */
  lemma InitScheduled(start: int, end: int, incr: int, c: nat, guided: nat)
    requires incr != 0 && c >= 1
    ensures Scheduled(LoopInit(start, end, incr, c, guided == 0), guided)
  {
    var l := LoopInit(start, end, incr, c, guided == 0);
    assert guided == 0 ==> l.chunk == c * l.incr;
  }

  lemma InitEnd(start: int, end: int, incr: int, c: nat, dynamic: bool, i: nat)
    requires incr != 0
    ensures var l := LoopInit(start, end, incr, c, dynamic);
            Along(l, start + i * incr) < Along(l, end) <==> Along(l, start + i * incr) < Along(l, l.end)
  {
    IterationForward(LoopInit(start, end, incr, c, dynamic), i);
  }

  ghost predicate Inv(l: Loop, guided: nat, s: Share)
    requires l.incr != 0
  {
    && Chain(l, s.log, l.start, s.next)
    && (forall i :: 0 <= i < |s.log| ==> Given(l, guided, s.log[i]))
    && Along(l, s.next) <= Along(l, l.end) && (OnGrid(l, s.next) || s.next == l.end)
    && (forall i :: 0 <= i < |s.log| ==> OnGrid(l, s.log[i].lo))
    && (forall t :: 0 <= t < |s.threads| && s.threads[t].Finished? ==> s.next == l.end)
    && (forall t :: 0 <= t < |s.threads| && s.threads[t].Seen? ==>
          Along(l, s.threads[t].start) <= Along(l, s.next) && Kept(l, s.threads[t].chunk, s.threads[t].start))
  }

  /** A block starts before the end, and the schedule says where it ends. */
  ghost predicate Given(l: Loop, guided: nat, b: Block)
    requires l.incr != 0
  {
    Along(l, b.lo) < Along(l, l.end) && b.hi == BlockEnd(l, guided, b.lo)
  }

  function Initial(l: Loop, n: nat): Share {
    Share(l.start, seq(n, i => Out), [])
  }

  lemma InitialInv(l: Loop, guided: nat, n: nat)
    requires l.incr != 0 && Along(l, l.start) <= Along(l, l.end)
    ensures Inv(l, guided, Initial(l, n))
  {
    assert l.start == l.start + 0 * l.incr;
  }

  lemma StepInv(l: Loop, guided: nat, s: Share, m: Step)
    requires Scheduled(l, guided) && Inv(l, guided, s) && Enabled(s, m)
    ensures Inv(l, guided, Apply(l, guided, s, m))
  {
    hide OnGrid, GuidedEnd, Clipped;
    if m.Swap? {
      var th := s.threads[m.t];
      ClippedAgain(l, th.chunk, th.start, s.next);
    }
    if m.Swap? && s.threads[m.t].start != l.end && s.next == s.threads[m.t].start {
      if guided > 0 {
        GuidedAdvances(l, guided, s.next);
      } else {
        DynamicAdvances(l, s.next);
      }
      ChainSnoc(l, s.log, l.start, s.next, BlockEnd(l, guided, s.next));
    }
  }

  ghost predicate Run(l: Loop, guided: nat, n: nat, ms: seq<Step>, ss: seq<Share>) {
    && l.incr != 0 && |ss| == |ms| + 1 && ss[0] == Initial(l, n)
    && (forall i :: 0 <= i < |ms| ==> Enabled(ss[i], ms[i]) && ss[i + 1] == Apply(l, guided, ss[i], ms[i]))
  }

  lemma {:induction false} RunInv(l: Loop, guided: nat, n: nat, ms: seq<Step>, ss: seq<Share>, k: nat)
    requires Scheduled(l, guided) && Run(l, guided, n, ms, ss) && k < |ss|
    ensures Inv(l, guided, ss[k])
  {
    if k == 0 {
      InitialInv(l, guided, n);
    } else {
      RunInv(l, guided, n, ms, ss, k - 1);
      StepInv(l, guided, ss[k - 1], ms[k - 1]);
    }
  }

  /** Once a thread is told that nothing is left, every iteration of the loop is in
      exactly one of the blocks handed out. */
  lemma EachIterationOnce(start: int, end: int, incr: int, c: nat, guided: nat, n: nat, ms: seq<Step>, ss: seq<Share>,
                          k: nat, i: nat) returns (b: nat)
    requires incr != 0 && c >= 1 && k < |ss| && Run(LoopInit(start, end, incr, c, guided == 0), guided, n, ms, ss)
    requires exists t :: 0 <= t < |ss[k].threads| && ss[k].threads[t].Finished?
    requires if incr > 0 then start + i * incr < end else start + i * incr > end
    ensures var l, v, log := LoopInit(start, end, incr, c, guided == 0), start + i * incr, ss[k].log;
            && b < |log| && Covers(l, log[b], v) && OnGrid(l, log[b].lo)
            && forall j :: 0 <= j < |log| && j != b ==> !Covers(l, log[j], v)
  {
    var l := LoopInit(start, end, incr, c, guided == 0);
    InitScheduled(start, end, incr, c, guided);
    InitEnd(start, end, incr, c, guided == 0, i);
    RunInv(l, guided, n, ms, ss, k);
    IterationForward(l, i);
    b := ChainCovers(l, ss[k].log, l.start, l.end, l.start + i * l.incr);
  }

  /** Every block has as many iterations as its schedule says, of those left at its
      start. */
  lemma BlockLengths(start: int, end: int, incr: int, c: nat, guided: nat, n: nat, ms: seq<Step>, ss: seq<Share>,
                     k: nat, i: nat)
    requires incr != 0 && c >= 1 && k < |ss| && Run(LoopInit(start, end, incr, c, guided == 0), guided, n, ms, ss)
    requires i < |ss[k].log|
    ensures var l, b := LoopInit(start, end, incr, c, guided == 0), ss[k].log[i];
            var r := Iterations(l, b.lo, l.end);
            && r >= 1
            && Iterations(l, b.lo, b.hi) ==
                 (if guided == 0 then Least(r, c)
                  else Least(r, Most(c, Portion(if Whole(l, b.lo) then r else r - 1, guided))))
  {
    hide OnGrid, Chain, GuidedEnd, DynamicEnd, Run;
    var l, b := LoopInit(start, end, incr, c, guided == 0), ss[k].log[i];
    InitScheduled(start, end, incr, c, guided);
    RunInv(l, guided, n, ms, ss, k);
    assert Given(l, guided, b);
    IterationsAre(l, b.lo, l.end, 0);
    if guided == 0 {
      DynamicBlock(l, b.lo, c);
    } else {
      GuidedBlock(l, guided, b.lo);
    }
  }

  // ----- every call gets an answer, or another one did -----

  /** `next` moves only with a block. */
  lemma {:induction false} LogGrows(l: Loop, guided: nat, n: nat, ms: seq<Step>, ss: seq<Share>, i: nat, j: nat)
    requires Run(l, guided, n, ms, ss) && i <= j < |ss|
    ensures |ss[i].log| <= |ss[j].log| && (|ss[i].log| == |ss[j].log| ==> ss[j].next == ss[i].next)
    decreases j
  {
    hide GuidedEnd, Clipped;
    if i < j {
      LogGrows(l, guided, n, ms, ss, i, j - 1);
      assert ss[j] == Apply(l, guided, ss[j - 1], ms[j - 1]);
    }
  }

  /** A thread can go on until it is told that nothing is left. */
  lemma {:induction false} CanGoOn(l: Loop, guided: nat, n: nat, ms: seq<Step>, ss: seq<Share>, t: nat, k: nat)
    requires Run(l, guided, n, ms, ss) && k < |ss| && t < n
    ensures |ss[k].threads| == n && (ss[k].threads[t].Finished? || Enabled(ss[k], Load(t)) || Enabled(ss[k], Swap(t)))
    decreases k
  {
    hide GuidedEnd, Clipped;
    if k > 0 {
      CanGoOn(l, guided, n, ms, ss, t, k - 1);
      assert ss[k] == Apply(l, guided, ss[k - 1], ms[k - 1]);
    }
  }

  /** The step in which thread `t` read the value of `next` that it holds. */
  lemma {:induction false} LastRead(l: Loop, guided: nat, n: nat, ms: seq<Step>, ss: seq<Share>, t: nat, k: nat)
    returns (i: nat)
    requires Run(l, guided, n, ms, ss) && k < |ss| && t < |ss[k].threads| && ss[k].threads[t].Seen?
    ensures i < k && ms[i].t == t && ss[k].threads[t].start == ss[i].next && forall j :: i < j < k ==> ms[j].t != t
    decreases k
  {
    hide GuidedEnd, Clipped;
    assert k > 0;
    assert ss[k] == Apply(l, guided, ss[k - 1], ms[k - 1]);
    if ms[k - 1].t == t {
      i := k - 1;
    } else {
      i := LastRead(l, guided, n, ms, ss, t, k - 1);
    }
  }

  /** A compare-and-swap gives a block that starts where the loop stands, or the answer
      that nothing is left, or fails; and then another thread has been given a block
      since this one read `next`. */
  lemma SwapAnswers(l: Loop, guided: nat, n: nat, ms: seq<Step>, ss: seq<Share>, t: nat, k: nat) returns (i: nat)
    requires Scheduled(l, guided) && Run(l, guided, n, ms, ss) && k < |ms| && ms[k] == Swap(t)
    ensures i < k && ms[i].t == t && (forall j :: i < j < k ==> ms[j].t != t) && t < |ss[k + 1].threads|
    ensures match ss[k + 1].threads[t]
            case Out => |ss[k + 1].log| == |ss[k].log| + 1 && ss[k + 1].log[|ss[k].log|].lo == ss[k].next
            case Finished => ss[k + 1].log == ss[k].log && ss[k].next == l.end
            case Seen(_, _) => ss[k + 1].log == ss[k].log && |ss[i].log| < |ss[k].log|
  {
    hide GuidedEnd, Clipped, OnGrid, Chain;
    i := LastRead(l, guided, n, ms, ss, t, k);
    LogGrows(l, guided, n, ms, ss, i, k);
    RunInv(l, guided, n, ms, ss, k);
    assert ss[k + 1] == Apply(l, guided, ss[k], ms[k]);
  }

  /** A call that is not disturbed is answered by its first two steps: with the next block,
      or that nothing is left. */
  lemma CallAnswered(l: Loop, guided: nat, n: nat, ms: seq<Step>, ss: seq<Share>, t: nat, k: nat)
    requires Scheduled(l, guided) && Run(l, guided, n, ms, ss) && k < |ms| && ms[k] == Load(t)
    ensures Enabled(ss[k + 1], Swap(t))
    ensures var r := Apply(l, guided, ss[k + 1], Swap(t));
            if ss[k].next == l.end then r.threads[t].Finished? && r.log == ss[k].log
            else r.threads[t].Out? && |r.log| == |ss[k].log| + 1 && r.log[|ss[k].log|].lo == ss[k].next
  {
    hide GuidedEnd, Clipped;
    assert ss[k + 1] == Apply(l, guided, ss[k], ms[k]);
  }

  lemma IterationForward(l: Loop, i: nat)
    requires l.incr != 0
    ensures Along(l, l.start) <= Along(l, l.start + i * l.incr)
  {
    if l.incr > 0 {
      assert i * l.incr >= 0;
    } else {
      assert i * l.incr <= 0 by {
        assert i * -l.incr >= 0;
        assert i * l.incr == -(i * -l.incr);
      }
    }
  }

  /** At no time is an iteration in two blocks. */
  lemma NeverTwice(l: Loop, guided: nat, n: nat, ms: seq<Step>, ss: seq<Share>, k: nat, v: int, i: nat, j: nat)
    requires Scheduled(l, guided) && Run(l, guided, n, ms, ss) && k < |ss| && i < j < |ss[k].log|
    ensures !(Covers(l, ss[k].log[i], v) && Covers(l, ss[k].log[j], v))
  {
    RunInv(l, guided, n, ms, ss, k);
    ChainApart(l, ss[k].log, l.start, ss[k].next, i, j);
  }

  lemma {:induction false} ChainApart(l: Loop, s: seq<Block>, a: int, b: int, i: nat, j: nat)
    requires Chain(l, s, a, b) && i < j < |s|
    ensures Along(l, s[i].hi) <= Along(l, s[j].lo)
  {
    var n := |s| - 1;
    if j < n {
      ChainApart(l, s[..n], a, s[n].lo, i, j);
    } else {
      ChainForward(l, s[..n], a, s[n].lo);
      assert s[..n][i] == s[i];
    }
  }
}

/** The fast path of the dynamic schedule: one fetch-and-add per block, which may
    leave `next` behind the end of the loop. */
module LoopFetchAdd {
  import opened LoopChunks

  datatype Team = Team(next: int, done: seq<bool>, log: seq<Block>)

  predicate Enabled(s: Team, t: nat) {
    t < |s.done| && !s.done[t]
  }

  /** Thread `t` asks for a block, and does not ask again once it is refused. */
  function Add(l: Loop, s: Team, t: nat): Team
    requires Enabled(s, t)
  {
    var tmp := s.next;
    var s1 := s.(next := tmp + l.chunk);
    if (l.incr > 0 && tmp >= l.end) || (l.incr <= 0 && tmp <= l.end) then s1.(done := s.done[t := true])
    else
      var nend := tmp + l.chunk;
      var e := if (l.incr > 0 && nend > l.end) || (l.incr <= 0 && nend < l.end) then l.end else nend;
      s1.(log := s.log + [Block(tmp, e)])
  }

  function Refused(done: seq<bool>): nat {
    if done == [] then 0 else Refused(done[..|done| - 1]) + if done[|done| - 1] then 1 else 0
  }

  lemma {:induction false} RefusedMore(done: seq<bool>, t: nat)
    requires t < |done| && !done[t]
    ensures Refused(done[t := true]) == Refused(done) + 1 && Refused(done) < |done|
  {
    var n := |done| - 1;
    RefusedBound(done[..n]);
    if t == n {
      assert done[t := true][..n] == done[..n];
    } else {
      RefusedMore(done[..n], t);
      assert done[t := true][..n] == done[..n][t := true];
    }
  }

  lemma {:induction false} RefusedBound(done: seq<bool>)
    ensures Refused(done) <= |done|
  {
    if done != [] {
      RefusedBound(done[..|done| - 1]);
    }
  }

  /** Where the blocks handed out end. */
  function Reached(l: Loop, s: Team): int {
    if Along(l, s.next) <= Along(l, l.end) then s.next else l.end
  }

  /** Each refused thread has moved `next` one chunk too far, and the last block
      handed out less than one. */
  ghost predicate Inv(l: Loop, s: Team)
    requires l.incr != 0
  {
    && Chain(l, s.log, l.start, Reached(l, s))
    && (forall i :: 0 <= i < |s.log| ==> Given(l, 0, s.log[i]))
    && (forall i :: 0 <= i < |s.log| ==> OnGrid(l, s.log[i].lo)) && OnGrid(l, s.next)
    && (Refused(s.done) > 0 ==> Along(l, s.next) >= Along(l, l.end))
    && (Along(l, s.next) < Along(l, l.end) + (Refused(s.done) + 1) * Size(l))
  }

  function Initial(l: Loop, n: nat): Team {
    Team(l.start, seq(n, i => false), [])
  }

  lemma {:induction false} NoneRefused(done: seq<bool>)
    requires forall i :: 0 <= i < |done| ==> !done[i]
    ensures Refused(done) == 0
  {
    if done != [] {
      NoneRefused(done[..|done| - 1]);
    }
  }

  lemma InitialInv(l: Loop, n: nat)
    requires Dynamic(l)
    ensures Inv(l, Initial(l, n))
  {
    hide Given;
    ChunkForward(l);
    NoneRefused(Initial(l, n).done);
    assert l.start == l.start + 0 * l.incr;
  }

  lemma RefusedStep(l: Loop, s: Team, t: nat)
    requires Dynamic(l) && Inv(l, s) && Enabled(s, t) && Along(l, s.next) >= Along(l, l.end)
    requires Along(l, l.chunk) == Size(l) && OnGrid(l, s.next + l.chunk)
    ensures Inv(l, Add(l, s, t))
  {
    hide Given;
    RefusedMore(s.done, t);
    assert (Refused(s.done) + 1) * Size(l) + Size(l) == (Refused(s.done) + 2) * Size(l);
  }

  lemma StepInv(l: Loop, s: Team, t: nat)
    requires Dynamic(l) && Inv(l, s) && Enabled(s, t)
    ensures Inv(l, Add(l, s, t))
  {
    ChunkForward(l);
    var c: nat :| c >= 1 && l.chunk == c * l.incr;
    GridStep(l, s.next, c);
    if Along(l, s.next) >= Along(l, l.end) {
      RefusedStep(l, s, t);
    } else {
      HandedStep(l, s, t);
    }
  }

  lemma HandedStep(l: Loop, s: Team, t: nat)
    requires Dynamic(l) && Inv(l, s) && Enabled(s, t) && Along(l, s.next) < Along(l, l.end)
    requires Along(l, l.chunk) == Size(l) > 0 && OnGrid(l, s.next + l.chunk)
    ensures Inv(l, Add(l, s, t))
  {
    hide Dynamic, Given, OnGrid, Chain;
    ChunkForward(l);
    assert Refused(s.done) == 0;
    var r := Add(l, s, t);
    ChainSnoc(l, s.log, l.start, s.next, Reached(l, r));
    HandedBlock(l, s.next);
    assert r.log == s.log + [Block(s.next, Reached(l, r))];
  }

  lemma HandedBlock(l: Loop, x: int)
    requires l.incr != 0 && Along(l, l.chunk) > 0 && Along(l, x) < Along(l, l.end)
    ensures var e := if Along(l, x + l.chunk) <= Along(l, l.end) then x + l.chunk else l.end;
            Given(l, 0, Block(x, e)) && Along(l, x) < Along(l, e)
  {
  }

  ghost predicate Run(l: Loop, n: nat, ts: seq<nat>, ss: seq<Team>) {
    && |ss| == |ts| + 1 && ss[0] == Initial(l, n)
    && (forall i :: 0 <= i < |ts| ==> Enabled(ss[i], ts[i]) && ss[i + 1] == Add(l, ss[i], ts[i]))
  }

  lemma {:induction false} RunInv(l: Loop, n: nat, ts: seq<nat>, ss: seq<Team>, k: nat)
    requires Dynamic(l) && Run(l, n, ts, ss) && k < |ss|
    ensures Inv(l, ss[k]) && |ss[k].done| == n
  {
    if k == 0 {
      InitialInv(l, n);
    } else {
      RunInv(l, n, ts, ss, k - 1);
      StepInv(l, ss[k - 1], ts[k - 1]);
    }
  }

  /** As with compare-and-swap, every iteration is handed out exactly once. */
  lemma EachIterationOnce(start: int, end: int, incr: int, c: nat, n: nat, ts: seq<nat>, ss: seq<Team>, k: nat, i: nat)
    returns (b: nat)
    requires incr != 0 && c >= 1 && Run(LoopInit(start, end, incr, c, true), n, ts, ss) && k < |ss|
    requires Refused(ss[k].done) > 0 && if incr > 0 then start + i * incr < end else start + i * incr > end
    ensures var l, v, log := LoopInit(start, end, incr, c, true), start + i * incr, ss[k].log;
            && b < |log| && Covers(l, log[b], v) && OnGrid(l, log[b].lo)
            && forall j :: 0 <= j < |log| && j != b ==> !Covers(l, log[j], v)
  {
    var l := LoopInit(start, end, incr, c, true);
    InitScheduled(start, end, incr, c, 0);
    InitEnd(start, end, incr, c, true, i);
    RunInv(l, n, ts, ss, k);
    IterationForward(l, i);
    b := ChainCovers(l, ss[k].log, l.start, l.end, l.start + i * l.incr);
  }

  // ----- how far `next` goes -----

  ghost predicate Before(l: Loop, x: int) {
    Along(l, x) < Along(l, l.end)
  }

  /** How many chunks it takes to reach the end. */
  function Chunks(l: Loop): int {
    if Size(l) == 0 then 0 else (Along(l, l.end) - Along(l, l.start) + Size(l) - 1) / Size(l)
  }

  /** The first chunk boundary at the end or behind it, and `r` chunks more. */
  function Last(l: Loop, r: int): int {
    l.start + (Chunks(l) + r) * l.chunk
  }

  lemma ChunksReach(l: Loop)
    requires Dynamic(l)
    ensures Chunks(l) >= 0 && Size(l) > 0
    ensures var d := Along(l, l.end) - Along(l, l.start); d <= Chunks(l) * Size(l) < d + Size(l)
  {
    ChunkForward(l);
  }

  lemma AlongChunks(l: Loop, k: nat)
    requires Dynamic(l)
    ensures Along(l, l.start + k * l.chunk) == Along(l, l.start) + k * Size(l)
    ensures Before(l, l.start + k * l.chunk) <==> k < Chunks(l)
  {
    hide Dynamic, Chunks;
    ChunkForward(l);
    ChunksReach(l);
    assert l.incr < 0 ==> k * -l.chunk == -(k * l.chunk);
    if k < Chunks(l) {
      Times(k + 1, Chunks(l), Size(l));
    } else {
      Times(Chunks(l), k, Size(l));
    }
  }

  /** Every step moves `next` by one chunk; so only as many are taken as lead to the
      end, and one for each refused thread. */
  lemma Progress(l: Loop, n: nat, ts: seq<nat>, ss: seq<Team>, k: nat)
    requires Dynamic(l) && Run(l, n, ts, ss) && k < |ss|
    ensures ss[k].next == l.start + k * l.chunk && Chunks(l) >= 0
    ensures k <= Chunks(l) + Refused(ss[k].done) <= Chunks(l) + n
  {
    hide Dynamic, Chunks, Inv, Chain, OnGrid;
    NextIs(l, n, ts, ss, k);
    RunInv(l, n, ts, ss, k);
    RefusedBound(ss[k].done);
    ChunkForward(l);
    ChunksReach(l);
    AlongChunks(l, k);
    var r := Refused(ss[k].done);
    assert Along(l, ss[k].next) < Along(l, l.end) + (r + 1) * Size(l) by {
      InvBound(l, ss[k]);
    }
    assert (Chunks(l) + r + 1) * Size(l) == Chunks(l) * Size(l) + (r + 1) * Size(l);
    if k > Chunks(l) + r {
      Times(Chunks(l) + r + 1, k, Size(l));
    }
  }

  lemma InvBound(l: Loop, s: Team)
    requires l.incr != 0 && Inv(l, s)
    ensures Along(l, s.next) < Along(l, l.end) + (Refused(s.done) + 1) * Size(l)
  {
  }

  lemma {:induction false} NextIs(l: Loop, n: nat, ts: seq<nat>, ss: seq<Team>, k: nat)
    requires Run(l, n, ts, ss) && k < |ss|
    ensures ss[k].next == l.start + k * l.chunk
  {
    if k > 0 {
      NextIs(l, n, ts, ss, k - 1);
      assert ss[k] == Add(l, ss[k - 1], ts[k - 1]);
    }
  }

  lemma RunOn(l: Loop, n: nat, ts: seq<nat>, ss: seq<Team>, t: nat)
    requires Run(l, n, ts, ss) && Enabled(ss[|ts|], t)
    ensures Run(l, n, ts + [t], ss + [Add(l, ss[|ts|], t)])
  {
  }

  /** Some run takes all chunks up to the end, and then `r` threads are refused. */
  lemma {:induction false} Reach(l: Loop, n: nat, q: nat, r: nat) returns (ts: seq<nat>, ss: seq<Team>)
    requires Dynamic(l) && r <= n && 1 <= n && q <= Chunks(l) && (r > 0 ==> q == Chunks(l))
    ensures Run(l, n, ts, ss) && |ts| == q + r == |ss| - 1
    ensures |ss[|ts|].done| == n && forall i :: 0 <= i < n ==> ss[|ts|].done[i] == (i < r)
    decreases r, q
  {
    hide Dynamic, Chunks;
    if q == 0 && r == 0 {
      ts, ss := [], [Initial(l, n)];
    } else {
      var t := if r > 0 then r - 1 else 0;
      ts, ss := Reach(l, n, if r > 0 then q else q - 1, t);
      NextIs(l, n, ts, ss, |ts|);
      AlongChunks(l, |ts|);
      RunOn(l, n, ts, ss, t);
      ts, ss := ts + [t], ss + [Add(l, ss[|ts|], t)];
    }
  }

  /** Every block has the chunk size, or ends the loop. */
  lemma BlockLengths(start: int, end: int, incr: int, c: nat, n: nat, ts: seq<nat>, ss: seq<Team>, k: nat, i: nat)
    requires incr != 0 && c >= 1 && Run(LoopInit(start, end, incr, c, true), n, ts, ss) && k < |ss|
    requires i < |ss[k].log|
    ensures var l, b := LoopInit(start, end, incr, c, true), ss[k].log[i];
            Iterations(l, b.lo, b.hi) == Least(Iterations(l, b.lo, l.end), c)
  {
    hide OnGrid, Chain, DynamicEnd, Run, Iterations;
    var l := LoopInit(start, end, incr, c, true);
    InitScheduled(start, end, incr, c, 0);
    RunInv(l, n, ts, ss, k);
    DynamicBlock(l, ss[k].log[i].lo, c);
  }

  /** The factor in the test of gomp_loop_init is what is needed: when a block starts
      on the last iteration and every thread is refused once, `next` goes one chunk
      further than there are threads. */
  lemma FactorNeeded(e: int, incr: int, c: nat, n: nat) returns (ts: seq<nat>, ss: seq<Team>)
    requires incr != 0 && c >= 1 && n >= 1
    ensures var l := LoopInit(e - incr, e, incr, c, true);
            Run(l, n, ts, ss) && ss[|ts|].next == e - incr + (n + 1) * l.chunk
  {
    hide Dynamic, Chunks;
    var l := LoopInit(e - incr, e, incr, c, true);
    InitScheduled(e - incr, e, incr, c, 0);
    OneChunk(l, c);
    ts, ss := Reach(l, n, 1, n);
    NextIs(l, n, ts, ss, |ts|);
  }

  lemma OneChunk(l: Loop, c: nat)
    requires Dynamic(l) && c >= 1 && l.chunk == c * l.incr && l.end == l.start + l.incr
    ensures Chunks(l) == 1
  {
    hide Dynamic, Chunks;
    ChunksReach(l);
    AlongChunks(l, 0);
    AlongChunks(l, 1);
    Times(1, c, if l.incr > 0 then l.incr else -l.incr);
    assert l.incr < 0 ==> c * l.incr == -(c * -l.incr);
  }
}

/** The static schedules. */
module LoopStatic {
  import opened LoopChunks

  /** Division of C: the quotient loses its fraction. */
  function TruncDiv(a: int, b: int): int
    requires b != 0
  {
    var q := (if a >= 0 then a else -a) / (if b > 0 then b else -b);
    if (a >= 0) == (b > 0) then q else -q
  }

  /** The number of iterations. */
  function Count(l: Loop): int
    requires l.incr != 0
  {
    TruncDiv(l.end - l.start + l.incr + (if l.incr > 0 then -1 else 1), l.incr)
  }

  lemma CountIs(l: Loop, k: nat)
    requires l.incr != 0 && Along(l, l.start) <= Along(l, l.end)
    ensures Count(l) >= 0 && (k < Count(l) <==> Along(l, l.start + k * l.incr) < Along(l, l.end))
  {
    var m, d := if l.incr > 0 then l.incr else -l.incr, Along(l, l.end) - Along(l, l.start);
    assert Count(l) == (d + m - 1) / m;
    CeilDiv(d, m, k);
    assert l.incr < 0 ==> k * l.incr == -(k * m);
  }

  lemma CeilDiv(d: nat, m: nat, k: nat)
    requires m > 0
    ensures k < (d + m - 1) / m <==> k * m < d
  {
    var q := (d + m - 1) / m;
    DivBounds(d + m - 1, m);
    MulOrder(q, k, m);
    MulOrder(k + 1, q, m);
    assert (k + 1) * m == k * m + m;
  }

  lemma DivBounds(x: nat, m: nat)
    requires m > 0
    ensures x / m * m <= x < x / m * m + m
  {
    assert x == x / m * m + x % m;
  }

  /** Iterations `s0` to `e0`; nothing, or nothing after the very last iteration. */
  datatype Reply = More(s0: nat, e0: nat) | NoneLeft | AfterLast

  datatype Result = Result(reply: Reply, trip: int)

  /** gomp_iter_static_next for thread `i` of `threads`, on `n` iterations. */
  function Static(n: nat, threads: nat, chunk: nat, i: nat, trip: int): Result
    requires threads > 0 && (trip == -1 || trip >= 0)
  {
    if trip == -1 then Result(AfterLast, -1)
    else if threads == 1 then Result(if n == 0 then NoneLeft else More(0, n), -1)
    else if chunk == 0 then
      if trip > 0 then Result(NoneLeft, trip)
      else
        var q := n / threads + if n / threads * threads != n then 1 else 0;
        var s0 := q * i;
        var e0 := if s0 + q > n then n else s0 + q;
        if s0 >= e0 then Result(NoneLeft, 1)
        else Result(More(s0, e0), if e0 == n then -1 else 1)
    else
      var s0 := (trip * threads + i) * chunk;
      if s0 >= n then Result(NoneLeft, trip)
      else
        var e0 := if s0 + chunk > n then n else s0 + chunk;
        Result(More(s0, e0), if e0 == n then -1 else trip + 1)
  }

  /** static_trip after `k` calls. */
  function Trip(n: nat, threads: nat, chunk: nat, i: nat, k: nat): (t: int)
    requires threads > 0
    ensures t == -1 || t >= 0
  {
    if k == 0 then 0 else Static(n, threads, chunk, i, Trip(n, threads, chunk, i, k - 1)).trip
  }

  /** What the call number `k` of thread `i` returns. */
  function Call(n: nat, threads: nat, chunk: nat, i: nat, k: nat): Reply
    requires threads > 0
  {
    Static(n, threads, chunk, i, Trip(n, threads, chunk, i, k)).reply
  }

  /** Where the block of thread `i` on trip `k` starts. */
  function First(threads: nat, chunk: nat, i: nat, k: nat): nat {
    (k * threads + i) * chunk
  }

  lemma FirstGrows(threads: nat, chunk: nat, i: nat, k: nat)
    requires threads > 1 && chunk > 0
    ensures First(threads, chunk, i, k) + chunk < First(threads, chunk, i, k + 1)
  {
    var a := k * threads + i;
    assert (k + 1) * threads + i == a + threads;
    assert (a + threads) * chunk == a * chunk + threads * chunk;
    assert threads * chunk >= 2 * chunk by {
      assert (threads - 2) * chunk >= 0;
    }
  }

  function Clip(x: nat, n: nat): nat {
    if x > n then n else x
  }

  lemma StaticChunk(n: nat, threads: nat, chunk: nat, i: nat, k: nat)
    requires threads > 1 && chunk > 0
    ensures var s0, r := First(threads, chunk, i, k), Static(n, threads, chunk, i, k);
            if s0 >= n then r == Result(NoneLeft, k)
            else r == Result(More(s0, Clip(s0 + chunk, n)), if s0 + chunk >= n then -1 else k + 1)
  {
  }

  /** Trips count the calls, until there is nothing left. */
  lemma {:induction false} TripIs(n: nat, threads: nat, chunk: nat, i: nat, k: nat)
    requires threads > 1 && chunk > 0
    ensures var t := Trip(n, threads, chunk, i, k);
            if First(threads, chunk, i, k) < n then t == k
            else t == -1 || First(threads, chunk, i, t) >= n
  {
    hide Static, First;
    if k > 0 {
      TripIs(n, threads, chunk, i, k - 1);
      FirstGrows(threads, chunk, i, k - 1);
      var t := Trip(n, threads, chunk, i, k - 1);
      if t >= 0 {
        StaticChunk(n, threads, chunk, i, t);
      } else {
        AfterLastStays(n, threads, chunk, i);
      }
    }
  }

  lemma AfterLastStays(n: nat, threads: nat, chunk: nat, i: nat)
    requires threads > 0
    ensures Static(n, threads, chunk, i, -1) == Result(AfterLast, -1)
  {
  }

  lemma ChunkCall(n: nat, threads: nat, chunk: nat, i: nat, k: nat)
    requires threads > 1 && chunk > 0
    ensures var s0 := First(threads, chunk, i, k);
            if s0 < n then Call(n, threads, chunk, i, k) == More(s0, Clip(s0 + chunk, n))
            else !Call(n, threads, chunk, i, k).More?
  {
    hide Static, First, Trip;
    TripIs(n, threads, chunk, i, k);
    var t := Trip(n, threads, chunk, i, k);
    if t >= 0 {
      StaticChunk(n, threads, chunk, i, t);
    } else {
      AfterLastStays(n, threads, chunk, i);
    }
  }

  /** The thread and the trip of iteration `j`. */
  function Owner(threads: nat, chunk: nat, j: nat): (r: (nat, nat))
    requires threads > 0 && chunk > 0
    ensures r.0 < threads
  {
    (j / chunk % threads, j / chunk / threads)
  }

  lemma OwnBlock(threads: nat, chunk: nat, i: nat, k: nat, j: nat)
    requires threads > 0 && chunk > 0 && i < threads
    ensures First(threads, chunk, i, k) <= j < First(threads, chunk, i, k) + chunk
            <==> Owner(threads, chunk, j) == (i, k)
  {
    var b, m := j / chunk, k * threads + i;
    assert m * chunk <= j < m * chunk + chunk <==> m == b by {
      InBlock(j, chunk, m);
    }
    InBlock(b, threads, k);
    assert b == b / threads * threads + b % threads;
    assert m == b ==> k * threads <= b < k * threads + threads;
  }

  lemma InBlock(j: nat, c: nat, m: nat)
    requires c > 0
    ensures m * c <= j < m * c + c <==> m == j / c
  {
    var q := j / c;
    DivBounds(j, c);
    MulOrder(q + 1, m, c);
    MulOrder(m + 1, q, c);
    assert (q + 1) * c == q * c + c && (m + 1) * c == m * c + c;
  }

  ghost predicate Gets(n: nat, threads: nat, chunk: nat, i: nat, k: nat, j: nat)
    requires threads > 0
  {
    var r := Call(n, threads, chunk, i, k);
    r.More? && r.s0 <= j < r.e0
  }

  /** With a chunk size, every iteration is in one block of one thread. */
  lemma ChunksPartition(n: nat, threads: nat, chunk: nat, i: nat, k: nat, j: nat)
    requires threads > 1 && chunk > 0 && i < threads && j < n
    ensures Gets(n, threads, chunk, i, k, j) <==> Owner(threads, chunk, j) == (i, k)
  {
    ChunkCall(n, threads, chunk, i, k);
    OwnBlock(threads, chunk, i, k, j);
  }

  /** Iterations per thread when there is no chunk size. */
  function Share(n: nat, threads: nat): nat
    requires threads > 0
  {
    n / threads + if n / threads * threads != n then 1 else 0
  }

  lemma ShareEnough(n: nat, threads: nat)
    requires threads > 0 && n > 0
    ensures Share(n, threads) > 0 && n <= threads * Share(n, threads)
  {
    var d := n / threads;
    assert n == d * threads + n % threads;
    assert threads * (d + 1) == d * threads + threads;
  }

  lemma ShareCall(n: nat, threads: nat, i: nat, q: nat)
    requires threads > 1 && q == Share(n, threads)
    ensures var s0 := i * q;
            var e0 := Clip(s0 + q, n);
            Call(n, threads, 0, i, 0) == if s0 >= e0 then NoneLeft else More(s0, e0)
  {
    assert q * i == i * q;
    assert Trip(n, threads, 0, i, 0) == 0;
  }

  lemma MulOrder(a: nat, b: nat, c: nat)
    ensures a <= b ==> a * c <= b * c
  {
    if a <= b {
      assert (b - a) * c >= 0;
      assert b * c == a * c + (b - a) * c;
    }
  }

  lemma ShareOwner(n: nat, threads: nat, q: nat, j: nat)
    requires q > 0 && n <= threads * q && j < n
    ensures j / q < threads
  {
    InBlock(j, q, j / q);
    MulOrder(threads, j / q, q);
  }

  /** Without one, each thread has at most one block, its share. */
  lemma SharesPartition(n: nat, threads: nat, i: nat, k: nat, j: nat)
    requires threads > 1 && i < threads && j < n
    ensures Share(n, threads) > 0 && j / Share(n, threads) < threads
    ensures Gets(n, threads, 0, i, k, j) <==> i == j / Share(n, threads) && k == 0
  {
    hide Static, Trip, Share;
    var q := Share(n, threads);
    ShareEnough(n, threads);
    ShareOwner(n, threads, q, j);
    if k > 0 {
      ShareOnce(n, threads, i, k);
    } else {
      ShareCall(n, threads, i, q);
      InBlock(j, q, i);
    }
  }

  lemma {:induction false} ShareOnce(n: nat, threads: nat, i: nat, k: nat)
    requires threads > 1 && k > 0
    ensures Trip(n, threads, 0, i, k) == -1 || Trip(n, threads, 0, i, k) == 1
    ensures !Call(n, threads, 0, i, k).More?
  {
    if k > 1 {
      ShareOnce(n, threads, i, k - 1);
    } else {
      assert Trip(n, threads, 0, i, 0) == 0;
    }
  }

  /** The thread that gets iteration `j`, and on which of its calls. */
  function Getter(n: nat, threads: nat, chunk: nat, j: nat): (r: (nat, nat))
    requires threads > 0 && j < n
    ensures r.0 < threads
  {
    if threads == 1 then (0, 0)
    else if chunk > 0 then Owner(threads, chunk, j)
    else
      SharesPartition(n, threads, 0, 0, j);
      (j / Share(n, threads), 0)
  }

  /** Every iteration is in one block of one thread, and the blocks hold nothing else. */
  lemma Partition(n: nat, threads: nat, chunk: nat, i: nat, k: nat, j: nat)
    requires i < threads
    ensures Gets(n, threads, chunk, i, k, j) <==> j < n && Getter(n, threads, chunk, j) == (i, k)
  {
    hide Static, Trip, Share, Owner;
    if threads == 1 {
      AloneOnce(n, chunk, k);
    } else {
      BlockInLoop(n, threads, chunk, i, k);
      if j < n {
        if chunk > 0 {
          ChunksPartition(n, threads, chunk, i, k, j);
        } else {
          SharesPartition(n, threads, i, k, j);
        }
      }
    }
  }

  lemma BlockInLoop(n: nat, threads: nat, chunk: nat, i: nat, k: nat)
    requires threads > 0
    ensures Call(n, threads, chunk, i, k).More? ==> Call(n, threads, chunk, i, k).e0 <= n
  {
  }

  lemma {:induction false} AloneOnce(n: nat, chunk: nat, k: nat)
    ensures Call(n, 1, chunk, 0, k) == if k > 0 then AfterLast else if n == 0 then NoneLeft else More(0, n)
    ensures Trip(n, 1, chunk, 0, k) == if k > 0 then -1 else 0
  {
    if k > 0 {
      AloneOnce(n, chunk, k - 1);
    }
  }

  lemma ShareIs(n: nat, threads: nat)
    requires threads > 0
    ensures Share(n, threads) == Portion(n, threads)
  {
    var d := n / threads;
    DivBounds(n, threads);
    PortionIs(n, threads, d);
    PortionIs(n, threads, d + 1);
    assert (d + 1) * threads == d * threads + threads;
    if d > 0 {
      PortionIs(n, threads, d - 1);
      assert (d - 1) * threads == d * threads - threads;
    }
  }

  /** A static block has the chunk size, or an equal share of all iterations rounded up,
      or is the end of the loop; and blocks are dealt out in turn. */
  lemma StaticLengths(n: nat, threads: nat, chunk: nat, i: nat, k: nat)
    requires i < threads && Call(n, threads, chunk, i, k).More?
    ensures var r := Call(n, threads, chunk, i, k);
            var size := if threads == 1 then n else if chunk > 0 then chunk else Portion(n, threads);
            && r.s0 < n && r.e0 - r.s0 == Least(size, n - r.s0)
            && (threads > 1 ==> r.s0 == (if chunk > 0 then k * threads + i else i) * size)
  {
    hide Static, Trip, Share, Portion;
    if threads == 1 {
      AloneOnce(n, chunk, k);
    } else if chunk > 0 {
      ChunkCall(n, threads, chunk, i, k);
    } else {
      ShareIs(n, threads);
      if k > 0 {
        ShareOnce(n, threads, i, k);
      } else {
        ShareCall(n, threads, i, Share(n, threads));
      }
    }
  }

  /** No thread makes more trips than there are iterations. */
  lemma StopsInTime(n: nat, threads: nat, chunk: nat, i: nat, k: nat)
    requires i < threads && k > 0 && k >= n
    ensures !Call(n, threads, chunk, i, k).More?
  {
    hide Static, Trip;
    if threads == 1 {
      AloneOnce(n, chunk, k);
    } else if chunk == 0 {
      ShareOnce(n, threads, i, k);
    } else {
      ChunkCall(n, threads, chunk, i, k);
      MulOrder(1, chunk, k * threads + i);
      MulOrder(1, threads, k);
      assert chunk * (k * threads + i) == (k * threads + i) * chunk && threads * k == k * threads;
    }
  }

  /** The values a thread runs through: `*pstart` and `*pend`. */
  function Values(l: Loop, threads: nat, r: Reply): Block
    requires r.More?
  {
    if threads == 1 then Block(l.start, l.end)
    else Block(l.start + r.s0 * l.incr, l.start + r.e0 * l.incr)
  }

  /** Is `v` among the values that the call number `k` of thread `i` returns? */
  ghost predicate GetsValue(l: Loop, threads: nat, chunk: nat, i: nat, k: nat, v: int)
    requires threads > 0 && l.incr != 0 && Count(l) >= 0
  {
    var r := Call(Count(l), threads, chunk, i, k);
    r.More? && Covers(l, Values(l, threads, r), v)
  }

  /** For either sign of the increment, the value `start + j * incr` is run through
      by exactly one thread on one of its calls if it is an iteration of the loop,
      and by none if it is not. */
  lemma ValuesPartition(start: int, end: int, incr: int, threads: nat, chunk: nat, i: nat, k: nat, j: nat)
    requires incr != 0 && i < threads
    ensures var l := LoopInit(start, end, incr, chunk, false);
            && Count(l) >= 0
            && (j < Count(l) <==> if incr > 0 then start + j * incr < end else start + j * incr > end)
            && (GetsValue(l, threads, chunk, i, k, start + j * incr)
                <==> j < Count(l) && Getter(Count(l), threads, chunk, j) == (i, k))
  {
    hide Getter, Static, Trip;
    var l := LoopInit(start, end, incr, chunk, false);
    InitEnd(start, end, incr, chunk, false, j);
    CountIs(l, j);
    Partition(Count(l), threads, chunk, i, k, j);
    var r := Call(Count(l), threads, chunk, i, k);
    if r.More? {
      if threads == 1 {
        AloneOnce(Count(l), chunk, k);
        IterationForward(l, j);
      } else {
        ValueOrder(l, r.s0, j);
        ValueOrder(l, r.e0, j);
      }
    }
  }

  lemma ValueOrder(l: Loop, a: nat, j: nat)
    requires l.incr != 0
    ensures Along(l, l.start + a * l.incr) <= Along(l, l.start + j * l.incr) <==> a <= j
  {
    var m := if l.incr > 0 then l.incr else -l.incr;
    MulOrder(a, j, m);
    MulOrder(j + 1, a, m);
    assert (j + 1) * m == j * m + m;
    assert l.incr < 0 ==> a * l.incr == -(a * m) && j * l.incr == -(j * m);
  }

  /** After a block, a negative return tells the thread that the block ended the loop. */
  lemma LastBlockKnown(n: nat, threads: nat, chunk: nat, i: nat, k: nat)
    requires i < threads && Call(n, threads, chunk, i, k).More?
    ensures Call(n, threads, chunk, i, k + 1).AfterLast? <==> Call(n, threads, chunk, i, k).e0 == n
  {
    var t := Trip(n, threads, chunk, i, k);
    assert Trip(n, threads, chunk, i, k + 1) == Static(n, threads, chunk, i, t).trip;
  }

  /** Has an earlier block of thread `i` ended the loop? */
  ghost predicate HadLast(n: nat, threads: nat, chunk: nat, i: nat, k: nat)
    requires threads > 0
  {
    exists b :: 0 <= b < k && Call(n, threads, chunk, i, b).More? && Call(n, threads, chunk, i, b).e0 == n
  }

  /** A negative return means so, except to a thread alone with an empty loop. */
  lemma {:induction false} NegativeReturn(n: nat, threads: nat, chunk: nat, i: nat, k: nat)
    requires i < threads && Call(n, threads, chunk, i, k).AfterLast?
    ensures HadLast(n, threads, chunk, i, k) <==> threads > 1 || n > 0
    decreases k
  {
    assert k > 0;
    if threads == 1 {
      forall b | 0 <= b < k
        ensures Call(n, threads, chunk, i, b).More? && Call(n, threads, chunk, i, b).e0 == n <==> b == 0 && n > 0
      {
        AloneOnce(n, chunk, b);
      }
      assert Call(n, threads, chunk, i, 0).More? <==> n > 0;
    } else {
      var t := Trip(n, threads, chunk, i, k - 1);
      if t == -1 {
        NegativeReturn(n, threads, chunk, i, k - 1);
      } else {
        assert Call(n, threads, chunk, i, k - 1).More?;
      }
    }
  }

  /** There the second call is negative although no iteration was ever handed out. */
  lemma EmptyLoopAlone(chunk: nat)
    ensures Call(0, 1, chunk, 0, 1).AfterLast? && !HadLast(0, 1, chunk, 0, 1)
  {
    AloneOnce(0, chunk, 0);
    AloneOnce(0, chunk, 1);
  }
}
