/** Deferred tasks, taskwait and the team's task queue.  Every step that the
    source makes under task_lock is one step here. */
module TaskProtocol {
  datatype Kind = Waiting | Tied | Done

  /** What the thread of a tied task is doing: its own work, a taskwait about to
      look at the children, a child run inside a taskwait, blocked on
      taskwait_sem, past the semaphore with in_taskwait still set. */
  datatype At = Run | InWait | Nested(child: nat) | Blocked | Woken

  datatype Task = Task(
    parent: int,           // -1: none
    kind: Kind,
    ring: seq<nat>,        // the child ring, read from `children`
    at: At,
    sem: nat,              // taskwait_sem
    own: bool)             // run by its parent's taskwait

  /** Tasks are numbered in the order of their creation; the first `team` are the
      implicit tasks of the threads. */
  datatype State = State(team: nat, tasks: seq<Task>, queue: seq<nat>)

  function Without(s: seq<nat>, x: nat): (r: seq<nat>)
    ensures forall y :: y in r <==> y in s && y != x
    ensures |r| <= |s|
  {
    if s == [] then [] else (if s[0] == x then [] else [s[0]]) + Without(s[1..], x)
  }

  function Rotate(s: seq<nat>): (r: seq<nat>)
    ensures |r| == |s|
  {
    if s == [] then [] else s[1..] + [s[0]]
  }

  // ----- the steps -----

  datatype Step =
    | Create(p: nat)           // GOMP_task, the deferred path
    | Fetch                    // gomp_barrier_handle_tasks takes a task
    | Finish(c: nat)           // and has run it
    | Enter(p: nat)            // GOMP_taskwait
    | Take(p: nat)             // takes a waiting child
    | FinishOwn(p: nat)        // and has run it
    | Block(p: nat)            // or waits for running children
    | Wake(p: nat)             // passes taskwait_sem
    | Leave(p: nat)            // resets in_taskwait and returns
    | Return(p: nat)           // or returns since there are no children

  predicate Tied(s: State, p: nat) {
    p < |s.tasks| && s.tasks[p].kind.Tied?
  }

  predicate HeadWaits(s: State, p: nat) {
    p < |s.tasks| && s.tasks[p].ring != [] && Waits(s, s.tasks[p].ring[0])
  }

  predicate Waits(s: State, c: nat) {
    c < |s.tasks| && s.tasks[c].kind.Waiting?
  }

  predicate Enabled(s: State, m: Step) {
    match m
    case Create(p) => Tied(s, p) && s.tasks[p].at.Run?
    case Fetch => s.queue != [] && s.queue[0] < |s.tasks|
    case Finish(c) => s.team <= c && Tied(s, c) && s.tasks[c].at.Run? && !s.tasks[c].own
    case Enter(p) => Tied(s, p) && s.tasks[p].at.Run?
    case Take(p) => Tied(s, p) && s.tasks[p].at.InWait? && HeadWaits(s, p)
    case FinishOwn(p) => Tied(s, p) && s.tasks[p].at.Nested? && Tied(s, s.tasks[p].at.child)
                         && s.tasks[s.tasks[p].at.child].at.Run?
    case Block(p) => Tied(s, p) && s.tasks[p].at.InWait? && s.tasks[p].ring != [] && !HeadWaits(s, p)
    case Wake(p) => Tied(s, p) && s.tasks[p].at.Blocked? && s.tasks[p].sem > 0
    case Leave(p) => Tied(s, p) && s.tasks[p].at.Woken?
    case Return(p) => Tied(s, p) && s.tasks[p].at.InWait? && s.tasks[p].ring == []
  }

  function Put(s: State, p: nat, t: Task): State
    requires p < |s.tasks|
  {
    s.(tasks := s.tasks[p := t])
  }

  function Moved(s: State, p: nat, a: At): State
    requires p < |s.tasks|
  {
    Put(s, p, s.tasks[p].(at := a))
  }

  /** The first child of `p` becomes the last. */
  function Advance(s: State, p: nat): State
    requires p < |s.tasks|
  {
    Put(s, p, s.tasks[p].(ring := Rotate(s.tasks[p].ring)))
  }

  /** Start to run `c`, at the head of the queue or not. */
  function Tie(s: State, c: nat, own: bool): State
    requires c < |s.tasks|
  {
    Put(s, c, s.tasks[c].(kind := Kind.Tied, own := own)).(queue := Without(s.queue, c))
  }

  function FetchFirst(s: State, c: nat): State
    requires c < |s.tasks|
  {
    var p := s.tasks[c].parent;
    if 0 <= p < |s.tasks| && s.tasks[p].ring != [] && s.tasks[p].ring[0] == c
    then Tie(Advance(s, p), c, false) else Tie(s, c, false)
  }

  /** Unlink the finished task `c` from its parent. */
  function Unlink(s: State, c: nat): State
    requires c < |s.tasks|
  {
    var p := s.tasks[c].parent;
    if 0 <= p < |s.tasks| then
      var t := s.tasks[p].(ring := Without(s.tasks[p].ring, c));
      var post := s.tasks[p].ring == [c] && (t.at.Blocked? || t.at.Woken?);
      Put(s, p, if post then t.(sem := t.sem + 1) else t)
    else s
  }

  /** gomp_clear_parent on the children of `c`, which is freed. */
  function Orphan(s: State, c: nat): State
    requires c < |s.tasks|
  {
    var ring := s.tasks[c].ring;
    var ts := seq(|s.tasks|, i requires 0 <= i < |s.tasks| =>
                    if i in ring then s.tasks[i].(parent := -1) else s.tasks[i]);
    s.(tasks := ts[c := ts[c].(kind := Done, ring := [])])
  }

  function Apply(s: State, m: Step): State
    requires Enabled(s, m)
  {
    match m
    case Create(p) =>
      var c := |s.tasks|;
      var t := s.tasks[p].(ring := [c] + s.tasks[p].ring);
      s.(tasks := s.tasks[p := t] + [Task(p, Kind.Waiting, [], Run, 0, false)], queue := s.queue + [c])
    case Fetch => FetchFirst(s, s.queue[0])
    case Finish(c) => Orphan(Unlink(s, c), c)
    case Enter(p) => Moved(s, p, InWait)
    case Take(p) => Moved(Tie(Advance(s, p), s.tasks[p].ring[0], true), p, Nested(s.tasks[p].ring[0]))
    case FinishOwn(p) => Moved(Orphan(Unlink(s, s.tasks[p].at.child), s.tasks[p].at.child), p, InWait)
    case Block(p) => Moved(s, p, Blocked)
    case Wake(p) => Put(s, p, s.tasks[p].(sem := s.tasks[p].sem - 1, at := Woken))
    case Leave(p) => Moved(s, p, Run)
    case Return(p) => Moved(s, p, Run)
  }

  // ----- the invariant -----

  /** A ring holds the unfinished children, the waiting ones first, youngest first. */
  ghost predicate RingOk(s: State, p: nat)
    requires p < |s.tasks|
  {
    var ring := s.tasks[p].ring;
    && (forall c: nat :: c in ring <==> c < |s.tasks| && s.tasks[c].parent == p && !s.tasks[c].kind.Done?)
    && (forall i, j :: 0 <= i < j < |ring| ==> ring[i] != ring[j])
    && (forall i, j :: 0 <= i < j < |ring| && Waits(s, ring[j]) ==> Waits(s, ring[i]) && ring[i] > ring[j])
  }

  ghost predicate QueueOk(s: State) {
    && (forall c: nat :: c in s.queue <==> Waits(s, c))
    && (forall i, j :: 0 <= i < j < |s.queue| ==> s.queue[i] < s.queue[j])
  }

  ghost predicate TaskOk(s: State, c: nat)
    requires c < |s.tasks|
  {
    var t := s.tasks[c];
    && -1 <= t.parent < c
    && (c < s.team ==> t.parent == -1)
    && (t.kind.Waiting? ==> t.at.Run? && t.ring == [] && !t.own)
    && (t.kind.Done? ==> t.ring == [])
    && (t.at.Nested? ==> Tied(s, t.at.child) && s.tasks[t.at.child].own && s.tasks[t.at.child].parent == c)
    && (t.kind.Tied? && t.own ==> t.parent >= 0 && s.tasks[t.parent].at == Nested(c))
    && t.sem == (if t.at.Blocked? && t.ring == [] then 1 else 0)
    && (t.at.Blocked? || t.at.Woken? ==> forall x :: x in t.ring ==> Tied(s, x) && !s.tasks[x].own)
    && (t.at.Woken? ==> t.ring == [])
  }

  ghost predicate Inv(s: State) {
    && s.team <= |s.tasks|
    && (forall p :: 0 <= p < |s.tasks| ==> RingOk(s, p))
    && (forall c :: 0 <= c < |s.tasks| ==> TaskOk(s, c))
    && QueueOk(s)
  }

  function Initial(n: nat): State {
    State(n, seq(n, i => Task(-1, Kind.Tied, [], Run, 0, false)), [])
  }

  lemma InitialInv(n: nat)
    ensures Inv(Initial(n))
  {
  }

  // ----- steps that only move a thread -----

  lemma MovedRings(s: State, p: nat, a: At, n: nat)
    requires Inv(s) && p < |s.tasks|
    ensures var r := Put(s, p, s.tasks[p].(at := a, sem := n));
            QueueOk(r) && forall q :: 0 <= q < |r.tasks| ==> RingOk(r, q)
  {
    var r := Put(s, p, s.tasks[p].(at := a, sem := n));
    assert forall c: nat :: Waits(r, c) <==> Waits(s, c);
    forall q | 0 <= q < |r.tasks| ensures RingOk(r, q) {
      assert RingOk(s, q);
    }
  }

  /** A taskwait that blocks has no waiting child, and none that its own thread
      would have to run. */
  lemma BlockedChildren(s: State, p: nat, x: nat)
    requires Inv(s) && Enabled(s, Block(p)) && x in s.tasks[p].ring
    ensures Tied(s, x) && !s.tasks[x].own
  {
    var ring := s.tasks[p].ring;
    assert RingOk(s, p);
    var j :| 0 <= j < |ring| && ring[j] == x;
    assert !Waits(s, ring[0]);
    assert TaskOk(s, x);
  }

  lemma MovedInv(s: State, m: Step)
    requires Inv(s) && Enabled(s, m) && (m.Enter? || m.Block? || m.Wake? || m.Leave? || m.Return?)
    ensures Inv(Apply(s, m))
  {
    var r := Apply(s, m);
    MovedRings(s, m.p, r.tasks[m.p].at, r.tasks[m.p].sem);
    assert TaskOk(s, m.p);
    if m.Block? {
      forall x | x in s.tasks[m.p].ring ensures Tied(s, x) && !s.tasks[x].own {
        BlockedChildren(s, m.p, x);
      }
    }
    forall c | 0 <= c < |r.tasks| ensures TaskOk(r, c) {
      MovedTask(s, m, c);
    }
  }

  lemma MovedTask(s: State, m: Step, c: nat)
    requires Inv(s) && Enabled(s, m) && (m.Enter? || m.Block? || m.Wake? || m.Leave? || m.Return?) && c < |s.tasks|
    requires m.Block? ==> forall x :: x in s.tasks[m.p].ring ==> Tied(s, x) && !s.tasks[x].own
    ensures TaskOk(Apply(s, m), c)
  {
    hide RingOk, QueueOk;
    assert TaskOk(s, c) && TaskOk(s, m.p);
  }

  // ----- GOMP_task -----

  lemma CreateRing(s: State, p: nat, q: nat)
    requires Inv(s) && Enabled(s, Create(p)) && q <= |s.tasks|
    ensures RingOk(Apply(s, Create(p)), q)
  {
    var r := Apply(s, Create(p));
    var c := |s.tasks|;
    assert forall x: nat :: Waits(r, x) <==> x == c || Waits(s, x);
    if q == p {
      CreateOwnRing(s, p);
    } else if q < c {
      assert RingOk(s, q);
    } else {
      forall x | 0 <= x < c ensures r.tasks[x].parent != c {
        assert TaskOk(s, x);
      }
    }
  }

  lemma CreateOwnRing(s: State, p: nat)
    requires RingOkBefore(s, p) && Enabled(s, Create(p))
    ensures RingOk(Apply(s, Create(p)), p)
  {
    var r := Apply(s, Create(p));
    var was, ring := s.tasks[p].ring, r.tasks[p].ring;
    assert forall i :: 0 < i < |ring| ==> ring[i] == was[i - 1] && was[i - 1] in was;
    assert forall x: nat :: Waits(r, x) <==> x == |s.tasks| || Waits(s, x);
  }

  ghost predicate RingOkBefore(s: State, p: nat) {
    p < |s.tasks| && RingOk(s, p)
  }

  lemma CreateInv(s: State, p: nat)
    requires Inv(s) && Enabled(s, Create(p))
    ensures Inv(Apply(s, Create(p)))
  {
    var r := Apply(s, Create(p));
    var c := |s.tasks|;
    forall q | 0 <= q < |r.tasks| ensures RingOk(r, q) {
      CreateRing(s, p, q);
    }
    forall x | 0 <= x < |r.tasks| ensures TaskOk(r, x) {
      assert x < c ==> TaskOk(s, x);
    }
    assert forall x: nat :: Waits(r, x) <==> x == c || Waits(s, x);
    assert forall i :: 0 <= i < |s.queue| ==> s.queue[i] in s.queue;
  }

  // ----- taking a task -----

  /** The task at the head of the queue is the last of the waiting children in its
      parent's ring: children are pushed at the head of the ring and at the tail
      of the queue. */
  lemma OldestIsLast(s: State, c: nat, i: nat, j: nat)
    requires Inv(s) && s.queue != [] && s.queue[0] == c && Waits(s, c) && 0 <= s.tasks[c].parent < |s.tasks|
    requires var ring := s.tasks[s.tasks[c].parent].ring; i < j < |ring| && ring[i] == c
    ensures !Waits(s, s.tasks[s.tasks[c].parent].ring[j])
  {
    var p := s.tasks[c].parent;
    var ring := s.tasks[p].ring;
    var d := ring[j];
    assert RingOk(s, p);
    assert d in s.queue ==> c <= d;
  }

  lemma {:induction false} WithoutPair(s: seq<nat>, x: nat, i: nat, j: nat) returns (a: nat, b: nat)
    requires i < j < |Without(s, x)|
    ensures a < b < |s| && Without(s, x)[i] == s[a] && Without(s, x)[j] == s[b]
  {
    var t := Without(s[1..], x);
    if s[0] == x {
      a, b := WithoutPair(s[1..], x, i, j);
      a, b := a + 1, b + 1;
    } else if i > 0 {
      a, b := WithoutPair(s[1..], x, i - 1, j - 1);
      a, b := a + 1, b + 1;
    } else {
      assert t[j - 1] in s[1..];
      var k :| 0 <= k < |s[1..]| && s[1..][k] == t[j - 1];
      a, b := 0, k + 1;
    }
  }

  /** `r` is `s` after task `c` was taken off the queue. */
  ghost predicate Started(s: State, r: State, c: nat) {
    && |r.tasks| == |s.tasks| && r.team == s.team && Waits(s, c) && r.tasks[c].kind.Tied?
    && r.queue == Without(s.queue, c)
    && (forall x :: 0 <= x < |s.tasks| ==>
          && r.tasks[x].parent == s.tasks[x].parent && (x != c ==> r.tasks[x].kind == s.tasks[x].kind)
          && (x != s.tasks[c].parent ==> r.tasks[x].ring == s.tasks[x].ring)
          && (x == s.tasks[c].parent ==> TookOne(s, r.tasks[x].ring, s.tasks[x].ring, c)))
  }

  ghost predicate TookOne(s: State, now: seq<nat>, was: seq<nat>, c: nat) {
    || (was != [] && was[0] == c && now == Rotate(was))
    || (s.queue != [] && s.queue[0] == c && now == was)
  }

  lemma StartedOrder(s: State, r: State, c: nat, p: nat)
    requires Inv(s) && Started(s, r, c) && p == s.tasks[c].parent && p < |s.tasks|
    requires forall x: nat :: Waits(r, x) <==> x != c && Waits(s, x)
    ensures var now := r.tasks[p].ring;
            forall i, j :: 0 <= i < j < |now| && Waits(r, now[j]) ==> Waits(r, now[i]) && now[i] > now[j]
  {
    var was, now := s.tasks[p].ring, r.tasks[p].ring;
    assert RingOk(s, p) && TookOne(s, now, was, c);
    if now == was && s.queue != [] && s.queue[0] == c {
      forall i, j | 0 <= i < j < |now| && Waits(r, now[j]) ensures Waits(r, now[i]) && now[i] > now[j] {
        if now[i] == c {
          OldestIsLast(s, c, i, j);
        }
      }
    } else {
      assert forall i :: 0 <= i < |now| - 1 ==> now[i] == was[i + 1];
    }
  }

  lemma Rotated(s: seq<nat>)
    requires forall i, j :: 0 <= i < j < |s| ==> s[i] != s[j]
    ensures forall x :: x in Rotate(s) <==> x in s
    ensures forall i, j :: 0 <= i < j < |s| ==> Rotate(s)[i] != Rotate(s)[j]
  {
    assert s != [] ==> s == [s[0]] + s[1..];
  }

  lemma StartedRing(s: State, r: State, c: nat, q: nat)
    requires Inv(s) && Started(s, r, c) && q < |s.tasks|
    ensures RingOk(r, q)
  {
    assert RingOk(s, q);
    assert forall x: nat :: Waits(r, x) <==> x != c && Waits(s, x);
    if q == s.tasks[c].parent {
      StartedOrder(s, r, c, q);
      Rotated(s.tasks[q].ring);
      assert TookOne(s, r.tasks[q].ring, s.tasks[q].ring, c);
    }
  }

  lemma StartedQueue(s: State, r: State, c: nat)
    requires QueueOk(s) && Started(s, r, c)
    ensures QueueOk(r)
  {
    assert forall x: nat :: Waits(r, x) <==> x != c && Waits(s, x);
    forall i, j | 0 <= i < j < |r.queue| ensures r.queue[i] < r.queue[j] {
      var a, b := WithoutPair(s.queue, c, i, j);
    }
  }

  lemma FetchStarts(s: State)
    requires Inv(s) && Enabled(s, Fetch)
    ensures Started(s, Apply(s, Fetch), s.queue[0])
  {
    assert s.queue[0] in s.queue;
    assert TaskOk(s, s.queue[0]);
  }

  lemma FetchInv(s: State)
    requires Inv(s) && Enabled(s, Fetch)
    ensures Inv(Apply(s, Fetch))
  {
    hide Unlink, TaskOk, RingOk, QueueOk, Started, FetchFirst;
    var r, c := Apply(s, Fetch), s.queue[0];
    FetchStarts(s);
    StartedSize(s, r, c);
    StartedQueue(s, r, c);
    forall q | 0 <= q < |r.tasks| ensures RingOk(r, q) {
      StartedRing(s, r, c, q);
    }
    forall x | 0 <= x < |r.tasks| ensures TaskOk(r, x) {
      FetchTask(s, x);
    }
  }

  lemma StartedSize(s: State, r: State, c: nat)
    requires Started(s, r, c)
    ensures |r.tasks| == |s.tasks| && r.team == s.team
  {
    hide TookOne, Without;
  }

  lemma FetchTask(s: State, x: nat)
    requires Inv(s) && Enabled(s, Fetch) && x < |s.tasks| == |Apply(s, Fetch).tasks|
    requires Started(s, Apply(s, Fetch), s.queue[0])
    ensures TaskOk(Apply(s, Fetch), x)
  {
    hide Unlink, RingOk, QueueOk;
    assert TaskOk(s, x) && TaskOk(s, s.queue[0]);
  }

  lemma TakeStarts(s: State, p: nat)
    requires Inv(s) && Enabled(s, Take(p))
    ensures Started(s, Apply(s, Take(p)), s.tasks[p].ring[0])
  {
    assert RingOk(s, p) && TaskOk(s, s.tasks[p].ring[0]);
    assert s.tasks[p].ring[0] in s.tasks[p].ring;
  }

  lemma TakeInv(s: State, p: nat)
    requires Inv(s) && Enabled(s, Take(p))
    ensures Inv(Apply(s, Take(p)))
  {
    hide TaskOk, RingOk, QueueOk, Started, Tie, Advance;
    var r, c := Apply(s, Take(p)), s.tasks[p].ring[0];
    TakeStarts(s, p);
    StartedSize(s, r, c);
    StartedQueue(s, r, c);
    forall q | 0 <= q < |r.tasks| ensures RingOk(r, q) {
      StartedRing(s, r, c, q);
    }
    forall x | 0 <= x < |r.tasks| ensures TaskOk(r, x) {
      TakeTask(s, p, x);
    }
  }

  lemma TakeTask(s: State, p: nat, x: nat)
    requires Inv(s) && Enabled(s, Take(p)) && x < |s.tasks| && Started(s, Apply(s, Take(p)), s.tasks[p].ring[0])
    ensures TaskOk(Apply(s, Take(p)), x)
  {
    hide RingOk, QueueOk;
    var c := s.tasks[p].ring[0];
    RingMember(s, p, c);
    assert TaskOk(s, x) && TaskOk(s, c) && TaskOk(s, p);
  }

  lemma RingMember(s: State, p: nat, c: nat)
    requires Inv(s) && p < |s.tasks| && c in s.tasks[p].ring
    ensures c < |s.tasks| && s.tasks[c].parent == p
  {
    hide TaskOk, QueueOk;
    assert RingOk(s, p);
  }

  // ----- the end of a task -----

  lemma {:induction false} WithoutLast(s: seq<nat>, x: nat)
    requires x in s && forall i, j :: 0 <= i < j < |s| ==> s[i] != s[j]
    ensures Without(s, x) == [] <==> s == [x]
  {
    assert Without([x], x) == Without([], x);
    if |s| > 1 {
      var y := if s[0] == x then s[1] else s[0];
      assert y in Without(s, x);
    }
  }

  /** `r` is `s` after task `c` was unlinked and freed. */
  ghost predicate Ended(s: State, r: State, c: nat) {
    && |r.tasks| == |s.tasks| && r.team == s.team && Tied(s, c) && r.tasks[c].kind.Done? && r.tasks[c].ring == []
    && r.queue == s.queue
    && (forall x :: 0 <= x < |s.tasks| ==>
          && r.tasks[x].parent == (if s.tasks[x].parent == c && !s.tasks[x].kind.Done? then -1 else s.tasks[x].parent)
          && (x != c ==> r.tasks[x].kind == s.tasks[x].kind && r.tasks[x].own == s.tasks[x].own)
          && (x != c && x != s.tasks[c].parent ==>
                r.tasks[x].ring == s.tasks[x].ring && r.tasks[x].at == s.tasks[x].at
                && r.tasks[x].sem == s.tasks[x].sem)
          && (x == s.tasks[c].parent ==> r.tasks[x].ring == Without(s.tasks[x].ring, c)))
  }

  lemma EndedRing(s: State, r: State, c: nat, q: nat)
    requires Inv(s) && Ended(s, r, c) && q < |s.tasks|
    ensures RingOk(r, q)
  {
    assert RingOk(s, q) && TaskOk(s, c);
    assert forall x: nat :: Waits(r, x) <==> Waits(s, x);
    var was, now := s.tasks[q].ring, r.tasks[q].ring;
    if q == s.tasks[c].parent {
      forall i, j | 0 <= i < j < |now|
        ensures now[i] != now[j] && (Waits(r, now[j]) ==> Waits(r, now[i]) && now[i] > now[j])
      {
        var a, b := WithoutPair(was, c, i, j);
      }
    }
  }

  lemma FinishEnds(s: State, c: nat)
    requires Inv(s) && Enabled(s, Finish(c))
    ensures Ended(s, Apply(s, Finish(c)), c)
  {
    assert RingOk(s, c) && TaskOk(s, c);
  }

  lemma FinishParent(s: State, c: nat)
    requires Inv(s) && Enabled(s, Finish(c)) && s.tasks[c].parent >= 0
    ensures var x := s.tasks[c].parent; x < |s.tasks| && TaskOk(Apply(s, Finish(c)), x)
  {
    hide QueueOk, Without, RingOk, Unlink, Orphan;
    assert TaskOk(s, c) && TaskOk(s, s.tasks[c].parent);
    ParentCell(s, c);
    RingWithout(s, s.tasks[c].parent, c);
  }

  /** What the end of `c` does to its parent, and to what the parent looks at. */
  lemma ParentCell(s: State, c: nat)
    requires Enabled(s, Finish(c)) && 0 <= s.tasks[c].parent < c
    ensures var r, p, t := Apply(s, Finish(c)), s.tasks[c].parent, s.tasks[s.tasks[c].parent];
            && |r.tasks| == |s.tasks| && r.team == s.team
            && r.tasks[p].(parent := t.parent) ==
                 t.(ring := Without(t.ring, c),
                    sem := if t.ring == [c] && (t.at.Blocked? || t.at.Woken?) then t.sem + 1 else t.sem)
            && forall y :: 0 <= y < |s.tasks| ==>
                 && r.tasks[y].own == s.tasks[y].own && r.tasks[y].at == s.tasks[y].at
                 && (y != c ==> r.tasks[y].kind == s.tasks[y].kind)
                 && r.tasks[y].parent == if y in s.tasks[c].ring then -1 else s.tasks[y].parent
  {
    hide Without;
  }

  lemma RingWithout(s: State, p: nat, c: nat)
    requires Inv(s) && c < |s.tasks| && s.tasks[c].parent == p && p < |s.tasks| && !s.tasks[c].kind.Done?
    ensures var ring := s.tasks[p].ring;
            && c in ring && (Without(ring, c) == [] <==> ring == [c])
            && forall y :: y in s.tasks[c].ring ==> y < |s.tasks| && s.tasks[y].parent == c && y != p
  {
    hide QueueOk, Without;
    assert RingOk(s, p) && RingOk(s, c) && TaskOk(s, p) && TaskOk(s, c);
    WithoutLast(s.tasks[p].ring, c);
  }

  lemma FinishTasks(s: State, c: nat, x: nat)
    requires Inv(s) && Enabled(s, Finish(c)) && x < |s.tasks|
    ensures TaskOk(Apply(s, Finish(c)), x)
  {
    FinishEnds(s, c);
    assert TaskOk(s, x) && TaskOk(s, c) && RingOk(s, x);
    if x == s.tasks[c].parent {
      FinishParent(s, c);
    }
  }

  lemma FinishInv(s: State, c: nat)
    requires Inv(s) && Enabled(s, Finish(c))
    ensures Inv(Apply(s, Finish(c)))
  {
    var r := Apply(s, Finish(c));
    FinishEnds(s, c);
    forall q | 0 <= q < |r.tasks| ensures RingOk(r, q) && TaskOk(r, q) {
      EndedRing(s, r, c, q);
      FinishTasks(s, c, q);
    }
    assert forall x: nat :: Waits(r, x) <==> Waits(s, x);
  }

  lemma FinishOwnEnds(s: State, p: nat)
    requires Inv(s) && Enabled(s, FinishOwn(p))
    ensures Ended(s, Apply(s, FinishOwn(p)), s.tasks[p].at.child)
  {
    var c := s.tasks[p].at.child;
    assert RingOk(s, c) && TaskOk(s, c) && TaskOk(s, p);
  }

  lemma FinishOwnTasks(s: State, p: nat, x: nat)
    requires Inv(s) && Enabled(s, FinishOwn(p)) && x < |s.tasks|
    ensures TaskOk(Apply(s, FinishOwn(p)), x)
  {
    FinishOwnEnds(s, p);
    assert TaskOk(s, x) && TaskOk(s, p) && TaskOk(s, s.tasks[p].at.child) && RingOk(s, x);
  }

  lemma FinishOwnInv(s: State, p: nat)
    requires Inv(s) && Enabled(s, FinishOwn(p))
    ensures Inv(Apply(s, FinishOwn(p)))
  {
    var r := Apply(s, FinishOwn(p));
    FinishOwnEnds(s, p);
    forall q | 0 <= q < |r.tasks| ensures RingOk(r, q) && TaskOk(r, q) {
      EndedRing(s, r, s.tasks[p].at.child, q);
      FinishOwnTasks(s, p, q);
    }
    assert forall x: nat :: Waits(r, x) <==> Waits(s, x);
  }

  // ----- whole runs -----

  lemma StepInv(s: State, m: Step)
    requires Inv(s) && Enabled(s, m)
    ensures Inv(Apply(s, m))
  {
    match m
    case Create(p) => CreateInv(s, p);
    case Fetch => FetchInv(s);
    case Finish(c) => FinishInv(s, c);
    case Take(p) => TakeInv(s, p);
    case FinishOwn(p) => FinishOwnInv(s, p);
    case Enter(p) => MovedInv(s, m);
    case Block(p) => MovedInv(s, m);
    case Wake(p) => MovedInv(s, m);
    case Leave(p) => MovedInv(s, m);
    case Return(p) => MovedInv(s, m);
  }

  ghost predicate IsRun(n: nat, ms: seq<Step>, ss: seq<State>) {
    && |ss| == |ms| + 1 && ss[0] == Initial(n)
    && (forall i :: 0 <= i < |ms| ==> Enabled(ss[i], ms[i]) && ss[i + 1] == Apply(ss[i], ms[i]))
  }

  lemma {:induction false} RunInv(n: nat, ms: seq<Step>, ss: seq<State>, k: nat)
    requires IsRun(n, ms, ss) && k < |ss|
    ensures Inv(ss[k])
  {
    if k == 0 {
      InitialInv(n);
    } else {
      RunInv(n, ms, ss, k - 1);
      StepInv(ss[k - 1], ms[k - 1]);
    }
  }

  ghost predicate Unfinished(s: State, p: nat, c: nat) {
    c < |s.tasks| && s.tasks[c].parent == p && !s.tasks[c].kind.Done?
  }

  /** Each ring lists its waiting children before its running ones. */
  lemma WaitingFirst(n: nat, ms: seq<Step>, ss: seq<State>, k: nat, p: nat, i: nat, j: nat)
    requires IsRun(n, ms, ss) && k < |ss| && p < |ss[k].tasks| && i < j < |ss[k].tasks[p].ring|
    ensures Waits(ss[k], ss[k].tasks[p].ring[j]) ==> Waits(ss[k], ss[k].tasks[p].ring[i])
  {
    RunInv(n, ms, ss, k);
    assert RingOk(ss[k], p);
  }

  /** GOMP_taskwait blocks only when no child is waiting to be run. */
  lemma BlocksOnlyBehindOthers(n: nat, ms: seq<Step>, ss: seq<State>, k: nat, p: nat, c: nat)
    requires IsRun(n, ms, ss) && k < |ms| && ms[k] == Block(p) && Unfinished(ss[k], p, c)
    ensures Tied(ss[k], c) && !ss[k].tasks[c].own
  {
    RunInv(n, ms, ss, k);
    assert RingOk(ss[k], p);
    BlockedChildren(ss[k], p, c);
  }

  /** GOMP_taskwait returns only when no child is unfinished. */
  lemma ReturnsWhenDone(n: nat, ms: seq<Step>, ss: seq<State>, k: nat, p: nat, c: nat)
    requires IsRun(n, ms, ss) && k < |ms| && (ms[k] == Leave(p) || ms[k] == Return(p))
    ensures !Unfinished(ss[k], p, c)
  {
    RunInv(n, ms, ss, k);
    assert RingOk(ss[k], p) && TaskOk(ss[k], p);
  }

  /** No wakeup is lost: a blocked taskwait without unfinished children can pass
      its semaphore. */
  lemma WakesWhenDone(n: nat, ms: seq<Step>, ss: seq<State>, k: nat, p: nat)
    requires IsRun(n, ms, ss) && k < |ss| && Tied(ss[k], p) && ss[k].tasks[p].at.Blocked?
    ensures Enabled(ss[k], Wake(p)) <==> forall c: nat :: !Unfinished(ss[k], p, c)
  {
    RunInv(n, ms, ss, k);
    var s := ss[k];
    assert RingOk(s, p) && TaskOk(s, p);
    if s.tasks[p].ring != [] {
      assert s.tasks[p].ring[0] in s.tasks[p].ring;
      assert Unfinished(s, p, s.tasks[p].ring[0]);
    } else {
      assert forall c: nat :: Unfinished(s, p, c) ==> c in s.tasks[p].ring;
    }
  }

  // ----- what can be done next, and what it does -----

  /** In a taskwait there is exactly one thing to do: run a waiting child if there is
      one, return if all are finished, wait otherwise. */
  lemma NextInWait(n: nat, ms: seq<Step>, ss: seq<State>, k: nat, p: nat)
    requires IsRun(n, ms, ss) && k < |ss| && Tied(ss[k], p) && ss[k].tasks[p].at.InWait?
    ensures Enabled(ss[k], Take(p)) <==> exists c: nat :: Unfinished(ss[k], p, c) && Waits(ss[k], c)
    ensures Enabled(ss[k], Return(p)) <==> forall c: nat :: !Unfinished(ss[k], p, c)
    ensures Enabled(ss[k], Block(p)) <==> (exists c: nat :: Unfinished(ss[k], p, c))
                                          && forall c: nat :: Unfinished(ss[k], p, c) ==> !Waits(ss[k], c)
  {
    hide TaskOk, QueueOk;
    RunInv(n, ms, ss, k);
    var s := ss[k];
    var ring := s.tasks[p].ring;
    assert RingOk(s, p);
    assert forall c: nat :: Unfinished(s, p, c) <==> c in ring;
    if ring != [] {
      assert Unfinished(s, p, ring[0]);
    }
    forall c: nat | Unfinished(s, p, c) && Waits(s, c) ensures Waits(s, ring[0]) {
      var j :| 0 <= j < |ring| && ring[j] == c;
    }
  }

  /** The youngest waiting child is run, by this taskwait. */
  lemma TakesYoungest(n: nat, ms: seq<Step>, ss: seq<State>, k: nat, p: nat) returns (c: nat)
    requires IsRun(n, ms, ss) && k < |ms| && ms[k] == Take(p)
    ensures Unfinished(ss[k], p, c) && Waits(ss[k], c) && p < |ss[k + 1].tasks| && ss[k + 1].tasks[p].at == Nested(c)
    ensures Tied(ss[k + 1], c) && ss[k + 1].tasks[c].own && ss[k + 1].tasks[c].at.Run?
    ensures forall d: nat :: Unfinished(ss[k], p, d) && Waits(ss[k], d) ==> d <= c
  {
    RunInv(n, ms, ss, k);
    var s := ss[k];
    var ring := s.tasks[p].ring;
    assert RingOk(s, p) && TaskOk(s, p);
    c := ring[0];
    assert c in ring && TaskOk(s, c);
    forall d: nat | Unfinished(s, p, d) && Waits(s, d) ensures d <= c {
      var j :| 0 <= j < |ring| && ring[j] == d;
    }
  }

  /** At a barrier some task can be run while any one waits, and it is the oldest. */
  lemma FetchesOldest(n: nat, ms: seq<Step>, ss: seq<State>, k: nat)
    requires IsRun(n, ms, ss) && k < |ss|
    ensures Enabled(ss[k], Fetch) <==> exists c: nat :: Waits(ss[k], c)
    ensures k < |ms| && ms[k].Fetch? ==>
              exists c: nat :: Waits(ss[k], c) && Tied(ss[k + 1], c) && !ss[k + 1].tasks[c].own
                               && forall d: nat :: Waits(ss[k], d) ==> c <= d
  {
    hide RingOk, TaskOk;
    RunInv(n, ms, ss, k);
    var s := ss[k];
    if s.queue != [] {
      assert s.queue[0] in s.queue;
      assert Waits(s, s.queue[0]);
    }
    if k < |ms| && ms[k].Fetch? {
      var c := s.queue[0];
      assert Tied(ss[k + 1], c) && !ss[k + 1].tasks[c].own;
      forall d: nat | Waits(s, d) ensures c <= d {
        var j :| 0 <= j < |s.queue| && s.queue[j] == d;
      }
    }
  }

  /** A task that is run and not in a taskwait can be finished, by whoever runs it. */
  lemma CanFinish(n: nat, ms: seq<Step>, ss: seq<State>, k: nat, c: nat)
    requires IsRun(n, ms, ss) && k < |ss| && n <= c && Tied(ss[k], c) && ss[k].tasks[c].at.Run?
    ensures if ss[k].tasks[c].own then ss[k].tasks[c].parent >= 0 && Enabled(ss[k], FinishOwn(ss[k].tasks[c].parent))
            else Enabled(ss[k], Finish(c))
  {
    hide RingOk, QueueOk;
    RunInv(n, ms, ss, k);
    TeamIs(n, ms, ss, k);
    var s := ss[k];
    assert TaskOk(s, c);
    if s.tasks[c].own {
      NestedIsTied(s, s.tasks[c].parent);
    }
  }

  lemma NestedIsTied(s: State, p: nat)
    requires Inv(s) && p < |s.tasks| && s.tasks[p].at.Nested?
    ensures Tied(s, p)
  {
    hide QueueOk;
    assert TaskOk(s, p) && RingOk(s, p);
    assert s.tasks[p].at.child in s.tasks[p].ring;
  }

  /** A finished task is no one's child any more, nor are its own children its; all
      others are unfinished as before. */
  lemma FinishedGone(n: nat, ms: seq<Step>, ss: seq<State>, k: nat, c: nat, q: nat, d: nat)
    requires IsRun(n, ms, ss) && k < |ms|
    requires ms[k] == Finish(c)
          || (ms[k].FinishOwn? && ms[k].p < |ss[k].tasks| && ss[k].tasks[ms[k].p].at == Nested(c))
    ensures Unfinished(ss[k + 1], q, d) <==> Unfinished(ss[k], q, d) && d != c && q != c
  {
    hide TaskOk, QueueOk, RingOk, IsRun, Apply, Without;
    RunStep(n, ms, ss, k);
    RunInv(n, ms, ss, k);
    if ms[k].Finish? {
      FinishEnds(ss[k], c);
    } else {
      FinishOwnEnds(ss[k], ms[k].p);
    }
    EndedChildren(ss[k], ss[k + 1], c, q, d);
  }

  lemma RunStep(n: nat, ms: seq<Step>, ss: seq<State>, k: nat)
    requires IsRun(n, ms, ss) && k < |ms|
    ensures |ss| == |ms| + 1 && Enabled(ss[k], ms[k]) && ss[k + 1] == Apply(ss[k], ms[k])
  {
  }

  lemma EndedChildren(s: State, r: State, c: nat, q: nat, d: nat)
    requires Ended(s, r, c)
    ensures Unfinished(r, q, d) <==> Unfinished(s, q, d) && d != c && q != c
  {
    hide Without;
  }

  /** A task that is about its own work can make tasks and wait for them at any time. */
  lemma OwnWork(s: State, p: nat)
    requires Tied(s, p) && s.tasks[p].at.Run?
    ensures Enabled(s, Create(p)) && Enabled(s, Enter(p))
  {
  }

  /** A new task is an unfinished child, the youngest, and waits to be run. */
  lemma CreatesChild(n: nat, ms: seq<Step>, ss: seq<State>, k: nat, p: nat, q: nat, d: nat)
    requires IsRun(n, ms, ss) && k < |ms| && ms[k] == Create(p)
    ensures var c := |ss[k].tasks|;
            && |ss[k + 1].tasks| == c + 1
            && (Unfinished(ss[k + 1], q, d) <==> Unfinished(ss[k], q, d) || (q == p && d == c))
            && (Waits(ss[k + 1], d) <==> Waits(ss[k], d) || d == c)
  {
    hide RingOk, TaskOk, QueueOk;
    RunInv(n, ms, ss, k);
    assert ss[k + 1] == Apply(ss[k], ms[k]);
  }

  lemma DetachedAt(s: State, c: nat, p: nat)
    requires c < |s.tasks| && p < |s.tasks|
    ensures |Unlink(s, c).tasks| == |s.tasks| && |Orphan(Unlink(s, c), c).tasks| == |s.tasks|
    ensures Orphan(Unlink(s, c), c).tasks[p].at == s.tasks[p].at
  {
    hide Without;
  }

  /** GOMP_taskwait from its first to its last step.  No other step moves it. */
  lemma WaitMoves(s: State, m: Step, p: nat)
    requires Enabled(s, m) && p < |s.tasks|
    ensures p < |Apply(s, m).tasks|
    ensures match m
            case Enter(q) => q == p ==> Apply(s, m).tasks[p].at.InWait?
            case Take(q) => q == p ==> Apply(s, m).tasks[p].at.Nested?
            case FinishOwn(q) => q == p ==> Apply(s, m).tasks[p].at.InWait?
            case Block(q) => q == p ==> Apply(s, m).tasks[p].at.Blocked?
            case Wake(q) => q == p ==> Apply(s, m).tasks[p].at.Woken?
            case Leave(q) => q == p ==> Apply(s, m).tasks[p].at.Run?
            case Return(q) => q == p ==> Apply(s, m).tasks[p].at.Run?
            case _ => true
    ensures m.Create? || m.Fetch? || m.Finish? || m.p != p ==> Apply(s, m).tasks[p].at == s.tasks[p].at
  {
    hide Without, Rotate, Orphan, Unlink;
    if m.Finish? {
      DetachedAt(s, m.c, p);
    } else if m.FinishOwn? {
      DetachedAt(s, s.tasks[m.p].at.child, p);
      DetachedAt(s, s.tasks[m.p].at.child, m.p);
    }
  }

  /** Unless every task that is run is about its own work, something can be done about
      it: no taskwait blocks for good. */
  lemma NoDeadlock(n: nat, ms: seq<Step>, ss: seq<State>, k: nat, p: nat) returns (m: Step)
    requires IsRun(n, ms, ss) && k < |ss| && Tied(ss[k], p) && !ss[k].tasks[p].at.Run?
    ensures Enabled(ss[k], m) && !m.Create? && !m.Enter? && !m.Fetch?
    decreases |ss[k].tasks| - p
  {
    hide QueueOk, RingOk, TaskOk;
    RunInv(n, ms, ss, k);
    var s := ss[k];
    match s.tasks[p].at
    case InWait =>
      NextInWait(n, ms, ss, k, p);
      m := if exists c: nat :: Unfinished(s, p, c) && Waits(s, c) then Take(p)
           else if exists c: nat :: Unfinished(s, p, c) then Block(p) else Return(p);
    case Woken => m := Leave(p);
    case Nested(c) =>
      RunningChild(s, p, c);
      if s.tasks[c].at.Run? {
        m := FinishOwn(p);
      } else {
        m := NoDeadlock(n, ms, ss, k, c);
      }
    case Blocked =>
      WakesWhenDone(n, ms, ss, k, p);
      if c: nat :| Unfinished(s, p, c) {
        BlockedChild(s, p, c);
        TeamIs(n, ms, ss, k);
        if s.tasks[c].at.Run? {
          CanFinish(n, ms, ss, k, c);
          m := Finish(c);
        } else {
          m := NoDeadlock(n, ms, ss, k, c);
        }
      } else {
        m := Wake(p);
      }
  }

  lemma RunningChild(s: State, p: nat, c: nat)
    requires Inv(s) && p < |s.tasks| && s.tasks[p].at == Nested(c)
    ensures Tied(s, c) && p < c
  {
    hide QueueOk, RingOk;
    assert TaskOk(s, p);
    assert TaskOk(s, c);
  }

  lemma BlockedChild(s: State, p: nat, c: nat)
    requires Inv(s) && Tied(s, p) && s.tasks[p].at.Blocked? && Unfinished(s, p, c)
    ensures Tied(s, c) && !s.tasks[c].own && p < c && s.team <= c
  {
    hide QueueOk;
    assert TaskOk(s, p) && RingOk(s, p) && TaskOk(s, c);
  }

  lemma {:induction false} TeamIs(n: nat, ms: seq<Step>, ss: seq<State>, k: nat)
    requires IsRun(n, ms, ss) && k < |ss|
    ensures ss[k].team == n
  {
    if k > 0 {
      TeamIs(n, ms, ss, k - 1);
      assert ss[k] == Apply(ss[k - 1], ms[k - 1]);
    }
  }
}

/** The child rings and the queue are circular doubly linked lists. */
module TaskRings {
  import P = TaskProtocol

  function Succ(i: nat, n: nat): nat {
    if i + 1 == n then 0 else i + 1
  }

  function Pred(i: nat, n: nat): int {
    if i == 0 then n - 1 else i - 1
  }

  ghost predicate Distinct(s: seq<nat>) {
    forall i, j :: 0 <= i < j < |s| ==> s[i] != s[j]
  }

  predicate LinkedAt(next: map<nat, nat>, prev: map<nat, nat>, s: seq<nat>, i: nat)
    requires i < |s|
  {
    s[i] in next && next[s[i]] == s[Succ(i, |s|)] && s[i] in prev && prev[s[i]] == s[Pred(i, |s|)]
  }

  /** The links go round `s`. */
  ghost predicate Circular(next: map<nat, nat>, prev: map<nat, nat>, s: seq<nat>) {
    forall i :: 0 <= i < |s| ==> LinkedAt(next, prev, s, i)
  }

  /** `x` linked between the last and the first. */
  lemma Inserted(next: map<nat, nat>, prev: map<nat, nat>, s: seq<nat>, x: nat)
    requires Circular(next, prev, s) && Distinct(s) && x !in s && s != []
    ensures Circular(next[x := s[0]][s[|s| - 1] := x], prev[x := s[|s| - 1]][s[0] := x], [x] + s)
  {
    var n, p, t := next[x := s[0]][s[|s| - 1] := x], prev[x := s[|s| - 1]][s[0] := x], [x] + s;
    forall i | 0 <= i < |t| ensures LinkedAt(n, p, t, i) {
      if i > 0 {
        assert LinkedAt(next, prev, s, i - 1);
      }
    }
  }

  lemma RotatedLinks(next: map<nat, nat>, prev: map<nat, nat>, s: seq<nat>)
    requires Circular(next, prev, s) && s != []
    ensures Circular(next, prev, P.Rotate(s))
  {
    var t := P.Rotate(s);
    forall i | 0 <= i < |t| ensures LinkedAt(next, prev, t, i) {
      assert LinkedAt(next, prev, s, Succ(i, |s|));
    }
  }

  /** Bypassing the first leaves the links of the others. */
  lemma Bypassed(next: map<nat, nat>, prev: map<nat, nat>, s: seq<nat>)
    requires Circular(next, prev, s) && Distinct(s) && |s| > 1
    ensures Circular(next[s[|s| - 1] := s[1]], prev[s[1] := s[|s| - 1]], s[1..])
  {
    var n, p, t := next[s[|s| - 1] := s[1]], prev[s[1] := s[|s| - 1]], s[1..];
    forall i | 0 <= i < |t| ensures LinkedAt(n, p, t, i) {
      assert LinkedAt(next, prev, s, i + 1);
    }
  }

  /** Going round from another place. */
  lemma {:induction false} RotatedBy(next: map<nat, nat>, prev: map<nat, nat>, s: seq<nat>, k: nat)
    requires Circular(next, prev, s) && Distinct(s) && k <= |s|
    ensures Circular(next, prev, s[k..] + s[..k]) && Distinct(s[k..] + s[..k])
  {
    if k == 0 {
      assert s[k..] + s[..k] == s;
    } else {
      RotatedBy(next, prev, s, k - 1);
      var t := s[k - 1..] + s[..k - 1];
      RotatedLinks(next, prev, t);
      P.Rotated(t);
      assert P.Rotate(t) == s[k..] + s[..k];
    }
  }

  /** Bypassing any one. */
  lemma BypassedAt(next: map<nat, nat>, prev: map<nat, nat>, s: seq<nat>, k: nat)
    requires Circular(next, prev, s) && Distinct(s) && k < |s| && |s| > 1
    ensures var l, r := s[Pred(k, |s|)], s[Succ(k, |s|)];
            Circular(next[l := r], prev[r := l], s[..k] + s[k + 1..])
  {
    var t := s[k..] + s[..k];
    RotatedBy(next, prev, s, k);
    Bypassed(next, prev, t);
    var u := t[1..];
    var l, r := s[Pred(k, |s|)], s[Succ(k, |s|)];
    assert t[|t| - 1] == l && t[1] == r;
    RotatedBy(next[l := r], prev[r := l], u, |s| - 1 - k);
    assert u[|s| - 1 - k..] + u[..|s| - 1 - k] == s[..k] + s[k + 1..];
  }

  class Ring {
    var head: int                 // -1: NULL
    var next: map<nat, nat>
    var prev: map<nat, nat>
    ghost var items: seq<nat>     // read from the head

    ghost predicate Valid()
      reads this
    {
      Distinct(items) && Circular(next, prev, items) && head == if items == [] then -1 else items[0]
    }

    constructor ()
      ensures Valid() && items == []
    {
      head, next, prev, items := -1, map[], map[], [];
    }

    /** Link `x` between the last task and the first. */
    method Insert(x: nat)
      requires Valid() && x !in items
      modifies this`next, this`prev
      ensures items == [] ==> next == old(next)[x := x] && prev == old(prev)[x := x]
      ensures items != [] ==> var l, h := items[|items| - 1], items[0];
                next == old(next)[x := h][l := x] && prev == old(prev)[x := l][h := x]
    {
      if head >= 0 {
        assert LinkedAt(next, prev, items, 0);
        next := next[x := head];
        prev := prev[x := prev[head]];
        prev := prev[next[x] := x];
        next := next[prev[x] := x];
      } else {
        next := next[x := x];
        prev := prev[x := x];
      }
    }

    /** A new child goes to the head of its parent's ring. */
    method PushFront(x: nat)
      requires Valid() && x !in items
      modifies this
      ensures Valid() && items == [x] + old(items)
    {
      if items != [] {
        Inserted(next, prev, items, x);
      }
      Insert(x);
      items := [x] + items;
      head := x;
    }

    /** And to the tail of the queue. */
    method PushBack(x: nat)
      requires Valid() && x !in items
      modifies this
      ensures Valid() && items == old(items) + [x]
    {
      if items != [] {
        Inserted(next, prev, items, x);
      }
      Insert(x);
      RotatedLinks(next, prev, [x] + items);
      assert P.Rotate([x] + items) == items + [x];
      if head < 0 {
        head := x;
      }
      items := items + [x];
    }

    /** The first becomes the last. */
    method Advance()
      requires Valid() && items != []
      modifies this`head, this`items
      ensures Valid() && items == P.Rotate(old(items))
    {
      assert LinkedAt(next, prev, items, 0);
      RotatedLinks(next, prev, items);
      P.Rotated(items);
      head := next[head];
      items := P.Rotate(items);
    }

    method Remove(x: nat)
      requires Valid() && x in items
      modifies this
      ensures Valid() && items == P.Without(old(items), x)
    {
      ghost var i :| 0 <= i < |items| && items[i] == x;
      assert LinkedAt(next, prev, items, i);
      ghost var rest := Bypass(next, prev, items, i);
      var l, r := prev[x], next[x];
      next := next[l := r];
      prev := prev[r := l];
      if head == x {
        head := if r != x then r else -1;
      }
      items := rest;
    }
  }

  lemma Bypass(next: map<nat, nat>, prev: map<nat, nat>, s: seq<nat>, k: nat) returns (rest: seq<nat>)
    requires Circular(next, prev, s) && Distinct(s) && k < |s|
    ensures rest == P.Without(s, s[k]) == s[..k] + s[k + 1..] && Distinct(rest)
    ensures Circular(next[s[Pred(k, |s|)] := s[Succ(k, |s|)]], prev[s[Succ(k, |s|)] := s[Pred(k, |s|)]], rest)
  {
    WithoutAt(s, k);
    rest := s[..k] + s[k + 1..];
    if |s| > 1 {
      BypassedAt(next, prev, s, k);
    }
  }

  lemma {:induction false} WithoutAbsent(s: seq<nat>, x: nat)
    requires x !in s
    ensures P.Without(s, x) == s
  {
    if s != [] {
      WithoutAbsent(s[1..], x);
    }
  }

  lemma {:induction false} WithoutAt(s: seq<nat>, i: nat)
    requires i < |s| && forall i, j :: 0 <= i < j < |s| ==> s[i] != s[j]
    ensures P.Without(s, s[i]) == s[..i] + s[i + 1..]
  {
    if i == 0 {
      WithoutAbsent(s[1..], s[0]);
    } else {
      WithoutAt(s[1..], i - 1);
      assert s[..i] + s[i + 1..] == [s[0]] + (s[1..][..i - 1] + s[1..][i..]);
    }
  }
}
