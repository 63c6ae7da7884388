/** The ordered construct of dynamically scheduled loops: a queue of the threads
    that have been given a block of iterations, and one semaphore per thread. */
module OrderedProtocol {
  /** Where a thread is.  `Waiting`, `Granted` and `Synced` are the stages of
      gomp_ordered_sync, which takes no lock: it has read another owner, it has
      passed its semaphore, it has returned. */
  datatype At = Out | Busy | Waiting | Granted | Synced

  datatype Team = Team(
    queue: seq<nat>,       // threads with a block, in the order of their blocks
    owner: int,            // ordered_owner, -1 when nobody has passed its semaphore
    sem: seq<nat>,         // ordered_release
    at: seq<At>,
    block: seq<nat>,       // the number of the last block given to each thread
    handed: nat,           // blocks handed out so far
    retired: nat)          // blocks whose thread has given up its place

  ghost predicate Sized(s: Team) {
    |s.at| == |s.sem| == |s.block| && (forall i :: 0 <= i < |s.queue| ==> s.queue[i] < |s.sem|)
  }

  /** The next block is thread `t`'s. */
  function Hand(s: Team, t: nat): Team
    requires t < |s.block|
  {
    s.(block := s.block[t := s.handed], handed := s.handed + 1)
  }

  function Post(s: Team, t: nat): Team {
    if t < |s.sem| then s.(sem := s.sem[t := s.sem[t] + 1]) else s
  }

  function Rest(q: seq<nat>): seq<nat> {
    if q == [] then [] else q[1..]
  }

  // ----- the three operations under the work-share lock -----

  function First(s: Team, t: nat): Team {
    var s1 := s.(queue := s.queue + [t]);
    if s.queue == [] then Post(s1, t) else s1
  }

  function Last(s: Team, t: nat): Team {
    var s1 := s.(owner := -1, queue := Rest(s.queue));
    if s1.queue != [] then Post(s1, s1.queue[0]) else s1
  }

  function Next(s: Team, t: nat): Team {
    var s1 := s.(owner := -1, queue := Rest(s.queue) + [t]);
    Post(s1, s1.queue[0])
  }

  // ----- what a thread can do -----

  datatype Step =
    | Start(t: nat)        // gomp_loop_ordered_dynamic_start, a block is left
    | Read(t: nat)         // gomp_ordered_sync reads ordered_owner
    | Pass(t: nat)         // it passes gomp_sem_wait
    | Own(t: nat)          // it writes ordered_owner
    | Resume(t: nat)       // the thread goes on with its block
    | Continue(t: nat)     // gomp_loop_ordered_dynamic_next, a block is left
    | Finish(t: nat)       // gomp_loop_ordered_dynamic_next, no block is left

  predicate Enabled(s: Team, m: Step) {
    m.t < |s.at| && m.t < |s.sem| && m.t < |s.block| &&
    match m
    case Start(t) => s.at[t].Out?
    case Read(t) => s.at[t].Busy?
    case Pass(t) => s.at[t].Waiting? && s.sem[t] > 0
    case Own(t) => s.at[t].Granted?
    case Resume(t) => s.at[t].Synced?
    case Continue(t) => s.at[t].Synced?
    case Finish(t) => s.at[t].Synced?
  }

  function Moved(s: Team, t: nat, a: At): Team
    requires t < |s.at|
  {
    s.(at := s.at[t := a])
  }

  function Apply(s: Team, m: Step): Team
    requires Enabled(s, m)
  {
    match m
    case Start(t) => Moved(Hand(First(s, t), t), t, Busy)
    case Read(t) => Moved(s, t, if s.owner == t then Synced else Waiting)
    case Pass(t) => Moved(s.(sem := s.sem[t := s.sem[t] - 1]), t, Granted)
    case Own(t) => Moved(s.(owner := t), t, Synced)
    case Resume(t) => Moved(s, t, Busy)
    case Continue(t) => Moved(Hand(Next(s, t), t), t, Busy).(retired := s.retired + 1)
    case Finish(t) => Moved(Last(s, t), t, Out).(retired := s.retired + 1)
  }

  // ----- the invariant -----

  ghost predicate Queued(s: Team) {
    && Sized(s)
    && (forall i, j :: 0 <= i < j < |s.queue| ==> s.queue[i] != s.queue[j])
    && (forall x :: 0 <= x < |s.at| ==> (x in s.queue <==> !s.at[x].Out?))
    && (forall i :: 0 <= i < |s.queue| ==> s.block[s.queue[i]] == s.retired + i)
    && s.handed == s.retired + |s.queue|
  }

  /** The head of the queue holds the only permit: posted on its semaphore, just
      taken from it, or turned into ownership. */
  ghost predicate AtHead(s: Team)
    requires Sized(s) && s.queue != []
  {
    var h := s.queue[0];
    || (s.sem[h] == 1 && s.owner == -1 && (s.at[h].Busy? || s.at[h].Waiting?))
    || (s.sem[h] == 0 && s.owner == -1 && s.at[h].Granted?)
    || (s.sem[h] == 0 && s.owner == h && (s.at[h].Busy? || s.at[h].Synced?))
  }

  ghost predicate OneToken(s: Team)
    requires Sized(s)
  {
    && (s.queue == [] ==> s.owner == -1)
    && (s.queue != [] ==> AtHead(s))
    && (forall x :: 0 <= x < |s.sem| && !(s.queue != [] && x == s.queue[0]) ==>
          s.sem[x] == 0 && (s.at[x].Out? || s.at[x].Busy? || s.at[x].Waiting?))
  }

  ghost predicate Inv(s: Team) {
    Queued(s) && OneToken(s)
  }

  function Initial(n: nat): Team {
    Team([], -1, seq(n, i => 0), seq(n, i => Out), seq(n, i => 0), 0, 0)
  }

  lemma InitialInv(n: nat)
    ensures Inv(Initial(n))
  {
  }

  // ----- every step keeps it -----

  /** A thread that owns the section is the head. */
  lemma SyncedIsHead(s: Team, t: nat)
    requires Inv(s) && t < |s.at| && (s.at[t].Synced? || s.at[t].Granted?)
    ensures s.queue != [] && s.queue[0] == t
    ensures s.at[t].Synced? ==> s.owner == t
  {
  }

  lemma StartInv(s: Team, t: nat)
    requires Inv(s) && Enabled(s, Start(t))
    ensures Inv(Apply(s, Start(t)))
  {
    var r := Apply(s, Start(t));
    assert t !in s.queue;
    assert r.queue == s.queue + [t];
    forall i | 0 <= i < |r.queue| ensures r.block[r.queue[i]] == r.retired + i {
      assert i < |s.queue| ==> r.queue[i] == s.queue[i] && s.queue[i] in s.queue;
    }
  }

  lemma ContinueQueued(s: Team, t: nat)
    requires Queued(s) && Enabled(s, Continue(t)) && s.queue != [] && s.queue[0] == t
    ensures Queued(Apply(s, Continue(t)))
  {
    var r := Apply(s, Continue(t));
    var q := s.queue[1..];
    assert s.queue == [t] + q;
    assert r.queue == q + [t];
    assert forall x :: x in r.queue <==> x in s.queue;
    forall i | 0 <= i < |r.queue| ensures r.block[r.queue[i]] == r.retired + i {
      assert i < |q| ==> r.queue[i] == s.queue[i + 1];
    }
  }

  lemma ContinueInv(s: Team, t: nat)
    requires Inv(s) && Enabled(s, Continue(t))
    ensures Inv(Apply(s, Continue(t)))
  {
    SyncedIsHead(s, t);
    ContinueQueued(s, t);
    assert s.queue[0] == t && forall i :: 0 < i < |s.queue| ==> s.queue[i] in s.queue && s.queue[i] != t;
  }

  lemma FinishQueued(s: Team, t: nat)
    requires Queued(s) && Enabled(s, Finish(t)) && s.queue != [] && s.queue[0] == t
    ensures Queued(Apply(s, Finish(t)))
  {
    var r := Apply(s, Finish(t));
    assert s.queue == [t] + r.queue;
    assert forall x :: x in s.queue <==> x == t || x in r.queue;
    assert forall i :: 0 <= i < |r.queue| ==> r.queue[i] == s.queue[i + 1];
  }

  lemma FinishInv(s: Team, t: nat)
    requires Inv(s) && Enabled(s, Finish(t))
    ensures Inv(Apply(s, Finish(t)))
  {
    SyncedIsHead(s, t);
    FinishQueued(s, t);
    assert s.queue[0] == t && forall i :: 0 < i < |s.queue| ==> s.queue[i] in s.queue && s.queue[i] != t;
  }

  lemma SyncInv(s: Team, m: Step)
    requires Inv(s) && Enabled(s, m) && (m.Read? || m.Pass? || m.Own? || m.Resume?)
    ensures Inv(Apply(s, m))
  {
  }

  lemma StepInv(s: Team, m: Step)
    requires Inv(s) && Enabled(s, m)
    ensures Inv(Apply(s, m))
  {
    match m
    case Start(t) => StartInv(s, t);
    case Continue(t) => ContinueInv(s, t);
    case Finish(t) => FinishInv(s, t);
    case Read(t) => SyncInv(s, m);
    case Pass(t) => SyncInv(s, m);
    case Own(t) => SyncInv(s, m);
    case Resume(t) => SyncInv(s, m);
  }

  // ----- whole runs -----

  ghost predicate Run(n: nat, ms: seq<Step>, ss: seq<Team>) {
    && |ss| == |ms| + 1 && ss[0] == Initial(n)
    && (forall i :: 0 <= i < |ms| ==> Enabled(ss[i], ms[i]) && ss[i + 1] == Apply(ss[i], ms[i]))
  }

  lemma {:induction false} RunInv(n: nat, ms: seq<Step>, ss: seq<Team>, k: nat)
    requires Run(n, ms, ss) && k < |ss|
    ensures Inv(ss[k])
  {
    if k == 0 {
      InitialInv(n);
    } else {
      RunInv(n, ms, ss, k - 1);
      StepInv(ss[k - 1], ms[k - 1]);
    }
  }

  // ----- what follows in every run -----

  function Total(v: seq<nat>): nat {
    if v == [] then 0 else Total(v[..|v| - 1]) + v[|v| - 1]
  }

  /** Posted permits, permits just taken, and the owner. */
  function Permits(s: Team): nat {
    Total(s.sem) + Total(seq(|s.at|, i requires 0 <= i < |s.at| => if s.at[i].Granted? then 1 else 0))
    + if s.owner == -1 then 0 else 1
  }

  lemma {:induction false} TotalZero(v: seq<nat>)
    requires forall i :: 0 <= i < |v| ==> v[i] == 0
    ensures Total(v) == 0
  {
    if v != [] {
      TotalZero(v[..|v| - 1]);
    }
  }

  lemma {:induction false} TotalOne(v: seq<nat>, h: nat)
    requires h < |v| && forall i :: 0 <= i < |v| && i != h ==> v[i] == 0
    ensures Total(v) == v[h]
  {
    if h == |v| - 1 {
      TotalZero(v[..h]);
    } else {
      TotalOne(v[..|v| - 1], h);
    }
  }

  /** There is one permit exactly while some thread has a block. */
  lemma OnePermit(n: nat, ms: seq<Step>, ss: seq<Team>, k: nat)
    requires Run(n, ms, ss) && k < |ss|
    ensures Permits(ss[k]) == if ss[k].queue == [] then 0 else 1
  {
    RunInv(n, ms, ss, k);
    var s := ss[k];
    var granted := seq(|s.at|, i requires 0 <= i < |s.at| => if s.at[i].Granted? then 1 else 0);
    if s.queue == [] {
      TotalZero(s.sem);
      TotalZero(granted);
    } else {
      TotalOne(s.sem, s.queue[0]);
      TotalOne(granted, s.queue[0]);
    }
  }

  /** At most one thread is in its ordered section, and then every block handed
      out before its own has been given up. */
  lemma OneSection(n: nat, ms: seq<Step>, ss: seq<Team>, k: nat, x: nat, y: nat)
    requires Run(n, ms, ss) && k < |ss|
    requires x < |ss[k].at| && ss[k].at[x].Synced?
    ensures y < |ss[k].at| && ss[k].at[y].Synced? ==> x == y
    ensures x < |ss[k].block| && ss[k].block[x] == ss[k].retired < ss[k].handed
  {
    RunInv(n, ms, ss, k);
    SyncedIsHead(ss[k], x);
    assert ss[k].block[ss[k].queue[0]] == ss[k].retired + 0;
  }

  lemma {:induction false} RetiredGrows(n: nat, ms: seq<Step>, ss: seq<Team>, i: nat, j: nat)
    requires Run(n, ms, ss) && i <= j < |ss|
    ensures ss[i].retired <= ss[j].retired
  {
    if i < j {
      RetiredGrows(n, ms, ss, i, j - 1);
      assert ss[j] == Apply(ss[j - 1], ms[j - 1]);
    }
  }

  /** Sections are entered in the order in which the blocks were handed out. */
  lemma SectionsInOrder(n: nat, ms: seq<Step>, ss: seq<Team>, i: nat, j: nat, x: nat, y: nat)
    requires Run(n, ms, ss) && i <= j < |ss|
    requires x < |ss[i].at| && ss[i].at[x].Synced? && y < |ss[j].at| && ss[j].at[y].Synced?
    ensures x < |ss[i].block| && y < |ss[j].block| && ss[i].block[x] <= ss[j].block[y]
  {
    OneSection(n, ms, ss, i, x, x);
    OneSection(n, ms, ss, j, y, y);
    RetiredGrows(n, ms, ss, i, j);
  }

  /** Why gomp_ordered_sync may read ordered_owner without the lock: whether it
      finds its own thread there cannot be changed by any other thread. */
  lemma OwnerIsMine(s: Team, m: Step, t: nat)
    requires Inv(s) && Enabled(s, m) && m.t != t
    ensures Apply(s, m).owner == t <==> s.owner == t
  {
    if m.Continue? || m.Finish? {
      SyncedIsHead(s, m.t);
    }
  }

  /** A thread that found another owner has not been overtaken: it is still in the
      queue, it does not own the section, and it blocks only behind another thread. */
  lemma BlocksBehindAnother(n: nat, ms: seq<Step>, ss: seq<Team>, k: nat, t: nat)
    requires Run(n, ms, ss) && k < |ss| && t < |ss[k].at| && ss[k].at[t].Waiting?
    ensures t in ss[k].queue && ss[k].owner != t
    ensures Enabled(ss[k], Pass(t)) <==> ss[k].queue[0] == t
  {
    RunInv(n, ms, ss, k);
  }

  /** No deadlock: the head of the queue can always move. */
  lemma HeadCanMove(n: nat, ms: seq<Step>, ss: seq<Team>, k: nat)
    requires Run(n, ms, ss) && k < |ss| && ss[k].queue != []
    ensures var h := ss[k].queue[0];
            Enabled(ss[k], Read(h)) || Enabled(ss[k], Pass(h)) || Enabled(ss[k], Own(h)) || Enabled(ss[k], Finish(h))
  {
    RunInv(n, ms, ss, k);
  }

  /** What each thread can do: nothing stops one but waiting for its turn. */
  lemma CanMove(n: nat, ms: seq<Step>, ss: seq<Team>, k: nat, t: nat)
    requires Run(n, ms, ss) && k < |ss| && t < n
    ensures |ss[k].at| == n
    ensures match ss[k].at[t]
            case Out => Enabled(ss[k], Start(t))
            case Busy => Enabled(ss[k], Read(t))
            case Waiting => Enabled(ss[k], Pass(t)) <==> ss[k].queue != [] && ss[k].queue[0] == t
            case Granted => Enabled(ss[k], Own(t))
            case Synced => Enabled(ss[k], Resume(t)) && Enabled(ss[k], Continue(t)) && Enabled(ss[k], Finish(t))
  {
    RunInv(n, ms, ss, k);
    TeamSize(n, ms, ss, k);
  }

  lemma {:induction false} TeamSize(n: nat, ms: seq<Step>, ss: seq<Team>, k: nat)
    requires Run(n, ms, ss) && k < |ss|
    ensures |ss[k].at| == n
  {
    if k > 0 {
      TeamSize(n, ms, ss, k - 1);
      assert ss[k] == Apply(ss[k - 1], ms[k - 1]);
    }
  }

  /** How many steps a thread is from its section. */
  function Away(a: At): nat {
    match a
    case Busy => 3
    case Waiting => 2
    case Granted => 1
    case _ => 0
  }

  /** What brings a thread nearer to it. */
  function Onward(a: At, t: nat): Step {
    match a
    case Waiting => Pass(t)
    case Granted => Own(t)
    case _ => Read(t)
  }

  lemma OnwardNearer(s: Team)
    requires Inv(s) && s.queue != [] && s.queue[0] < |s.at| && !s.at[s.queue[0]].Synced?
    ensures var h := s.queue[0];
            var m := Onward(s.at[h], h);
            && Enabled(s, m) && m.t == h && Inv(Apply(s, m)) && Apply(s, m).queue == s.queue
            && |Apply(s, m).at| == |s.at| && Away(Apply(s, m).at[h]) < Away(s.at[h]) && !Apply(s, m).at[h].Out?
  {
    assert s.queue[0] in s.queue;
    SyncInv(s, Onward(s.at[s.queue[0]], s.queue[0]));
  }

  /** The head enters its section with at most three steps of its own. */
  lemma {:induction false} HeadEnters(s: Team) returns (ms: seq<Step>, ss: seq<Team>)
    requires Inv(s) && s.queue != []
    ensures s.queue[0] < |s.at| && |ms| <= Away(s.at[s.queue[0]]) <= 3 && |ss| == |ms| + 1 && ss[0] == s
    ensures forall i :: 0 <= i < |ms| ==>
              ms[i].t == s.queue[0] && Enabled(ss[i], ms[i]) && ss[i + 1] == Apply(ss[i], ms[i])
    ensures var r := ss[|ms|]; r.queue == s.queue && s.queue[0] < |r.at| && r.at[s.queue[0]].Synced?
    decreases if s.queue[0] < |s.at| then Away(s.at[s.queue[0]]) else 0
  {
    hide Queued, OneToken, Apply, Enabled;
    var h := s.queue[0];
    HeadThere(s);
    if s.at[h].Synced? {
      ms, ss := [], [s];
    } else {
      OnwardNearer(s);
      var m := Onward(s.at[h], h);
      var ms1, ss1 := HeadEnters(Apply(s, m));
      ms, ss := [m] + ms1, [s] + ss1;
      forall i | 0 <= i < |ms| ensures ms[i].t == h && Enabled(ss[i], ms[i]) && ss[i + 1] == Apply(ss[i], ms[i]) {
        if i > 0 {
          assert ms[i] == ms1[i - 1] && ss[i] == ss1[i - 1] && ss[i + 1] == ss1[i];
        }
      }
    }
  }

  lemma HeadThere(s: Team)
    requires Inv(s) && s.queue != []
    ensures s.queue[0] < |s.at| && !s.at[s.queue[0]].Out?
  {
  }

  function Hands(ms: seq<Step>): nat {
    if ms == [] then 0
    else Hands(ms[..|ms| - 1]) + if ms[|ms| - 1].Start? || ms[|ms| - 1].Continue? then 1 else 0
  }

  function Retires(ms: seq<Step>): nat {
    if ms == [] then 0
    else Retires(ms[..|ms| - 1]) + if ms[|ms| - 1].Finish? || ms[|ms| - 1].Continue? then 1 else 0
  }

  /** Every start and continuation hands out one block, the next; every continuation and
      end retires one.  So the threads in the queue hold the blocks in between, in
      order. */
  lemma {:induction false} Accounts(n: nat, ms: seq<Step>, ss: seq<Team>, k: nat)
    requires Run(n, ms, ss) && k < |ss|
    ensures ss[k].handed == Hands(ms[..k]) && ss[k].retired == Retires(ms[..k])
    ensures Sized(ss[k]) && |ss[k].queue| == Hands(ms[..k]) - Retires(ms[..k])
    ensures forall i :: 0 <= i < |ss[k].queue| ==> ss[k].block[ss[k].queue[i]] == Retires(ms[..k]) + i
    ensures k > 0 && (ms[k - 1].Start? || ms[k - 1].Continue?) ==>
              ss[k].queue != [] && ss[k].queue[|ss[k].queue| - 1] == ms[k - 1].t
  {
    RunInv(n, ms, ss, k);
    if k > 0 {
      Accounts(n, ms, ss, k - 1);
      assert ss[k] == Apply(ss[k - 1], ms[k - 1]);
      assert ms[..k][..k - 1] == ms[..k - 1];
    }
  }

  /** gomp_ordered_sync returns at once exactly if the thread has had its turn before, in
      the same block. */
  lemma SyncAtOnce(n: nat, ms: seq<Step>, ss: seq<Team>, k: nat, t: nat)
    requires Run(n, ms, ss) && k < |ms| && ms[k] == Read(t)
    ensures t < |ss[k + 1].at| && t < |ss[k].sem|
    ensures ss[k + 1].at[t].Synced? <==> ss[k].queue != [] && ss[k].queue[0] == t && ss[k].sem[t] == 0
  {
    RunInv(n, ms, ss, k);
    assert ss[k + 1] == Apply(ss[k], ms[k]);
    assert t in ss[k].queue;
  }
}

/** libgomp/ordered.c keeps the queue in a circular array. */
module OrderedQueue {
  import P = OrderedProtocol

  function Wrap(i: nat, n: nat): nat {
    if i >= n then i - n else i
  }

  ghost function Ring(a: seq<nat>, cur: nat, used: nat): (q: seq<nat>)
    requires cur < |a| && used <= |a|
  {
    seq(used, i requires 0 <= i < used => a[Wrap(cur + i, |a|)])
  }

  lemma RingAppend(a: seq<nat>, cur: nat, used: nat, t: nat)
    requires cur < |a| && used < |a|
    ensures Ring(a[Wrap(cur + used, |a|) := t], cur, used + 1) == Ring(a, cur, used) + [t]
  {
    var q := Ring(a[Wrap(cur + used, |a|) := t], cur, used + 1);
    forall i | 0 <= i < used ensures q[i] == Ring(a, cur, used)[i] {
      assert Wrap(cur + i, |a|) != Wrap(cur + used, |a|);
    }
  }

  lemma RingDrop(a: seq<nat>, cur: nat, used: nat)
    requires cur < |a| && 0 < used <= |a|
    ensures Ring(a, Wrap(cur + 1, |a|), used - 1) == Ring(a, cur, used)[1..]
  {
    var q := Ring(a, Wrap(cur + 1, |a|), used - 1);
    forall i | 0 <= i < used - 1 ensures q[i] == Ring(a, cur, used)[i + 1] {
      assert Wrap(Wrap(cur + 1, |a|) + i, |a|) == Wrap(cur + (i + 1), |a|);
    }
  }

  /** When every place is taken the head's own entry is already behind the last. */
  lemma RingRotate(a: seq<nat>, cur: nat, used: nat, t: nat)
    requires cur < |a| && 0 < used <= |a| && a[cur] == t
    ensures var b := if used < |a| then a[Wrap(cur + used, |a|) := t] else a;
            Ring(b, Wrap(cur + 1, |a|), used) == Ring(a, cur, used)[1..] + [t]
  {
    var b := if used < |a| then a[Wrap(cur + used, |a|) := t] else a;
    var q := Ring(b, Wrap(cur + 1, |a|), used);
    forall i | 0 <= i < used ensures q[i] == (Ring(a, cur, used)[1..] + [t])[i] {
      assert Wrap(Wrap(cur + 1, |a|) + i, |a|) == Wrap(cur + 1 + i, |a|) || cur + 1 + i == 2 * |a|;
    }
  }

  class WorkShare {
    const nthreads: nat
    var ids: array<nat>          // ordered_team_ids
    var cur: nat                 // ordered_cur
    var used: nat                // ordered_num_used
    var owner: int               // ordered_owner
    var release: array<nat>      // ordered_release, of the team

    ghost predicate Valid()
      reads this
    {
      && ids.Length == nthreads > 0 && release.Length == nthreads && ids != release
      && cur < nthreads && used <= nthreads
    }

    ghost predicate Represents(s: P.Team)
      requires Valid()
      reads this, ids, release
    {
      s.queue == Ring(ids[..], cur, used) && s.owner == owner && s.sem == release[..]
    }

    constructor (n: nat)
      requires n > 0
      ensures Valid() && nthreads == n && fresh(ids) && fresh(release) && Represents(P.Initial(n))
    {
      nthreads := n;
      ids := new nat[n](i => 0);
      release := new nat[n](i => 0);
      cur, used, owner := 0, 0, -1;
      new;
      assert release[..] == seq(n, i => 0);
    }

    method Post(t: nat, ghost s: P.Team)
      requires Valid() && Represents(s)
      modifies release
      ensures Valid() && Represents(P.Post(s, t))
    {
      if t < nthreads {
        release[t] := release[t] + 1;
      }
    }

    /** gomp_ordered_first. */
    method First(t: nat, ghost s: P.Team)
      requires Valid() && Represents(s) && used < nthreads
      modifies this`used, ids, release
      ensures Valid() && Represents(if nthreads == 1 then s else P.First(s, t))
    {
      if nthreads == 1 {
        return;
      }
      var index := cur + used;
      if index >= nthreads {
        index := index - nthreads;
      }
      RingAppend(ids[..], cur, used, t);
      ids[index] := t;
      used := used + 1;
      if used == 1 {
        Post(t, s.(queue := s.queue + [t]));
      }
    }

    /** gomp_ordered_last. */
    method Last(t: nat, ghost s: P.Team)
      requires Valid() && Represents(s) && used > 0
      modifies this`cur, this`used, this`owner, release
      ensures Valid() && Represents(if nthreads == 1 then s else P.Last(s, t))
    {
      if nthreads == 1 {
        return;
      }
      owner := -1;
      RingDrop(ids[..], cur, used);
      used := used - 1;
      if used > 0 {
        var next := cur + 1;
        if next == nthreads {
          next := 0;
        }
        cur := next;
        Post(ids[next], s.(owner := -1, queue := P.Rest(s.queue)));
      }
    }

    /** gomp_ordered_next. */
    method Next(t: nat, ghost s: P.Team)
      requires Valid() && Represents(s) && used > 0 && s.queue[0] == t
      modifies this`cur, this`owner, ids, release
      ensures Valid() && Represents(if nthreads == 1 then s else P.Next(s, t))
    {
      if nthreads == 1 {
        return;
      }
      owner := -1;
      if used == 1 {
        assert Ring(ids[..], cur, used) == P.Rest(s.queue) + [t];
        Post(t, s.(owner := -1, queue := P.Rest(s.queue) + [t]));
        return;
      }
      assert s.queue[0] == ids[..][Wrap(cur + 0, nthreads)];
      RingRotate(ids[..], cur, used, t);
      if used < nthreads {
        var index := cur + used;
        if index >= nthreads {
          index := index - nthreads;
        }
        ids[index] := t;
      }
      var index := cur + 1;
      if index == nthreads {
        index := 0;
      }
      cur := index;
      Post(ids[index], s.(owner := -1, queue := P.Rest(s.queue) + [t]));
    }
  }
}
