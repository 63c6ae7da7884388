/** The work shares of a team, numbered by their address: who uses them, and the two
    lists of those that nobody uses.  One thread at a time allocates, since it holds
    the lock of the last work share; any number of threads may be freeing.  What the
    source does with one atomic access is one step. */
module WorkShares {
  const NULL := -1

  /** `Choosing`, `Cutting` and `Taking` are the stages of alloc_work_share when the
      allocation list is empty; `Reading`, `Linking` and `Swapping` those of
      free_work_share. */
  datatype Stage =
    | Idle
    | Working
    | Choosing(ws: int)
    | Cutting(ws: int, next: int)
    | Taking(next: int)
    | Reading(ws: int)
    | Linking(ws: int, seen: int)
    | Swapping(ws: int, seen: int)

  /** A thread whose current work share is that of construct `k`. */
  datatype Thread = Thread(k: nat, stage: Stage)

  datatype Team = Team(
    next: seq<int>,          // next_free
    completed: seq<nat>,     // threads_completed
    alloc: int,
    free: int,
    chunk: nat,
    cons: seq<int>,          // the work share of each construct
    th: seq<Thread>)

  predicate Allocates(st: Stage) {
    st.Choosing? || st.Cutting? || st.Taking?
  }

  predicate Frees(st: Stage) {
    st.Reading? || st.Linking? || st.Swapping?
  }

  /** gomp_new_team: eight work shares, the first of them in use. */
  function Initial(n: nat): Team {
    Team(seq(8, i => if 1 <= i < 7 then i + 1 else NULL), seq(8, i => 0), 1, NULL, 8, [0], seq(n, i => Thread(0, Idle)))
  }

  /** Thread `t` can move, unless another one holds the lock it needs. */
  predicate Enabled(s: Team, t: nat) {
    && t < |s.th|
    && (s.th[t].stage.Idle? && s.th[t].k + 1 == |s.cons| ==> forall u :: 0 <= u < |s.th| ==> !Allocates(s.th[u].stage))
  }

  function Goes(s: Team, t: nat, st: Stage): Team
    requires t < |s.th|
  {
    s.(th := s.th[t := s.th[t].(stage := st)])
  }

  /** The allocated `w` is initialised and becomes the work share of the next construct. */
  function Opened(s: Team, t: nat, w: int): Team
    requires t < |s.th| && 0 <= w < |s.completed|
  {
    s.(completed := s.completed[w := 0], cons := s.cons + [w], th := s.th[t := Thread(s.th[t].k + 1, Working)])
  }

  /** Twice as many new ones as last time; all but the first go on the list. */
  function Grown(s: Team): Team
    requires s.chunk > 0
  {
    var b, c := |s.next|, 2 * s.chunk;
    s.(chunk := c, alloc := b + 1, completed := s.completed + seq(c, i => 0),
       next := s.next + seq(c, i => if 1 <= i < c - 1 then b + i + 1 else NULL))
  }

  /** gomp_work_share_start. */
  function Start(s: Team, t: nat): Team
    requires Sound(s) && t < |s.th|
  {
    if s.th[t].k + 1 < |s.cons| then s.(th := s.th[t := Thread(s.th[t].k + 1, Working)])
    else if s.alloc != NULL then Opened(s.(alloc := s.next[s.alloc]), t, s.alloc)
    else Goes(s, t, Choosing(s.free))
  }

  /** gomp_work_share_end_nowait: the last one frees the previous work share. */
  function End(s: Team, t: nat): Team
    requires Sound(s) && t < |s.th| && s.th[t].stage.Working?
  {
    var w := s.cons[s.th[t].k];
    var c := s.completed[w] + 1;
    var r := s.(completed := s.completed[w := c]);
    Goes(r, t, if c == |s.th| then Reading(s.cons[s.th[t].k - 1]) else Idle)
  }

  /** What a step needs so as not to go astray. */
  ghost predicate Sound(s: Team) {
    && |s.completed| == |s.next| && s.chunk > 0 && |s.cons| > 0
    && (s.alloc == NULL || 0 <= s.alloc < |s.next|)
    && (forall i :: 0 <= i < |s.cons| ==> 0 <= s.cons[i] < |s.next|)
    && (forall t :: 0 <= t < |s.th| ==> SoundThread(s, s.th[t]))
  }

  ghost predicate SoundThread(s: Team, x: Thread) {
    && x.k < |s.cons| && (x.stage.Working? ==> x.k > 0)
    && (x.stage.Choosing? ==> x.stage.ws == NULL || 0 <= x.stage.ws < |s.next|)
    && (x.stage.Cutting? ==> 0 <= x.stage.ws < |s.next|)
    && (x.stage.Taking? ==> 0 <= x.stage.next < |s.next|)
    && (Frees(x.stage) ==> 0 <= x.stage.ws < |s.next|)
  }

  function Step(s: Team, t: nat): Team
    requires Sound(s) && t < |s.th|
  {
    assert SoundThread(s, s.th[t]);
    match s.th[t].stage
    case Idle => Start(s, t)
    case Working => End(s, t)
    case Choosing(w) =>
      if w != NULL && s.next[w] != NULL then Goes(s, t, Cutting(w, s.next[w]))
      else Opened(Grown(s), t, |s.next|)
    case Cutting(w, n) => Goes(s.(next := s.next[w := NULL]), t, Taking(n))
    case Taking(n) => Opened(s.(alloc := s.next[n]), t, n)
    case Reading(w) => Goes(s, t, Linking(w, s.free))
    case Linking(w, seen) => Goes(s.(next := s.next[w := seen]), t, Swapping(w, seen))
    case Swapping(w, seen) =>
      if s.free == seen then Goes(s.(free := w), t, Idle) else Goes(s, t, Reading(w))
  }

  // ----- lists -----

  ghost predicate Distinct(l: seq<int>) {
    forall i, j :: 0 <= i < j < |l| ==> l[i] != l[j]
  }

  ghost predicate LinkAt(next: seq<int>, l: seq<int>, i: int)
    requires 0 <= i < |l|
  {
    0 <= l[i] < |next| && next[l[i]] == if i + 1 < |l| then l[i + 1] else NULL
  }

  ghost predicate IsList(next: seq<int>, head: int, l: seq<int>) {
    && Distinct(l) && head == (if l == [] then NULL else l[0])
    && forall i :: 0 <= i < |l| ==> LinkAt(next, l, i)
  }

  lemma ListFrame(next: seq<int>, next2: seq<int>, head: int, l: seq<int>)
    requires IsList(next, head, l) && |next| <= |next2|
    requires forall w :: w in l && 0 <= w < |next| ==> next2[w] == next[w]
    ensures IsList(next2, head, l)
  {
    forall i | 0 <= i < |l| ensures LinkAt(next2, l, i) {
      assert LinkAt(next, l, i) && l[i] in l;
    }
  }

  lemma ListPush(next: seq<int>, head: int, l: seq<int>, w: int)
    requires IsList(next, head, l) && 0 <= w < |next| && next[w] == head && w !in l
    ensures IsList(next, w, [w] + l) && forall x :: x in [w] + l <==> x == w || x in l
  {
    var l2 := [w] + l;
    forall i | 0 <= i < |l2| ensures LinkAt(next, l2, i) {
      assert i > 0 ==> LinkAt(next, l, i - 1);
    }
    assert forall i :: 0 < i < |l2| ==> l2[i] == l[i - 1] && l[i - 1] in l;
  }

  lemma ListPop(next: seq<int>, head: int, l: seq<int>)
    requires IsList(next, head, l) && l != []
    ensures 0 <= l[0] < |next| && IsList(next, next[l[0]], l[1..]) && l[0] !in l[1..]
    ensures forall x :: x in l[1..] <==> x in l && x != l[0]
  {
    assert LinkAt(next, l, 0);
    var l2 := l[1..];
    forall i | 0 <= i < |l2| ensures LinkAt(next, l2, i) {
      assert LinkAt(next, l, i + 1);
    }
    assert l == [l[0]] + l2;
  }

  lemma ListCut(next: seq<int>, head: int, a: seq<int>, b: seq<int>)
    requires IsList(next, head, a + b) && a != [] && b != []
    ensures var w := a[|a| - 1];
            && 0 <= w < |next| && next[w] == b[0]
            && IsList(next[w := NULL], head, a) && IsList(next[w := NULL], b[0], b)
    ensures forall x :: x in b ==> x !in a
  {
    var l, p := a + b, |a| - 1;
    assert LinkAt(next, l, p) && l[p] == a[p] && l[p + 1] == b[0];
    var next2 := next[a[p] := NULL];
    forall i | 0 <= i < |a| ensures LinkAt(next2, a, i) {
      assert LinkAt(next, l, i) && l[i] == a[i];
    }
    forall i | 0 <= i < |b| ensures LinkAt(next2, b, i) && b[i] !in a {
      assert LinkAt(next, l, |a| + i) && l[|a| + i] == b[i];
      assert forall k :: 0 <= k < |a| ==> a[k] == l[k];
    }
    assert forall i :: 0 <= i < |a| ==> a[i] == l[i];
    assert forall i :: 0 <= i < |b| ==> b[i] == l[|a| + i];
  }

  // ----- where every work share is -----

  /** `Live(i)` is the work share of construct `i`; `Freed(t)` one that thread `t` is
      freeing. */
  datatype Place = OnAlloc | OnFree | OnCut | Freed(t: int) | Live(i: int)

  /** The lists read off the links: those for allocation, the free ones, and those
      the allocating thread has cut off the free list; and the place of each. */
  datatype View = View(alloc: seq<int>, free: seq<int>, cut: seq<int>, place: seq<Place>)

  /** Has the thread completed construct `j`? */
  predicate Past(x: Thread, j: int) {
    x.k > j || (x.k == j && !x.stage.Working?)
  }

  function Count(th: seq<Thread>, j: int): (c: nat)
    ensures c <= |th|
  {
    if th == [] then 0 else Count(th[1..], j) + if Past(th[0], j) then 1 else 0
  }

  ghost predicate AllPast(th: seq<Thread>, j: int) {
    forall t :: 0 <= t < |th| ==> Past(th[t], j)
  }

  /** The work share of construct `i` has been, or is being, freed. */
  ghost predicate Retired(s: Team, i: int) {
    i + 1 < |s.cons| && AllPast(s.th, i + 1)
  }

  ghost predicate ListsOk(s: Team, v: View) {
    && IsList(s.next, s.alloc, v.alloc) && IsList(s.next, s.free, v.free)
    && (v.cut != [] ==> IsList(s.next, v.cut[0], v.cut))
  }

  ghost predicate PlaceOk(s: Team, v: View, w: int)
    requires 0 <= w < |v.place|
  {
    && (v.place[w].OnAlloc? <==> w in v.alloc)
    && (v.place[w].OnFree? <==> w in v.free)
    && (v.place[w].OnCut? <==> w in v.cut)
    && (v.place[w].Freed? ==>
          0 <= v.place[w].t < |s.th| && Frees(s.th[v.place[w].t].stage) && s.th[v.place[w].t].stage.ws == w)
    && (v.place[w].Live? ==> 0 <= v.place[w].i < |s.cons| && s.cons[v.place[w].i] == w && !Retired(s, v.place[w].i))
  }

  ghost predicate ConOk(s: Team, v: View, i: int)
    requires 0 <= i < |s.cons| && 0 <= s.cons[i] < |v.place| && |s.completed| == |v.place|
  {
    !Retired(s, i) ==> v.place[s.cons[i]] == Live(i) && (i > 0 ==> s.completed[s.cons[i]] == Count(s.th, i))
  }

  ghost predicate Alone(s: Team, t: int) {
    forall u :: 0 <= u < |s.th| && Allocates(s.th[u].stage) ==> u == t
  }

  ghost predicate HasNext(s: Team, w: int, n: int) {
    0 <= w < |s.next| && s.next[w] == n
  }

  ghost predicate ThreadOk(s: Team, v: View, t: int)
    requires 0 <= t < |s.th|
  {
    var x := s.th[t];
    && (Allocates(x.stage) ==> x.k + 1 == |s.cons| && v.alloc == [] && Alone(s, t))
    && (x.stage.Choosing? ==> x.stage.ws == NULL || x.stage.ws in v.free)
    && (x.stage.Cutting? ==> x.stage.ws in v.free && HasNext(s, x.stage.ws, x.stage.next) && x.stage.next != NULL)
    && (x.stage.Taking? <==> v.cut != [] && Allocates(x.stage))
    && (x.stage.Taking? ==> v.cut[0] == x.stage.next)
    && (Frees(x.stage) ==> 0 <= x.stage.ws < |v.place| && v.place[x.stage.ws] == Freed(t))
    && (x.stage.Swapping? ==> HasNext(s, x.stage.ws, x.stage.seen))
  }

  ghost predicate Inv(s: Team, v: View) {
    && Sound(s) && |s.th| > 0 && |v.place| == |s.next| && ListsOk(s, v)
    && (v.cut != [] ==> exists t :: 0 <= t < |s.th| && s.th[t].stage.Taking?)
    && (forall w :: 0 <= w < |v.place| ==> PlaceOk(s, v, w))
    && (forall i :: 0 <= i < |s.cons| ==> ConOk(s, v, i))
    && (forall t :: 0 <= t < |s.th| ==> ThreadOk(s, v, t))
  }

  // ----- counting -----

  lemma {:induction false} CountUpdate(th: seq<Thread>, t: nat, y: Thread, j: int)
    requires t < |th|
    ensures Count(th[t := y], j) == Count(th, j) - (if Past(th[t], j) then 1 else 0) + if Past(y, j) then 1 else 0
  {
    if t > 0 {
      CountUpdate(th[1..], t - 1, y, j);
      assert th[t := y][1..] == th[1..][t - 1 := y];
    } else {
      assert th[t := y][1..] == th[1..];
    }
  }

  lemma {:induction false} CountAll(th: seq<Thread>, j: int)
    ensures Count(th, j) == |th| <==> AllPast(th, j)
  {
    if th != [] {
      CountAll(th[1..], j);
      assert th == [th[0]] + th[1..];
    }
  }

  lemma {:induction false} CountNone(th: seq<Thread>, j: int)
    requires forall t :: 0 <= t < |th| ==> !Past(th[t], j)
    ensures Count(th, j) == 0
  {
    if th != [] {
      CountNone(th[1..], j);
    }
  }

  ghost predicate SamePast(x: Thread, y: Thread) {
    forall j :: Past(y, j) == Past(x, j)
  }

  lemma CountSame(th: seq<Thread>, t: nat, y: Thread, j: int)
    requires t < |th| && SamePast(th[t], y)
    ensures Count(th[t := y], j) == Count(th, j) && (AllPast(th[t := y], j) <==> AllPast(th, j))
  {
    CountUpdate(th, t, y, j);
    CountAll(th, j);
    CountAll(th[t := y], j);
  }

  // ----- the steps -----

  /** Thread `t` moves on, and nothing else changes but links that no list uses. */
  ghost predicate Quiet(s: Team, v: View, t: nat, r: Team) {
    && t < |s.th| == |r.th| && |r.next| == |s.next| && r == s.(th := s.th[t := r.th[t]], next := r.next)
    && SamePast(s.th[t], r.th[t])
    && (forall w :: 0 <= w < |s.next| && r.next[w] != s.next[w] ==> w < |v.place| && v.place[w] == Freed(t))
    && (Frees(r.th[t].stage) <==> Frees(s.th[t].stage))
    && (Frees(s.th[t].stage) ==> r.th[t].stage.ws == s.th[t].stage.ws)
    && !s.th[t].stage.Taking? && !r.th[t].stage.Taking?
    && (Allocates(r.th[t].stage) ==> forall u :: 0 <= u < |s.th| && u != t ==> !Allocates(s.th[u].stage))
  }

  lemma QuietCons(s: Team, v: View, t: nat, r: Team)
    requires Inv(s, v) && Quiet(s, v, t, r)
    ensures forall i :: Retired(r, i) == Retired(s, i)
    ensures forall i :: 0 <= i < |r.cons| ==> ConOk(r, v, i)
  {
    forall i ensures Retired(r, i) == Retired(s, i) && Count(r.th, i) == Count(s.th, i) {
      CountSame(s.th, t, r.th[t], i);
      CountSame(s.th, t, r.th[t], i + 1);
    }
    forall i | 0 <= i < |r.cons| ensures ConOk(r, v, i) {
      assert ConOk(s, v, i);
    }
  }

  lemma QuietLists(s: Team, v: View, t: nat, r: Team)
    requires Inv(s, v) && Quiet(s, v, t, r)
    ensures ListsOk(r, v)
  {
    forall w | (w in v.alloc || w in v.free || w in v.cut) && 0 <= w < |s.next| ensures r.next[w] == s.next[w] {
      assert PlaceOk(s, v, w);
    }
    ListFrame(s.next, r.next, s.alloc, v.alloc);
    ListFrame(s.next, r.next, s.free, v.free);
    if v.cut != [] {
      ListFrame(s.next, r.next, v.cut[0], v.cut);
    }
  }

  lemma QuietThread(s: Team, v: View, t: nat, r: Team, u: nat)
    requires Inv(s, v) && Quiet(s, v, t, r) && u < |s.th| && u != t
    ensures ThreadOk(r, v, u)
  {
    hide Sound, SamePast;
    assert ThreadOk(s, v, u) && ThreadOk(s, v, t) && r.th[u] == s.th[u];
    var st := s.th[u].stage;
    if st.Cutting? {
      assert PlaceOk(s, v, st.ws);
    }
  }

  lemma QuietInv(s: Team, v: View, t: nat, r: Team)
    requires Inv(s, v) && Quiet(s, v, t, r) && SoundThread(r, r.th[t]) && ThreadOk(r, v, t)
    ensures Inv(r, v)
  {
    QuietCons(s, v, t, r);
    QuietLists(s, v, t, r);
    forall u | 0 <= u < |r.th| ensures ThreadOk(r, v, u) && SoundThread(r, r.th[u]) {
      if u != t {
        QuietThread(s, v, t, r, u);
        assert SoundThread(s, s.th[u]);
      }
    }
    forall w | 0 <= w < |v.place| ensures PlaceOk(r, v, w) {
      assert PlaceOk(s, v, w);
    }
    if v.cut != [] {
      var u :| 0 <= u < |s.th| && s.th[u].stage.Taking?;
      assert r.th[u].stage.Taking?;
    }
  }

  lemma EnterInv(s: Team, v: View, t: nat)
    requires Inv(s, v) && Enabled(s, t) && s.th[t].stage.Idle? && (s.th[t].k + 1 < |s.cons| || s.alloc == NULL)
    ensures Inv(Step(s, t), v)
  {
    assert ThreadOk(s, v, t);
    assert v.alloc != [] ==> LinkAt(s.next, v.alloc, 0);
    assert v.free != [] ==> LinkAt(s.next, v.free, 0) && v.free[0] in v.free;
    QuietInv(s, v, t, Step(s, t));
  }

  lemma LookInv(s: Team, v: View, t: nat)
    requires Inv(s, v) && t < |s.th| && s.th[t].stage.Choosing?
    requires s.th[t].stage.ws != NULL && s.next[s.th[t].stage.ws] != NULL
    ensures Inv(Step(s, t), v)
  {
    assert ThreadOk(s, v, t);
    QuietInv(s, v, t, Step(s, t));
  }

  lemma PushInv(s: Team, v: View, t: nat)
    requires Inv(s, v) && t < |s.th| && Frees(s.th[t].stage)
    requires s.th[t].stage.Swapping? ==> s.free != s.th[t].stage.seen
    ensures Inv(Step(s, t), v)
  {
    assert ThreadOk(s, v, t);
    QuietInv(s, v, t, Step(s, t));
  }

  /** The compare-and-swap succeeds: whatever happened to the list in between, its
      head is what the new link says. */
  lemma SwapInv(s: Team, v: View, t: nat)
    requires Inv(s, v) && t < |s.th| && s.th[t].stage.Swapping? && s.free == s.th[t].stage.seen
    ensures Inv(Step(s, t), Swapped(v, s.th[t].stage.ws))
  {
    var r, w := Step(s, t), s.th[t].stage.ws;
    var v2 := Swapped(v, w);
    assert ThreadOk(s, v, t) && PlaceOk(s, v, w);
    ListPush(s.next, s.free, v.free, w);
    assert SamePast(s.th[t], r.th[t]);
    forall i ensures Retired(r, i) == Retired(s, i) && Count(r.th, i) == Count(s.th, i) {
      CountSame(s.th, t, r.th[t], i);
      CountSame(s.th, t, r.th[t], i + 1);
    }
    forall i | 0 <= i < |r.cons| ensures ConOk(r, v2, i) {
      assert ConOk(s, v, i);
    }
    forall u | 0 <= u < |r.th| ensures ThreadOk(r, v2, u) && SoundThread(r, r.th[u]) {
      assert ThreadOk(s, v, u) && SoundThread(s, s.th[u]);
    }
    forall x | 0 <= x < |v.place| ensures PlaceOk(r, v2, x) {
      assert PlaceOk(s, v, x);
    }
    if v.cut != [] {
      var u :| 0 <= u < |s.th| && s.th[u].stage.Taking?;
      assert r.th[u].stage.Taking?;
    }
  }

  ghost function Swapped(v: View, w: int): View
    requires 0 <= w < |v.place|
  {
    v.(free := [w] + v.free, place := v.place[w := OnFree])
  }

  function IndexOf(l: seq<int>, w: int): (i: nat)
    requires w in l
    ensures i < |l| && l[i] == w
  {
    if l[0] == w then 0 else 1 + IndexOf(l[1..], w)
  }

  /** Behind `w` the free list is cut off. */
  ghost function CutOff(v: View, w: int): View
    requires w in v.free
  {
    var p := IndexOf(v.free, w) + 1;
    var b := v.free[p..];
    v.(free := v.free[..p], cut := b,
       place := seq(|v.place|, x requires 0 <= x < |v.place| => if x in b then OnCut else v.place[x]))
  }

  lemma CutLists(s: Team, v: View, t: nat)
    requires Inv(s, v) && t < |s.th| && s.th[t].stage.Cutting? && s.th[t].stage.ws in v.free
    ensures var v2 := CutOff(v, s.th[t].stage.ws);
            && ListsOk(Step(s, t), v2) && v2.cut != [] && v2.cut[0] == s.th[t].stage.next
            && s.th[t].stage.ws in v2.free && v.free == v2.free + v2.cut
            && forall x :: x in v2.cut ==> x !in v2.free
  {
    var w := s.th[t].stage.ws;
    assert ThreadOk(s, v, t) && PlaceOk(s, v, w);
    var p := IndexOf(v.free, w);
    var a, b := v.free[..p + 1], v.free[p + 1..];
    assert v.free == a + b && a[|a| - 1] == w;
    assert LinkAt(s.next, v.free, p);
    ListCut(s.next, s.free, a, b);
    ListFrame(s.next, s.next[w := NULL], s.alloc, v.alloc);
  }

  lemma CutInv(s: Team, v: View, t: nat)
    requires Inv(s, v) && t < |s.th| && s.th[t].stage.Cutting? && s.th[t].stage.ws in v.free
    ensures Inv(Step(s, t), CutOff(v, s.th[t].stage.ws))
  {
    var r, w := Step(s, t), s.th[t].stage.ws;
    var v2 := CutOff(v, w);
    CutLists(s, v, t);
    assert ThreadOk(s, v, t) && SamePast(s.th[t], r.th[t]) && LinkAt(r.next, v2.cut, 0);
    forall i ensures Retired(r, i) == Retired(s, i) && Count(r.th, i) == Count(s.th, i) {
      CountSame(s.th, t, r.th[t], i);
      CountSame(s.th, t, r.th[t], i + 1);
    }
    forall i | 0 <= i < |r.cons| ensures ConOk(r, v2, i) {
      assert ConOk(s, v, i) && PlaceOk(s, v, s.cons[i]);
    }
    forall x | 0 <= x < |v.place| ensures PlaceOk(r, v2, x) {
      assert PlaceOk(s, v, x);
    }
    forall u | 0 <= u < |r.th| ensures ThreadOk(r, v2, u) && SoundThread(r, r.th[u]) {
      assert ThreadOk(s, v, u) && SoundThread(s, s.th[u]);
      if Frees(s.th[u].stage) {
        assert PlaceOk(s, v, s.th[u].stage.ws);
      }
    }
    assert r.th[t].stage.Taking?;
  }

  // ----- opening a work share -----

  /** `v2` is where things are once `w` is taken for the next construct; `b` are the
      others that go on the allocation list with it. */
  ghost predicate Opens(s: Team, v: View, t: nat, w: int, r: Team, v2: View) {
    && t < |s.th| && s.th[t].k + 1 == |s.cons| && !s.th[t].stage.Working? && !Frees(s.th[t].stage)
    && Alone(s, t) && |v.place| == |s.completed| == |s.next| <= |r.next| == |v2.place| == |r.completed|
       && 0 <= w < |r.next|
    && r == s.(next := r.next, completed := r.completed, alloc := r.alloc, chunk := r.chunk, cons := s.cons + [w],
               th := s.th[t := Thread(s.th[t].k + 1, Working)])
    && r.completed[w] == 0 && r.chunk > 0 && ListsOk(r, v2) && v2.cut == [] && v2.free == v.free
    && v2.place[w] == Live(|s.cons|)
    && (forall x :: 0 <= x < |s.next| ==> r.next[x] == s.next[x])
    && (forall x :: 0 <= x < |s.next| && (v.place[x].Freed? || v.place[x].Live? || v.place[x].OnFree?) ==>
          v2.place[x] == v.place[x] && r.completed[x] == s.completed[x])
    && (forall x :: 0 <= x < |r.next| && x != w && (x >= |s.next| || v.place[x].OnAlloc? || v.place[x].OnCut?) ==>
          v2.place[x].OnAlloc?)
    && (forall x :: 0 <= x < |r.next| ==> (v2.place[x].OnAlloc? <==> x in v2.alloc))
  }

  lemma OpenCons(s: Team, v: View, t: nat, w: int, r: Team, v2: View)
    requires Inv(s, v) && Opens(s, v, t, w, r, v2)
    ensures forall i :: 0 <= i < |s.cons| ==> Retired(r, i) == Retired(s, i)
    ensures forall i :: 0 <= i < |r.cons| ==> ConOk(r, v2, i)
  {
    var y := r.th[t];
    assert forall j :: j < |s.cons| ==> Past(y, j) == Past(s.th[t], j);
    forall i | 0 <= i < |s.cons| ensures Retired(r, i) == Retired(s, i) && Count(r.th, i) == Count(s.th, i) {
      CountUpdate(s.th, t, y, i);
      assert r.th[t] == y && !Past(y, |s.cons|);
      if i + 1 < |s.cons| {
        assert forall u :: 0 <= u < |s.th| ==> Past(r.th[u], i + 1) == Past(s.th[u], i + 1);
      }
    }
    forall u | 0 <= u < |r.th| ensures !Past(r.th[u], |s.cons|) {
      assert u != t ==> SoundThread(s, s.th[u]);
    }
    CountNone(r.th, |s.cons|);
    forall i | 0 <= i < |r.cons| ensures ConOk(r, v2, i) {
      if i < |s.cons| {
        assert ConOk(s, v, i) && r.cons[i] == s.cons[i];
      }
    }
  }

  lemma OpenPlaces(s: Team, v: View, t: nat, w: int, r: Team, v2: View, x: int)
    requires Inv(s, v) && Opens(s, v, t, w, r, v2) && 0 <= x < |v2.place|
    requires forall i :: 0 <= i < |s.cons| ==> Retired(r, i) == Retired(s, i)
    requires !Retired(r, |s.cons|)
    ensures PlaceOk(r, v2, x)
  {
    forall i | 0 <= i < |v.free| ensures v.free[i] < |s.next| {
      assert LinkAt(s.next, v.free, i);
    }
    assert x < |s.next| ==> PlaceOk(s, v, x);
  }

  lemma OpenInv(s: Team, v: View, t: nat, w: int, r: Team, v2: View)
    requires Inv(s, v) && Opens(s, v, t, w, r, v2)
    ensures Inv(r, v2)
  {
    OpenCons(s, v, t, w, r, v2);
    forall x | 0 <= x < |v2.place| ensures PlaceOk(r, v2, x) {
      OpenPlaces(s, v, t, w, r, v2, x);
    }
    forall u | 0 <= u < |r.th| ensures ThreadOk(r, v2, u) && SoundThread(r, r.th[u]) {
      assert ThreadOk(s, v, u) && SoundThread(s, s.th[u]);
    }
    assert v2.alloc != [] ==> LinkAt(r.next, v2.alloc, 0);
  }

  /** The first of the allocation list. */
  ghost function Popped(s: Team, v: View): View
    requires v.alloc != [] && 0 <= v.alloc[0] < |v.place|
  {
    v.(alloc := v.alloc[1..], place := v.place[v.alloc[0] := Live(|s.cons|)])
  }

  lemma PopInv(s: Team, v: View, t: nat)
    requires Inv(s, v) && Enabled(s, t) && s.th[t].stage.Idle? && s.th[t].k + 1 == |s.cons| && s.alloc != NULL
    ensures v.alloc != [] && 0 <= v.alloc[0] < |v.place| && Inv(Step(s, t), Popped(s, v))
  {
    ListPop(s.next, s.alloc, v.alloc);
    assert PlaceOk(s, v, v.alloc[0]);
    assert v.cut == [];
    forall x | 0 <= x < |s.next|
      ensures (Popped(s, v).place[x].OnAlloc? <==> x in Popped(s, v).alloc) && !v.place[x].OnCut?
    {
      assert PlaceOk(s, v, x);
    }
    OpenInv(s, v, t, v.alloc[0], Step(s, t), Popped(s, v));
  }

  /** The first of those cut off; the others wait for the next allocation. */
  ghost function Taken(s: Team, v: View): View
    requires v.cut != []
  {
    var w, b := v.cut[0], v.cut[1..];
    View(b, v.free, [], seq(|v.place|, x requires 0 <= x < |v.place| =>
      if x == w then Live(|s.cons|) else if x in b then OnAlloc else v.place[x]))
  }

  lemma TakeInv(s: Team, v: View, t: nat)
    requires Inv(s, v) && t < |s.th| && s.th[t].stage.Taking?
    ensures v.cut != [] && Inv(Step(s, t), Taken(s, v))
  {
    assert ThreadOk(s, v, t);
    ListPop(s.next, v.cut[0], v.cut);
    var r, v2 := Step(s, t), Taken(s, v);
    forall x | 0 <= x < |s.next|
      ensures (v2.place[x].OnAlloc? <==> x in v2.alloc) && (v.place[x].OnCut? <==> x in v.cut)
      ensures x == v.cut[0] ==> v.place[x].OnCut?
    {
      assert PlaceOk(s, v, x);
    }
    OpenInv(s, v, t, v.cut[0], r, v2);
  }

  /** All the new ones but the first. */
  function NewOnes(s: Team): seq<int>
    requires s.chunk > 0
  {
    seq(2 * s.chunk - 1, i => |s.next| + 1 + i)
  }

  ghost function More(s: Team, v: View): View
    requires s.chunk > 0
  {
    v.(alloc := NewOnes(s), place := v.place + seq(2 * s.chunk, i => if i == 0 then Live(|s.cons|) else OnAlloc))
  }

  lemma GrownList(s: Team)
    requires s.chunk > 0
    ensures IsList(Grown(s).next, |s.next| + 1, NewOnes(s))
    ensures forall x :: x in NewOnes(s) <==> |s.next| < x < |s.next| + 2 * s.chunk
  {
    var b, c, l := |s.next|, 2 * s.chunk, NewOnes(s);
    forall i | 0 <= i < |l| ensures LinkAt(Grown(s).next, l, i) {
      assert Grown(s).next[b + 1 + i] == if 1 <= i + 1 < c - 1 then b + (i + 1) + 1 else NULL;
    }
    forall x | b < x < b + c ensures x in l {
      assert l[x - b - 1] == x;
    }
  }

  lemma GrowInv(s: Team, v: View, t: nat)
    requires Inv(s, v) && t < |s.th| && s.th[t].stage.Choosing?
    requires s.th[t].stage.ws == NULL || s.next[s.th[t].stage.ws] == NULL
    ensures Inv(Step(s, t), More(s, v))
  {
    assert ThreadOk(s, v, t);
    var r, v2 := Step(s, t), More(s, v);
    GrownList(s);
    ListFrame(s.next, r.next, s.free, v.free);
    assert v.cut == [];
    forall x | 0 <= x < |r.next|
      ensures (v2.place[x].OnAlloc? <==> x in v2.alloc) && (x < |s.next| ==> !v.place[x].OnCut? && !v.place[x].OnAlloc?)
    {
      assert x < |s.next| ==> PlaceOk(s, v, x);
    }
    OpenInv(s, v, t, |s.next|, r, v2);
  }

  // ----- leaving a construct -----

  ghost function Left(s: Team, v: View, t: nat): View
    requires Sound(s) && t < |s.th| && s.th[t].stage.Working? && |v.place| == |s.next|
  {
    var k := s.th[t].k;
    assert SoundThread(s, s.th[t]);
    if s.completed[s.cons[k]] + 1 == |s.th| then v.(place := v.place[s.cons[k - 1] := Freed(t)]) else v
  }

  lemma EndCons(s: Team, v: View, t: nat)
    requires Inv(s, v) && t < |s.th| && s.th[t].stage.Working?
    ensures var r, k := Step(s, t), s.th[t].k;
            && 0 < k < |s.cons| && !Retired(s, k) && !Retired(s, k - 1)
            && v.place[s.cons[k]] == Live(k) && v.place[s.cons[k - 1]] == Live(k - 1)
            && s.completed[s.cons[k]] == Count(s.th, k)
            && (forall i :: i != k - 1 ==> Retired(r, i) == Retired(s, i))
            && (Retired(r, k - 1) <==> s.completed[s.cons[k]] + 1 == |s.th|)
            && (forall i :: Count(r.th, i) == Count(s.th, i) + if i == k then 1 else 0)
  {
    var r, x := Step(s, t), s.th[t];
    var k, y := x.k, r.th[t];
    assert SoundThread(s, x) && !Past(x, k) && !Past(x, k + 1);
    assert !AllPast(s.th, k) && !AllPast(s.th, k + 1);
    assert ConOk(s, v, k) && ConOk(s, v, k - 1);
    assert forall j :: Past(y, j) == (j == k || Past(x, j));
    forall i ensures Count(r.th, i) == Count(s.th, i) + if i == k then 1 else 0 {
      CountUpdate(s.th, t, y, i);
    }
    forall i | i != k - 1 ensures Retired(r, i) == Retired(s, i) {
      CountAll(r.th, i + 1);
      CountAll(s.th, i + 1);
    }
    CountAll(r.th, k);
  }

  lemma EndInv(s: Team, v: View, t: nat)
    requires Inv(s, v) && t < |s.th| && s.th[t].stage.Working?
    ensures Inv(Step(s, t), Left(s, v, t))
  {
    hide Retired, Count;
    var r, v2, k := Step(s, t), Left(s, v, t), s.th[t].k;
    EndCons(s, v, t);
    forall i | 0 <= i < |r.cons| ensures ConOk(r, v2, i) {
      assert ConOk(s, v, i);
    }
    forall x | 0 <= x < |v.place| ensures PlaceOk(r, v2, x) {
      assert PlaceOk(s, v, x);
    }
    forall u | 0 <= u < |r.th| ensures ThreadOk(r, v2, u) && SoundThread(r, r.th[u]) {
      assert ThreadOk(s, v, u) && SoundThread(s, s.th[u]);
    }
    if v.cut != [] {
      var u :| 0 <= u < |s.th| && s.th[u].stage.Taking?;
      assert r.th[u].stage.Taking?;
    }
  }

  // ----- whole runs -----

  /** Where things are after the step of `t`. */
  ghost function Moved(s: Team, v: View, t: nat): View
    requires Inv(s, v) && t < |s.th|
  {
    assert ThreadOk(s, v, t) && SoundThread(s, s.th[t]);
    match s.th[t].stage
    case Idle =>
      assert v.alloc != [] ==> LinkAt(s.next, v.alloc, 0);
      if s.th[t].k + 1 == |s.cons| && s.alloc != NULL then Popped(s, v) else v
    case Working => Left(s, v, t)
    case Choosing(w) => if w != NULL && s.next[w] != NULL then v else More(s, v)
    case Cutting(w, _) => CutOff(v, w)
    case Taking(_) => Taken(s, v)
    case Reading(_) => v
    case Linking(_, _) => v
    case Swapping(w, seen) => if s.free == seen then Swapped(v, w) else v
  }

  lemma StepInv(s: Team, v: View, t: nat)
    requires Inv(s, v) && Enabled(s, t)
    ensures Inv(Step(s, t), Moved(s, v, t))
  {
    assert ThreadOk(s, v, t) && SoundThread(s, s.th[t]);
    match s.th[t].stage
    case Idle =>
      if s.th[t].k + 1 == |s.cons| && s.alloc != NULL {
        PopInv(s, v, t);
      } else {
        EnterInv(s, v, t);
      }
    case Working => EndInv(s, v, t);
    case Choosing(w) =>
      if w != NULL && s.next[w] != NULL {
        LookInv(s, v, t);
      } else {
        GrowInv(s, v, t);
      }
    case Cutting(_, _) => CutInv(s, v, t);
    case Taking(_) => TakeInv(s, v, t);
    case Reading(_) => PushInv(s, v, t);
    case Linking(_, _) => PushInv(s, v, t);
    case Swapping(_, seen) =>
      if s.free == seen {
        SwapInv(s, v, t);
      } else {
        PushInv(s, v, t);
      }
  }

  ghost function InitialView(): View {
    View([1, 2, 3, 4, 5, 6, 7], [], [], seq(8, i => if i == 0 then Live(0) else OnAlloc))
  }

  lemma InitialInv(n: nat)
    requires n > 0
    ensures Inv(Initial(n), InitialView())
  {
    hide Count, AllPast;
    var s, v := Initial(n), InitialView();
    forall i | 0 <= i < |v.alloc| ensures LinkAt(s.next, v.alloc, i) {
      assert v.alloc[i] == i + 1;
    }
    forall w | 0 <= w < 8 ensures w in v.alloc <==> w > 0 {
      assert w > 0 ==> v.alloc[w - 1] == w;
    }
  }

  /** A run of `n` threads: each state follows from the one before by a step of a thread. */
  ghost predicate IsRun(n: nat, run: seq<Team>, who: seq<nat>) {
    && |run| == |who| + 1 && run[0] == Initial(n)
    && forall i :: 0 <= i < |who| ==> Follows(run[i], who[i], run[i + 1])
  }

  /** Nothing is said about what follows an unsound state. */
  ghost predicate Follows(s: Team, t: nat, r: Team) {
    Sound(s) ==> Enabled(s, t) && r == Step(s, t)
  }

  /** In every state of every run the invariant holds. */
  lemma {:induction false} RunInv(n: nat, run: seq<Team>, who: seq<nat>, i: nat) returns (v: View)
    requires n > 0 && IsRun(n, run, who) && i < |run|
    ensures Inv(run[i], v)
  {
    hide ListsOk, PlaceOk, ConOk, ThreadOk, Step, Moved, Initial, InitialView;
    if i == 0 {
      InitialInv(n);
      v := InitialView();
    } else {
      v := RunInv(n, run, who, i - 1);
      assert Follows(run[i - 1], who[i - 1], run[i]);
      StepInv(run[i - 1], v, who[i - 1]);
      v := Moved(run[i - 1], v, who[i - 1]);
    }
  }

  /** The work shares that a thread may still touch: its current one, and in a
      construct the previous one. */
  ghost predicate Uses(s: Team, t: int, w: int) {
    && 0 <= t < |s.th| && s.th[t].k < |s.cons|
    && (w == s.cons[s.th[t].k] || (s.th[t].stage.Working? && s.th[t].k > 0 && w == s.cons[s.th[t].k - 1]))
  }

  ghost predicate BeingFreed(s: Team, t: int, w: int) {
    0 <= t < |s.th| && Frees(s.th[t].stage) && s.th[t].stage.ws == w
  }

  /** A work share that some thread may touch is on no list, cut off or being freed. */
  lemma InUseIsLive(s: Team, v: View, t: nat, w: int)
    requires Inv(s, v) && Uses(s, t, w)
    ensures w !in v.alloc && w !in v.free && w !in v.cut && forall u :: !BeingFreed(s, u, w)
  {
    var x := s.th[t];
    assert SoundThread(s, x) && !Past(x, x.k + 1);
    assert !Retired(s, x.k) && ConOk(s, v, x.k);
    if x.stage.Working? {
      assert !Past(x, x.k) && !Retired(s, x.k - 1) && ConOk(s, v, x.k - 1);
    }
    assert PlaceOk(s, v, w) && v.place[w].Live?;
    forall u ensures !BeingFreed(s, u, w) {
      assert 0 <= u < |s.th| ==> ThreadOk(s, v, u);
    }
  }

  /** Every work share is in exactly one place: on the allocation list, on the free
      list, cut off by the allocating thread, being freed by one thread, or that of
      exactly one construct not yet retired. */
  lemma ExactlyOnePlace(s: Team, v: View, w: int)
    requires Inv(s, v) && 0 <= w < |s.next|
    ensures w in v.alloc ==> w !in v.free && w !in v.cut
    ensures w in v.free ==> w !in v.cut
    ensures w in v.alloc || w in v.free || w in v.cut ==>
              (forall t :: !BeingFreed(s, t, w)) && forall i :: !OfConstruct(s, i, w)
    ensures forall t, u :: BeingFreed(s, t, w) && BeingFreed(s, u, w) ==> t == u
    ensures forall t, i :: BeingFreed(s, t, w) ==> !OfConstruct(s, i, w)
    ensures forall i, j :: OfConstruct(s, i, w) && OfConstruct(s, j, w) ==> i == j
    ensures w in v.alloc || w in v.free || w in v.cut || (exists t :: BeingFreed(s, t, w))
            || exists i :: OfConstruct(s, i, w)
  {
    hide Retired, Count, ListsOk;
    assert PlaceOk(s, v, w);
    forall t | BeingFreed(s, t, w) ensures v.place[w] == Freed(t) {
      assert ThreadOk(s, v, t);
    }
    forall i | OfConstruct(s, i, w) ensures v.place[w] == Live(i) {
      assert ConOk(s, v, i);
    }
    assert v.place[w].Freed? ==> BeingFreed(s, v.place[w].t, w);
    assert v.place[w].Live? ==> OfConstruct(s, v.place[w].i, w);
  }

  ghost predicate OfConstruct(s: Team, i: int, w: int) {
    0 <= i < |s.cons| && s.cons[i] == w && !Retired(s, i)
  }

  // ----- reuse, growth and progress -----

  /** An allocating thread starts with the head of the free list. */
  lemma LooksAtHead(s: Team, v: View, t: nat)
    requires Inv(s, v) && Enabled(s, t) && s.th[t].stage.Idle? && s.th[t].k + 1 == |s.cons| && v.alloc == []
    ensures Step(s, t).th[t].stage == Choosing(if v.free == [] then NULL else v.free[0])
  {
  }

  /** New work shares are made exactly if nothing follows it on the free list: one is
      left there, for others that may be linking to it.  Their number doubles. */
  lemma GrowsWhenEmpty(s: Team, v: View, t: nat)
    requires Inv(s, v) && Enabled(s, t)
    ensures var r, st := Step(s, t), s.th[t].stage;
            && |r.next| == |s.next| + (if r.chunk == s.chunk then 0 else r.chunk)
            && (r.chunk != s.chunk ==> r.chunk == 2 * s.chunk)
            && (r.chunk != s.chunk <==>
                  st.Choosing? && (st.ws == NULL || (v.free != [] && st.ws == v.free[|v.free| - 1])))
  {
    hide ConOk, PlaceOk, Retired, Count;
    assert ThreadOk(s, v, t) && SoundThread(s, s.th[t]);
    var st := s.th[t].stage;
    if st.Choosing? && st.ws != NULL {
      var i :| 0 <= i < |v.free| && v.free[i] == st.ws;
      assert LinkAt(s.next, v.free, i);
      if i + 1 < |v.free| {
        assert LinkAt(s.next, v.free, i + 1) && LinkAt(s.next, v.free, |v.free| - 1);
      }
    }
  }

  /** How far a thread is from its next work share. */
  function Ahead(st: Stage): nat {
    match st
    case Idle => 4
    case Choosing(_) => 3
    case Cutting(_, _) => 2
    case Taking(_) => 1
    case _ => 0
  }

  /** Every step of a thread that starts or allocates brings it nearer to the next
      construct, whatever the others do; there it works on the share of that construct. */
  lemma StartsNext(s: Team, v: View, t: nat)
    requires Inv(s, v) && Enabled(s, t) && (s.th[t].stage.Idle? || Allocates(s.th[t].stage))
    ensures var r := Step(s, t);
            if r.th[t].stage.Working? then r.th[t].k == s.th[t].k + 1 < |r.cons|
            else r.th[t].k == s.th[t].k && Ahead(r.th[t].stage) < Ahead(s.th[t].stage) && r.cons == s.cons
    ensures |Step(s, t).cons| <= |s.cons| + 1 && s.cons <= Step(s, t).cons
  {
    assert ThreadOk(s, v, t) && SoundThread(s, s.th[t]);
  }

  /** Leaving a construct takes one step, and then the last thread pushes the previous
      work share: three steps more, if no other thread pushes in between. */
  lemma EndsAndFrees(s: Team, v: View, t: nat)
    requires Inv(s, v) && Enabled(s, t) && (s.th[t].stage.Working? || Frees(s.th[t].stage))
    ensures var r, st := Step(s, t), s.th[t].stage;
            && r.th[t].k == s.th[t].k && r.cons == s.cons
            && match st
               case Working =>
                 r.th[t].stage == if AllPast(r.th, r.th[t].k) then Reading(s.cons[s.th[t].k - 1]) else Idle
               case Reading(w) => r.th[t].stage == Linking(w, s.free)
               case Linking(w, seen) => r.th[t].stage == Swapping(w, seen)
               case Swapping(w, seen) =>
                 if s.free == seen then r.th[t].stage.Idle? && r.free == w else r.th[t].stage == Reading(w)
               case _ => true
  {
    assert ThreadOk(s, v, t) && SoundThread(s, s.th[t]);
    if s.th[t].stage.Working? {
      EndCons(s, v, t);
      CountAll(Step(s, t).th, s.th[t].k);
    }
  }

  /** Some thread can always move, and those that cannot need a new work share and wait
      for it to open theirs. */
  lemma SomeoneMoves(s: Team, v: View) returns (t: nat)
    requires Inv(s, v)
    ensures Enabled(s, t)
    ensures forall u :: 0 <= u < |s.th| && !Enabled(s, u) ==>
              s.th[u].stage.Idle? && s.th[u].k + 1 == |s.cons| && Allocates(s.th[t].stage)
  {
    if u :| 0 <= u < |s.th| && Allocates(s.th[u].stage) {
      t := u;
    } else {
      t := 0;
    }
  }
}
