/** liblua/ltable.c: an array part and a hash part that together are a map. */
module LuaTable {
  import opened TableHash
  import opened TableSizes

  /** Where luaH_set lets its caller store. */
  datatype Slot = InArray(i: nat) | InNode(i: nat)

  datatype Status = Done | NilIndex | NaNIndex | Overflow

  predicate Indexes(arr: seq<Val>, k: Key) {
    k.Int? && 1 <= k.n <= |arr|
  }

  ghost predicate ArrayModels(arr: seq<Val>, m: map<Key, Val>) {
    forall i :: 0 <= i < |arr| ==>
      if arr[i].Some? then Int(i + 1) in m && m[Int(i + 1)] == arr[i] else Int(i + 1) !in m
  }

  ghost predicate NodeModels(node: seq<Node>, m: map<Key, Val>) {
    forall i :: 0 <= i < |node| && Usable(node[i].key) ==>
      if node[i].val.Some? then node[i].key in m && m[node[i].key] == node[i].val else node[i].key !in m
  }

  /** `m` is what the two parts hold. */
  ghost predicate Models(arr: seq<Val>, node: seq<Node>, m: map<Key, Val>) {
    && ArrayModels(arr, m) && NodeModels(node, m)
    && (forall k :: k in m ==> Usable(k) && (Indexes(arr, k) || Holds(node, k)))
    && (forall i :: 0 <= i < |node| && Usable(node[i].key) ==> !Indexes(arr, node[i].key))
    && (forall i :: 0 <= i < |node| && node[i].val.Some? ==> Usable(node[i].key))
  }

  lemma KeyInChain(h: Hasher, node: seq<Node>, ch: seq<seq<nat>>, b: nat)
    requires HashOk(h, node, ch) && b < |node| && Usable(node[b].key)
    ensures var m := Main(h, node[b].key, |node|);
            m in ch[m] && b in ch[m] && Pos(ch[m], m) <= Pos(ch[m], b)
  {
    assert ChainAt(node, ch, b) && KeyAt(h, node, ch, b);
  }

  /** Key `k` is not before `i` in the chain `c`, nor anywhere else. */
  ghost predicate NotBefore(node: seq<Node>, c: seq<nat>, i: nat, k: Key)
    requires i in c
  {
    forall b :: 0 <= b < |node| && node[b].key == k ==> b in c && Pos(c, i) <= Pos(c, b)
  }

  lemma StartFrom(h: Hasher, node: seq<Node>, ch: seq<seq<nat>>, k: Key)
    requires HashOk(h, node, ch) && |node| > 0 && Usable(k)
    ensures var m := Main(h, k, |node|); m in ch[m] && NotBefore(node, ch[m], m, k)
  {
    assert ChainAt(node, ch, Main(h, k, |node|));
    forall b | 0 <= b < |node| && node[b].key == k
      ensures var m := Main(h, k, |node|); b in ch[m] && Pos(ch[m], m) <= Pos(ch[m], b)
    {
      KeyInChain(h, node, ch, b);
    }
  }

  lemma InChain(h: Hasher, node: seq<Node>, ch: seq<seq<nat>>, m: nat, i: nat)
    requires HashOk(h, node, ch) && m < |node| && i < |node| && i in ch[m]
    ensures |ch| == |node| && ch[i] == ch[m] && ChainAt(node, ch, i) && node[i].next == After(ch[m], i)
  {
    assert ChainAt(node, ch, m) && ChainAt(node, ch, i);
  }

  lemma StepOn(h: Hasher, node: seq<Node>, ch: seq<seq<nat>>, m: nat, i: nat, k: Key)
    requires HashOk(h, node, ch) && m < |node| && i < |node| && i in ch[m] && node[i].key != k
    requires NotBefore(node, ch[m], i, k)
    ensures node[i].next == NULL ==> !Holds(node, k)
    ensures node[i].next != NULL ==>
              0 <= node[i].next < |node| && node[i].next in ch[m] && NotBefore(node, ch[m], node[i].next, k)
              && Pos(ch[m], node[i].next) == Pos(ch[m], i) + 1
  {
    hide Pos, Distinct, HashOk, ChainAt;
    InChain(h, node, ch, m, i);
    var c := ch[m];
    forall b | 0 <= b < |node| && node[b].key == k ensures Pos(c, i) < Pos(c, b) {
      assert c[Pos(c, i)] == i && c[Pos(c, b)] == b;
    }
    if node[i].next != NULL {
      NextInChain(node, ch, i);
    }
  }

  /** `node2` is `node` with the new key `k`, without a value. */
  ghost predicate Placed(node: seq<Node>, node2: seq<Node>, k: Key) {
    && |node2| == |node|
    && (forall i :: 0 <= i < |node2| && !node2[i].key.KNil? ==>
          (node2[i].key == k && node2[i].val.Nil?) || FoundIn(node, node2[i]))
    && (forall i :: 0 <= i < |node| && node[i].val.Some? ==> FoundIn(node2, node[i]))
    && (forall i :: 0 <= i < |node| && node2[i].key.KNil? ==> node[i].key.KNil? && node2[i].val.Nil?)
  }

  /** The key is at `i`, and `n` is in use besides the nodes that were. */
  ghost predicate PutAt(node: seq<Node>, node2: seq<Node>, k: Key, i: nat, n: nat) {
    && |node2| == |node| && i < |node| && node2[i].key == k && node2[i].val.Nil?
    && n < |node| && !node2[n].key.KNil?
    && forall j :: 0 <= j < |node| && !node[j].key.KNil? ==> !node2[j].key.KNil?
  }

  lemma NodeShape(h: Hasher, node: seq<Node>, ch: seq<seq<nat>>, arr: seq<Val>, m: map<Key, Val>)
    requires HashOk(h, node, ch) && Models(arr, node, m)
    ensures |ch| == |node| && forall i :: 0 <= i < |node| && node[i].val.Some? ==> Usable(node[i].key)
    ensures forall i :: 0 <= i < |node| && node[i].key.KNil? ==> node[i].val.Nil?
  {
  }

  ghost predicate FoundIn(node: seq<Node>, x: Node) {
    exists j :: 0 <= j < |node| && node[j].key == x.key && node[j].val == x.val
  }

  lemma PlacedModels(arr: seq<Val>, node: seq<Node>, m: map<Key, Val>, node2: seq<Node>, k: Key)
    requires Models(arr, node, m) && k !in m && Usable(k) && !Indexes(arr, k) && Placed(node, node2, k)
    ensures Models(arr, node2, m)
  {
    forall q | q in m ensures Usable(q) && (Indexes(arr, q) || Holds(node2, q)) {
      if !Indexes(arr, q) {
        var j :| 0 <= j < |node| && node[j].key == q;
        assert node[j].val.Some? && FoundIn(node2, node[j]);
      }
    }
  }

  lemma PlacedHere(node: seq<Node>, k: Key, m: nat)
    requires m < |node| && node[m].val.Nil? && !k.KNil?
    requires forall i :: 0 <= i < |node| && node[i].key.KNil? ==> node[i].val.Nil?
    ensures var node2 := node[m := node[m].(key := k)]; Placed(node, node2, k) && PutAt(node, node2, k, m, m)
  {
    var node2 := node[m := node[m].(key := k)];
    assert forall i :: 0 <= i < |node| && i != m ==> node2[i] == node[i];
  }

  lemma PlacedBehind(node: seq<Node>, k: Key, m: nat, n: nat)
    requires m < |node| && n < |node| && m != n && node[n].key.KNil? && !k.KNil? && node[n].val.Nil?
    requires forall i :: 0 <= i < |node| && node[i].key.KNil? ==> node[i].val.Nil?
    ensures var node2 := Behind(node, k, m, n); Placed(node, node2, k) && PutAt(node, node2, k, n, n)
  {
    var node2 := Behind(node, k, m, n);
    assert forall i :: 0 <= i < |node| && i != n ==> node2[i].key == node[i].key && node2[i].val == node[i].val;
  }

  lemma PlacedInstead(node: seq<Node>, k: Key, m: nat, n: nat, o: nat)
    requires m < |node| && n < |node| && o < |node| && m != n && o != n && node[n].key.KNil? && !k.KNil?
             && node[n].val.Nil?
    requires !node[m].key.KNil? && forall i :: 0 <= i < |node| && node[i].key.KNil? ==> node[i].val.Nil?
    ensures var node2 := Displace(node, k, m, n, o); Placed(node, node2, k) && PutAt(node, node2, k, m, n)
  {
    var node2 := Displace(node, k, m, n, o);
    assert forall i :: 0 <= i < |node| && i != n && i != m ==>
             node2[i].key == node[i].key && node2[i].val == node[i].val;
    assert node2[n].key == node[m].key && node2[n].val == node[m].val;
    forall i | 0 <= i < |node2| && !node2[i].key.KNil? && i != m ensures FoundIn(node, node2[i]) {
      var j := if i == n then m else i;
      assert node[j].key == node2[i].key && node[j].val == node2[i].val;
    }
    forall i | 0 <= i < |node| && node[i].val.Some? ensures FoundIn(node2, node[i]) {
      var j := if i == m then n else i;
      assert node2[j].key == node[i].key && node2[j].val == node[i].val;
    }
  }

  // ----- counting for a rehash -----

  predicate UsedAt(arr: seq<Val>, n: int) {
    1 <= n <= |arr| && arr[n - 1].Some?
  }

  ghost function ArrayInts(arr: seq<Val>, i: nat): set<int> {
    set n | 1 <= n < i && UsedAt(arr, n)
  }

  lemma NoneCounted(arr: seq<Val>)
    ensures Counts(seq(MAXBITS + 1, i => 0), ArrayInts(arr, 1)) && ArrayInts(arr, 1) == {}
  {
    var none := ArrayInts(arr, 1);
    assert none == {};
    forall b | 0 <= b <= MAXBITS ensures |Slice(none, b)| == 0 {
      assert Slice(none, b) == {};
    }
  }

  lemma ArrayStep(arr: seq<Val>, i: nat, lg: nat)
    requires 1 <= i <= |arr| && i <= Pow2(lg) && (lg > 0 ==> Pow2(lg - 1) < i)
    ensures var c := if arr[i - 1].Some? then 1 else 0;
            && |ArrayInts(arr, i + 1)| == |ArrayInts(arr, i)| + c
            && forall b: nat ::
                 |Slice(ArrayInts(arr, i + 1), b)| == |Slice(ArrayInts(arr, i), b)| + if b == lg then c else 0
  {
    hide Pow2, Slice, ArrayInts;
    SliceOf(i, lg);
    if lg > 0 {
      SliceOf(i, lg - 1);
    }
    ArrayGrows(arr, i);
    if arr[i - 1].Some? {
      forall b: nat
        ensures |Slice(ArrayInts(arr, i + 1), b)| == |Slice(ArrayInts(arr, i), b)| + if b == lg then 1 else 0
      {
        SliceGrows(ArrayInts(arr, i), i, b);
      }
    }
  }

  lemma ArrayGrows(arr: seq<Val>, i: nat)
    requires 1 <= i <= |arr|
    ensures i !in ArrayInts(arr, i)
    ensures ArrayInts(arr, i + 1) == if arr[i - 1].Some? then ArrayInts(arr, i) + {i} else ArrayInts(arr, i)
  {
  }

  ghost function NodeInts(node: seq<Node>, i: nat): set<int> {
    set j | i <= j < |node| && node[j].val.Some? && node[j].key.Int? :: node[j].key.n
  }

  ghost function LiveKeys(node: seq<Node>, i: nat): set<Key> {
    set j | i <= j < |node| && node[j].val.Some? :: node[j].key
  }

  /** No integer key of the hash part has been counted. */
  ghost predicate NewInts(node: seq<Node>, s: set<int>) {
    forall j :: 0 <= j < |node| && node[j].key.Int? ==> node[j].key.n !in s
  }

  /** The integers counted when the nodes from `i` on have been seen. */
  ghost function Counted(node: seq<Node>, i: nat, s: set<int>): set<int> {
    s + NodeInts(node, i)
  }

  ghost predicate LiveUsable(node: seq<Node>) {
    forall i :: 0 <= i < |node| && node[i].val.Some? ==> Usable(node[i].key)
  }

  ghost predicate KeysOnce(node: seq<Node>) {
    forall i, j :: 0 <= i < j < |node| && Usable(node[i].key) ==> node[i].key != node[j].key
  }

  lemma CountedEnds(node: seq<Node>, s: set<int>)
    ensures Counted(node, |node|, s) == s && |LiveKeys(node, |node|)| == 0
    ensures Counted(node, 0, s) == s + NodeInts(node, 0)
  {
    assert NodeInts(node, |node|) == {} && LiveKeys(node, |node|) == {};
  }

  lemma NodeStep(node: seq<Node>, i: nat, s: set<int>)
    requires i < |node| && NewInts(node, s)
    requires KeysOnce(node)
    requires LiveUsable(node)
    ensures node[i].val.Some? ==> |LiveKeys(node, i)| == |LiveKeys(node, i + 1)| + 1
    ensures node[i].val.Nil? ==>
              LiveKeys(node, i) == LiveKeys(node, i + 1) && Counted(node, i, s) == Counted(node, i + 1, s)
    ensures node[i].val.Some? && node[i].key.Int? ==>
              node[i].key.n !in Counted(node, i + 1, s)
              && Counted(node, i, s) == Counted(node, i + 1, s) + {node[i].key.n}
    ensures node[i].val.Some? && !node[i].key.Int? ==> Counted(node, i, s) == Counted(node, i + 1, s)
  {
    if node[i].val.Some? {
      assert node[i].key !in LiveKeys(node, i + 1);
      assert LiveKeys(node, i) == LiveKeys(node, i + 1) + {node[i].key};
      if node[i].key.Int? {
        assert NodeInts(node, i) == NodeInts(node, i + 1) + {node[i].key.n};
      } else {
        assert NodeInts(node, i) == NodeInts(node, i + 1);
      }
    } else {
      assert LiveKeys(node, i) == LiveKeys(node, i + 1);
      assert NodeInts(node, i) == NodeInts(node, i + 1);
    }
  }

  ghost function IntKeys(s: set<Key>): set<int> {
    set k | k in s && k.Int? :: k.n
  }

  /** What numusearray counts. */
  ghost function Seen(arr: seq<Val>): set<int> {
    ArrayInts(arr, Min(|arr|, MAXASIZE) + 1)
  }

  lemma SeenPart(arr: seq<Val>, node: seq<Node>)
    requires NewInts(node, ArrayInts(arr, |arr| + 1))
    ensures NewInts(node, Seen(arr)) && UpTo(Seen(arr), Pow2(MAXBITS)) == Seen(arr)
    ensures |ArrayInts(arr, |arr| + 1)| == |Seen(arr)| + |Unseen(arr)|
  {
    hide Pow2;
    assert ArrayInts(arr, |arr| + 1) == Seen(arr) + Unseen(arr);
    assert forall n :: n in Seen(arr) ==> n !in Unseen(arr);
  }

  /** The integers above the limit make no difference to the slices. */
  lemma SeenEnough(arr: seq<Val>, s: set<int>, nums: seq<nat>)
    requires Counts(nums, Seen(arr) + s)
    ensures Counts(nums, ArrayInts(arr, |arr| + 1) + s)
    ensures UpTo(ArrayInts(arr, |arr| + 1) + s, Pow2(MAXBITS)) == UpTo(Seen(arr) + s, Pow2(MAXBITS))
  {
    hide Pow2;
    var a := ArrayInts(arr, |arr| + 1);
    forall b | 0 <= b <= MAXBITS ensures Slice(a + s, b) == Slice(Seen(arr) + s, b) {
      forall n | n in a && n !in Seen(arr) ensures CeilLog2(n) != b {
        SliceOf(n, MAXBITS);
      }
    }
  }

  ghost function Wrap(a: set<int>): set<Key> {
    set n | n in a :: Int(n)
  }

  lemma WrapGrows(a: set<int>, n: int)
    requires n !in a
    ensures |Wrap(a + {n})| == |Wrap(a)| + 1
  {
    assert Wrap(a + {n}) == Wrap(a) + {Int(n)};
    assert Int(n) !in Wrap(a);
  }

  lemma {:induction false} Wrapped(s: set<int>, n: nat)
    ensures |Wrap(UpTo(s, n))| == |UpTo(s, n)|
  {
    if n == 0 {
      assert UpTo(s, n) == {} && Wrap(UpTo(s, n)) == {};
    } else {
      Wrapped(s, n - 1);
      if n in s {
        assert UpTo(s, n) == UpTo(s, n - 1) + {n};
        WrapGrows(UpTo(s, n - 1), n);
      } else {
        assert UpTo(s, n) == UpTo(s, n - 1);
      }
    }
  }

  /** Every entry is counted once, and every integer key. */
  lemma AllKeys(arr: seq<Val>, node: seq<Node>, m: map<Key, Val>)
    requires Models(arr, node, m)
    ensures NewInts(node, ArrayInts(arr, |arr| + 1))
    ensures IntKeys(m.Keys) == ArrayInts(arr, |arr| + 1) + NodeInts(node, 0)
    ensures |m.Keys| == |ArrayInts(arr, |arr| + 1)| + |LiveKeys(node, 0)|
  {
    var a := ArrayInts(arr, |arr| + 1);
    var w := Wrap(a);
    Wrapped(a, |arr|);
    assert a == UpTo(a, |arr|);
    forall k | k in m ensures k in w || k in LiveKeys(node, 0) {
      if Indexes(arr, k) {
        assert UsedAt(arr, k.n) && k.n in a;
      } else {
        var j :| 0 <= j < |node| && node[j].key == k;
        assert node[j].val.Some?;
      }
    }
    forall k | k in LiveKeys(node, 0) ensures k in m && k !in w {
    }
    assert m.Keys == w + LiveKeys(node, 0);
    IntsOf(arr, node, m);
  }

  lemma IntsOf(arr: seq<Val>, node: seq<Node>, m: map<Key, Val>)
    requires Models(arr, node, m)
    ensures IntKeys(m.Keys) == ArrayInts(arr, |arr| + 1) + NodeInts(node, 0)
  {
    forall n | n in IntKeys(m.Keys) ensures n in ArrayInts(arr, |arr| + 1) + NodeInts(node, 0) {
      if Indexes(arr, Int(n)) {
        assert UsedAt(arr, n);
      } else {
        var j :| 0 <= j < |node| && node[j].key == Int(n);
        assert node[j].val.Some?;
      }
    }
    forall n | n in ArrayInts(arr, |arr| + 1) + NodeInts(node, 0) ensures n in IntKeys(m.Keys) {
      assert Int(n) in m;
    }
  }

  lemma IntKeysPlus(s: set<Key>, k: Key)
    requires k !in s
    ensures IntKeys(s + {k}) == IntKeys(s) + if k.Int? then {k.n} else {}
    ensures k.Int? ==> k.n !in IntKeys(s)
  {
    forall n | n in IntKeys(s) + (if k.Int? then {k.n} else {}) ensures n in IntKeys(s + {k}) {
      assert Int(n) in s + {k};
    }
  }

  ghost function Inside(s: set<Key>, n: nat): set<Key> {
    set k | k in s && k.Int? && 1 <= k.n <= n
  }

  lemma InsideSize(s: set<Key>, n: nat)
    ensures |Inside(s, n)| == |UpTo(IntKeys(s), n)|
  {
    var up := UpTo(IntKeys(s), n);
    Wrapped(IntKeys(s), n);
    forall k | k in Inside(s, n) ensures k in Wrap(up) {
      assert k.n in up;
    }
    assert Inside(s, n) == Wrap(up);
  }

  lemma SplitKeys(s: set<Key>, n: nat)
    ensures |s| == |Inside(s, n)| + |s - Inside(s, n)|
  {
    assert s == Inside(s, n) + (s - Inside(s, n));
  }

  /** The keys that go to the array part and those that do not. */
  lemma SplitSizes(m: map<Key, Val>, k: Key, n: nat)
    requires k !in m
    ensures var total := |m.Keys| + 1 - |UpTo(IntKeys(m.Keys + {k}), n)|;
            |Outside(m, n)| + (if k.Int? && 1 <= k.n <= n then 0 else 1) == total
  {
    hide UpTo, IntKeys;
    var all := m.Keys + {k};
    InsideSize(all, n);
    SplitKeys(all, n);
    var out := all - Inside(all, n);
    if k.Int? && 1 <= k.n <= n {
      assert out == Outside(m, n);
    } else {
      assert out == Outside(m, n) + {k} && k !in Outside(m, n);
    }
  }

  /** The hash part that a rehash for `k` asks for is too large. */
  ghost predicate Overflows(m: map<Key, Val>, k: Key) {
    exists n: nat :: Best(IntKeys(m.Keys + {k}), n) && |m.Keys| + 1 - |UpTo(IntKeys(m.Keys + {k}), n)| > MAXASIZE
  }

  lemma OverflowsAt(m: map<Key, Val>, k: Key, n: nat)
    requires Best(IntKeys(m.Keys + {k}), n)
    ensures Overflows(m, k) <==> |m.Keys| + 1 - |UpTo(IntKeys(m.Keys + {k}), n)| > MAXASIZE
  {
    hide UpTo, IntKeys, Best;
    forall n2: nat | Best(IntKeys(m.Keys + {k}), n2) ensures n2 == n {
      BestOnce(IntKeys(m.Keys + {k}), n, n2);
    }
  }

  /** What a rehash for `k` has to count, but does not. */
  ghost function Unseen(arr: seq<Val>): set<int> {
    set n | MAXASIZE < n <= |arr| && UsedAt(arr, n)
  }

  /** It asks for a hash part that is not too large, but that becomes so while the
      entries are moved. */
  ghost predicate Loses(m: map<Key, Val>, k: Key, arr: seq<Val>) {
    exists n: nat :: Best(IntKeys(m.Keys + {k}), n)
      && |m.Keys| + 1 - |Unseen(arr)| - |UpTo(IntKeys(m.Keys + {k}), n)| <= MAXASIZE < |Outside(m, n)|
  }

  lemma LosesAt(m: map<Key, Val>, k: Key, arr: seq<Val>, n: nat)
    requires Best(IntKeys(m.Keys + {k}), n)
    ensures Loses(m, k, arr)
       <==> |m.Keys| + 1 - |Unseen(arr)| - |UpTo(IntKeys(m.Keys + {k}), n)| <= MAXASIZE < |Outside(m, n)|
  {
    hide UpTo, IntKeys, Best, Outside, Unseen;
    forall n2: nat | Best(IntKeys(m.Keys + {k}), n2) ensures n2 == n {
      BestOnce(IntKeys(m.Keys + {k}), n, n2);
    }
  }

  lemma AllSeen(arr: seq<Val>)
    requires |arr| <= MAXASIZE
    ensures Unseen(arr) == {}
  {
  }

  lemma UnseenOutside(arr: seq<Val>, node: seq<Node>, m: map<Key, Val>, n: nat)
    requires Models(arr, node, m) && n <= MAXASIZE
    ensures |Unseen(arr)| <= |Outside(m, n)|
  {
    var u := Unseen(arr);
    Wrapped(u, |arr|);
    assert u == UpTo(u, |arr|);
    forall k | k in Wrap(u) ensures k in Outside(m, n) {
      assert UsedAt(arr, k.n) && Int(k.n - 1 + 1) in m;
    }
    Smaller(Wrap(u), Outside(m, n));
  }

  lemma NothingLost(m: map<Key, Val>, k: Key, arr: seq<Val>)
    requires |arr| <= MAXASIZE && k !in m
    ensures !Loses(m, k, arr)
  {
    hide UpTo, IntKeys, Best, Outside, Unseen;
    AllSeen(arr);
    if Loses(m, k, arr) {
      var n: nat :| Best(IntKeys(m.Keys + {k}), n)
        && |m.Keys| + 1 - |Unseen(arr)| - |UpTo(IntKeys(m.Keys + {k}), n)| <= MAXASIZE < |Outside(m, n)|;
      SplitSizes(m, k, n);
    }
  }

  /** An array part with values at the indices above the limit only, more than the hash part
      can ever hold. */
  function LargeArray(v: Val): seq<Val> {
    seq(2 * MAXASIZE + 1, i => if i < MAXASIZE then Nil else v)
  }

  ghost function LargeMap(v: Val): map<Key, Val> {
    map k | k in Wrap(Unseen(LargeArray(v))) :: v
  }

  lemma {:induction false} LargeCount(v: Val, i: nat)
    requires v.Some? && 1 <= i <= 2 * MAXASIZE + 2
    ensures |ArrayInts(LargeArray(v), i)| == if i <= MAXASIZE + 1 then 0 else i - 1 - MAXASIZE
  {
    if i == 1 {
      assert ArrayInts(LargeArray(v), 1) == {};
    } else {
      LargeCount(v, i - 1);
      ArrayGrows(LargeArray(v), i - 1);
    }
  }

  lemma LargeSizes(v: Val)
    requires v.Some?
    ensures |Unseen(LargeArray(v))| == |LargeMap(v).Keys| == MAXASIZE + 1 && Models(LargeArray(v), [], LargeMap(v))
  {
    var arr, u, m := LargeArray(v), Unseen(LargeArray(v)), LargeMap(v);
    LargeCount(v, 2 * MAXASIZE + 2);
    assert forall n :: UsedAt(arr, n) <==> MAXASIZE < n <= 2 * MAXASIZE + 1;
    assert u == ArrayInts(arr, 2 * MAXASIZE + 2);
    Wrapped(u, 2 * MAXASIZE + 1);
    assert u == UpTo(u, 2 * MAXASIZE + 1);
    assert m.Keys == Wrap(u);
    forall i | 0 <= i < |arr|
      ensures if arr[i].Some? then Int(i + 1) in m && m[Int(i + 1)] == arr[i] else Int(i + 1) !in m
    {
      assert UsedAt(arr, i + 1) <==> arr[i].Some?;
    }
  }

  /** A new key makes it lose entries. */
  lemma LargeLoses(v: Val, k: Key)
    requires v.Some? && k.Other?
    ensures Models(LargeArray(v), [], LargeMap(v)) && Loses(LargeMap(v), k, LargeArray(v))
  {
    hide LargeArray, Pow2;
    var m := LargeMap(v);
    var s := IntKeys(m.Keys + {k});
    LargeSizes(v);
    forall j | 0 <= j <= MAXBITS ensures UpTo(s, Pow2(j)) == {} {
      Pow2Grows(j, MAXBITS);
    }
    assert Best(s, 0);
    assert UpTo(s, 0) == {};
    assert Outside(m, 0) == m.Keys;
  }

  // ----- entries on the move -----

  ghost predicate Sub(m: map<Key, Val>, full: map<Key, Val>) {
    forall k :: k in m ==> k in full && m[k] == full[k]
  }

  /** Of the keys `all`, with `k`, those that have been moved, `some`, hold all that
      belong to an array part of the best size `n`. */
  ghost predicate Steady(all: set<Key>, some: set<Key>, k: Key, n: nat) {
    && Best(IntKeys(all + {k}), n) && n <= MAXASIZE && some <= all && !(k.Int? && 1 <= k.n <= n)
    && (forall q :: q in all && q.Int? && 1 <= q.n <= n ==> q in some)
  }

  /** So a rehash on the way finds the same size. */
  lemma StillBest(all: set<Key>, some: set<Key>, k: Key, q: Key, n: nat)
    requires Steady(all, some, k, n) && q in all
    ensures Best(IntKeys(some + {q}), n)
  {
    hide Pow2;
    var s, t := IntKeys(some + {q}), IntKeys(all + {k});
    assert UpTo(s, n) == UpTo(t, n);
    forall j | 0 <= j <= MAXBITS && Pow2(j) > n ensures |UpTo(s, Pow2(j))| <= Pow2(j) / 2 {
      assert q in all + {k};
      Smaller(UpTo(s, Pow2(j)), UpTo(t, Pow2(j)));
    }
  }

  lemma StillMore(full: map<Key, Val>, m: map<Key, Val>, q: Key, n: nat)
    requires Sub(m, full) && q in full && q !in m && Best(IntKeys(m.Keys + {q}), n) && Overflows(m, q)
    ensures |Outside(full, n)| > MAXASIZE
  {
    hide UpTo, IntKeys, Best;
    OverflowsAt(m, q, n);
    SplitSizes(m, q, n);
    if q.Int? && 1 <= q.n <= n {
      Smaller(Outside(m, n), Outside(full, n));
    } else {
      Smaller(Outside(m, n) + {q}, Outside(full, n));
    }
  }

  /** When the keys outside the array part are as many as nodes can be, every node is
      used. */
  lemma AllUsed(arr: seq<Val>, node: seq<Node>, m: map<Key, Val>, n: nat, k: Key)
    requires Models(arr, node, m) && |arr| == n && |node| <= |Outside(m, n)| && k !in m
    ensures forall j :: 0 <= j < |node| ==> node[j].val.Some? && !node[j].key.KNil?
    ensures !Holds(node, k)
  {
    OutsideLive(arr, node, m, n);
    LiveBound(node, 0);
    SameSize(Outside(m, n), LiveKeys(node, 0));
  }

  lemma NotHeld(node: seq<Node>, arr: seq<Val>, m: map<Key, Val>, k: Key)
    requires Fresh(node) && Models(arr, node, m) && k !in m && Usable(k)
    ensures !Holds(node, k)
  {
  }

  lemma BestFits(s: set<int>, n: nat)
    requires Best(s, n)
    ensures n <= MAXASIZE
  {
    hide Pow2;
    if n > 0 {
      var i :| 0 <= i <= MAXBITS && n == Pow2(i);
      Pow2Grows(i, MAXBITS);
    }
  }

  function Min(a: nat, b: nat): nat {
    if a < b then a else b
  }

  // ----- room in a table that has just been resized -----

  ghost predicate Fresh(node: seq<Node>) {
    forall i :: 0 <= i < |node| ==> node[i].key.KNil? || (Usable(node[i].key) && node[i].val.Some?)
  }

  ghost function KeysOf(node: seq<Node>): set<Key> {
    set i | 0 <= i < |node| && Usable(node[i].key) :: node[i].key
  }

  lemma {:induction false} FullKeys(node: seq<Node>)
    requires forall i :: 0 <= i < |node| ==> Usable(node[i].key)
    requires forall i, j :: 0 <= i < j < |node| ==> node[i].key != node[j].key
    ensures |KeysOf(node)| == |node|
  {
    if node == [] {
      assert KeysOf(node) == {};
    } else {
      var n := |node| - 1;
      FullKeys(node[..n]);
      assert node[n].key !in KeysOf(node[..n]);
      assert KeysOf(node) == KeysOf(node[..n]) + {node[n].key} by {
        forall k | k in KeysOf(node) ensures k in KeysOf(node[..n]) + {node[n].key} {
          var i :| 0 <= i < |node| && Usable(node[i].key) && node[i].key == k;
          assert i < n ==> node[..n][i].key == k;
        }
        forall k | k in KeysOf(node[..n]) ensures k in KeysOf(node) {
          var i :| 0 <= i < n && node[..n][i].key == k;
          assert node[i].key == k;
        }
      }
    }
  }

  /** A free node is left while there are fewer keys than nodes. */
  lemma RoomLeft(h: Hasher, node: seq<Node>, ch: seq<seq<nat>>, s: set<Key>)
    requires HashOk(h, node, ch) && Fresh(node) && KeysOf(node) <= s && |s| < |node|
    ensures exists i :: 0 <= i < |node| && node[i].key.KNil?
  {
    if forall i :: 0 <= i < |node| ==> Usable(node[i].key) {
      FullKeys(node);
      Smaller(KeysOf(node), s);
    }
  }

  /** The keys that do not fit into an array part of size `n`. */
  ghost function Outside(m: map<Key, Val>, n: nat): set<Key> {
    set k | k in m && !(k.Int? && 1 <= k.n <= n)
  }

  lemma {:induction false} LiveBound(node: seq<Node>, i: nat)
    requires i <= |node|
    ensures |LiveKeys(node, i)| <= |node| - i
    ensures |LiveKeys(node, i)| == |node| - i ==> forall j :: i <= j < |node| ==> node[j].val.Some?
    decreases |node| - i
  {
    if i == |node| {
      assert LiveKeys(node, i) == {};
    } else {
      LiveBound(node, i + 1);
      if node[i].val.Some? {
        assert LiveKeys(node, i) == LiveKeys(node, i + 1) + {node[i].key};
      } else {
        assert LiveKeys(node, i) == LiveKeys(node, i + 1);
      }
    }
  }

  lemma OutsideLive(arr: seq<Val>, node: seq<Node>, m: map<Key, Val>, n: nat)
    requires Models(arr, node, m) && |arr| <= n
    ensures Outside(m, n) <= LiveKeys(node, 0)
  {
    forall k | k in Outside(m, n) ensures k in LiveKeys(node, 0) {
      assert Holds(node, k);
      var j :| 0 <= j < |node| && node[j].key == k;
      assert node[j].val.Some?;
    }
  }

  /** What a larger array part leaves to the hash part was there before. */
  lemma OutsideFits(arr: seq<Val>, node: seq<Node>, m: map<Key, Val>, n: nat)
    requires Models(arr, node, m) && |arr| <= n
    ensures |Outside(m, n)| <= |node|
  {
    OutsideLive(arr, node, m, n);
    LiveBound(node, 0);
    Smaller(Outside(m, n), LiveKeys(node, 0));
  }

  /** If all nodes are needed for what a larger array part leaves to them, then it
      covers none of their keys. */
  lemma NoneShadowed(arr: seq<Val>, node: seq<Node>, m: map<Key, Val>, n: nat)
    requires Models(arr, node, m) && |arr| <= n && |node| <= |Outside(m, n)|
    ensures Models(arr + seq(n - |arr|, i => Nil), node, m)
  {
    var arr2 := arr + seq(n - |arr|, i => Nil);
    OutsideLive(arr, node, m, n);
    LiveBound(node, 0);
    SameSize(Outside(m, n), LiveKeys(node, 0));
    forall i | 0 <= i < |node|
      ensures node[i].val.Some? && node[i].key in Outside(m, n) && !Indexes(arr2, node[i].key)
    {
      assert node[i].key in LiveKeys(node, 0);
    }
    forall q | q in m && !Indexes(arr, q) ensures !Indexes(arr2, q) {
      assert Holds(node, q);
      var j :| 0 <= j < |node| && node[j].key == q;
    }
  }

  lemma SameSize(a: set<Key>, b: set<Key>)
    requires a <= b && |b| <= |a|
    ensures a == b
  {
    assert b == a + (b - a);
  }

  lemma OneLess(node: seq<Node>, m: map<Key, Val>, s: set<Key>, k: Key)
    requires Fresh(node) && NodeModels(node, m) && k !in m && k in s && KeysOf(node) <= s && |s| <= |node|
    ensures KeysOf(node) <= s - {k} && |s - {k}| < |node|
  {
    assert s == (s - {k}) + {k};
  }

  lemma ReinsertedFresh(before: seq<Node>, mid: seq<Node>, node: seq<Node>, k: Key, v: Val, s: set<Key>, inArray: bool)
    requires Fresh(before) && KeysOf(before) <= s && |mid| == |before| == |node| && v.Some? && Usable(k)
    requires if inArray then mid == before else Placed(before, mid, k) && k in s
    requires forall j :: 0 <= j < |node| ==> node[j] == mid[j] || (node[j].key == k && node[j].val == v)
    requires forall j :: 0 <= j < |node| && node[j].key == k ==> node[j].val == v
    requires forall j :: 0 <= j < |node| ==> node[j].key == mid[j].key
    ensures Fresh(node) && KeysOf(node) <= s
  {
    forall j | 0 <= j < |node| && !node[j].key.KNil?
      ensures Usable(node[j].key) && node[j].val.Some? && node[j].key in s
    {
      if node[j].key != k {
        assert node[j] == mid[j];
        var b :| 0 <= b < |before| && before[b].key == mid[j].key && before[b].val == mid[j].val;
        assert before[b].key in KeysOf(before);
      } else if inArray {
        assert before[j].key in KeysOf(before);
      }
    }
  }

  lemma AllMoved(oldArr: seq<Val>, oldNode: seq<Node>, full: map<Key, Val>, m: map<Key, Val>)
    requires Models(oldArr, oldNode, full)
    requires forall k :: k in m ==> k in full && m[k] == full[k]
    requires forall k :: k in full && Indexes(oldArr, k) ==> k in m
    requires forall b :: 0 <= b < |oldNode| && oldNode[b].val.Some? ==> oldNode[b].key in m
    ensures m == full
  {
    assert forall k :: k in full ==> Indexes(oldArr, k) || Holds(oldNode, k);
  }

  /** An emptied hash part, and an array part that holds part of what it held. */
  lemma Emptied(oldArr: seq<Val>, oldNode: seq<Node>, full: map<Key, Val>, arr: seq<Val>, node: seq<Node>,
                m: map<Key, Val>)
    requires Models(oldArr, oldNode, full)
    requires forall i :: 0 <= i < |node| ==> node[i].key.KNil? && node[i].val.Nil?
    requires forall i :: 0 <= i < |arr| ==> arr[i] == if i < |oldArr| then oldArr[i] else Nil
    requires m == map k | k in full && Indexes(arr, k) && Indexes(oldArr, k) :: full[k]
    ensures Models(arr, node, m) && KeysOf(node) == {} && Fresh(node)
  {
  }

  /** A size that `lsizenode` can express, or that of the dummy node. */
  ghost predicate PowerOrNone(n: nat) {
    n == 0 || exists b: nat :: n == Pow2(b)
  }

  class Table {
    const h: Hasher
    var arr: seq<Val>
    var node: seq<Node>          // empty: the dummy node
    var lastfree: nat            // every position from here on has been used
    ghost var ch: seq<seq<nat>>
    ghost var model: map<Key, Val>

    ghost predicate Valid()
      reads this
    {
      && HashOk(h, node, ch) && Models(arr, node, model)
      && lastfree <= |node| && (forall i :: lastfree <= i < |node| ==> !node[i].key.KNil?)
      && |node| <= MAXASIZE && PowerOrNone(|node|)
    }

    /** The node that holds `k`. */
    method Find(k: Key) returns (i: int)
      requires Valid() && Usable(k)
      ensures i == NULL ==> !Holds(node, k)
      ensures i != NULL ==> 0 <= i < |node| && node[i].key == k
    {
      hide Models;
      if |node| == 0 {
        return NULL;
      }
      ghost var m := Main(h, k, |node|);
      i := Main(h, k, |node|);
      StartFrom(h, node, ch, k);
      hide HashOk, ChainAt, NotBefore;
      while i != NULL
        invariant i == NULL ==> !Holds(node, k)
        invariant i != NULL ==> 0 <= i < |node| && i in ch[m] && NotBefore(node, ch[m], i, k)
        decreases if i == NULL then 0 else |ch[m]| - Pos(ch[m], i)
      {
        if node[i].key == k {
          return;
        }
        StepOn(h, node, ch, m, i, k);
        i := node[i].next;
      }
    }

    /** luaH_get. */
    method Get(k: Key) returns (v: Val)
      requires Valid() && !k.Dead?
      ensures v == if k in model then model[k] else Nil
    {
      if k.KNil? || k.NaN? {
        return Nil;
      }
      if Indexes(arr, k) {
        return arr[k.n - 1];
      }
      var i := Find(k);
      return if i == NULL then Nil else node[i].val;
    }

    /** getfreepos: the last node never used. */
    method GetFreePos() returns (n: int)
      requires lastfree <= |node| && forall i :: lastfree <= i < |node| ==> !node[i].key.KNil?
      modifies this`lastfree
      ensures n == NULL ==> lastfree == 0 && forall i :: 0 <= i < |node| ==> !node[i].key.KNil?
      ensures n != NULL ==> 0 <= n == lastfree < |node| && node[n].key.KNil?
      ensures forall i :: lastfree < i < |node| ==> !node[i].key.KNil?
    {
      while lastfree > 0
        invariant lastfree <= |node| && forall i :: lastfree <= i < |node| ==> !node[i].key.KNil?
      {
        lastfree := lastfree - 1;
        if node[lastfree].key.KNil? {
          return lastfree;
        }
      }
      return NULL;
    }

    /** The node before `m` in its chain. */
    method Previous(m: nat) returns (o: nat)
      requires HashOk(h, node, ch) && m < |node| && Usable(node[m].key) && Main(h, node[m].key, |node|) != m
      ensures o < |node| && m in ch[m] && o in ch[m] && node[o].next == m && o != m
    {
      KeyInChain(h, node, ch, m);
      o := Main(h, node[m].key, |node|);
      ghost var c := ch[o];
      assert ChainAt(node, ch, o) && ChainAt(node, ch, m);
      while node[o].next != m
        invariant o < |node| && o in c && c == ch[m] && Pos(c, o) < Pos(c, m) && ChainAt(node, ch, o)
        decreases |c| - Pos(c, o)
      {
        assert Pos(c, o) + 1 <= Pos(c, m) < |c|;
        NextInChain(node, ch, o);
        PosIs(c, Pos(c, m));
        o := node[o].next;
      }
    }

    /** `k` is new, and there is no node for it. */
    ghost predicate Full(k: Key)
      reads this
    {
      && !Indexes(arr, k) && !Holds(node, k) && (|node| > 0 ==> node[Main(h, k, |node|)].val.Some?)
      && (forall j :: 0 <= j < |node| ==> !node[j].key.KNil?)
    }

    /** newkey, when there is room: false when there is no free node. */
    method Place(k: Key) returns (ok: bool, i: nat)
      requires Valid() && Usable(k) && !Holds(node, k) && !Indexes(arr, k)
      modifies this`node, this`lastfree, this`ch
      ensures ok <==> !old(Full(k))
      ensures !ok ==> node == old(node) && ch == old(ch) && lastfree <= |node|
      ensures !ok ==> forall j :: 0 <= j < |node| ==> !node[j].key.KNil?
      ensures ok ==> HashOk(h, node, ch) && Placed(old(node), node, k)
      ensures ok ==> i < |node| && node[i].key == k && node[i].val.Nil?
      ensures ok ==> lastfree <= |node| && forall j :: lastfree <= j < |node| ==> !node[j].key.KNil?
    {
      hide HashOk, Models, Holds, Placed, Displace, Behind, Rechain, Detached, InsertAfter, Pos;
      NodeShape(h, node, ch, arr, model);
      i := 0;
      if |node| == 0 {
        return false, 0;
      }
      var m := Main(h, k, |node|);
      if node[m].val.Nil? {
        PlaceHere(h, node, ch, k, m);
        PlacedHere(node, k, m);
        node := node[m := node[m].(key := k)];
        return true, m;
      }
      var n := GetFreePos();
      if n == NULL {
        return false, 0;
      }
      if Main(h, node[m].key, |node|) != m {
        var o := Previous(m);
        NoKeyOfVirgin(h, node, ch, m, n);
        PlaceInstead(h, node, ch, k, m, n, o);
        PlacedInstead(node, k, m, n, o);
        ch := Detached(ch, m, n);
        node := Displace(node, k, m, n, o);
        return true, m;
      }
      NoKeyOfVirgin(h, node, ch, m, n);
      PlaceBehind(h, node, ch, k, m, n);
      PlacedBehind(node, k, m, n);
      ch := Rechain(ch, InsertAfter(ch[m], Pos(ch[m], m), n));
      node := Behind(node, k, m, n);
      return true, n;
    }

    ghost predicate SlotFor(slot: Slot, k: Key)
      reads this
    {
      match slot
      case InArray(i) => i < |arr| && k == Int(i + 1)
      case InNode(i) => i < |node| && node[i].key == k
    }

    method Store(slot: Slot, ghost k: Key, v: Val)
      requires Valid() && SlotFor(slot, k) && Usable(k)
      modifies this`arr, this`node, this`model
      ensures Valid() && model == (if v.Some? then old(model)[k := v] else old(model) - {k})
      ensures |arr| == |old(arr)| && |node| == |old(node)|
      ensures forall j :: 0 <= j < |node| ==> node[j] == old(node)[j] || (node[j].key == k && node[j].val == v)
      ensures forall j :: 0 <= j < |node| ==> node[j].key == old(node)[j].key
      ensures forall j :: 0 <= j < |node| && node[j].key == k ==> node[j].val == v
    {
      StoredHash(h, node, ch, slot, v);
      StoredModels(arr, node, model, slot, k, v);
      match slot {
        case InArray(i) => arr := arr[i := v];
        case InNode(i) => node := node[i := node[i].(val := v)];
      }
      model := if v.Some? then model[k := v] else model - {k};
    }

    // ----- luaH_set and what it may set off -----

    /** There is room for one key more than `s`. */
    ghost predicate Room(s: set<Key>)
      reads this
    {
      Fresh(node) && KeysOf(node) <= s && |s| < |node|
    }

    /** At level 0 there is room for a new key, at level 1 all entries of the array part
        are counted in a rehash, and at level 2 perhaps not. */
    ghost predicate Level(level: nat, k: Key, s: set<Key>)
      reads this
    {
      && (level == 0 && !Indexes(arr, k) && !Holds(node, k) ==> Room(s))
      && (level == 1 ==> |arr| <= MAXASIZE) && (level >= 2 ==> level == 2 && |arr| > MAXASIZE)
    }

    /** luaH_set: the place of the value of `k`, which may be a new one. */
    method SetSlot(k: Key, ghost level: nat, ghost s: set<Key>) returns (ok: bool, slot: Slot)
      requires Valid() && Usable(k) && Level(level, k, s)
      modifies this
      ensures Valid() && Sub(model, old(model)) && (ok ==> model == old(model) && SlotFor(slot, k))
      ensures ok <==> !(old(Full(k)) && Overflows(old(model), k))
      ensures model == old(model) <==> !(level == 2 && old(Full(k)) && Loses(old(model), k, old(arr)))
      ensures level <= 1 ==> |arr| == |old(arr)| || Best(IntKeys(model.Keys + {k}), |arr|)
      ensures level == 0 ==> ok && arr == old(arr) && |node| == |old(node)|
      ensures level == 0 && (Indexes(old(arr), k) || Holds(old(node), k)) ==> node == old(node)
      ensures level == 0 && !Indexes(old(arr), k) && !Holds(old(node), k) ==> Placed(old(node), node, k)
      decreases level, 4
    {
      hide HashOk, Models, Best, Overflows, Loses, Placed, Fresh, KeysOf;
      if Indexes(arr, k) {
        return true, InArray(k.n - 1);
      }
      var i := Find(k);
      if i != NULL {
        return true, InNode(i);
      }
      ok, slot := NewKey(k, level, s);
    }

    /** newkey.  In a table with room it does not rehash; so a rehash happens at
        most once, or twice if the first one did not count all entries. */
    method NewKey(k: Key, ghost level: nat, ghost s: set<Key>) returns (ok: bool, slot: Slot)
      requires Valid() && Usable(k) && !Indexes(arr, k) && !Holds(node, k) && Level(level, k, s)
      modifies this
      ensures Valid() && Sub(model, old(model)) && (ok ==> model == old(model) && SlotFor(slot, k))
      ensures ok <==> !(old(Full(k)) && Overflows(old(model), k))
      ensures model == old(model) <==> !(level == 2 && old(Full(k)) && Loses(old(model), k, old(arr)))
      ensures level <= 1 ==> |arr| == |old(arr)| || Best(IntKeys(model.Keys + {k}), |arr|)
      ensures level == 0 ==> ok && arr == old(arr) && |node| == |old(node)| && Placed(old(node), node, k)
      decreases level, 3
    {
      hide HashOk, Best, Overflows, Loses, Fresh, KeysOf, IntKeys;
      ghost var before := node;
      if level == 0 {
        RoomLeft(h, node, ch, s);
      }
      assert k !in model;
      var i;
      ok, i := Place(k);
      slot := InNode(i);
      if ok {
        PlacedModels(arr, before, model, node, k);
        return;
      }
      ghost var s2;
      ok, s2 := Rehash(k, level);
      if ok {
        ok, slot := SetSlot(k, level - 1, s2);
      }
    }

    /** setnodevector: a new hash part, a power of two big unless it is empty; false
        stands for the error "table overflow". */
    method SetNodeVector(size: nat) returns (ok: bool)
      modifies this`node, this`lastfree, this`ch
      ensures ok <==> size <= MAXASIZE
      ensures !ok ==> node == old(node) && lastfree == old(lastfree) && ch == old(ch)
      ensures ok ==>
                HashOk(h, node, ch) && lastfree == |node| && size <= |node| <= MAXASIZE && (size == 0 ==> node == [])
      ensures ok ==> PowerOrNone(|node|) && (size > 0 ==> |node| < 2 * size)
      ensures ok ==> forall i :: 0 <= i < |node| ==> node[i].key.KNil? && node[i].val.Nil?
    {
      hide Pow2;
      if size > 0 {
        SliceOf(size, MAXBITS);
        if CeilLog2(size) > MAXBITS {
          return false;
        }
        Pow2Grows(CeilLog2(size), MAXBITS);
        if CeilLog2(size) > 0 {
          Pow2Double(CeilLog2(size) - 1);
        } else {
          Pow2Double(0);
        }
      }
      var n := if size == 0 then 0 else Pow2(CeilLog2(size));
      node := seq(n, i => Node(KNil, Nil, NULL));
      lastfree := n;
      ch := seq(n, i requires 0 <= i < n => [i]);
      forall i | 0 <= i < n ensures ChainAt(node, ch, i) {
        assert Pos([i], i) == 0;
      }
      ok := true;
    }

    /** Moves one entry to the resized table. */
    method Reinsert(k: Key, v: Val, ghost level: nat, ghost outside: set<Key>) returns (ok: bool)
      requires Valid() && Usable(k) && v.Some? && k !in model && level <= 1
      requires level == 0 ==>
                 Fresh(node) && KeysOf(node) <= outside && |outside| <= |node| && (!Indexes(arr, k) ==> k in outside)
      requires level == 1 ==> |arr| <= MAXASIZE && Best(IntKeys(model.Keys + {k}), |arr|)
      modifies this
      ensures Valid() && model == (if ok then old(model)[k := v] else old(model)) && |arr| == |old(arr)|
      ensures level == 0 ==> ok && Fresh(node) && |node| == |old(node)| && KeysOf(node) <= outside
      ensures !ok ==> Overflows(model, k)
      decreases level, 5
    {
      hide HashOk, Best, Overflows, Loses, Placed, IntKeys;
      ghost var before, na := node, |arr|;
      if level == 0 {
        NotHeld(node, arr, model, k);
        if !Indexes(arr, k) {
          OneLess(node, model, outside, k);
        }
      }
      var slot;
      ok, slot := SetSlot(k, level, outside - {k});
      if level == 1 && |arr| != na {
        BestOnce(IntKeys(model.Keys + {k}), na, |arr|);
      }
      if ok {
        ghost var mid := node;
        Store(slot, k, v);
        if level == 0 {
          ReinsertedFresh(before, mid, node, k, v, outside, Indexes(arr, k));
        }
      }
    }

    /** Some entries have been moved: to a table with room for all of them, */
    ghost predicate Moving(full: map<Key, Val>, na: nat, nh: nat)
      reads this
    {
      && Valid() && Fresh(node) && |arr| == na && |node| >= nh && (if nh > 0 then |node| < 2 * nh else node == [])
      && KeysOf(node) <= Outside(full, na) && |Outside(full, na)| <= nh && Sub(model, full)
    }

    /** or to one that has to be rehashed on the way, without a change of its array
        part. */
    ghost predicate Drifting(full: map<Key, Val>, na: nat, k: Key)
      reads this
    {
      Valid() && |arr| == na && Sub(model, full) && Steady(full.Keys, model.Keys, k, na)
    }

    ghost predicate Moves(level: nat, full: map<Key, Val>, na: nat, nh: nat, k: Key)
      reads this
    {
      if level == 1 then Moving(full, na, nh) else level == 2 && Drifting(full, na, k)
    }

    /** One of the entries. */
    method Move(q: Key, v: Val, nasize: nat, nhsize: nat, ghost full: map<Key, Val>, ghost level: nat, ghost k: Key)
      returns (ok: bool)
      requires Moves(level, full, nasize, nhsize, k) && Usable(q) && v.Some? && q in full && full[q] == v && q !in model
      modifies this
      ensures Moves(level, full, nasize, nhsize, k) && model == (if ok then old(model)[q := v] else old(model))
      ensures !ok ==> level == 2 && |Outside(full, nasize)| > MAXASIZE
      decreases level, -1
    {
      hide HashOk, Models, Best, Overflows, Fresh, KeysOf;
      if level == 2 {
        StillBest(full.Keys, model.Keys, k, q, nasize);
      }
      ok := Reinsert(q, v, level - 1, Outside(full, nasize));
      if !ok {
        StillMore(full, model, q, nasize);
      }
    }

    /** The entries of the slice that vanishes from the array part. */
    method MoveSlice(oldArr: seq<Val>, nasize: nat, nhsize: nat, ghost full: map<Key, Val>, ghost level: nat,
                     ghost k: Key)
      returns (ok: bool)
      requires Moves(level, full, nasize, nhsize, k) && ArrayModels(oldArr, full)
      requires forall q :: q in model <==> q in full && q.Int? && 1 <= q.n <= nasize && Indexes(oldArr, q)
      modifies this
      ensures Moves(level, full, nasize, nhsize, k)
      ensures if ok then forall q :: q in model <==> q in full && Indexes(oldArr, q)
              else level == 2 && |Outside(full, nasize)| > MAXASIZE && model != full
      decreases level, 0
    {
      hide Moves;
      var i := nasize;
      while i < |oldArr|
        invariant nasize <= i && Moves(level, full, nasize, nhsize, k)
        invariant forall q :: q in model <==> q in full && q.Int? && 1 <= q.n <= i && Indexes(oldArr, q)
      {
        if oldArr[i].Some? {
          ok := Move(Int(i + 1), oldArr[i], nasize, nhsize, full, level, k);
          if !ok {
            return;
          }
        }
        i := i + 1;
      }
      ok := true;
    }

    /** The entries of the old hash part. */
    method MoveNodes(oldNode: seq<Node>, nasize: nat, nhsize: nat, ghost full: map<Key, Val>, ghost level: nat,
                     ghost k: Key)
      returns (ok: bool)
      requires Moves(level, full, nasize, nhsize, k) && NodeModels(oldNode, full)
      requires forall b :: 0 <= b < |oldNode| && oldNode[b].val.Some? ==>
                 Usable(oldNode[b].key) && oldNode[b].key !in model
      requires KeysOnce(oldNode)
      modifies this
      ensures Moves(level, full, nasize, nhsize, k)
      ensures if ok then (forall b :: 0 <= b < |oldNode| && oldNode[b].val.Some? ==> oldNode[b].key in model)
                         && (forall q :: q in old(model) ==> q in model)
              else level == 2 && |Outside(full, nasize)| > MAXASIZE && model != full
      decreases level, 0
    {
      hide Moves;
      var j := |oldNode|;
      while j > 0
        invariant 0 <= j <= |oldNode| && Moves(level, full, nasize, nhsize, k)
        invariant forall b :: j <= b < |oldNode| && oldNode[b].val.Some? ==> oldNode[b].key in model
        invariant forall b :: 0 <= b < j && oldNode[b].val.Some? ==> oldNode[b].key !in model
        invariant forall q :: q in old(model) ==> q in model
      {
        j := j - 1;
        if oldNode[j].val.Some? {
          ok := Move(oldNode[j].key, oldNode[j].val, nasize, nhsize, full, level, k);
          if !ok {
            return;
          }
        }
      }
      ok := true;
    }

    /** resize: the array part gets size `nasize`, the hash part at first `nhsize` nodes.
        At level 1 they are enough, and every entry finds its new place without another
        rehash.  A hash part that would be too large is refused when the array part has
        grown already: no entry is lost if all that was asked for is one more key.  At
        level 2 the nodes are too few; then entries are lost if the hash part becomes
        too large on the way. */
    method Resize(nasize: nat, nhsize: nat, ghost level: nat, ghost k: Key) returns (ok: bool)
      requires Valid() && 1 <= level <= 2 && (level == 1 ==> |Outside(model, nasize)| <= nhsize)
      requires level == 2 ==> nasize <= MAXASIZE < |arr| && Best(IntKeys(model.Keys + {k}), nasize) && !Indexes(arr, k)
      modifies this
      ensures ok ==> nhsize <= MAXASIZE && Valid() && model == old(model) && |arr| == nasize
      ensures |arr| == |old(arr)| || |arr| == nasize
      ensures level == 1 && nhsize <= MAXASIZE ==> ok && Moving(model, nasize, nhsize)
      ensures level == 1 && !ok && nhsize <= |Outside(old(model), nasize)| + 1 ==> Valid() && model == old(model)
      ensures level == 2 && nhsize <= MAXASIZE ==> (ok <==> |Outside(old(model), nasize)| <= MAXASIZE)
      ensures level == 2 ==> Valid() && Sub(model, old(model)) && (!ok ==> (model == old(model) <==> nhsize > MAXASIZE))
      decreases level, 1
    {
      hide ChainAt, KeyAt, Fresh, KeysOf, NodeModels, ArrayModels, Best, Moves;
      var oldArr, oldNode := arr, node;
      ghost var full := model;
      if nasize > |arr| {
        arr := arr + seq(nasize - |arr|, i => Nil);
      }
      ok := SetNodeVector(nhsize);
      if !ok {
        if nasize > |oldArr| && |node| <= |Outside(full, nasize)| {
          NoneShadowed(oldArr, node, full, nasize);
        }
        return;
      }
      if nasize < |arr| {
        arr := arr[..nasize];
      }
      model := map q | q in full && Indexes(arr, q) && Indexes(oldArr, q) :: full[q];
      Emptied(oldArr, oldNode, full, arr, node, model);
      assert Moves(level, full, nasize, nhsize, k) by {
        MovesFirst(level, full, nasize, nhsize, k);
      }
      ok := MoveSlice(oldArr, nasize, nhsize, full, level, k);
      if ok {
        ok := MoveNodes(oldNode, nasize, nhsize, full, level, k);
      }
      MovesLast(level, full, nasize, nhsize, k);
      if ok {
        AllMoved(oldArr, oldNode, full, model);
        OutsideFits(arr, node, model, nasize);
      }
    }

    lemma MovesFirst(level: nat, full: map<Key, Val>, na: nat, nh: nat, k: Key)
      requires Valid() && |arr| == na && Sub(model, full) && KeysOf(node) == {} && Fresh(node) && 1 <= level <= 2
      requires level == 1 ==> |Outside(full, na)| <= nh <= |node| && (if nh > 0 then |node| < 2 * nh else node == [])
      requires level == 2 ==> na <= MAXASIZE && Best(IntKeys(full.Keys + {k}), na) && !(k.Int? && 1 <= k.n <= na)
      requires level == 2 ==> forall q :: q in full && q.Int? && 1 <= q.n <= na ==> q in model
      ensures Moves(level, full, na, nh, k)
    {
    }

    lemma MovesLast(level: nat, full: map<Key, Val>, na: nat, nh: nat, k: Key)
      requires Moves(level, full, na, nh, k)
      ensures Valid() && |arr| == na && Sub(model, full) && (level == 1 ==> Moving(full, na, nh))
    {
    }

    /** luaH_resizearray, as the interpreter calls it: the array part grows. */
    method ResizeArray(nasize: nat)
      requires Valid() && |arr| <= nasize
      modifies this
      ensures Valid() && model == old(model) && |arr| == nasize
    {
      hide HashOk, Models, Outside, Fresh, KeysOf, Best;
      OutsideFits(arr, node, model, nasize);
      var ok := Resize(nasize, |node|, 1, KNil);
    }

    /** numusearray: counts the keys of the array part, slice by slice, as far as the
        largest slice goes. */
    method NumUseArray() returns (nums: seq<nat>, ause: nat)
      ensures Counts(nums, Seen(arr)) && ause == |Seen(arr)|
    {
      hide Pow2, Slice;
      nums, ause := seq(MAXBITS + 1, i => 0), 0;
      var i, lg, ttlg := 1, 0, 1;
      NoneCounted(arr);
      Pow2Double(0);
      while lg <= MAXBITS
        invariant 0 <= lg <= MAXBITS + 1 && ttlg == Pow2(lg) && Counts(nums, ArrayInts(arr, i))
        invariant i == (if lg == 0 then 1 else Min(Pow2(lg - 1), |arr|) + 1) && ause == |ArrayInts(arr, i)|
      {
        var lc, lim := 0, ttlg;
        if lim > |arr| {
          lim := |arr|;
          if i > lim {
            Pow2Grows(lg, MAXBITS);
            break;
          }
        }
        if lg > 0 {
          Pow2Double(lg - 1);
        }
        ghost var was := ArrayInts(arr, i);
        while i <= lim
          invariant 1 <= i <= lim + 1 && (lg > 0 ==> Pow2(lg - 1) < i)
          invariant forall b :: 0 <= b <= MAXBITS ==>
                      nums[b] + (if b == lg then lc else 0) == |Slice(ArrayInts(arr, i), b)|
          invariant ause + lc == |ArrayInts(arr, i)|
        {
          ArrayStep(arr, i, lg);
          if arr[i - 1].Some? {
            lc := lc + 1;
          }
          i := i + 1;
        }
        nums := nums[lg := nums[lg] + lc];
        ause := ause + lc;
        Pow2Double(lg);
        lg, ttlg := lg + 1, ttlg * 2;
      }
    }

    /** numusehash: counts the entries of the hash part, and among them the integer
        keys. */
    method NumUseHash(nums0: seq<nat>, ghost s: set<int>) returns (nums: seq<nat>, total: nat, ause: nat)
      requires Counts(nums0, s) && NewInts(node, s)
      requires KeysOnce(node)
      requires LiveUsable(node)
      ensures Counts(nums, s + NodeInts(node, 0)) && total == |LiveKeys(node, 0)|
      ensures ause == |UpTo(s + NodeInts(node, 0), Pow2(MAXBITS))| - |UpTo(s, Pow2(MAXBITS))|
    {
      hide Pow2, Slice, UpTo, Counted, NodeInts, LiveKeys, Counts, KeysOnce, LiveUsable, NewInts;
      nums, total, ause := nums0, 0, 0;
      var i := |node|;
      CountedEnds(node, s);
      while i > 0
        invariant 0 <= i <= |node| && Counts(nums, Counted(node, i, s)) && total == |LiveKeys(node, i)|
        invariant ause == |UpTo(Counted(node, i, s), Pow2(MAXBITS))| - |UpTo(s, Pow2(MAXBITS))|
      {
        i := i - 1;
        NodeStep(node, i, s);
        if node[i].val.Some? {
          if node[i].key.Int? {
            var c;
            nums, c := CountInt(node[i].key.n, nums, Counted(node, i + 1, s));
            ause := ause + c;
          }
          total := total + 1;
        }
      }
    }

    /** Counts all entries and the new key, and the integers among them. */
    method CountAll(k: Key) returns (nums: seq<nat>, nasize: nat, total: nat)
      requires Valid() && Usable(k) && k !in model
      ensures Counts(nums, IntKeys(model.Keys + {k})) && total == |model.Keys| + 1 - |Unseen(arr)|
      ensures nasize == |UpTo(IntKeys(model.Keys + {k}), Pow2(MAXBITS))|
    {
      hide Pow2, Slice, UpTo, ChainAt, KeyAt, Counts, IntKeys, ArrayInts, NodeInts;
      AllKeys(arr, node, model);
      SeenPart(arr, node);
      nums, nasize := NumUseArray();
      total := nasize;
      var t, ause;
      nums, t, ause := NumUseHash(nums, Seen(arr));
      nasize, total := nasize + ause, total + t + 1;
      SeenEnough(arr, NodeInts(node, 0), nums);
      IntKeysPlus(model.Keys, k);
      if k.Int? {
        var c;
        nums, c := CountInt(k.n, nums, IntKeys(model.Keys));
        nasize := nasize + c;
      }
    }

    /** rehash: the array part gets the largest size that is more than half used,
        counting the new key, and the hash part has room for all other keys that were
        counted. */
    method Rehash(k: Key, ghost level: nat) returns (ok: bool, ghost s: set<Key>)
      requires Valid() && Usable(k) && k !in model && !Indexes(arr, k) && level >= 1 && Level(level, k, {})
      modifies this
      ensures Valid() && Sub(model, old(model)) && (ok ==> model == old(model) && |arr| <= MAXASIZE)
      ensures ok ==> Best(IntKeys(model.Keys + {k}), |arr|)
      ensures |arr| == |old(arr)| || Best(IntKeys(old(model).Keys + {k}), |arr|)
      ensures level == 1 ==>
                model == old(model) && (ok <==> !Overflows(model, k)) && (ok && !Indexes(arr, k) ==> Room(s))
      ensures level == 2 ==> if ok then Overflows(model, k) ==> Full(k) else Overflows(old(model), k)
      ensures level == 2 ==> (model == old(model) <==> !Loses(old(model), k, old(arr)))
      decreases level, 2
    {
      hide Pow2, UpTo, HashOk, Models, Best, Overflows, Loses, Fresh, KeysOf, Outside, IntKeys, Unseen;
      var nums, nasize, totaluse := CountAll(k);
      var n, na := ComputeSizes(nums, nasize, IntKeys(model.Keys + {k}));
      ghost var full, oldArr := model, arr;
      SplitSizes(model, k, n);
      BestFits(IntKeys(model.Keys + {k}), n);
      OverflowsAt(model, k, n);
      LosesAt(model, k, arr, n);
      UnseenOutside(arr, node, model, n);
      if level == 1 {
        AllSeen(arr);
      }
      ok := Resize(n, totaluse - na, level, k);
      s := Outside(model, n);
      if ok && level == 2 && Overflows(full, k) {
        AllUsed(arr, node, model, n, k);
      }
    }

    constructor (hasher: Hasher)
      ensures Valid() && model == map[] && h == hasher && arr == [] && node == []
    {
      h := hasher;
      arr, node, lastfree, ch, model := [], [], 0, [], map[];
    }

    /** The sizes with which luaH_new starts a table. */
    method Init(narray: nat, nhash: nat) returns (ok: bool)
      requires Valid() && arr == [] && node == []
      modifies this
      ensures Valid() && model == map[] && |arr| == narray && (ok <==> nhash <= MAXASIZE) && (ok ==> |node| >= nhash)
      ensures ok && nhash > 0 ==> |node| < 2 * nhash
    {
      assert forall k :: k !in model;
      arr := seq(narray, i => Nil);
      ok := SetNodeVector(nhash);
    }

    /** luaH_set with the store that follows it. */
    method Set(k: Key, v: Val) returns (st: Status)
      requires Valid() && !k.Dead?
      modifies this
      ensures Valid()
      ensures st == (if k.KNil? then NilIndex else if k.NaN? then NaNIndex
                     else if old(Full(k)) && Overflows(old(model), k) then Overflow else Done)
      ensures st.Overflow? ==> |old(model)| >= MAXASIZE
      ensures st.Overflow? ==> Sub(model, old(model)) && (model == old(model) <==> !Loses(old(model), k, old(arr)))
      ensures !st.Overflow? ==>
                model == if !st.Done? then old(model) else if v.Some? then old(model)[k := v] else old(model) - {k}
    {
      if k.KNil? {
        return NilIndex;
      }
      if k.NaN? {
        return NaNIndex;
      }
      hide HashOk, Best, Loses;
      if |arr| <= MAXASIZE && k !in model {
        NothingLost(model, k, arr);
      }
      var ok, slot := SetSlot(k, if |arr| <= MAXASIZE then 1 else 2, {});
      if !ok {
        return Overflow;
      }
      Store(slot, k, v);
      return Done;
    }

    /** The collector gives up the key of an entry without a value. */
    method RemoveEntry(i: nat)
      requires Valid() && i < |node| && Usable(node[i].key) && node[i].val.Nil?
      modifies this`node
      ensures Valid() && model == old(model)
    {
      RemovedHash(h, node, ch, i);
      ghost var before := node;
      node := node[i := node[i].(key := Dead)];
      forall q | q in model ensures Indexes(arr, q) || Holds(node, q) {
        if !Indexes(arr, q) {
          var j :| 0 <= j < |before| && before[j].key == q;
          assert before[j].val.Some? && node[j].key == q;
        }
      }
    }
  }
  lemma RemovedHash(h: Hasher, node: seq<Node>, ch: seq<seq<nat>>, i: nat)
    requires HashOk(h, node, ch) && i < |node| && Usable(node[i].key)
    ensures HashOk(h, node[i := node[i].(key := Dead)], ch)
  {
    var node2 := node[i := node[i].(key := Dead)];
    forall j | 0 <= j < |node| ensures ChainAt(node2, ch, j) {
      assert ChainAt(node, ch, j);
    }
    forall j | 0 <= j < |node| && Usable(node2[j].key) ensures KeyAt(h, node2, ch, j) {
      assert KeyAt(h, node, ch, j);
    }
  }

  lemma StoredHash(h: Hasher, node: seq<Node>, ch: seq<seq<nat>>, slot: Slot, v: Val)
    requires HashOk(h, node, ch) && (slot.InNode? ==> slot.i < |node| && Usable(node[slot.i].key))
    ensures slot.InNode? ==> HashOk(h, node[slot.i := node[slot.i].(val := v)], ch)
  {
    if slot.InNode? {
      var node2 := node[slot.i := node[slot.i].(val := v)];
      forall i | 0 <= i < |node| ensures ChainAt(node2, ch, i) {
        assert ChainAt(node, ch, i);
      }
      forall i | 0 <= i < |node| && Usable(node2[i].key) ensures KeyAt(h, node2, ch, i) {
        assert KeyAt(h, node, ch, i);
      }
    }
  }

  lemma StoredModels(arr: seq<Val>, node: seq<Node>, m: map<Key, Val>, slot: Slot, k: Key, v: Val)
    requires Models(arr, node, m) && Usable(k)
    requires KeysOnce(node)
    requires slot.InArray? ==> slot.i < |arr| && k == Int(slot.i + 1)
    requires slot.InNode? ==> slot.i < |node| && node[slot.i].key == k
    ensures var m2 := if v.Some? then m[k := v] else m - {k};
            if slot.InArray? then Models(arr[slot.i := v], node, m2)
            else Models(arr, node[slot.i := node[slot.i].(val := v)], m2)
  {
    var m2 := if v.Some? then m[k := v] else m - {k};
    if slot.InNode? {
      var node2 := node[slot.i := node[slot.i].(val := v)];
      assert node2[slot.i].key == k;
      forall q | q in m2 ensures Indexes(arr, q) || Holds(node2, q) {
        if !Indexes(arr, q) && q != k {
          var j :| 0 <= j < |node| && node[j].key == q;
          assert node2[j].key == q;
        }
      }
    } else {
      forall q | q in m2 ensures Indexes(arr[slot.i := v], q) || Holds(node, q) {
        assert q != k ==> Indexes(arr, q) || Holds(node, q);
      }
    }
  }
}
