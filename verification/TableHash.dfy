/** The hash part of a table: a chained scatter table with Brent's variation. */
module TableHash {
  /** `Dead` is a key whose object has been collected. */
  datatype Key = KNil | NaN | Int(n: int) | Other(id: nat) | Dead

  datatype Val = Nil | Some(v: int)

  datatype Node = Node(key: Key, val: Val, next: int)

  const NULL := -1

  type Hasher = (Key, nat) -> nat

  predicate Usable(k: Key) {
    k.Int? || k.Other?
  }

  function Main(h: Hasher, k: Key, size: nat): nat
    requires size > 0
  {
    h(k, size) % size
  }

  // ----- chains -----

  ghost predicate Distinct(c: seq<nat>) {
    forall i, j :: 0 <= i < j < |c| ==> c[i] != c[j]
  }

  ghost function Pos(c: seq<nat>, x: nat): (p: nat)
    requires x in c
    ensures p < |c| && c[p] == x
  {
    if c[0] == x then 0 else 1 + Pos(c[1..], x)
  }

  lemma PosIs(c: seq<nat>, i: nat)
    requires Distinct(c) && i < |c|
    ensures Pos(c, c[i]) == i
  {
    var p := Pos(c, c[i]);
    assert c[p] == c[i];
  }

  ghost function After(c: seq<nat>, x: nat): int
    requires x in c
  {
    if Pos(c, x) + 1 < |c| then c[Pos(c, x) + 1] else NULL
  }

  /** `ch[i]` is the chain that node `i` is in. */
  ghost predicate ChainAt(node: seq<Node>, ch: seq<seq<nat>>, i: nat)
    requires i < |node| && i < |ch|
  {
    && Distinct(ch[i]) && i in ch[i] && node[i].next == After(ch[i], i)
    && (forall j :: j in ch[i] ==> j < |ch| && ch[j] == ch[i])
    && (node[i].key.KNil? ==> ch[i] == [i] && node[i].val.Nil?)
  }

  /** A key is in the chain of its main position, not before it; and a key that is
      not in its main position has no claim to the place of another key's. */
  ghost predicate KeyAt(h: Hasher, node: seq<Node>, ch: seq<seq<nat>>, i: nat)
    requires i < |node| == |ch| && Usable(node[i].key) && ChainAt(node, ch, i)
  {
    var m := Main(h, node[i].key, |node|);
    && m in ch[i] && Pos(ch[i], m) <= Pos(ch[i], i)
    && (Usable(node[m].key) ==> Main(h, node[m].key, |node|) == m)
  }

  ghost predicate HashOk(h: Hasher, node: seq<Node>, ch: seq<seq<nat>>) {
    && |ch| == |node|
    && (forall i :: 0 <= i < |node| ==> ChainAt(node, ch, i))
    && (forall i :: 0 <= i < |node| && Usable(node[i].key) ==> KeyAt(h, node, ch, i))
    && (forall i, j :: 0 <= i < j < |node| && Usable(node[i].key) ==> node[i].key != node[j].key)
  }

  ghost predicate Holds(node: seq<Node>, k: Key) {
    exists i :: 0 <= i < |node| && node[i].key == k
  }

  /** The next node of a chain is in the chain, one place further. */
  lemma NextInChain(node: seq<Node>, ch: seq<seq<nat>>, i: nat)
    requires |ch| == |node| && i < |node| && ChainAt(node, ch, i) && node[i].next != NULL
    ensures 0 <= node[i].next < |node| && node[i].next in ch[i]
    ensures Pos(ch[i], node[i].next) == Pos(ch[i], i) + 1
  {
    hide Distinct, Pos;
    var c, p := ch[i], Pos(ch[i], i);
    assert After(c, i) == node[i].next;
    assert p + 1 < |c| && node[i].next == c[p + 1] && c[p + 1] in c;
    PosIs(c, p + 1);
  }

  /** A main position that no key occupies has an empty chain or is in some chain;
      no key belongs to a node never used. */
  lemma NoKeyOfVirgin(h: Hasher, node: seq<Node>, ch: seq<seq<nat>>, i: nat, n: nat)
    requires HashOk(h, node, ch) && i < |node| && n < |node| && Usable(node[i].key) && node[n].key.KNil?
    ensures Main(h, node[i].key, |node|) != n && n !in ch[i] && i in ch[i]
  {
    assert ChainAt(node, ch, i) && ChainAt(node, ch, n) && KeyAt(h, node, ch, i);
    assert i in ch[i] && ch[n] == [n] && i != n;
  }

  // ----- the three ways to place a new key -----

  /** At its main position `m`, which holds no value. */
  lemma PlaceHere(h: Hasher, node: seq<Node>, ch: seq<seq<nat>>, k: Key, m: nat)
    requires HashOk(h, node, ch) && Usable(k) && !Holds(node, k) && m < |node| && m == Main(h, k, |node|)
    requires node[m].val.Nil?
    ensures HashOk(h, node[m := node[m].(key := k)], ch)
  {
    var node2 := node[m := node[m].(key := k)];
    forall i | 0 <= i < |node| ensures ChainAt(node2, ch, i) {
      assert ChainAt(node, ch, i);
    }
    forall i | 0 <= i < |node| && Usable(node2[i].key) ensures KeyAt(h, node2, ch, i) {
      assert i != m ==> KeyAt(h, node, ch, i);
    }
  }

  /** Behind the key that is in its own main position `m`, in the free node `n`. */
  function Behind(node: seq<Node>, k: Key, m: nat, n: nat): seq<Node>
    requires m < |node| && n < |node|
  {
    node[n := Node(k, Nil, node[m].next)][m := node[m].(next := n)]
  }

  function InsertAfter(c: seq<nat>, p: nat, n: nat): seq<nat>
    requires p < |c|
  {
    c[..p + 1] + [n] + c[p + 1..]
  }

  ghost function Rechain(ch: seq<seq<nat>>, c: seq<nat>): seq<seq<nat>> {
    seq(|ch|, i requires 0 <= i < |ch| => if i in c then c else ch[i])
  }

  lemma InsertedDistinct(c: seq<nat>, p: nat, n: nat)
    requires Distinct(c) && p < |c| && n !in c
    ensures var d := InsertAfter(c, p, n); Distinct(d) && forall y :: y in d <==> y == n || y in c
  {
    var d := InsertAfter(c, p, n);
    assert forall i :: 0 <= i <= p ==> d[i] == c[i];
    assert forall i :: p + 1 < i < |d| ==> d[i] == c[i - 1];
    assert c == c[..p + 1] + c[p + 1..];
  }

  lemma InsertedChain(c: seq<nat>, p: nat, n: nat, x: nat)
    requires Distinct(c) && p < |c| && n !in c && x in c
    ensures var d := InsertAfter(c, p, n);
            && Distinct(d) && (forall y :: y in d <==> y == n || y in c)
            && Pos(d, x) == (if Pos(c, x) <= p then Pos(c, x) else Pos(c, x) + 1)
            && After(d, x) == if Pos(c, x) == p then n else After(c, x)
  {
    hide Distinct;
    var d := InsertAfter(c, p, n);
    InsertedDistinct(c, p, n);
    var q := Pos(c, x);
    PosIs(d, if q <= p then q else q + 1);
  }

  lemma InsertedNew(c: seq<nat>, p: nat, n: nat)
    requires Distinct(c) && p < |c| && n !in c
    ensures var d := InsertAfter(c, p, n); n in d && Pos(d, n) == p + 1 && After(d, n) == After(c, c[p])
  {
    var d := InsertAfter(c, p, n);
    InsertedDistinct(c, p, n);
    PosIs(d, p + 1);
    PosIs(c, p);
  }

  ghost predicate Separate(node: seq<Node>, ch: seq<seq<nat>>, m: nat, n: nat) {
    && |ch| == |node| && m < |node| && n < |node| && m in ch[m] && n !in ch[m] && m != n
    && !node[m].key.KNil? && node[n].key.KNil?
    && (forall j :: 0 <= j < |node| ==> ChainAt(node, ch, j))
  }

  /** Nodes outside the chain of `m`, except `n`, do not notice. */
  lemma OtherChain(node: seq<Node>, ch: seq<seq<nat>>, m: nat, n: nat, i: nat, j: nat)
    requires Separate(node, ch, m, n) && i < |node| && i !in ch[m] && i != n && j in ch[i]
    ensures j < |node| && j !in ch[m] && j != n
  {
    assert ChainAt(node, ch, i) && ChainAt(node, ch, m) && ChainAt(node, ch, n);
  }

  lemma BehindIn(node: seq<Node>, ch: seq<seq<nat>>, k: Key, m: nat, n: nat, i: nat)
    requires |ch| == |node| && m < |node| && n < |node| && m in ch[m] && n !in ch[m] && m != n
    requires i < |node| && i in ch[m] && ChainAt(node, ch, m) && ChainAt(node, ch, i) && node[n].key.KNil?
    requires !node[m].key.KNil?
    ensures ChainAt(Behind(node, k, m, n), Rechain(ch, InsertAfter(ch[m], Pos(ch[m], m), n)), i)
  {
    hide Pos, After, InsertAfter, Distinct;
    var c, p := ch[m], Pos(ch[m], m);
    var d := InsertAfter(c, p, n);
    InsertedDistinct(c, p, n);
    InsertedChain(c, p, n, i);
    assert Pos(c, i) == p ==> c[p] == i;
    assert Rechain(ch, d)[i] == d;
  }

  lemma BehindNew(node: seq<Node>, ch: seq<seq<nat>>, k: Key, m: nat, n: nat)
    requires |ch| == |node| && m < |node| && n < |node| && m in ch[m] && n !in ch[m] && m != n && !k.KNil?
    requires ChainAt(node, ch, m)
    ensures ChainAt(Behind(node, k, m, n), Rechain(ch, InsertAfter(ch[m], Pos(ch[m], m), n)), n)
  {
    var c, p := ch[m], Pos(ch[m], m);
    InsertedDistinct(c, p, n);
    InsertedNew(c, p, n);
  }

  lemma BehindOther(node: seq<Node>, ch: seq<seq<nat>>, k: Key, m: nat, n: nat, d: seq<nat>, i: nat)
    requires |ch| == |node| && m < |node| && n < |node| && i < |node| && i != m && i != n && i !in d
    requires ChainAt(node, ch, i) && forall j :: j in ch[i] ==> j !in d
    ensures ChainAt(Behind(node, k, m, n), Rechain(ch, d), i)
  {
    assert Rechain(ch, d)[i] == ch[i];
  }

  lemma BehindChain(node: seq<Node>, ch: seq<seq<nat>>, k: Key, m: nat, n: nat, i: nat)
    requires Separate(node, ch, m, n) && i < |node| && !k.KNil?
    ensures ChainAt(Behind(node, k, m, n), Rechain(ch, InsertAfter(ch[m], Pos(ch[m], m), n)), i)
  {
    hide ChainAt, Distinct;
    var c, p := ch[m], Pos(ch[m], m);
    assert ChainAt(node, ch, m) && ChainAt(node, ch, i);
    if i in c {
      BehindIn(node, ch, k, m, n, i);
    } else if i == n {
      BehindNew(node, ch, k, m, n);
    } else {
      InsertedChainOf(node, ch, m, n);
      forall j | j in ch[i] ensures j !in InsertAfter(c, p, n) {
        OtherChain(node, ch, m, n, i, j);
      }
      BehindOther(node, ch, k, m, n, InsertAfter(c, p, n), i);
    }
  }

  lemma InsertedChainOf(node: seq<Node>, ch: seq<seq<nat>>, m: nat, n: nat)
    requires Separate(node, ch, m, n)
    ensures forall y :: y in InsertAfter(ch[m], Pos(ch[m], m), n) <==> y == n || y in ch[m]
  {
    assert ChainAt(node, ch, m);
    InsertedDistinct(ch[m], Pos(ch[m], m), n);
  }

  lemma BehindKey(h: Hasher, node: seq<Node>, ch: seq<seq<nat>>, k: Key, m: nat, n: nat, i: nat)
    requires HashOk(h, node, ch) && Usable(k) && m < |node| && m == Main(h, k, |node|) && i < |node|
    requires n < |node| && node[n].key.KNil? && Usable(node[m].key) && Main(h, node[m].key, |node|) == m
    requires Usable(Behind(node, k, m, n)[i].key)
    requires n !in ch[m] && ChainAt(Behind(node, k, m, n), Rechain(ch, InsertAfter(ch[m], Pos(ch[m], m), n)), i)
    ensures KeyAt(h, Behind(node, k, m, n), Rechain(ch, InsertAfter(ch[m], Pos(ch[m], m), n)), i)
  {
    var c, p := ch[m], Pos(ch[m], m);
    assert ChainAt(node, ch, m);
    InsertedDistinct(c, p, n);
    if i == n {
      InsertedNew(c, p, n);
      InsertedChain(c, p, n, m);
    } else {
      assert ChainAt(node, ch, i) && KeyAt(h, node, ch, i);
      NoKeyOfVirgin(h, node, ch, i, n);
      if i in c {
        InsertedChain(c, p, n, i);
        InsertedChain(c, p, n, Main(h, node[i].key, |node|));
      }
    }
  }

  lemma PlaceBehind(h: Hasher, node: seq<Node>, ch: seq<seq<nat>>, k: Key, m: nat, n: nat)
    requires HashOk(h, node, ch) && Usable(k) && !Holds(node, k) && m < |node| && m == Main(h, k, |node|)
    requires n < |node| && node[n].key.KNil? && Usable(node[m].key) && Main(h, node[m].key, |node|) == m
    ensures HashOk(h, Behind(node, k, m, n), Rechain(ch, InsertAfter(ch[m], Pos(ch[m], m), n)))
  {
    hide ChainAt, KeyAt;
    NoKeyOfVirgin(h, node, ch, m, n);
    var node2, ch2 := Behind(node, k, m, n), Rechain(ch, InsertAfter(ch[m], Pos(ch[m], m), n));
    forall i | 0 <= i < |node| ensures ChainAt(node2, ch2, i) {
      BehindChain(node, ch, k, m, n, i);
    }
    forall i | 0 <= i < |node| && Usable(node2[i].key) ensures KeyAt(h, node2, ch2, i) {
      BehindKey(h, node, ch, k, m, n, i);
    }
  }

  // ----- moving a colliding key out of the way -----

  /** The key at `m` is not in its main position: it goes to the free node `n`,
      after its predecessor `o`, and the new key takes its place. */
  function Displace(node: seq<Node>, k: Key, m: nat, n: nat, o: nat): seq<Node>
    requires m < |node| && n < |node| && o < |node|
  {
    node[o := node[o].(next := n)][n := node[m]][m := Node(k, Nil, NULL)]
  }

  ghost function Detached(ch: seq<seq<nat>>, m: nat, n: nat): seq<seq<nat>>
    requires m < |ch| && m in ch[m]
  {
    Rechain(Rechain(ch, ch[m][Pos(ch[m], m) := n]), [m])
  }

  lemma ReplacedChain(c: seq<nat>, p: nat, n: nat, x: nat)
    requires Distinct(c) && p < |c| && n !in c && x in c && x != c[p]
    ensures var d := c[p := n];
            && Distinct(d) && (forall y :: y in d <==> y == n || (y in c && y != c[p]))
            && Pos(d, x) == Pos(c, x) && After(d, x) == if Pos(c, x) + 1 == p then n else After(c, x)
  {
    hide Distinct;
    var d := c[p := n];
    ReplacedDistinct(c, p, n);
    PosIs(d, Pos(c, x));
  }

  lemma ReplacedDistinct(c: seq<nat>, p: nat, n: nat)
    requires Distinct(c) && p < |c| && n !in c
    ensures var d := c[p := n];
            && Distinct(d) && (forall y :: y in d <==> y == n || (y in c && y != c[p]))
            && Pos(d, n) == p && After(d, n) == After(c, c[p])
  {
    var d := c[p := n];
    forall y | y in c && y != c[p] ensures y in d {
      assert d[Pos(c, y)] == y;
    }
    assert d[p] == n;
    PosIs(d, p);
    PosIs(c, p);
  }

  lemma DisplacedIn(node: seq<Node>, ch: seq<seq<nat>>, k: Key, m: nat, n: nat, o: nat, i: nat)
    requires Separate(node, ch, m, n) && i < |node| && !k.KNil? && o in ch[m] && o < |node| && node[o].next == m
    requires i in ch[m] && i != m
    ensures ChainAt(Displace(node, k, m, n, o), Detached(ch, m, n), i)
  {
    hide Pos, After, Distinct;
    var c, p := ch[m], Pos(ch[m], m);
    assert ChainAt(node, ch, m) && ChainAt(node, ch, o) && ChainAt(node, ch, i);
    NextInChain(node, ch, o);
    ReplacedChain(c, p, n, i);
    assert Detached(ch, m, n)[i] == c[p := n];
  }

  /** The moved node stands in the chain where the old one stood. */
  lemma DisplacedFree(node: seq<Node>, ch: seq<seq<nat>>, k: Key, m: nat, n: nat, o: nat)
    requires Separate(node, ch, m, n) && o in ch[m] && o < |node| && node[o].next == m
    ensures ChainAt(Displace(node, k, m, n, o), Detached(ch, m, n), n)
  {
    hide Pos, Separate;
    SeparateAt(node, ch, m, n);
    var c, p := ch[m], Pos(ch[m], m);
    SeparateIn(node, ch, m, n, o);
    ReplacedDistinct(c, p, n);
    NextInChain(node, ch, o);
    assert Detached(ch, m, n)[n] == c[p := n];
  }

  lemma SeparateAt(node: seq<Node>, ch: seq<seq<nat>>, m: nat, n: nat)
    requires Separate(node, ch, m, n)
    ensures |ch| == |node| && m < |node| && n < |node| && m in ch[m] && n !in ch[m] && m != n
    ensures !node[m].key.KNil? && node[n].key.KNil? && ChainAt(node, ch, m) && ChainAt(node, ch, n)
  {
  }

  lemma SeparateIn(node: seq<Node>, ch: seq<seq<nat>>, m: nat, n: nat, i: nat)
    requires Separate(node, ch, m, n) && i < |node|
    ensures ChainAt(node, ch, i)
  {
  }

  lemma DisplacedChain(node: seq<Node>, ch: seq<seq<nat>>, k: Key, m: nat, n: nat, o: nat, i: nat)
    requires Separate(node, ch, m, n) && i < |node| && !k.KNil? && o in ch[m] && o < |node| && node[o].next == m
    ensures ChainAt(Displace(node, k, m, n, o), Detached(ch, m, n), i)
  {
    hide Pos, Separate, Distinct;
    SeparateAt(node, ch, m, n);
    var c, ch2 := ch[m], Detached(ch, m, n);
    if i == m {
      assert ch2[i] == [m];
      OneChain(m);
    } else if i in c {
      DisplacedIn(node, ch, k, m, n, o, i);
    } else if i == n {
      DisplacedFree(node, ch, k, m, n, o);
    } else {
      SeparateIn(node, ch, m, n, i);
      forall j | j in ch[i] ensures j < |node| && j !in c && j != n {
        OtherChain(node, ch, m, n, i, j);
      }
      assert ch2[i] == ch[i];
    }
  }

  lemma OneChain(m: nat)
    ensures Distinct([m]) && m in [m] && After([m], m) == NULL
  {
    assert Pos([m], m) == 0;
  }

  /** A key keeps its place, in its chain without `m`, or in another. */
  lemma DisplacedStays(h: Hasher, node: seq<Node>, ch: seq<seq<nat>>, k: Key, m: nat, n: nat, o: nat, i: nat)
    requires |ch| == |node| && m < |node| && n < |node| && o < |node| && i < |node|
    requires m in ch[m] && n !in ch[m] && o != m
    requires i != m && i != n && Usable(node[i].key) && ChainAt(node, ch, i) && KeyAt(h, node, ch, i)
    requires ChainAt(node, ch, m) && n !in ch[i] && Main(h, node[i].key, |node|) != m
             && Main(h, node[i].key, |node|) != n
    requires ChainAt(Displace(node, k, m, n, o), Detached(ch, m, n), i)
    ensures KeyAt(h, Displace(node, k, m, n, o), Detached(ch, m, n), i)
  {
    hide Pos, After, Distinct;
    var c, p := ch[m], Pos(ch[m], m);
    ReplacedDistinct(c, p, n);
    if i in c {
      ReplacedChain(c, p, n, i);
      ReplacedChain(c, p, n, Main(h, node[i].key, |node|));
    }
  }

  /** The key that was at `m` is as far behind its main position as before. */
  lemma DisplacedMoved(h: Hasher, node: seq<Node>, ch: seq<seq<nat>>, k: Key, m: nat, n: nat, o: nat)
    requires |ch| == |node| && m < |node| && n < |node| && o < |node| && m in ch[m] && n !in ch[m] && o != m && m != n
    requires Usable(node[m].key) && ChainAt(node, ch, m) && KeyAt(h, node, ch, m)
    requires Main(h, node[m].key, |node|) != m && Main(h, node[m].key, |node|) != n
    requires ChainAt(Displace(node, k, m, n, o), Detached(ch, m, n), n)
    ensures KeyAt(h, Displace(node, k, m, n, o), Detached(ch, m, n), n)
  {
    var c, p := ch[m], Pos(ch[m], m);
    ReplacedDistinct(c, p, n);
    ReplacedChain(c, p, n, Main(h, node[m].key, |node|));
  }

  lemma DisplacedKey(h: Hasher, node: seq<Node>, ch: seq<seq<nat>>, k: Key, m: nat, n: nat, o: nat, i: nat)
    requires HashOk(h, node, ch) && Separate(node, ch, m, n) && i < |node| && o in ch[m] && o < |node|
    requires Usable(k) && m == Main(h, k, |node|) && Usable(node[m].key) && Main(h, node[m].key, |node|) != m
    requires Usable(Displace(node, k, m, n, o)[i].key) && o != m
    requires ChainAt(Displace(node, k, m, n, o), Detached(ch, m, n), i)
    ensures KeyAt(h, Displace(node, k, m, n, o), Detached(ch, m, n), i)
  {
    hide ChainAt;
    assert ChainAt(node, ch, m) && KeyAt(h, node, ch, m);
    if i == n {
      NoKeyOfVirgin(h, node, ch, m, n);
      DisplacedMoved(h, node, ch, k, m, n, o);
    } else if i != m {
      assert ChainAt(node, ch, i) && KeyAt(h, node, ch, i);
      NoKeyOfVirgin(h, node, ch, i, n);
      DisplacedStays(h, node, ch, k, m, n, o, i);
    } else {
      DisplacedNew(h, node, ch, k, m, n, o);
    }
  }

  lemma DisplacedNew(h: Hasher, node: seq<Node>, ch: seq<seq<nat>>, k: Key, m: nat, n: nat, o: nat)
    requires |ch| == |node| && m < |node| && n < |node| && o < |node| && m in ch[m]
    requires Usable(k) && m == Main(h, k, |node|) && ChainAt(Displace(node, k, m, n, o), Detached(ch, m, n), m)
    ensures KeyAt(h, Displace(node, k, m, n, o), Detached(ch, m, n), m)
  {
  }

  lemma PlaceInstead(h: Hasher, node: seq<Node>, ch: seq<seq<nat>>, k: Key, m: nat, n: nat, o: nat)
    requires HashOk(h, node, ch) && Usable(k) && !Holds(node, k) && m < |node| && m == Main(h, k, |node|)
    requires n < |node| && node[n].key.KNil? && Usable(node[m].key) && Main(h, node[m].key, |node|) != m
    requires o < |node| && m in ch[m] && o in ch[m] && node[o].next == m && o != m
    ensures HashOk(h, Displace(node, k, m, n, o), Detached(ch, m, n))
  {
    hide ChainAt, KeyAt;
    NoKeyOfVirgin(h, node, ch, m, n);
    var node2, ch2 := Displace(node, k, m, n, o), Detached(ch, m, n);
    forall i | 0 <= i < |node| ensures ChainAt(node2, ch2, i) {
      DisplacedChain(node, ch, k, m, n, o, i);
    }
    forall i | 0 <= i < |node| && Usable(node2[i].key) ensures KeyAt(h, node2, ch2, i) {
      DisplacedKey(h, node, ch, k, m, n, o, i);
    }
  }
}
