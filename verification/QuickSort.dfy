/** libc/qsort.c: the quicksort of Bentley and McIlroy. */
module QuickSort {
  type Order<!T(!new)> = (T, T) -> int

  ghost predicate Preorder<T(!new)>(cmp: Order<T>) {
    && (forall x, y :: cmp(x, y) < 0 <==> cmp(y, x) > 0)
    && (forall x, y, z :: cmp(x, y) <= 0 && cmp(y, z) <= 0 ==> cmp(x, z) <= 0)
    && (forall x :: cmp(x, x) == 0)
  }

  /** qsort keeps the result of a comparison with the pivot in an int_fast8_t; `nar`
      is what is left of it there. */
  type Narrowing = int -> int

  function Seen<T(!new)>(cmp: Order<T>, nar: Narrowing): Order<T> {
    (x, y) => nar(cmp(x, y))
  }

  predicate SignKept(nar: Narrowing, c: int) {
    (nar(c) < 0 <==> c < 0) && (nar(c) > 0 <==> c > 0)
  }

  /** No comparison of two of these elements loses its sign; */
  ghost predicate Keeps<T(!new)>(cmp: Order<T>, nar: Narrowing, s: seq<T>, lo: int, hi: int) {
    && 0 <= lo <= hi <= |s|
    && forall i, j :: lo <= i < hi && lo <= j < hi ==> SignKept(nar, cmp(s[i], s[j]))
  }

  /** nor does one of them with `v`. */
  ghost predicate KeepsWith<T(!new)>(cmp: Order<T>, nar: Narrowing, s: seq<T>, lo: int, hi: int, v: T) {
    Keeps(cmp, nar, s, lo, hi) && forall i :: lo <= i < hi ==> SignKept(nar, cmp(s[i], v))
  }

  ghost predicate Reflexive<T(!new)>(low: Order<T>) {
    forall x :: low(x, x) == 0
  }

  ghost predicate Sorted<T(!new)>(cmp: Order<T>, s: seq<T>, lo: int, hi: int) {
    0 <= lo <= hi <= |s| && forall i, j :: lo <= i < j < hi ==> cmp(s[i], s[j]) <= 0
  }

  /** Between `lo` and `hi` the elements are permuted, outside nothing changes. */
  ghost predicate Shuffled<T>(s: seq<T>, t: seq<T>, lo: int, hi: int) {
    && 0 <= lo <= hi <= |s| == |t| && multiset(s) == multiset(t)
    && s[..lo] == t[..lo] && s[hi..] == t[hi..]
  }

  lemma ShuffledWithin<T>(s: seq<T>, t: seq<T>, lo: int, hi: int, lo2: int, hi2: int)
    requires Shuffled(s, t, lo, hi) && 0 <= lo2 <= lo && hi <= hi2 <= |s|
    ensures Shuffled(s, t, lo2, hi2)
  {
    assert s[..lo2] == s[..lo][..lo2] && t[..lo2] == t[..lo][..lo2];
    assert s[hi2..] == s[hi..][hi2 - hi..] && t[hi2..] == t[hi..][hi2 - hi..];
  }

  lemma ShuffledTrans<T>(s: seq<T>, t: seq<T>, u: seq<T>, lo: int, hi: int)
    requires Shuffled(s, t, lo, hi) && Shuffled(t, u, lo, hi)
    ensures Shuffled(s, u, lo, hi)
  {
  }

  /** Only elements of the same stretch come in. */
  lemma Origin<T>(s: seq<T>, t: seq<T>, lo: int, hi: int, i: int) returns (j: int)
    requires Shuffled(s, t, lo, hi) && lo <= i < hi
    ensures lo <= j < hi && s[j] == t[i]
  {
    SameMiddle(s, t, lo, hi);
    assert t[i] == t[lo..hi][i - lo];
    assert t[i] in multiset(t[lo..hi]);
    assert t[i] in s[lo..hi];
    var k :| 0 <= k < |s[lo..hi]| && s[lo..hi][k] == t[i];
    j := lo + k;
  }

  lemma SameMiddle<T>(s: seq<T>, t: seq<T>, lo: int, hi: int)
    requires Shuffled(s, t, lo, hi)
    ensures multiset(s[lo..hi]) == multiset(t[lo..hi])
  {
    assert s == s[..lo] + s[lo..hi] + s[hi..];
    assert t == t[..lo] + t[lo..hi] + t[hi..];
    var ends := multiset(s[..lo]) + multiset(s[hi..]);
    assert multiset(s) == ends + multiset(s[lo..hi]);
    assert multiset(t) == ends + multiset(t[lo..hi]);
    assert multiset(s[lo..hi]) == multiset(s) - ends;
    assert multiset(t[lo..hi]) == multiset(t) - ends;
  }

  function Swapped<T>(s: seq<T>, i: int, j: int): (t: seq<T>)
    requires 0 <= i < |s| && 0 <= j < |s|
    ensures |t| == |s|
  {
    s[i := s[j]][j := s[i]]
  }

  lemma SwappedShuffles<T>(s: seq<T>, i: int, j: int, lo: int, hi: int)
    requires 0 <= lo <= i < hi <= |s| && lo <= j < hi
    ensures Shuffled(s, Swapped(s, i, j), lo, hi)
  {
  }

  lemma SwappedAt<T>(s: seq<T>, i: int, j: int, k: int)
    requires 0 <= i < |s| && 0 <= j < |s| && 0 <= k < |s|
    ensures Swapped(s, i, j)[k] == if k == i then s[j] else if k == j then s[i] else s[k]
    ensures i == j ==> Swapped(s, i, j) == s
  {
  }

  method Swap<T>(a: array<T>, i: int, j: int)
    requires 0 <= i < a.Length && 0 <= j < a.Length
    modifies a
    ensures a[..] == Swapped(old(a[..]), i, j)
  {
    a[i], a[j] := a[j], a[i];
  }

  // ----- insertion sort -----

  /** Sorted from `lo` to `k`, but for the element at `p` on its way down. */
  ghost predicate Sinking<T(!new)>(cmp: Order<T>, s: seq<T>, lo: int, p: int, k: int) {
    && 0 <= lo <= p < k <= |s|
    && (forall i, j :: lo <= i < j < k && i != p && j != p ==> cmp(s[i], s[j]) <= 0)
    && (forall j :: p < j < k ==> cmp(s[p], s[j]) <= 0)
  }

  lemma SinkStep<T(!new)>(cmp: Order<T>, s: seq<T>, lo: int, p: int, k: int)
    requires Preorder(cmp) && Sinking(cmp, s, lo, p, k) && p > lo && cmp(s[p - 1], s[p]) > 0
    ensures Sinking(cmp, Swapped(s, p, p - 1), lo, p - 1, k)
  {
    assert cmp(s[p], s[p - 1]) < 0;
  }

  lemma SinkDone<T(!new)>(cmp: Order<T>, s: seq<T>, lo: int, p: int, k: int)
    requires Preorder(cmp) && Sinking(cmp, s, lo, p, k) && (p == lo || cmp(s[p - 1], s[p]) <= 0)
    ensures Sorted(cmp, s, lo, k)
  {
    forall i, j | lo <= i < j < k ensures cmp(s[i], s[j]) <= 0 {
      if j == p && i < p - 1 {
        assert cmp(s[i], s[p - 1]) <= 0;
      }
    }
  }

  /** The element at `pm` sinks to its place. */
  method Sink<T(!new)>(a: array<T>, lo: int, pm: int, hi: int, cmp: Order<T>)
    requires Preorder(cmp) && 0 <= lo <= pm < hi <= a.Length && Sorted(cmp, a[..], lo, pm)
    modifies a
    ensures Shuffled(old(a[..]), a[..], lo, hi) && Sorted(cmp, a[..], lo, pm + 1)
  {
    hide Preorder, Shuffled, Sinking, Swapped, Sorted;
    ghost var s := a[..];
    var pl := pm;
    SinkStart(cmp, s, lo, pm);
    ShuffledRefl(s, lo, hi);
    while pl > lo && cmp(a[pl - 1], a[pl]) > 0
      invariant lo <= pl <= pm && Shuffled(s, a[..], lo, hi) && Sinking(cmp, a[..], lo, pl, pm + 1)
    {
      SinkStep(cmp, a[..], lo, pl, pm + 1);
      SwappedShuffles(a[..], pl, pl - 1, lo, hi);
      ShuffledTrans(s, a[..], Swapped(a[..], pl, pl - 1), lo, hi);
      Swap(a, pl, pl - 1);
      pl := pl - 1;
    }
    SinkDone(cmp, a[..], lo, pl, pm + 1);
  }

  method InsertionSort<T(!new)>(a: array<T>, lo: int, hi: int, cmp: Order<T>)
    requires Preorder(cmp) && 0 <= lo <= hi <= a.Length
    modifies a
    ensures Shuffled(old(a[..]), a[..], lo, hi) && Sorted(cmp, a[..], lo, hi)
  {
    hide Preorder, Shuffled, Sorted;
    ghost var s := a[..];
    var pm := lo + 1;
    ShuffledRefl(s, lo, hi);
    ShortSorted(cmp, s, lo, if pm < hi then pm else hi);
    while pm < hi
      invariant lo < pm && Shuffled(s, a[..], lo, hi) && Sorted(cmp, a[..], lo, if pm < hi then pm else hi)
    {
      ghost var t := a[..];
      Sink(a, lo, pm, hi, cmp);
      ShuffledTrans(s, t, a[..], lo, hi);
      pm := pm + 1;
    }
  }

  lemma ShuffledRefl<T>(s: seq<T>, lo: int, hi: int)
    requires 0 <= lo <= hi <= |s|
    ensures Shuffled(s, s, lo, hi)
  {
  }

  lemma SinkStart<T(!new)>(cmp: Order<T>, s: seq<T>, lo: int, p: int)
    requires Sorted(cmp, s, lo, p) && p < |s|
    ensures Sinking(cmp, s, lo, p, p + 1)
  {
  }

  // ----- the partition -----

  ghost predicate Between<T(!new)>(cmp: Order<T>, x: T, v: T, z: T) {
    (cmp(x, v) <= 0 && cmp(v, z) <= 0) || (cmp(z, v) <= 0 && cmp(v, x) <= 0)
  }

  /** The middle one of three. */
  method Med3<T(!new)>(a: array<T>, i: nat, j: nat, k: nat, cmp: Order<T>) returns (m: nat)
    requires i < a.Length && j < a.Length && k < a.Length
    ensures (m == i && (Preorder(cmp) ==> Between(cmp, a[j], a[i], a[k])))
         || (m == j && (Preorder(cmp) ==> Between(cmp, a[i], a[j], a[k])))
         || (m == k && (Preorder(cmp) ==> Between(cmp, a[i], a[k], a[j])))
  {
    return if cmp(a[i], a[j]) < 0 then
             (if cmp(a[j], a[k]) < 0 then j else if cmp(a[i], a[k]) < 0 then k else i)
           else if cmp(a[j], a[k]) > 0 then j else if cmp(a[i], a[k]) < 0 then i else k;
  }

  /** The four zones around the unknown part: equal, less, unknown, greater, equal;
      the pivot is at `lo`. */
  ghost predicate Zones<T(!new)>(low: Order<T>, s: seq<T>, lo: int, pa: int, pb: int, pc: int, pd: int, hi: int) {
    && 0 <= lo < pa <= pb <= pc + 1 <= pd + 1 <= hi <= |s|
    && (forall i :: lo <= i < pa ==> low(s[i], s[lo]) == 0)
    && (forall i :: pa <= i < pb ==> low(s[i], s[lo]) < 0)
    && (forall i :: pc < i <= pd ==> low(s[i], s[lo]) > 0)
    && (forall i :: pd < i < hi ==> low(s[i], s[lo]) == 0)
  }

  ghost predicate Tied<T(!new)>(low: Order<T>, s: seq<T>, lo: int, hi: int) {
    0 <= lo < hi <= |s| && forall i :: lo <= i < hi ==> low(s[i], s[lo]) == 0
  }

  lemma TiedAt<T(!new)>(low: Order<T>, s: seq<T>, lo: int, hi: int, i: int)
    requires 0 <= lo <= i < hi <= |s|
    ensures Tied(low, s, lo, hi) ==> low(s[i], s[lo]) == 0
  {
  }

  lemma ZonesInRange<T(!new)>(low: Order<T>, s: seq<T>, lo: int, pa: int, pb: int, pc: int, pd: int, hi: int)
    requires Zones(low, s, lo, pa, pb, pc, pd, hi)
    ensures 0 <= lo < pa <= pb <= pc + 1 <= pd + 1 <= hi <= |s|
  {
  }

  lemma ZonesStart<T(!new)>(low: Order<T>, s: seq<T>, lo: int, hi: int)
    requires Reflexive(low) && 0 <= lo < hi <= |s|
    ensures Zones(low, s, lo, lo + 1, lo + 1, hi - 1, hi - 1, hi)
  {
    assert low(s[lo], s[lo]) == 0;
  }

  lemma ZonesLow<T(!new)>(low: Order<T>, s: seq<T>, lo: int, pa: int, pb: int, pc: int, pd: int, hi: int)
    requires Zones(low, s, lo, pa, pb, pc, pd, hi) && pb <= pc && low(s[pb], s[lo]) <= 0
    ensures low(s[pb], s[lo]) < 0 ==> Zones(low, s, lo, pa, pb + 1, pc, pd, hi)
    ensures low(s[pb], s[lo]) == 0 ==> Zones(low, Swapped(s, pa, pb), lo, pa + 1, pb + 1, pc, pd, hi)
  {
  }

  lemma ZonesHigh<T(!new)>(low: Order<T>, s: seq<T>, lo: int, pa: int, pb: int, pc: int, pd: int, hi: int)
    requires Zones(low, s, lo, pa, pb, pc, pd, hi) && pb <= pc && low(s[pc], s[lo]) >= 0
    ensures low(s[pc], s[lo]) > 0 ==> Zones(low, s, lo, pa, pb, pc - 1, pd, hi)
    ensures low(s[pc], s[lo]) == 0 ==> Zones(low, Swapped(s, pc, pd), lo, pa, pb, pc - 1, pd - 1, hi)
  {
  }

  lemma ZonesBoth<T(!new)>(low: Order<T>, s: seq<T>, lo: int, pa: int, pb: int, pc: int, pd: int, hi: int)
    requires Zones(low, s, lo, pa, pb, pc, pd, hi) && pb < pc && low(s[pb], s[lo]) > 0 && low(s[pc], s[lo]) < 0
    ensures Zones(low, Swapped(s, pb, pc), lo, pa, pb + 1, pc - 1, pd, hi)
  {
  }

  /** From the left up to an element greater than the pivot. */
  method ScanUp<T(!new)>(a: array<T>, lo: int, pa0: int, pb0: int, pc: int, pd: int, hi: int, low: Order<T>)
    returns (pa: int, pb: int, swaps: bool)
    requires hi <= a.Length && Zones(low, a[..], lo, pa0, pb0, pc, pd, hi)
    modifies a
    ensures lo < pa <= pb <= pc + 1 <= pd + 1 <= hi && pb >= pb0
    ensures Zones(low, a[..], lo, pa, pb, pc, pd, hi) && (pb <= pc ==> low(a[pb], a[lo]) > 0)
    ensures Shuffled(old(a[..]), a[..], lo, hi) && a[lo] == old(a[lo])
    ensures !swaps ==> a[..] == old(a[..]) && pa == pa0
    ensures Tied(low, old(a[..]), lo, hi) && pa0 == pb0 ==> a[..] == old(a[..]) && pa == pb == pc + 1
  {
    hide Shuffled, Swapped, Zones, Tied;
    ghost var s := a[..];
    pa, pb, swaps := pa0, pb0, false;
    ZonesInRange(low, s, lo, pa, pb, pc, pd, hi);
    ShuffledRefl(s, lo, hi);
    while pb <= pc && low(a[pb], a[lo]) <= 0
      invariant 0 <= lo < pa <= pb <= pc + 1 <= pd + 1 <= hi
      invariant pb0 <= pb && Zones(low, a[..], lo, pa, pb, pc, pd, hi) && Shuffled(s, a[..], lo, hi) && a[lo] == s[lo]
      invariant !swaps ==> a[..] == s && pa == pa0
      invariant Tied(low, s, lo, hi) && pa0 == pb0 ==> a[..] == s && pa == pb
    {
      ZonesLow(low, a[..], lo, pa, pb, pc, pd, hi);
      TiedAt(low, s, lo, hi, pb);
      if low(a[pb], a[lo]) == 0 {
        swaps := true;
        SwappedShuffles(a[..], pa, pb, lo, hi);
        ShuffledTrans(s, a[..], Swapped(a[..], pa, pb), lo, hi);
        SwappedAt(a[..], pa, pb, lo);
        Swap(a, pa, pb);
        pa := pa + 1;
      }
      pb := pb + 1;
    }
    if pb <= pc {
      TiedAt(low, s, lo, hi, pb);
    }
  }

  /** From the right down to an element less than the pivot. */
  method ScanDown<T(!new)>(a: array<T>, lo: int, pa: int, pb: int, pc0: int, pd0: int, hi: int, low: Order<T>)
    returns (pc: int, pd: int, swaps: bool)
    requires hi <= a.Length && Zones(low, a[..], lo, pa, pb, pc0, pd0, hi) && (pb <= pc0 ==> low(a[pb], a[lo]) > 0)
    modifies a
    ensures lo < pa <= pb <= pc + 1 <= pd + 1 <= hi && pc <= pc0
    ensures Zones(low, a[..], lo, pa, pb, pc, pd, hi)
    ensures pb <= pc ==> pb < pc && low(a[pb], a[lo]) > 0 && low(a[pc], a[lo]) < 0
    ensures Shuffled(old(a[..]), a[..], lo, hi) && a[lo] == old(a[lo])
    ensures !swaps ==> a[..] == old(a[..]) && pd == pd0
    ensures pb > pc0 ==> pc == pc0 && !swaps
  {
    hide Shuffled, Swapped, Zones;
    ghost var s := a[..];
    pc, pd, swaps := pc0, pd0, false;
    ZonesInRange(low, s, lo, pa, pb, pc, pd, hi);
    ShuffledRefl(s, lo, hi);
    while pb <= pc && low(a[pc], a[lo]) >= 0
      invariant 0 <= lo < pa <= pb <= pc + 1 <= pd + 1 <= hi
      invariant pc <= pc0 && Zones(low, a[..], lo, pa, pb, pc, pd, hi) && Shuffled(s, a[..], lo, hi) && a[lo] == s[lo]
      invariant pb <= pc ==> low(a[pb], a[lo]) > 0
      invariant !swaps ==> a[..] == s && pd == pd0
      invariant pb > pc0 ==> pc == pc0 && !swaps
    {
      ZonesHigh(low, a[..], lo, pa, pb, pc, pd, hi);
      if low(a[pc], a[lo]) == 0 {
        swaps := true;
        SwappedShuffles(a[..], pc, pd, lo, hi);
        ShuffledTrans(s, a[..], Swapped(a[..], pc, pd), lo, hi);
        SwappedAt(a[..], pc, pd, lo);
        SwappedAt(a[..], pc, pd, pb);
        Swap(a, pc, pd);
        pd := pd - 1;
      }
      pc := pc - 1;
    }
  }

  /** One round: both scans, and the swap of the elements they stop at. */
  method Round<T(!new)>(a: array<T>, lo: int, pa0: int, pb0: int, pc0: int, pd0: int, hi: int, low: Order<T>)
    returns (pa: int, pb: int, pc: int, pd: int, swaps: bool)
    requires hi <= a.Length && Zones(low, a[..], lo, pa0, pb0, pc0, pd0, hi) && pb0 <= pc0
    modifies a
    ensures lo < pa <= pb <= pc + 1 <= pd + 1 <= hi && pc - pb < pc0 - pb0
    ensures Zones(low, a[..], lo, pa, pb, pc, pd, hi) && Shuffled(old(a[..]), a[..], lo, hi) && a[lo] == old(a[lo])
    ensures !swaps ==> a[..] == old(a[..]) && pa == pa0 && pd == pd0
    ensures Tied(low, old(a[..]), lo, hi) && pa0 == pb0 ==>
              a[..] == old(a[..]) && pa == pb == pc + 1 && pc == pc0 && pd == pd0
  {
    hide Shuffled, Swapped, Zones, Tied;
    var down;
    pa, pb, swaps := ScanUp(a, lo, pa0, pb0, pc0, pd0, hi, low);
    ghost var s1 := a[..];
    pc, pd, down := ScanDown(a, lo, pa, pb, pc0, pd0, hi, low);
    ghost var s2 := a[..];
    ShuffledTrans(old(a[..]), s1, s2, lo, hi);
    swaps := swaps || down;
    if pb <= pc {
      ZonesBoth(low, s2, lo, pa, pb, pc, pd, hi);
      SwappedShuffles(s2, pb, pc, lo, hi);
      ShuffledTrans(old(a[..]), s2, Swapped(s2, pb, pc), lo, hi);
      SwappedAt(s2, pb, pc, lo);
      Swap(a, pb, pc);
      swaps := true;
      pb, pc := pb + 1, pc - 1;
    }
  }

  method Partition<T(!new)>(a: array<T>, lo: int, hi: int, low: Order<T>)
    returns (pa: int, pb: int, pc: int, pd: int, swaps: bool)
    requires Reflexive(low) && 0 <= lo < hi <= a.Length
    modifies a
    ensures Zones(low, a[..], lo, pa, pb, pc, pd, hi) && lo < pa <= pb == pc + 1 <= pd + 1 <= hi
    ensures Shuffled(old(a[..]), a[..], lo, hi) && a[lo] == old(a[lo])
    ensures !swaps ==> a[..] == old(a[..]) && pa == lo + 1 && pd == hi - 1
    ensures Tied(low, old(a[..]), lo, hi) ==> a[..] == old(a[..]) && pa == pb == hi && pd == hi - 1
  {
    hide Reflexive, Shuffled, Zones, Tied;
    ghost var s0 := a[..];
    ShuffledRefl(a[..], lo, hi);
    ZonesStart(low, a[..], lo, hi);
    pa, pb, pc, pd, swaps := lo + 1, lo + 1, hi - 1, hi - 1, false;
    while pb <= pc
      invariant lo < pa <= pb <= pc + 1 <= pd + 1 <= hi
      invariant Zones(low, a[..], lo, pa, pb, pc, pd, hi) && Shuffled(s0, a[..], lo, hi) && a[lo] == s0[lo]
      invariant !swaps ==> a[..] == s0 && pa == lo + 1 && pd == hi - 1
      invariant Tied(low, s0, lo, hi) ==> a[..] == s0 && pa == pb && pc == pd == hi - 1
      decreases pc - pb + 1
    {
      ghost var s := a[..];
      var sw;
      pa, pb, pc, pd, sw := Round(a, lo, pa, pb, pc, pd, hi, low);
      ShuffledTrans(s0, s, a[..], lo, hi);
      swaps := swaps || sw;
    }
  }

  // ----- putting the zones in order -----

  function BlockSwapped<T>(s: seq<T>, i: int, j: int, r: int): (t: seq<T>)
    requires 0 <= i && 0 <= r && i + r <= j && j + r <= |s|
    ensures |t| == |s|
  {
    seq(|s|, x requires 0 <= x < |s| =>
      if i <= x < i + r then s[x - i + j] else if j <= x < j + r then s[x - j + i] else s[x])
  }

  lemma BlockStep<T>(s: seq<T>, i: int, j: int, k: int)
    requires 0 <= i && 0 <= k && i + k + 1 <= j && j + k + 1 <= |s|
    ensures BlockSwapped(s, i, j, k + 1) == Swapped(BlockSwapped(s, i, j, k), i + k, j + k)
  {
  }

  /** vecswap. */
  method VecSwap<T>(a: array<T>, i: int, j: int, r: int, ghost lo: int, ghost hi: int)
    requires 0 <= lo <= i && 0 <= r && i + r <= j && j + r <= hi <= a.Length
    modifies a
    ensures a[..] == BlockSwapped(old(a[..]), i, j, r) && Shuffled(old(a[..]), a[..], lo, hi)
  {
    hide Shuffled, Swapped, BlockSwapped;
    ghost var s := a[..];
    var k := 0;
    BlockNone(s, i, j, lo, hi);
    while k < r
      invariant 0 <= k <= r && a[..] == BlockSwapped(s, i, j, k) && Shuffled(s, a[..], lo, hi)
    {
      BlockMore(s, a[..], i, j, k, lo, hi);
      Swap(a, i + k, j + k);
      k := k + 1;
    }
  }

  lemma BlockNone<T>(s: seq<T>, i: int, j: int, lo: int, hi: int)
    requires 0 <= lo <= i <= j <= hi <= |s|
    ensures s == BlockSwapped(s, i, j, 0) && Shuffled(s, s, lo, hi)
  {
  }

  lemma BlockMore<T>(s: seq<T>, t: seq<T>, i: int, j: int, k: int, lo: int, hi: int)
    requires 0 <= lo <= i && 0 <= k && i + k + 1 <= j && j + k + 1 <= hi <= |s|
    requires t == BlockSwapped(s, i, j, k) && Shuffled(s, t, lo, hi)
    ensures Swapped(t, i + k, j + k) == BlockSwapped(s, i, j, k + 1) && Shuffled(s, Swapped(t, i + k, j + k), lo, hi)
  {
    hide Shuffled, Swapped, BlockSwapped;
    BlockStep(s, i, j, k);
    SwappedShuffles(t, i + k, j + k, lo, hi);
    ShuffledTrans(s, t, Swapped(t, i + k, j + k), lo, hi);
  }

  function Min(x: int, y: int): int {
    if x < y then x else y
  }

  /** Less than the pivot, equal to it, greater. */
  ghost predicate Sections<T(!new)>(cmp: Order<T>, s: seq<T>, lo: int, l: int, g: int, hi: int, v: T) {
    && 0 <= lo <= l < g <= hi <= |s|
    && (forall i :: lo <= i < l ==> cmp(s[i], v) < 0)
    && (forall i :: l <= i < g ==> cmp(s[i], v) == 0)
    && (forall i :: g <= i < hi ==> cmp(s[i], v) > 0)
  }

  lemma SectionsInRange<T(!new)>(cmp: Order<T>, s: seq<T>, lo: int, l: int, g: int, hi: int, v: T)
    requires Sections(cmp, s, lo, l, g, hi, v)
    ensures 0 <= lo <= l < g <= hi <= |s|
  {
  }

  lemma LeftInOrder<T(!new)>(cmp: Order<T>, s: seq<T>, lo: int, pa: int, pb: int, pd: int, hi: int, v: T)
    requires Zones(cmp, s, lo, pa, pb, pb - 1, pd, hi) && v == s[lo]
    ensures var r := Min(pa - lo, pb - pa);
            var t := BlockSwapped(s, lo, pb - r, r);
            && (forall i :: lo <= i < lo + (pb - pa) ==> cmp(t[i], v) < 0)
            && (forall i :: lo + (pb - pa) <= i < pb ==> cmp(t[i], v) == 0)
            && (forall i :: pb <= i < hi ==> t[i] == s[i])
  {
  }

  lemma RightInOrder<T(!new)>(cmp: Order<T>, s: seq<T>, lo: int, l: int, pb: int, pd: int, hi: int, v: T)
    requires 0 <= lo <= l < pb <= pd + 1 <= hi <= |s|
    requires forall i :: lo <= i < l ==> cmp(s[i], v) < 0
    requires forall i :: l <= i < pb ==> cmp(s[i], v) == 0
    requires forall i :: pb <= i <= pd ==> cmp(s[i], v) > 0
    requires forall i :: pd < i < hi ==> cmp(s[i], v) == 0
    ensures var r := Min(pd - (pb - 1), hi - pd - 1);
            Sections(cmp, BlockSwapped(s, pb, hi - r, r), lo, l, hi - (pd - (pb - 1)), hi, v)
  {
  }

  lemma SectionsKept<T(!new)>(cmp: Order<T>, s: seq<T>, t: seq<T>, lo: int, l: int, g: int, hi: int, v: T)
    requires Sections(cmp, s, lo, l, g, hi, v) && (Shuffled(s, t, lo, l) || Shuffled(s, t, g, hi))
    ensures Sections(cmp, t, lo, l, g, hi, v)
  {
    forall i | lo <= i < hi
      ensures i < l ==> cmp(t[i], v) < 0
      ensures l <= i < g ==> cmp(t[i], v) == 0
      ensures g <= i ==> cmp(t[i], v) > 0
    {
      if Shuffled(s, t, lo, l) {
        if i < l {
          var j := Origin(s, t, lo, l, i);
        } else {
          assert t[i] == t[l..][i - l] && s[i] == s[l..][i - l];
        }
      } else if i >= g {
        var j := Origin(s, t, g, hi, i);
      } else {
        assert t[i] == t[..g][i] && s[i] == s[..g][i];
      }
    }
  }

  lemma SectionsSorted<T(!new)>(cmp: Order<T>, s: seq<T>, lo: int, l: int, g: int, hi: int, v: T)
    requires Preorder(cmp) && Sections(cmp, s, lo, l, g, hi, v) && Sorted(cmp, s, lo, l) && Sorted(cmp, s, g, hi)
    ensures Sorted(cmp, s, lo, hi)
  {
    forall i, j | lo <= i < j < hi ensures cmp(s[i], s[j]) <= 0 {
      if i < g && j >= l {
        assert cmp(s[i], v) <= 0;
        assert cmp(v, s[j]) <= 0;
      }
    }
  }

  /** The index of the pivot. */
  method Pivot<T(!new)>(a: array<T>, lo: nat, n: nat, cmp: Order<T>) returns (pm: nat)
    requires n >= 7 && lo + n <= a.Length
    ensures lo <= pm < lo + n && (n == 7 ==> pm == lo + 3)
  {
    pm := lo + n / 2;
    if n > 7 {
      var pl, pn := lo, lo + n - 1;
      if n > 40 {
        var d := n / 8;
        pl := Med3(a, pl, pl + d, pl + 2 * d, cmp);
        pm := Med3(a, pm - d, pm, pm + d, cmp);
        pn := Med3(a, pn - 2 * d, pn - d, pn, cmp);
      }
      pm := Med3(a, pl, pm, pn, cmp);
    }
  }

  /** The zones of equal elements go to the middle. */
  method Gather<T(!new)>(a: array<T>, lo: int, pa: int, pb: int, pd: int, hi: int, low: Order<T>, ghost v: T)
    requires hi <= a.Length && Zones(low, a[..], lo, pa, pb, pb - 1, pd, hi) && v == a[lo]
    modifies a
    ensures Sections(low, a[..], lo, lo + (pb - pa), hi - (pd - (pb - 1)), hi, v) && Shuffled(old(a[..]), a[..], lo, hi)
    ensures pa == pb == hi && pd == hi - 1 ==> a[..] == old(a[..])
  {
    hide BlockSwapped, Shuffled, Sections;
    ghost var s := a[..];
    LeftInOrder(low, s, lo, pa, pb, pd, hi, v);
    var r := Min(pa - lo, pb - pa);
    BlockNone(s, lo, pb, lo, hi);
    VecSwap(a, lo, pb - r, r, lo, hi);
    ghost var t := a[..];
    RightInOrder(low, t, lo, lo + (pb - pa), pb, pd, hi, v);
    r := Min(pd - (pb - 1), hi - pd - 1);
    BlockNone(t, pb, hi, lo, hi);
    VecSwap(a, pb, hi - r, r, lo, hi);
    ShuffledTrans(s, t, a[..], lo, hi);
  }

  /** The pivot goes to the front and the elements to their zones; without a swap
      on the way, they stay where they are and none is equal to the pivot. */
  method Split<T(!new)>(a: array<T>, lo: nat, n: nat, cmp: Order<T>, low: Order<T>)
    returns (swaps: bool, left: nat, right: nat, ghost v: T, ghost pm: nat)
    requires Reflexive(low) && n >= 7 && lo + n <= a.Length
    modifies a
    ensures Shuffled(old(a[..]), a[..], lo, lo + n) && left < n && right < n
    ensures lo <= pm < lo + n && (n == 7 ==> pm == lo + 3) && v == old(a[pm])
    ensures swaps ==> Sections(low, a[..], lo, lo + left, lo + n - right, lo + n, v)
    ensures !swaps ==> OneTie(low, old(a[..]), lo, lo + n, pm)
    ensures AllTied(low, old(a[..]), lo, lo + n, pm) ==>
              swaps && left == 0 && right == 0 && a[..] == Swapped(old(a[..]), lo, pm)
  {
    hide Reflexive, Shuffled, Sections, Swapped, Zones, Tied, OneTie, AllTied;
    var hi := lo + n;
    var p := Pivot(a, lo, n, cmp);
    pm := p;
    ghost var s0 := a[..];
    SwappedShuffles(s0, lo, p, lo, hi);
    SwappedAt(s0, lo, p, lo);
    SwappedTies(low, s0, lo, hi, p);
    Swap(a, lo, p);
    ghost var s1 := a[..];
    var pa, pb, pc, pd;
    pa, pb, pc, pd, swaps := Partition(a, lo, hi, low);
    ghost var s2 := a[..];
    ShuffledTrans(s0, s1, s2, lo, hi);
    left, right, v := pb - pa, pd - pc, a[lo];
    if swaps {
      Gather(a, lo, pa, pb, pd, hi, low, v);
      ShuffledTrans(s0, s2, a[..], lo, hi);
    } else {
      NoTies(low, s0, lo, hi, p, pb);
    }
  }

  /** Every element is equal to the one at `p`; or only that one is. */
  ghost predicate AllTied<T(!new)>(low: Order<T>, s: seq<T>, lo: int, hi: int, p: int) {
    0 <= lo <= p < hi <= |s| && forall i :: lo <= i < hi ==> low(s[i], s[p]) == 0
  }

  ghost predicate OneTie<T(!new)>(low: Order<T>, s: seq<T>, lo: int, hi: int, p: int) {
    0 <= lo <= p < hi <= |s| && forall i :: lo <= i < hi && i != p ==> low(s[i], s[p]) != 0
  }

  lemma SwappedTies<T(!new)>(low: Order<T>, s: seq<T>, lo: int, hi: int, p: int)
    requires 0 <= lo <= p < hi <= |s|
    ensures AllTied(low, s, lo, hi, p) ==> Tied(low, Swapped(s, lo, p), lo, hi)
  {
    var t := Swapped(s, lo, p);
    assert forall i :: lo <= i < hi ==> t[i] == if i == lo then s[p] else if i == p then s[lo] else s[i];
  }

  lemma NoTies<T(!new)>(low: Order<T>, s: seq<T>, lo: int, hi: int, p: int, pb: int)
    requires 0 <= lo <= p < hi <= |s| && Zones(low, Swapped(s, lo, p), lo, lo + 1, pb, pb - 1, hi - 1, hi)
    ensures OneTie(low, s, lo, hi, p)
  {
    var t := Swapped(s, lo, p);
    assert forall i :: lo <= i < hi ==> t[i] == if i == lo then s[p] else if i == p then s[lo] else s[i];
    forall i | lo <= i < hi && i != p ensures low(s[i], s[p]) != 0 {
      var j := if i == lo then p else i;
      assert t[j] == s[i] && t[lo] == s[p] && lo < j < hi;
    }
  }

  /** In the order of their signs against `v`. */
  ghost predicate BySign<T(!new)>(low: Order<T>, s: seq<T>, lo: int, hi: int, v: T) {
    && 0 <= lo <= hi <= |s|
    && (forall i, j :: lo <= i < j < hi && low(s[j], v) < 0 ==> low(s[i], v) < 0)
    && (forall i, j :: lo <= i < j < hi && low(s[i], v) > 0 ==> low(s[j], v) > 0)
  }

  lemma SectionsBySign<T(!new)>(low: Order<T>, s: seq<T>, lo: int, l: int, g: int, hi: int, v: T)
    requires Sections(low, s, lo, l, g, hi, v)
    ensures BySign(low, s, lo, hi, v)
  {
  }

  /** What becomes of seven elements, whose pivot is the middle one: if all count as
      equal to it, it goes to the front; if another one does, the elements end up in
      the order of their signs against it. */
  ghost predicate OfSeven<T(!new)>(low: Order<T>, s: seq<T>, t: seq<T>, lo: int) {
    && 0 <= lo && lo + 7 <= |s|
    && (AllTied(low, s, lo, lo + 7, lo + 3) ==> t == Swapped(s, lo, lo + 3))
    && (!OneTie(low, s, lo, lo + 7, lo + 3) ==> BySign(low, t, lo, lo + 7, s[lo + 3]))
  }

  /** qsort, on the `n` elements from `lo`.  The second recursive call stands for
      the jump back to the beginning.  It permutes them, and sorts them if no
      comparison between them loses its sign; and if one does, there is an array of
      the two elements that it does not sort. */
  method QSort<T(!new)>(a: array<T>, lo: nat, n: nat, cmp: Order<T>, nar: Narrowing)
    requires Preorder(cmp) && nar(0) == 0 && lo + n <= a.Length
    modifies a
    ensures Shuffled(old(a[..]), a[..], lo, lo + n)
    ensures Keeps(cmp, nar, old(a[..]), lo, lo + n) ==> Sorted(cmp, a[..], lo, lo + n)
    ensures n == 7 ==> OfSeven(Seen(cmp, nar), old(a[..]), a[..], lo)
    ensures n == 7 ==> forall x, y :: !SignKept(nar, cmp(x, y)) && IsTrap(cmp, nar, old(a[..]), lo, x, y) ==>
              !Sorted(cmp, a[..], lo, lo + 7)
    decreases n, 2
  {
    hide Preorder, Shuffled, Sorted, Sections, Keeps, KeepsWith, OfSeven, AllTied, OneTie, BySign, Seen, Reflexive,
         Swapped, IsTrap, SignKept;
    if n < 7 {
      InsertionSort(a, lo, lo + n, cmp);
      return;
    }
    ghost var s0 := a[..];
    SeenReflexive(cmp, nar);
    var swaps, left, right, v, pm := Split(a, lo, n, cmp, Seen(cmp, nar));
    ghost var s1 := a[..];
    KeepsPivot(cmp, nar, s0, s1, lo, lo + n, pm);
    if !swaps {
      InsertionSort(a, lo, lo + n, cmp);
    } else {
      SortLess(a, lo, left, right, n, cmp, nar, v);
    }
    ShuffledTrans(s0, s1, a[..], lo, lo + n);
    if n == 7 {
      SevenDone(Seen(cmp, nar), s0, s1, a[..], lo, swaps, left, right);
      Trapped(cmp, nar, s0, a[..], lo);
    }
  }

  lemma SevenDone<T(!new)>(low: Order<T>, s0: seq<T>, s1: seq<T>, t: seq<T>, lo: int, swaps: bool, left: nat,
                           right: nat)
    requires 0 <= lo && lo + 7 <= |s0| && (!swaps ==> OneTie(low, s0, lo, lo + 7, lo + 3))
    requires AllTied(low, s0, lo, lo + 7, lo + 3) ==> swaps && left == 0 && right == 0 && s1 == Swapped(s0, lo, lo + 3)
    requires swaps ==> BySign(low, t, lo, lo + 7, s0[lo + 3]) && (left == 0 && right == 0 ==> t == s1)
    ensures OfSeven(low, s0, t, lo)
  {
  }

  lemma SeenReflexive<T(!new)>(cmp: Order<T>, nar: Narrowing)
    requires Preorder(cmp) && nar(0) == 0
    ensures Reflexive(Seen(cmp, nar))
  {
  }

  lemma KeepsShuffled<T(!new)>(cmp: Order<T>, nar: Narrowing, s: seq<T>, t: seq<T>, lo: int, hi: int, v: T)
    requires Shuffled(s, t, lo, hi)
    ensures Keeps(cmp, nar, s, lo, hi) ==> Keeps(cmp, nar, t, lo, hi)
    ensures KeepsWith(cmp, nar, s, lo, hi, v) ==> KeepsWith(cmp, nar, t, lo, hi, v)
  {
    hide Shuffled, SignKept;
    ShuffledSize(s, t, lo, hi);
    if Keeps(cmp, nar, s, lo, hi) {
      forall i, j | lo <= i < hi && lo <= j < hi ensures SignKept(nar, cmp(t[i], t[j])) {
        var i2 := Origin(s, t, lo, hi, i);
        var j2 := Origin(s, t, lo, hi, j);
      }
    }
    if KeepsWith(cmp, nar, s, lo, hi, v) {
      forall i | lo <= i < hi ensures SignKept(nar, cmp(t[i], v)) {
        var i2 := Origin(s, t, lo, hi, i);
      }
    }
  }

  lemma ShuffledSize<T>(s: seq<T>, t: seq<T>, lo: int, hi: int)
    requires Shuffled(s, t, lo, hi)
    ensures 0 <= lo <= hi <= |s| == |t|
  {
  }

  lemma KeepsPivot<T(!new)>(cmp: Order<T>, nar: Narrowing, s: seq<T>, t: seq<T>, lo: int, hi: int, p: int)
    requires Shuffled(s, t, lo, hi) && 0 <= lo <= p < hi <= |s|
    ensures Keeps(cmp, nar, s, lo, hi) ==> KeepsWith(cmp, nar, t, lo, hi, s[p])
  {
    hide Shuffled, SignKept;
    KeepsShuffled(cmp, nar, s, t, lo, hi, s[p]);
  }

  lemma SectionsSeen<T(!new)>(cmp: Order<T>, nar: Narrowing, s: seq<T>, lo: int, l: int, g: int, hi: int, v: T)
    requires Sections(Seen(cmp, nar), s, lo, l, g, hi, v) && KeepsWith(cmp, nar, s, lo, hi, v)
    ensures Sections(cmp, s, lo, l, g, hi, v)
  {
    assert forall i :: lo <= i < hi ==> SignKept(nar, cmp(s[i], v));
  }

  /** First the smaller elements, */
  method SortLess<T(!new)>(a: array<T>, lo: nat, left: nat, right: nat, n: nat, cmp: Order<T>, nar: Narrowing,
                           ghost v: T)
    requires Preorder(cmp) && nar(0) == 0 && lo + n <= a.Length && left < n && right < n
    requires Sections(Seen(cmp, nar), a[..], lo, lo + left, lo + n - right, lo + n, v)
    modifies a
    ensures Shuffled(old(a[..]), a[..], lo, lo + n)
    ensures KeepsWith(cmp, nar, old(a[..]), lo, lo + n, v) ==> Sorted(cmp, a[..], lo, lo + n)
    ensures BySign(Seen(cmp, nar), a[..], lo, lo + n, v)
    ensures left == 0 && right == 0 ==> a[..] == old(a[..])
    decreases n, 1
  {
    hide Preorder, Shuffled, Sorted, Sections, Keeps, KeepsWith, Seen, BySign, OfSeven, IsTrap, SignKept;
    ghost var s, l, g := a[..], lo + left, lo + n - right;
    SectionsInRange(Seen(cmp, nar), s, lo, l, g, lo + n, v);
    ShortSorted(cmp, s, lo, l);
    ShuffledRefl(s, lo, l);
    if left > 1 {
      QSort(a, lo, left, cmp, nar);
    }
    ghost var t := a[..];
    SectionsKept(Seen(cmp, nar), s, t, lo, l, g, lo + n, v);
    ShuffledWithin(s, t, lo, l, lo, lo + n);
    KeepsPart(cmp, nar, s, lo, lo + n, lo, l, v);
    KeepsShuffled(cmp, nar, s, t, lo, lo + n, v);
    SortGreater(a, lo, left, right, n, cmp, nar, v, KeepsWith(cmp, nar, s, lo, lo + n, v));
    ShuffledTrans(s, t, a[..], lo, lo + n);
  }

  lemma KeepsPart<T(!new)>(cmp: Order<T>, nar: Narrowing, s: seq<T>, lo: int, hi: int, lo2: int, hi2: int, v: T)
    requires 0 <= lo <= lo2 <= hi2 <= hi <= |s|
    ensures KeepsWith(cmp, nar, s, lo, hi, v) ==> Keeps(cmp, nar, s, lo2, hi2)
  {
  }

  /** then the greater ones. */
  method SortGreater<T(!new)>(a: array<T>, lo: nat, left: nat, right: nat, n: nat, cmp: Order<T>, nar: Narrowing,
                              ghost v: T, ghost kept: bool)
    requires Preorder(cmp) && nar(0) == 0 && lo + n <= a.Length && right < n
    requires kept ==> KeepsWith(cmp, nar, a[..], lo, lo + n, v) && Sorted(cmp, a[..], lo, lo + left)
    requires Sections(Seen(cmp, nar), a[..], lo, lo + left, lo + n - right, lo + n, v)
    modifies a
    ensures Shuffled(old(a[..]), a[..], lo, lo + n) && (kept ==> Sorted(cmp, a[..], lo, lo + n))
    ensures BySign(Seen(cmp, nar), a[..], lo, lo + n, v)
    ensures right == 0 ==> a[..] == old(a[..])
    decreases n, 0
  {
    hide Preorder, Shuffled, Sorted, Sections, Keeps, KeepsWith, Seen, BySign, OfSeven, IsTrap, SignKept;
    ghost var t, l, g := a[..], lo + left, lo + n - right;
    SectionsInRange(Seen(cmp, nar), t, lo, l, g, lo + n, v);
    ShortSorted(cmp, t, g, lo + n);
    ShuffledRefl(t, g, lo + n);
    KeepsPart(cmp, nar, t, lo, lo + n, g, lo + n, v);
    if right > 1 {
      QSort(a, lo + n - right, right, cmp, nar);
    }
    SectionsKept(Seen(cmp, nar), t, a[..], lo, l, g, lo + n, v);
    SectionsBySign(Seen(cmp, nar), a[..], lo, l, g, lo + n, v);
    ShuffledWithin(t, a[..], g, lo + n, lo, lo + n);
    if kept {
      KeepsShuffled(cmp, nar, t, a[..], lo, lo + n, v);
      SectionsSeen(cmp, nar, a[..], lo, l, g, lo + n, v);
      SortedKept(cmp, t, a[..], lo, l, g, lo + n);
      SectionsSorted(cmp, a[..], lo, l, g, lo + n, v);
    }
  }

  lemma ShortSorted<T(!new)>(cmp: Order<T>, s: seq<T>, lo: int, hi: int)
    requires 0 <= lo <= hi <= |s|
    ensures hi - lo <= 1 ==> Sorted(cmp, s, lo, hi)
  {
  }

  lemma SortedKept<T(!new)>(cmp: Order<T>, s: seq<T>, t: seq<T>, lo: int, l: int, g: int, hi: int)
    requires Sorted(cmp, s, lo, l) && l <= g && Shuffled(s, t, g, hi)
    ensures Sorted(cmp, t, lo, l)
  {
    forall i | lo <= i < l ensures t[i] == s[i] {
      assert t[..g][i] == s[..g][i];
    }
  }

  // ----- when signs are lost -----

  /** Two's complement from `-half` to `half - 1`. */
  function Narrow(half: nat): Narrowing
    requires half > 0
  {
    x => (x + half) % (2 * half) - half
  }

  /** Nothing is lost in a type that holds every result: in 32 bits as on most
      machines, or in eight when the results are small. */
  lemma FitsKept(half: nat, c: int)
    requires half > 0 && -(half as int) <= c < half
    ensures SignKept(Narrow(half), c)
  {
    SmallMod(c + half, 2 * half);
  }

  lemma SmallMod(x: nat, m: nat)
    requires x < m
    ensures x % m == x
  {
    assert x == x / m * m + x % m;
    Multiple(x / m, m);
  }

  lemma Multiple(q: int, m: nat)
    ensures (q >= 1 ==> q * m >= m) && (q <= -1 ==> q * m <= -(m as int))
  {
    if q >= 1 {
      assert q * m == m + (q - 1) * m && (q - 1) * m >= 0;
    } else if q <= -1 {
      assert q * m == (q + 1) * m - m && (q + 1) * m <= 0;
    }
  }

  /** Seven elements, `x` and `y` only, with `y` in the middle. */
  ghost predicate IsTrap<T(!new)>(cmp: Order<T>, nar: Narrowing, s: seq<T>, lo: int, x: T, y: T) {
    && 0 <= lo && lo + 7 <= |s|
    && s[lo..lo + 7] == [x, x, x, y, x, x, if nar(cmp(x, y)) == 0 && cmp(x, y) < 0 then x else y]
  }

  lemma TrapAt<T(!new)>(cmp: Order<T>, nar: Narrowing, s: seq<T>, lo: int, x: T, y: T)
    requires IsTrap(cmp, nar, s, lo, x, y)
    ensures s[lo] == x && s[lo + 1] == x && s[lo + 2] == x && s[lo + 3] == y && s[lo + 4] == x && s[lo + 5] == x
    ensures s[lo + 6] == if nar(cmp(x, y)) == 0 && cmp(x, y) < 0 then x else y
  {
    var l := s[lo..lo + 7];
    assert forall k :: 0 <= k < 7 ==> s[lo + k] == l[k];
    assert s[lo] == l[0] && s[lo + 1] == l[1] && s[lo + 2] == l[2] && s[lo + 3] == l[3];
    assert s[lo + 4] == l[4] && s[lo + 5] == l[5] && s[lo + 6] == l[6];
  }

  /** If the comparison of `x` with `y` loses its sign, what becomes of these seven
      elements is not sorted. */
  lemma Trapped<T(!new)>(cmp: Order<T>, nar: Narrowing, s: seq<T>, t: seq<T>, lo: int)
    requires Preorder(cmp) && nar(0) == 0 && OfSeven(Seen(cmp, nar), s, t, lo) && Shuffled(s, t, lo, lo + 7)
    ensures forall x, y :: !SignKept(nar, cmp(x, y)) && IsTrap(cmp, nar, s, lo, x, y) ==> !Sorted(cmp, t, lo, lo + 7)
  {
    hide Preorder, OfSeven, Shuffled, Seen, Sorted, IsTrap;
    forall x, y | !SignKept(nar, cmp(x, y)) && IsTrap(cmp, nar, s, lo, x, y) ensures !Sorted(cmp, t, lo, lo + 7) {
      TrapAt(cmp, nar, s, lo, x, y);
      if nar(cmp(x, y)) == 0 {
        TiesUnsorted(x, y, cmp, nar, s, t, lo);
      } else {
        SignsUnsorted(x, y, cmp, nar, s, t, lo);
      }
    }
  }

  lemma TiesUnsorted<T(!new)>(x: T, y: T, cmp: Order<T>, nar: Narrowing, s: seq<T>, t: seq<T>, lo: int)
    requires Preorder(cmp) && nar(0) == 0 && nar(cmp(x, y)) == 0 && !SignKept(nar, cmp(x, y))
    requires IsTrap(cmp, nar, s, lo, x, y) && OfSeven(Seen(cmp, nar), s, t, lo)
    ensures !Sorted(cmp, t, lo, lo + 7)
  {
    hide IsTrap;
    TrapAt(cmp, nar, s, lo, x, y);
    forall i | lo <= i < lo + 7 ensures Seen(cmp, nar)(s[i], s[lo + 3]) == 0 {
      assert i == lo || i == lo + 1 || i == lo + 2 || i == lo + 3 || i == lo + 4 || i == lo + 5 || i == lo + 6;
    }
    assert AllTied(Seen(cmp, nar), s, lo, lo + 7, lo + 3);
    assert t[lo] == y && t[lo + 1] == x && t[lo + 6] == s[lo + 6];
  }

  lemma SignsUnsorted<T(!new)>(x: T, y: T, cmp: Order<T>, nar: Narrowing, s: seq<T>, t: seq<T>, lo: int)
    requires Preorder(cmp) && nar(0) == 0 && !SignKept(nar, cmp(x, y)) && nar(cmp(x, y)) != 0
    requires IsTrap(cmp, nar, s, lo, x, y) && OfSeven(Seen(cmp, nar), s, t, lo) && Shuffled(s, t, lo, lo + 7)
    ensures !Sorted(cmp, t, lo, lo + 7)
  {
    hide IsTrap, Shuffled;
    TrapAt(cmp, nar, s, lo, x, y);
    var low := Seen(cmp, nar);
    assert low(s[lo + 6], s[lo + 3]) == 0;
    var i := FoundAgain(s, t, lo, lo + 7, lo);
    var j := FoundAgain(s, t, lo, lo + 7, lo + 3);
    assert t[i] == x && t[j] == y;
  }

  lemma FoundAgain<T>(s: seq<T>, t: seq<T>, lo: int, hi: int, i: int) returns (j: int)
    requires Shuffled(s, t, lo, hi) && lo <= i < hi
    ensures lo <= j < hi && t[j] == s[i]
  {
    j := Origin(t, s, lo, hi, i);
  }

  /** On a machine with an int_fast8_t of eight bits the difference of 256 and 0
      counts as none: the element in the middle goes to the front, and that is all. */
  lemma EightBits(t: seq<int>)
    requires OfSeven(Seen((x, y) => x - y, Narrow(128)), [256, 256, 256, 0, 256, 256, 0], t, 0)
    ensures t == [0, 256, 256, 256, 256, 256, 0] && !Sorted((x, y) => x - y, t, 0, 7)
  {
    var s := [256, 256, 256, 0, 256, 256, 0];
    var low := Seen((x, y) => x - y, Narrow(128));
    assert forall i :: 0 <= i < 7 ==> s[i] == 0 || s[i] == 256;
    assert AllTied(low, s, 0, 7, 3);
    assert t[1] == 256 && t[6] == 0;
  }
}
