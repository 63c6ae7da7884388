/** How big the two parts of a table become when it grows. */
module TableSizes {
  /** The width of an `int`. */
  const BITSINT: nat := 32

  const MAXBITS: nat := if BITSINT > 26 then 26 else BITSINT - 2

  function Pow2(i: nat): (p: nat)
    ensures p > 0
  {
    if i == 0 then 1 else 2 * Pow2(i - 1)
  }

  const MAXASIZE: nat := Pow2(MAXBITS)

  lemma Pow2Double(i: nat)
    ensures Pow2(0) == 1 && Pow2(i + 1) == 2 * Pow2(i)
  {
  }

  lemma {:induction false} Pow2Grows(i: nat, j: nat)
    requires i <= j
    ensures Pow2(i) <= Pow2(j)
  {
    if i < j {
      Pow2Grows(i, j - 1);
    }
  }

  function CeilLog2(k: nat): (b: nat)
    requires k >= 1
    ensures k <= Pow2(b) && (b > 0 ==> Pow2(b - 1) < k)
  {
    if k == 1 then 0 else 1 + CeilLog2((k + 1) / 2)
  }

  /** `CeilLog2(k) <= i` says the same as `k <= Pow2(i)`. */
  lemma SliceOf(k: nat, i: nat)
    requires k >= 1
    ensures CeilLog2(k) <= i <==> k <= Pow2(i)
  {
    if CeilLog2(k) <= i {
      Pow2Grows(CeilLog2(k), i);
    } else {
      Pow2Grows(i, CeilLog2(k) - 1);
    }
  }

  // ----- counting integer keys -----

  ghost function UpTo(s: set<int>, n: int): set<int> {
    set k | k in s && 1 <= k <= n
  }

  ghost function Slice(s: set<int>, b: nat): set<int> {
    set k | k in s && 1 <= k && CeilLog2(k) == b
  }

  /** `nums[b]` counts the keys of slice `b`. */
  ghost predicate Counts(nums: seq<nat>, s: set<int>) {
    |nums| == MAXBITS + 1 && forall b :: 0 <= b <= MAXBITS ==> nums[b] == |Slice(s, b)|
  }

  lemma {:induction false} UpToBound(s: set<int>, n: nat)
    ensures |UpTo(s, n)| <= n
  {
    if n == 0 {
      assert UpTo(s, n) == {};
    } else {
      UpToBound(s, n - 1);
      if n in s {
        assert UpTo(s, n) == UpTo(s, n - 1) + {n};
      } else {
        assert UpTo(s, n) == UpTo(s, n - 1);
      }
    }
  }

  lemma UpToMore(s: set<int>, m: int, n: int)
    requires m <= n
    ensures |UpTo(s, m)| <= |UpTo(s, n)|
  {
    Smaller(UpTo(s, m), UpTo(s, n));
  }

  lemma Smaller<T>(a: set<T>, b: set<T>)
    requires a <= b
    ensures |a| <= |b|
  {
    assert b == a + (b - a);
  }

  lemma SliceAdds(s: set<int>, i: nat)
    ensures |UpTo(s, Pow2(i))| == (if i == 0 then 0 else |UpTo(s, Pow2(i - 1))|) + |Slice(s, i)|
  {
    var low: set<int> := if i == 0 then {} else UpTo(s, Pow2(i - 1));
    forall k | k in s && k >= 1 ensures (k <= Pow2(i)) <==> (k in low || CeilLog2(k) == i) {
      SliceOf(k, i);
      if i > 0 {
        SliceOf(k, i - 1);
      }
    }
    forall k | k in low ensures k !in Slice(s, i) {
      if i > 0 {
        SliceOf(k, i - 1);
      }
    }
    assert UpTo(s, Pow2(i)) == low + Slice(s, i);
  }

  /** `n` is the largest power of two, up to the limit, of whose indices more than
      half are keys; 0 when there is none. */
  ghost predicate Best(s: set<int>, n: nat) {
    && (n == 0 || exists i :: 0 <= i <= MAXBITS && n == Pow2(i) && |UpTo(s, n)| > n / 2)
    && (forall j :: 0 <= j <= MAXBITS && Pow2(j) > n ==> |UpTo(s, Pow2(j))| <= Pow2(j) / 2)
  }

  lemma BestOnce(s: set<int>, n: nat, m: nat)
    requires Best(s, n) && Best(s, m)
    ensures n == m
  {
    hide UpTo, Pow2;
  }

  /** What the loop of computesizes knows after the slices below `i`. */
  ghost predicate BestSoFar(s: set<int>, n: nat, i: nat) {
    && (n == 0 || exists b :: 0 <= b < i && b <= MAXBITS && n == Pow2(b) && |UpTo(s, n)| > n / 2)
    && (forall j :: 0 <= j < i && Pow2(j) > n ==> |UpTo(s, Pow2(j))| <= Pow2(j) / 2)
  }

  /** An empty slice cannot make the next power of two more than half full. */
  lemma HalfAtMost(s: set<int>, i: nat)
    requires Slice(s, i) == {}
    ensures |UpTo(s, Pow2(i))| <= Pow2(i) / 2
  {
    SliceAdds(s, i);
    if i > 0 {
      UpToBound(s, Pow2(i - 1));
    }
  }

  /** Nor can any power of two be, once all keys are counted. */
  lemma RestHalf(s: set<int>, i: nat, j: nat, total: nat)
    requires i <= j && |UpTo(s, Pow2(MAXBITS))| == total && j <= MAXBITS && total <= Pow2(i) / 2
    ensures |UpTo(s, Pow2(j))| <= Pow2(j) / 2
  {
    hide Pow2;
    Pow2Grows(i, j);
    Pow2Grows(j, MAXBITS);
    UpToMore(s, Pow2(j), Pow2(MAXBITS));
  }

  /** computesizes: the size of the array part, and how many keys go there. */
  method ComputeSizes(nums: seq<nat>, narray: nat, ghost s: set<int>) returns (n: nat, na: nat)
    requires Counts(nums, s) && narray == |UpTo(s, Pow2(MAXBITS))|
    ensures Best(s, n) && na == |UpTo(s, n)|
  {
    hide Pow2, Slice;
    var i, twotoi, a := 0, 1, 0;
    n, na := 0, 0;
    Pow2Double(0);
    assert UpTo(s, 0) == {};
    while twotoi / 2 < narray
      invariant 0 <= i <= MAXBITS + 1 && twotoi == Pow2(i)
      invariant a == if i == 0 then 0 else |UpTo(s, Pow2(i - 1))|
      invariant na == |UpTo(s, n)| && BestSoFar(s, n, i)
      invariant i == MAXBITS + 1 ==> narray <= twotoi / 2
      decreases MAXBITS + 1 - i
    {
      SliceAdds(s, i);
      Pow2Double(i);
      assert nums[i] == |Slice(s, i)|;
      if nums[i] > 0 {
        a := a + nums[i];
        if a > twotoi / 2 {
          n, na := twotoi, a;
          Pow2Below(s, n, i);
        }
      } else {
        HalfAtMost(s, i);
      }
      if a == narray {
        AllCounted(s, n, i, narray);
        return;
      }
      i, twotoi := i + 1, twotoi * 2;
      if i == MAXBITS + 1 {
        UpToBound(s, Pow2(MAXBITS));
      }
    }
    forall j | 0 <= j <= MAXBITS && Pow2(j) > n ensures |UpTo(s, Pow2(j))| <= Pow2(j) / 2 {
      if j >= i {
        RestHalf(s, i, j, narray);
      }
    }
  }

  lemma Pow2Below(s: set<int>, n: nat, i: nat)
    requires n == Pow2(i)
    ensures forall j :: 0 <= j < i ==> Pow2(j) <= n
  {
    forall j | 0 <= j < i ensures Pow2(j) <= n {
      Pow2Grows(j, i);
    }
  }

  lemma AllCounted(s: set<int>, n: nat, i: nat, total: nat)
    requires i <= MAXBITS && |UpTo(s, Pow2(MAXBITS))| == total == |UpTo(s, Pow2(i))| && BestSoFar(s, n, i + 1)
    ensures Best(s, n)
  {
    hide Pow2;
    UpToBound(s, Pow2(i));
    Pow2Double(i);
    forall j | 0 <= j <= MAXBITS && Pow2(j) > n ensures |UpTo(s, Pow2(j))| <= Pow2(j) / 2 {
      if j > i {
        RestHalf(s, i + 1, j, total);
      }
    }
  }

  /** One more key in slice `b` of `nums`, counted there or not. */
  lemma SliceGrows(s: set<int>, n: int, b: nat)
    requires n !in s
    ensures |Slice(s + {n}, b)| == |Slice(s, b)| + if 1 <= n && CeilLog2(n) == b then 1 else 0
  {
    if 1 <= n && CeilLog2(n) == b {
      assert Slice(s + {n}, b) == Slice(s, b) + {n};
    } else {
      assert Slice(s + {n}, b) == Slice(s, b);
    }
  }

  lemma UpToGrows(s: set<int>, n: int, m: int)
    requires n !in s
    ensures |UpTo(s + {n}, m)| == |UpTo(s, m)| + if 1 <= n <= m then 1 else 0
  {
    if 1 <= n <= m {
      assert UpTo(s + {n}, m) == UpTo(s, m) + {n};
    } else {
      assert UpTo(s + {n}, m) == UpTo(s, m);
    }
  }

  /** countint: counts an integer key that could live in the array part. */
  method CountInt(n: int, nums: seq<nat>, ghost s: set<int>) returns (nums2: seq<nat>, c: nat)
    requires Counts(nums, s) && n !in s
    ensures Counts(nums2, s + {n}) && c == |UpTo(s + {n}, Pow2(MAXBITS))| - |UpTo(s, Pow2(MAXBITS))|
  {
    hide Pow2, Slice, UpTo;
    nums2, c := nums, 0;
    UpToGrows(s, n, Pow2(MAXBITS));
    if 0 < n <= Pow2(MAXBITS) {
      SliceOf(n, MAXBITS);
      nums2 := nums[CeilLog2(n) := nums[CeilLog2(n)] + 1];
      c := 1;
    } else if n > 0 {
      SliceOf(n, MAXBITS);
    }
    forall b | 0 <= b <= MAXBITS ensures nums2[b] == |Slice(s + {n}, b)| {
      SliceGrows(s, n, b);
    }
  }
}
