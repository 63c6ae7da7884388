/** __ieee754_sqrt on two 32-bit words, with the rounding to nearest of section 5.2
    of IEEE 754-1985. */
module SquareRoot {
  const W: nat := 0x1_0000_0000          // one word

  /** What the algorithm keeps in an `int32_t` is never negative; in an `unsigned`
      it wraps. */
  type Signed = x: nat | x < 0x8000_0000
  type Unsigned = x: nat | x < 0x1_0000_0000

  function Words(hi: nat, lo: nat): nat {
    hi * W + lo
  }

  /** Both words shifted left by one bit. */
  function Double(hi: nat, lo: nat): (r: (nat, nat))
    requires lo < W
    ensures r.1 < W && Words(r.0, r.1) == 2 * Words(hi, lo)
  {
    if lo >= W / 2 then (2 * hi + 1, 2 * lo - W) else (2 * hi, 2 * lo)
  }

  // ----- one bit of the root -----

  /** The root so far is `p`, its next bit is worth `d / 2`, and the words hold the
      remainder, scaled. */
  ghost predicate Rooted(n: nat, p: nat, d: nat, x: nat) {
    p * p <= n < (p + d) * (p + d) && x * d == 2 * (n - p * p)
  }

  lemma Square(p: nat, b: nat)
    ensures (p + b) * (p + b) == p * p + 2 * p * b + b * b
  {
  }

  /** The test of the algorithm decides whether the bit belongs to the root. */
  lemma BitTest(n: nat, p: nat, b: nat, x: nat)
    requires b > 0 && Rooted(n, p, 2 * b, x)
    ensures 2 * p + b <= x <==> (p + b) * (p + b) <= n
    ensures x * b == n - p * p
  {
    Square(p, b);
    assert x * (2 * b) == 2 * (x * b);
    Scale(2 * p + b, x, b);
    assert (2 * p + b) * b == 2 * p * b + b * b;
  }

  lemma Distribute(a: nat, b: nat, c: nat)
    ensures (a + b) * c == a * c + b * c
  {
  }

  lemma Scale(y: nat, x: nat, b: nat)
    requires b > 0
    ensures y <= x <==> y * b <= x * b
  {
    if y <= x {
      Distribute(y, x - y, b);
    } else {
      Distribute(x, y - x, b);
      Distribute(1, y - x - 1, b);
    }
  }

  lemma BitTaken(n: nat, p: nat, b: nat, x: nat)
    requires b > 0 && Rooted(n, p, 2 * b, x) && 2 * p + b <= x
    ensures Rooted(n, p + b, b, 2 * (x - (2 * p + b)))
  {
    BitTest(n, p, b, x);
    Square(p, b);
    var y := x - (2 * p + b);
    assert (2 * p + b) * b == 2 * p * b + b * b;
    assert y * b == x * b - (2 * p + b) * b;
    assert 2 * y * b == 2 * (y * b);
    assert p + 2 * b == p + b + b;
  }

  lemma BitLeft(n: nat, p: nat, b: nat, x: nat)
    requires b > 0 && Rooted(n, p, 2 * b, x) && !(2 * p + b <= x)
    ensures Rooted(n, p, b, 2 * x)
  {
    BitTest(n, p, b, x);
    assert 2 * x * b == 2 * (x * b);
  }

  /** The remainder is small. */
  lemma Remainder(n: nat, p: nat, d: nat, x: nat)
    requires d > 0 && Rooted(n, p, d, x)
    ensures x < 4 * p + 2 * d
  {
    Square(p, d);
    assert (4 * p + 2 * d) * d == 2 * (2 * p * d + d * d);
    Scale(4 * p + 2 * d, x, d);
  }

  // ----- the two loops -----

  function Bit(i: nat): (b: nat)
    ensures b > 0
  {
    if i == 0 then 1 else 2 * Bit(i - 1)
  }

  function BitOrNone(i: int): nat {
    if i < 0 then 0 else Bit(i)
  }

  lemma NextBit(i: nat)
    ensures Bit(i) / 2 == BitOrNone(i - 1) && (i > 0 ==> Bit(i) == 2 * Bit(i - 1))
  {
  }

  const TOP: nat := 0x20_0000            // the first bit of the root, in the high word

  lemma Bits()
    ensures Bit(21) == TOP && Bit(31) == W / 2
  {
    assert Bit(5) == 32 && Bit(10) == 1024;
    assert Bit(15) == 32768 && Bit(20) == 1048576;
    assert Bit(25) == 33554432 && Bit(30) == 1073741824;
  }

  /** What the first loop keeps: the root is `q` in the high word. */
  ghost predicate High(n: nat, r: nat, q: nat, s0: nat, ix0: nat, ix1: nat) {
    ix1 < W && s0 == 2 * q && Rooted(n, q * W, if r == 0 then W else 2 * (r * W), Words(ix0, ix1))
  }

  lemma HighBit(r: nat, q: nat, ix0: nat, ix1: nat)
    requires ix1 < W
    ensures 2 * q + r <= ix0 <==> 2 * (q * W) + r * W <= Words(ix0, ix1)
    ensures (q + r) * W == q * W + r * W
    ensures 2 * q + r <= ix0 ==> Words(ix0 - (2 * q + r), ix1) == Words(ix0, ix1) - (2 * (q * W) + r * W)
  {
  }

  /** The remainder in the words is far from the sign bit. */
  lemma NoWordOverflow(n: nat, p: nat, d: nat, hi: nat, lo: nat)
    requires 0 < d <= 2 * (TOP * W) && n < 2 * (TOP * W) * (2 * (TOP * W)) && lo < W && Rooted(n, p, d, Words(hi, lo))
    ensures p < 2 * (TOP * W) && hi < 0x200_0000
  {
    Remainder(n, p, d, Words(hi, lo));
    Larger(2 * (TOP * W), p);
  }

  lemma HighFits(n: nat, r: nat, q: nat, s0: nat, ix0: nat, ix1: nat)
    requires High(n, r, q, s0, ix0, ix1) && r <= TOP && n < 2 * (TOP * W) * (2 * (TOP * W))
    ensures q < 2 * TOP && s0 < 4 * TOP && ix0 < 0x200_0000
  {
    hide Rooted, Words;
    NoWordOverflow(n, q * W, if r == 0 then W else 2 * (r * W), ix0, ix1);
  }

  /** The first loop: the upper part of the root of `n`. */
  method UpperBits(h: Signed, l: Unsigned, ghost n: nat) returns (q: Signed, s0: Signed, ix0: Signed, ix1: Unsigned)
    requires n < 2 * (TOP * W) * (2 * (TOP * W)) && Words(h, l) * (2 * (TOP * W)) == 2 * n
    ensures High(n, 0, q, s0, ix0, ix1)
  {
    hide Words, Rooted, Double, Bit, High;
    q, s0, ix0, ix1 := 0, 0, h, l;
    var r: Unsigned := TOP;
    ghost var i := 21;
    Bits();
    HighStarts(n, h, l);
    while r != 0
      invariant -1 <= i <= 21 && r == BitOrNone(i) <= TOP && High(n, r, q, s0, ix0, ix1)
      decreases i + 1
    {
      HighFits(n, r, q, s0, ix0, ix1);
      var t: Signed := s0 + r;
      NextBit(i);
      HighStep(n, r, q, s0, ix0, ix1);
      if t <= ix0 {
        s0 := t + r;
        ix0 := ix0 - t;
        q := q + r;
      }
      var dbl := Double(ix0, ix1);
      HighFits(n, r / 2, q, s0, dbl.0, dbl.1);
      ix0, ix1 := dbl.0, dbl.1;
      r, i := r / 2, i - 1;
    }
  }

  lemma HighStarts(n: nat, h: nat, l: nat)
    requires l < W && n < 2 * (TOP * W) * (2 * (TOP * W)) && Words(h, l) * (2 * (TOP * W)) == 2 * n
    ensures High(n, TOP, 0, 0, h, l)
  {
    StartRooted(n, 2 * (TOP * W), Words(h, l));
  }

  lemma HighStep(n: nat, r: nat, q: nat, s0: nat, ix0: nat, ix1: nat)
    requires r > 0 && (r == 1 || r == 2 * (r / 2)) && High(n, r, q, s0, ix0, ix1)
    ensures var t := s0 + r;
            if t <= ix0 then var x := Double(ix0 - t, ix1); High(n, r / 2, q + r, t + r, x.0, x.1)
            else var x := Double(ix0, ix1); High(n, r / 2, q, s0, x.0, x.1)
  {
    hide Words, Rooted, Double;
    HighBit(r, q, ix0, ix1);
    if s0 + r <= ix0 {
      BitTaken(n, q * W, r * W, Words(ix0, ix1));
    } else {
      BitLeft(n, q * W, r * W, Words(ix0, ix1));
    }
  }

  lemma StartRooted(n: nat, d: nat, x: nat)
    requires n < d * d && x * d == 2 * n
    ensures Rooted(n, 0, d, x)
  {
  }

  /** What the second loop keeps: the root is `q` and `q1`, twice the root `s0` and
      `s1`. */
  ghost predicate Low(n: nat, r: nat, q: nat, q1: nat, s0: nat, s1: nat, ix0: nat, ix1: nat) {
    && ix1 < W && s1 < W && Words(s0, s1) == 2 * Words(q, q1)
    && (s1 + 4 * r <= W || (s1 == 0 && r == W / 2))
    && q1 + (if r == 0 then 1 else 2 * r) <= W
    && Rooted(n, Words(q, q1), if r == 0 then 1 else 2 * r, Words(ix0, ix1))
  }

  /** Comparison and subtraction of double words. */
  lemma WordsOrder(a0: nat, a1: nat, b0: nat, b1: nat)
    requires a1 < W && b1 < W
    ensures a0 < b0 || (a0 == b0 && a1 <= b1) <==> Words(a0, a1) <= Words(b0, b1)
  {
  }

  function Minus(b0: nat, b1: nat, a0: nat, a1: nat): (r: (nat, nat))
    requires a1 < W && b1 < W && Words(a0, a1) <= Words(b0, b1)
    ensures r.1 < W && Words(r.0, r.1) == Words(b0, b1) - Words(a0, a1)
  {
    if b1 < a1 then (b0 - a0 - 1, b1 + W - a1) else (b0 - a0, b1 - a1)
  }

  /** Twice the root grows by two bits; at the first it carries. */
  lemma Twice(s0: nat, s1: nat, q: nat, q1: nat, r: nat)
    requires s1 < W && Words(s0, s1) == 2 * Words(q, q1) && r > 0
    requires s1 + 4 * r <= W || (s1 == 0 && r == W / 2)
    ensures s1 + r < W && Words(s0, s1 + r) == 2 * Words(q, q1) + r
    ensures var s2 := (s1 + r + r) % W;
            var carry := if s1 + r >= W / 2 && s2 < W / 2 then 1 else 0;
            s2 < W && Words(s0 + carry, s2) == 2 * Words(q, q1 + r) && (r < W / 2 ==> s2 == s1 + 2 * r)
  {
  }

  /** A bit of the second loop belongs to the root. */
  lemma LowTaken(n: nat, r: nat, q: nat, q1: nat, s0: nat, s1: nat, ix0: nat, ix1: nat)
    requires r > 0 && (r == 1 || r == 2 * (r / 2)) && Low(n, r, q, q1, s0, s1, ix0, ix1)
    requires s1 + r < W && Words(s0, s1 + r) <= Words(ix0, ix1)
    ensures var s2 := (s1 + r + r) % W;
            var carry := if s1 + r >= W / 2 && s2 < W / 2 then 1 else 0;
            var rest := Minus(ix0, ix1, s0, s1 + r);
            var x := Double(rest.0, rest.1);
            Low(n, r / 2, q, q1 + r, s0 + carry, s2, x.0, x.1)
  {
    hide Words, Rooted;
    Twice(s0, s1, q, q1, r);
    RootPlus(q, q1, r);
    BitTaken(n, Words(q, q1), r, Words(ix0, ix1));
  }

  lemma LowLeft(n: nat, r: nat, q: nat, q1: nat, s0: nat, s1: nat, ix0: nat, ix1: nat)
    requires r > 0 && (r == 1 || r == 2 * (r / 2)) && Low(n, r, q, q1, s0, s1, ix0, ix1)
    requires s1 + r < W && !(Words(s0, s1 + r) <= Words(ix0, ix1))
    ensures var x := Double(ix0, ix1); Low(n, r / 2, q, q1, s0, s1, x.0, x.1)
  {
    hide Words, Rooted;
    Twice(s0, s1, q, q1, r);
    BitLeft(n, Words(q, q1), r, Words(ix0, ix1));
  }

  lemma RootPlus(q: nat, q1: nat, r: nat)
    ensures Words(q, q1) + r == Words(q, q1 + r)
  {
  }

  lemma LowFits(n: nat, r: nat, q: nat, q1: nat, s0: nat, s1: nat, ix0: nat, ix1: nat)
    requires Low(n, r, q, q1, s0, s1, ix0, ix1) && r <= W / 2 && n < 2 * (TOP * W) * (2 * (TOP * W))
    ensures ix1 < W && s1 < W && (r > 0 ==> s1 + r < W) && q1 < W && s0 <= 4 * TOP && ix0 < 0x200_0000
    ensures r == 0 ==> Rooted(n, Words(q, q1), 1, Words(ix0, ix1))
  {
    hide Rooted;
    NoWordOverflow(n, Words(q, q1), if r == 0 then 1 else 2 * r, ix0, ix1);
  }

  lemma LowStarts(n: nat, q: nat, h0: nat, i0: nat, i1: nat)
    requires High(n, 0, q, h0, i0, i1)
    ensures BitOrNone(31) == W / 2 && Low(n, W / 2, q, 0, h0, 0, i0, i1)
  {
    Bits();
  }

  /** The second loop: the lower part. */
  method LowerBits(q: Signed, h0: Signed, i0: Signed, i1: Unsigned, ghost n: nat)
    returns (q1: Unsigned, ix0: Signed, ix1: Unsigned)
    requires High(n, 0, q, h0, i0, i1) && n < 2 * (TOP * W) * (2 * (TOP * W))
    ensures Rooted(n, Words(q, q1), 1, Words(ix0, ix1))
  {
    hide Low, Words, Rooted, High, Bit, Double;
    var s0: Signed, s1: Unsigned := h0, 0;
    q1, ix0, ix1 := 0, i0, i1;
    var r: Unsigned := W / 2;
    ghost var i := 31;
    LowStarts(n, q, h0, i0, i1);
    while r != 0
      invariant -1 <= i <= 31 && r == BitOrNone(i) <= W / 2 && Low(n, r, q, q1, s0, s1, ix0, ix1)
      decreases i + 1
    {
      NextBit(i);
      LowFits(n, r, q, q1, s0, s1, ix0, ix1);
      var t1: Unsigned, t: Signed := s1 + r, s0;
      WordsOrder(t, t1, ix0, ix1);
      if t < ix0 || (t == ix0 && t1 <= ix1) {
        LowTaken(n, r, q, q1, s0, s1, ix0, ix1);
        var rest := Minus(ix0, ix1, t, t1);
        ghost var x := Double(rest.0, rest.1);
        LowFits(n, r / 2, q, q1 + r, s0 + (if t1 >= W / 2 && (t1 + r) % W < W / 2 then 1 else 0), (t1 + r) % W,
                x.0, x.1);
        s1 := (t1 + r) % W;
        if t1 >= W / 2 && s1 < W / 2 {
          s0 := s0 + 1;
        }
        ix0, ix1 := rest.0, rest.1;
        q1 := q1 + r;
      } else {
        LowLeft(n, r, q, q1, s0, s1, ix0, ix1);
        ghost var x := Double(ix0, ix1);
        LowFits(n, r / 2, q, q1, s0, s1, x.0, x.1);
      }
      var dbl := Double(ix0, ix1);
      ix0, ix1 := dbl.0, dbl.1;
      r, i := r / 2, i - 1;
    }
    LowFits(n, r, q, q1, s0, s1, ix0, ix1);
  }

  // ----- rounding -----

  const K: nat := 0x10_0000_0000_0000    // the hidden bit of a 53-bit significand

  /** `z` is the integer nearest to half the root of `n`; there are no ties. */
  ghost predicate Nearest(n: nat, z: nat) {
    z > 0 && (2 * z - 1) * (2 * z - 1) < n < (2 * z + 1) * (2 * z + 1)
  }

  lemma OddSquare(p: nat)
    requires p % 2 == 1
    ensures p * p % 2 == 1
  {
    var h := p / 2;
    assert p == 2 * h + 1;
    assert p * p == 2 * (2 * h * h + 2 * h) + 1;
  }

  lemma Bigger(a: nat, b: nat)
    requires a < b
    ensures a * a < b * b
  {
    Scale(b, a, b);
    Scale(a, b, if a > 0 then a else 1);
    assert b * b > a * b;
  }

  /** Rounding the 54-bit root to 53 bits. */
  lemma Rounded(n: nat, p: nat)
    requires p > 0 && n % 2 == 0 && p * p <= n < (p + 1) * (p + 1)
    ensures Nearest(n, (if p % 2 == 1 then p + 1 else p) / 2)
    ensures p % 2 == 1 ==> p * p != n
  {
    if p % 2 == 1 {
      OddSquare(p);
      Bigger(p + 1, p + 2);
      IsNearest(n, (p + 1) / 2, p, p + 2);
    } else {
      Bigger(p - 1, p);
      IsNearest(n, p / 2, p - 1, p + 1);
    }
  }

  lemma IsNearest(n: nat, z: nat, a: nat, b: nat)
    requires z > 0 && a == 2 * z - 1 && b == 2 * z + 1 && a * a < n < b * b
    ensures Nearest(n, z)
  {
  }

  lemma RootRange(n: nat, p: nat)
    requires p * p <= n < (p + 1) * (p + 1) && K * (4 * K) <= n <= (4 * K - 2) * (4 * K)
    ensures 2 * K <= p <= 4 * K - 2
  {
    assert (2 * K) * (2 * K) == K * (4 * K);
    assert (4 * K - 1) * (4 * K - 1) == (4 * K - 2) * (4 * K) + 1;
    Larger(p + 1, 2 * K);
    Larger(4 * K - 1, p);
  }

  lemma Larger(a: nat, b: nat)
    ensures a <= b ==> a * a <= b * b
  {
    if a < b {
      Bigger(a, b);
    }
  }

  // ----- the whole function -----

  /** `Undefined`: C does not say. */
  datatype Result = SameAsInput | NotANumber | Undefined | Number(hi: nat, lo: nat)

  const HIDDEN: nat := 0x10_0000         // the hidden bit, in the high word

  predicate Positive(hi: nat, lo: nat) {
    lo < W && hi < 2047 * HIDDEN && Words(hi, lo) > 0
  }

  /** The significand `v` of a number with exponent `e`, with its first bit moved
      to the place of the hidden bit. */
  function Norm(v: nat, e: int): (r: (nat, int))
    requires 0 < v < 2 * K
    ensures K <= r.0 < 2 * K
    decreases 2 * K - v
  {
    if v >= K then (v, e) else Norm(2 * v, e - 1)
  }

  /** Significand and biased exponent; subnormal numbers have the exponent of the
      smallest normal ones, and no hidden bit. */
  function Parts(hi: nat, lo: nat): (r: (nat, int))
    requires Positive(hi, lo)
    ensures K <= r.0 < 2 * K
  {
    if hi < HIDDEN then Norm(Words(hi, lo), 1) else (Words(hi % HIDDEN + HIDDEN, lo), hi / HIDDEN)
  }

  /** The significand, doubled when the exponent is odd, so that the number is
      it times an even power of two. */
  function Scaled(hi: nat, lo: nat): (n: nat)
    requires Positive(hi, lo)
    ensures K <= n <= 4 * K - 2
  {
    var (v, e) := Parts(hi, lo);
    if e % 2 == 0 then 2 * v else v
  }

  /** Half of the unbiased exponent. */
  function HalfExponent(hi: nat, lo: nat): int
    requires Positive(hi, lo)
  {
    (Parts(hi, lo).1 - 1023) / 2
  }

  // ----- subnormal numbers -----

  lemma {:induction false} NormShift(v: nat, e: int, k: nat)
    requires v > 0 && k > 0 && v * Bit(k - 1) < K
    ensures v < K && v * Bit(k) < 2 * K && 0 < v * Bit(k) && Norm(v, e) == Norm(v * Bit(k), e - k)
    decreases k
  {
    BitMore(k - 1);
    assert v * Bit(k) == 2 * (v * Bit(k - 1));
    if k > 1 {
      BitMore(k - 2);
      assert v * Bit(k - 1) == 2 * (v * Bit(k - 2));
      NormShift(v, e, k - 1);
    } else {
      assert Bit(0) == 1 && v * Bit(0) == v;
    }
  }

  /** Shifting a word to the left by the power `a`: what goes out and what stays. */
  lemma ShiftOut(x: nat, a: nat, b: nat)
    requires a * b == W && x < W && b > 0
    ensures x / b * W + x * a % W == x * a && x / b < a
  {
    DivParts(x, b);
    ShiftParts(x / b, x % b, a, b);
    ModWord(x / b, x % b * a);
    Scale(a, x / b, b);
  }

  lemma DivParts(x: nat, b: nat)
    requires b > 0
    ensures x == x / b * b + x % b && 0 <= x % b < b && x / b >= 0
  {
  }

  lemma ShiftParts(h: nat, l: nat, a: nat, b: nat)
    requires a * b == W && l < b && b > 0
    ensures (h * b + l) * a == h * W + l * a && l * a < W
  {
    Distribute(h * b, l, a);
    Associate(h, b, a);
    assert b * a == a * b && a > 0;
    Scale(b, l, a);
  }

  lemma Associate(h: nat, b: nat, a: nat)
    ensures h * b * a == h * (b * a)
  {
  }

  lemma ModWord(h: nat, l: nat)
    requires l < W
    ensures (h * W + l) % W == l
  {
  }

  lemma {:induction false} BitSum(i: nat, j: nat)
    ensures Bit(i) * Bit(j) == Bit(i + j)
    decreases i
  {
    if i > 0 {
      BitSum(i - 1, j);
      BitMore(i - 1);
      BitMore(i - 1 + j);
      assert 2 * Bit(i - 1) * Bit(j) == 2 * (Bit(i - 1) * Bit(j));
    } else {
      assert Bit(0) == 1;
    }
  }

  lemma {:induction false} BitOrder(i: nat, j: nat)
    requires Bit(i) < Bit(j)
    ensures i < j
    decreases i
  {
    if i > 0 && j > 0 {
      BitMore(i - 1);
      BitMore(j - 1);
      BitOrder(i - 1, j - 1);
    }
  }

  lemma BitMore(i: nat)
    ensures Bit(i + 1) == 2 * Bit(i)
  {
  }

  function ShiftRight(x: Unsigned, k: nat): nat {
    DivParts(x, Bit(k));
    x / Bit(k)
  }

  function ShiftLeft(x: Unsigned, k: nat): Unsigned {
    x * Bit(k) % W
  }

  /** Twenty-one places at once. */
  lemma Shift21(x: nat, e: int)
    requires 0 < x < W
    ensures var y := Words(x / 2048, x * 0x20_0000 % W);
            y == x * 0x20_0000 && x / 2048 < 2 * HIDDEN && 0 < x < 2 * K && 0 < y < 2 * K
              && Norm(y, e - 21) == Norm(x, e)
  {
    hide Norm;
    Bits();
    assert Bit(20) == 1048576;
    NormShift(x, e, 21);
  }

  /** Up to twenty places: the hidden bit is set then. */
  lemma FinalShift(x0: nat, x1: nat, i: nat, e: int)
    requires 0 < x0 && x1 < W && i > 0 && x0 * Bit(i - 1) < HIDDEN <= x0 * Bit(i)
    ensures i <= 20
    ensures var p, l := ShiftRight(x1, 32 - i), ShiftLeft(x1, i);
            && p < Bit(i) && Words(x0 * Bit(i) + p, l) == Words(x0, x1) * Bit(i) < 2 * K
            && 0 < Words(x0, x1) < K && Norm(Words(x0, x1), e) == (Words(x0, x1) * Bit(i), e - i)
  {
    hide Norm, Bit, Words;
    Powers();
    Scale(1, x0, Bit(i - 1));
    BitOrder(i - 1, 20);
    BitSum(i - 1, 21 - i);
    BitSum(i, 32 - i);
    Below(x0, x1, i);
    NormShift(Words(x0, x1), e, i);
    ShiftOut(x1, Bit(i), Bit(32 - i));
    Shifted(x0, x1, Bit(i), ShiftRight(x1, 32 - i), ShiftLeft(x1, i));
    NormDone(Words(x0, x1) * Bit(i), e - i);
  }

  lemma Powers()
    ensures Bit(20) == HIDDEN && Bit(32) == W
  {
    Bits();
    assert Bit(20) == 1048576;
    BitMore(31);
  }

  lemma NormDone(v: nat, e: int)
    requires K <= v < 2 * K
    ensures Norm(v, e) == (v, e)
  {
  }

  lemma Below(x0: nat, x1: nat, i: nat)
    requires 0 < x0 && x1 < W && 0 < i <= 20 && x0 * Bit(i - 1) < HIDDEN <= x0 * Bit(i)
    requires Bit(i - 1) * Bit(21 - i) == HIDDEN
    ensures 0 < Words(x0, x1) && Words(x0, x1) * Bit(i - 1) < K && K <= Words(x0, x1) * Bit(i)
  {
    hide Bit;
    var b, c := Bit(i - 1), Bit(21 - i);
    Scale(c, x0, b);
    assert c * b == b * c;
    Scale(x0 + 1, c, b);
    assert (x0 + 1) * b <= HIDDEN;
    WordsTimes(x0, x1, b);
    WordsTimes(x0, x1, Bit(i));
  }

  lemma WordsTimes(x0: nat, x1: nat, b: nat)
    requires x1 < W && b > 0
    ensures x0 * b * W <= Words(x0, x1) * b < (x0 + 1) * b * W
  {
    Distribute(x0 * W, x1, b);
    assert x0 * W * b == x0 * b * W;
    Scale(W, x1, b);
    assert (x0 + 1) * b * W == x0 * b * W + W * b;
  }

  lemma Shifted(x0: nat, x1: nat, a: nat, p: nat, l: nat)
    requires p * W + l == x1 * a
    ensures Words(x0 * a + p, l) == Words(x0, x1) * a
  {
    Distribute(x0 * W, x1, a);
    Distribute(x0 * a, p, W);
    assert x0 * W * a == x0 * a * W;
  }

  /** Whole steps of twenty-one places while the high word is empty. */
  method EmptyWord(hi: Signed, lo: Unsigned) returns (ix0: Signed, ix1: Unsigned, m: int)
    requires hi < HIDDEN && Words(hi, lo) > 0
    ensures 0 < ix0 < 2 * HIDDEN && Norm(Words(ix0, ix1), m + 1) == Parts(hi, lo)
    ensures ix0 >= HIDDEN <==> ShiftsByWord(hi, lo)
  {
    hide Norm;
    ix0, ix1, m := hi, lo, 0;
    while ix0 == 0
      invariant ix0 < 2 * HIDDEN && 0 < Words(ix0, ix1) < 2 * K && Norm(Words(ix0, ix1), m + 1) == Parts(hi, lo)
      invariant m == 0 || m == -21 || m == -42
      invariant m == 0 ==> ix0 == hi && ix1 == lo
      invariant m == -21 ==> hi == 0 && Words(ix0, ix1) == lo * 0x20_0000
      invariant m == -42 ==> hi == 0 && lo < 2048 && Words(ix0, ix1) == lo * 0x400_0000_0000
      decreases m + 42
    {
      Shift21(ix1, m + 1);
      m := m - 21;
      ix0, ix1 := ix1 / 2048, ix1 * 0x20_0000 % W;
    }
  }

  /** Is the last shift one by the width of the word, which C leaves undefined
      (section 6.5.7 of ISO C99)? */
  predicate ShiftsByWord(hi: nat, lo: nat) {
    hi == 0 && (lo >= W / 2 || 1024 <= lo < 2048)
  }

  /** The words moved up until the hidden bit is set; `m` counts down with them. */
  method Subnormal(hi: Signed, lo: Unsigned) returns (ok: bool, ix0: Signed, ix1: Unsigned, m: int)
    requires hi < HIDDEN && Words(hi, lo) > 0
    ensures ok <==> !ShiftsByWord(hi, lo)
    ensures ok ==> HIDDEN <= ix0 < 2 * HIDDEN && (Words(ix0, ix1), m) == Parts(hi, lo)
  {
    hide Norm, Bit;
    ix0, ix1, m := EmptyWord(hi, lo);
    ghost var x0 := ix0;
    var i := 0;
    ZeroPlaces(x0);
    while ix0 < HIDDEN
      invariant i >= 0 && 0 < ix0 == x0 * Bit(i) < 2 * HIDDEN && (i > 0 ==> x0 * Bit(i - 1) < HIDDEN)
      decreases 2 * HIDDEN - ix0
    {
      BitMore(i);
      assert x0 * Bit(i + 1) == 2 * (x0 * Bit(i));
      ix0 := 2 * ix0;
      i := i + 1;
    }
    ok := i > 0;
    if ok {
      FinalShift(x0, ix1, i, m + 1);
      m := m - (i - 1);
      ix0, ix1 := ix0 + ShiftRight(ix1, 32 - i), ShiftLeft(ix1, i);
    }
  }

  lemma ZeroPlaces(x: nat)
    ensures x * Bit(0) == x
  {
  }

  /** Words and exponent packed into a number. */
  lemma Packed(q: nat, q1: nat, m: int, z: nat)
    requires q1 < W && Words(q, q1) / 2 == z && K <= z < 2 * K && m + 1022 >= 0
    ensures var hi := q / 2 + 0x3fe0_0000 + m * HIDDEN;
            var lo := q1 / 2 + if q % 2 == 1 then W / 2 else 0;
            hi >= 0 && lo < W && Words(hi, lo) == (m + 1023) * K + (z - K)
  {
    assert 0x3fe0_0000 == 1022 * HIDDEN;
    assert HIDDEN * W == K;
    assert Words(q, q1) == q * W + q1;
  }

  /** The significand made even in exponent. */
  method Normalize(hi: Signed, lo: Unsigned) returns (ok: bool, ix0: Signed, ix1: Unsigned, m: int)
    requires Positive(hi, lo)
    ensures ok <==> !ShiftsByWord(hi, lo)
    ensures ok ==> Words(ix0, ix1) == Scaled(hi, lo) && m == HalfExponent(hi, lo)
  {
    hide Norm;
    ok, ix0, ix1, m := true, hi, lo, hi / HIDDEN;
    if m == 0 {
      ok, ix0, ix1, m := Subnormal(hi, lo);
      if !ok {
        return;
      }
    }
    m := m - 1023;
    ix0 := ix0 % HIDDEN + HIDDEN;
    if m % 2 != 0 {
      var x := Double(ix0, ix1);
      ix0, ix1 := x.0, x.1;
    }
    m := m / 2;
  }

  /** Both loops and the rounding. */
  method RootBits(h: Signed, l: Unsigned) returns (q: Signed, q1: Unsigned)
    requires K <= Words(h, l) <= 4 * K - 2
    ensures K <= Words(q, q1) / 2 < 2 * K && Nearest(Words(h, l) * (4 * K), Words(q, q1) / 2)
  {
    hide Nearest;
    ghost var n := Words(h, l) * (4 * K);
    var x := Double(h, l);
    StartRange(Words(h, l), Words(x.0, x.1));
    var s0: Signed, ix0: Signed, ix1: Unsigned;
    q, s0, ix0, ix1 := UpperBits(x.0, x.1, n);
    q1, ix0, ix1 := LowerBits(q, s0, ix0, ix1, n);
    ghost var p := Words(q, q1);
    assert p * p <= n < (p + 1) * (p + 1) && Words(ix0, ix1) == 2 * (n - p * p);
    RootRange(n, p);
    Rounded(n, p);
    assert Words(ix0, ix1) == 0 <==> ix0 == 0 && ix1 == 0;
    if ix0 != 0 || ix1 != 0 {
      RoundUp(q, q1);
      if q1 == W - 1 {
        q1 := 0;
        q := q + 1;
      } else {
        q1 := q1 + q1 % 2;
      }
    }
  }

  lemma StartRange(m: nat, x: nat)
    requires x == 2 * m && K <= m <= 4 * K - 2
    ensures var n := m * (4 * K);
            && n % 2 == 0 && K * (4 * K) <= n <= (4 * K - 2) * (4 * K)
            && n < 2 * (TOP * W) * (2 * (TOP * W)) && x * (2 * (TOP * W)) == 2 * n
  {
    assert 2 * (TOP * W) == 4 * K;
  }

  lemma RoundUp(q: nat, q1: nat)
    requires q1 < W
    ensures q1 == W - 1 ==> Words(q + 1, 0) == Words(q, q1) + 1 && Words(q, q1) % 2 == 1
    ensures q1 < W - 1 ==> q1 + q1 % 2 < W && Words(q, q1 + q1 % 2) == Words(q, q1) + Words(q, q1) % 2
  {
  }

  /** The result has half the exponent and the correctly rounded significand. */
  ghost predicate Correct(hi: nat, lo: nat, r: Result)
    requires Positive(hi, lo)
  {
    && r.Number? && r.lo < W
    && exists z :: K <= z < 2 * K && Nearest(Scaled(hi, lo) * (4 * K), z)
                   && Words(r.hi, r.lo) == (HalfExponent(hi, lo) + 1023) * K + (z - K)
  }

  method Sqrt(hi: Unsigned, lo: Unsigned) returns (r: Result)
    ensures hi / HIDDEN % 2048 == 2047 ==> r == if hi == 2047 * HIDDEN && lo == 0 then SameAsInput else NotANumber
    ensures hi % (W / 2) == 0 && lo == 0 ==> r == SameAsInput
    ensures hi >= W / 2 && !(hi == W / 2 && lo == 0) ==> r == NotANumber
    ensures Positive(hi, lo) ==> if ShiftsByWord(hi, lo) then r == Undefined else Correct(hi, lo, r)
  {
    hide Nearest, Norm;
    if hi / HIDDEN % 2048 == 2047 {
      return if hi == 2047 * HIDDEN && lo == 0 then SameAsInput else NotANumber;
    }
    if hi % (W / 2) == 0 && lo == 0 {
      return SameAsInput;
    }
    if hi >= W / 2 {
      return NotANumber;
    }
    r := PositiveRoot(hi, lo);
  }

  method PositiveRoot(hi: Signed, lo: Unsigned) returns (r: Result)
    requires Positive(hi, lo)
    ensures if ShiftsByWord(hi, lo) then r == Undefined else Correct(hi, lo, r)
  {
    hide Nearest, Norm, Parts, Words;
    var ok, ix0, ix1, m := Normalize(hi, lo);
    if !ok {
      return Undefined;
    }
    var q, q1 := RootBits(ix0, ix1);
    ExponentRange(hi, lo);
    Packed(q, q1, m, Words(q, q1) / 2);
    r := Number(q / 2 + 0x3fe0_0000 + m * HIDDEN, q1 / 2 + if q % 2 == 1 then W / 2 else 0);
  }

  lemma ExponentRange(hi: nat, lo: nat)
    requires Positive(hi, lo)
    ensures HalfExponent(hi, lo) + 1022 >= 0
  {
    if hi < HIDDEN {
      NormRange(Words(hi, lo), 1);
    }
  }

  lemma {:induction false} NormRange(v: nat, e: int)
    requires 0 < v < 2 * K
    ensures Norm(v, e).1 >= e - 52
  {
    NormPlaces(v, e, 0);
  }

  lemma {:induction false} NormPlaces(v: nat, e: int, k: nat)
    requires 0 < v < 2 * K && k <= 52 && v >= Bit(k)
    ensures Norm(v, e).1 >= e - (52 - k)
    decreases 52 - k
  {
    if v < K {
      if k < 52 {
        BitMore(k);
        NormPlaces(2 * v, e - 1, k + 1);
      } else {
        Top52();
      }
    }
  }

  lemma Top52()
    ensures Bit(52) == K
  {
    Powers();
    BitSum(20, 32);
  }
}
