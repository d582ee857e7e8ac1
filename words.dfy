/**
 * Fixed-width machine words on unbounded integers: powers of two, the
 * bitwise OR of the low `n` bits of two naturals, and the 32-bit two's
 * complement conversions a C++ `int` goes through.
 */
module Words {

  const TWO16: nat := 0x1_0000
  const TWO31: nat := 0x8000_0000
  const TWO32: nat := 0x1_0000_0000

  function Pow2(n: nat): (r: nat)
    ensures r >= 1
  {
    if n == 0 then 1 else 2 * Pow2(n - 1)
  }

  lemma Pow2Widths()
    ensures Pow2(16) == TWO16 && Pow2(32) == TWO32
  {
    assert Pow2(4) == 16;
    Pow2Add(4, 4);
    Pow2Add(8, 8);
    Pow2Add(16, 16);
  }

  lemma {:induction false} Pow2Add(j: nat, k: nat)
    ensures Pow2(j + k) == Pow2(j) * Pow2(k)
  {
    if j > 0 {
      Pow2Add(j - 1, k);
    }
  }

  /** The low `n` bits of the bitwise OR `a | b`, one bit per step from the least significant. */
  function BitOr(a: nat, b: nat, n: nat): (r: nat)
    ensures r < Pow2(n)
  {
    if n == 0 then 0
    else 2 * BitOr(a / 2, b / 2, n - 1) + (if a % 2 == 1 || b % 2 == 1 then 1 else 0)
  }

  /** OR with zero keeps every bit of a value that fits in `n` bits. */
  lemma {:induction false} BitOrZero(a: nat, n: nat)
    requires a < Pow2(n)
    ensures BitOr(a, 0, n) == a && BitOr(0, a, n) == a
  {
    if n > 0 {
      BitOrZero(a / 2, n - 1);
    }
  }

  /**
   * OR-ing a value shifted left by `k` with a value of at most `k` bits is
   * addition: the two occupy disjoint bit ranges.
   */
  lemma {:induction false} BitOrDisjoint(hi: nat, lo: nat, k: nat, n: nat)
    requires k <= n && lo < Pow2(k) && hi * Pow2(k) < Pow2(n)
    ensures BitOr(hi * Pow2(k), lo, n) == hi * Pow2(k) + lo
  {
    if k == 0 {
      BitOrZero(hi, n);
    } else {
      var a := hi * Pow2(k);
      assert a == 2 * (hi * Pow2(k - 1));
      assert a / 2 == hi * Pow2(k - 1) && a % 2 == 0;
      assert hi * Pow2(k - 1) < Pow2(n - 1);
      BitOrDisjoint(hi, lo / 2, k - 1, n - 1);
    }
  }

  /**
   * OR works field by field: splitting both operands at bit `k` into a high
   * part and a low part of `k` bits, the OR is the OR of the high parts above
   * the OR of the low parts.
   */
  lemma {:induction false} BitOrSplit(h1: nat, l1: nat, h2: nat, l2: nat, k: nat, n: nat)
    requires k <= n && l1 < Pow2(k) && l2 < Pow2(k)
    ensures BitOr(h1 * Pow2(k) + l1, h2 * Pow2(k) + l2, n) == BitOr(h1, h2, n - k) * Pow2(k) + BitOr(l1, l2, k)
  {
    if k > 0 {
      var p := Pow2(k - 1);
      HalveField(h1, l1, p);
      HalveField(h2, l2, p);
      BitOrSplit(h1, l1 / 2, h2, l2 / 2, k - 1, n - 1);
      DoubleField(BitOr(h1, h2, n - k), p);
    }
  }

  /**
   * OR-ing `2^k + c` (with `c` below `2^k`) into a value whose bits below
   * `k + 1` are clear sets bit `k` and the bits of `c`.
   */
  lemma BitOrEvenHigh(m: nat, c: nat, k: nat, n: nat)
    requires k < n && c < Pow2(k) && m < Pow2(n - (k + 1))
    ensures BitOr((2 * m) * Pow2(k), Pow2(k) + c, n) == (2 * m + 1) * Pow2(k) + c
  {
    var p := Pow2(k);
    assert Pow2(k + 1) == 2 * p;
    assert (2 * m) * p == m * Pow2(k + 1) + 0;
    assert p + c == 0 * Pow2(k + 1) + (p + c);
    assert (2 * m + 1) * p == m * Pow2(k + 1) + p;
    BitOrSplit(m, 0, 0, p + c, k + 1, n);
    BitOrZero(m, n - (k + 1));
    BitOrZero(p + c, k + 1);
  }

  /**
   * OR-ing `2^k + c` (with `c` below `2^k`) into a value whose bit `k` is
   * already set and whose lower bits are clear only adds the bits of `c`.
   */
  lemma BitOrOddHigh(m: nat, c: nat, k: nat, n: nat)
    requires k < n && c < Pow2(k) && m < Pow2(n - (k + 1))
    ensures BitOr((2 * m + 1) * Pow2(k), Pow2(k) + c, n) == (2 * m + 1) * Pow2(k) + c
  {
    var p := Pow2(k);
    assert Pow2(k + 1) == 2 * p;
    assert (2 * m + 1) * p == m * Pow2(k + 1) + p;
    assert p + c == 0 * Pow2(k + 1) + (p + c);
    BitOrSplit(m, p, 0, p + c, k + 1, n);
    BitOrZero(m, n - (k + 1));
    BitOrSharedTop(c, k);
  }

  /** Below bit `k + 1`, OR-ing `2^k` into `2^k + c` changes nothing. */
  lemma BitOrSharedTop(c: nat, k: nat)
    requires c < Pow2(k)
    ensures BitOr(Pow2(k), Pow2(k) + c, k + 1) == Pow2(k) + c
  {
    var p := Pow2(k);
    assert p == 1 * p + 0 && p + c == 1 * p + c;
    BitOrSplit(1, 0, 1, c, k, k + 1);
    assert BitOr(1, 1, 1) == 1;
    BitOrZero(c, k);
  }

  /** Halving a value with high part `h` above a field of width `2p`. */
  lemma HalveField(h: nat, l: nat, p: nat)
    ensures (h * (2 * p) + l) / 2 == h * p + l / 2
    ensures (h * (2 * p) + l) % 2 == l % 2
  {
    assert h * (2 * p) == 2 * (h * p);
  }

  lemma DoubleField(b: nat, p: nat)
    ensures 2 * (b * p) == b * (2 * p)
  {
  }

  /** A 32-bit word made of a 16-bit upper half `hi` and lower half `lo` splits back into them. */
  lemma SplitHalves(hi: int, lo: int)
    requires 0 <= lo < TWO16
    ensures (hi * TWO16 + lo) / TWO16 == hi && (hi * TWO16 + lo) % TWO16 == lo
  {
  }

  /** The unsigned 32-bit pattern of an integer (a C++ conversion to `uint32_t`). */
  function Wrap32(x: int): (r: nat)
    ensures r < TWO32 && (x - r) % TWO32 == 0
  {
    x % TWO32
  }

  /** The `int32_t` whose two's complement bit pattern is `w`. */
  function ToInt32(w: nat): (r: int)
    requires w < TWO32
    ensures -(TWO31 as int) <= r < TWO31
    ensures Wrap32(r) == w
  {
    if w < TWO31 then w else w - TWO32
  }
}
