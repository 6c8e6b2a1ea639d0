/**
 Bitwise `&` and `|` on unbounded integers against a non-negative mask, with
 the two's-complement meaning that both Go's fixed-width integers (for values
 that fit) and Python's unbounded integers give them. Dafny's `/` and `%` by a
 positive divisor round towards minus infinity, so `x / 2` is an arithmetic
 shift and `x % 2` the lowest bit, negative `x` included.
 */
module Bitwise {

  function Pow2(k: nat): (p: nat)
    ensures p >= 1
  {
    if k == 0 then 1 else 2 * Pow2(k - 1)
  }

  /** `x & mask`, one bit at a time from the lowest. */
  function And(x: int, mask: nat): (r: int)
    ensures 0 <= r <= mask
    decreases mask
  {
    if mask == 0 then 0
    else 2 * And(x / 2, mask / 2) + (x % 2) * (mask % 2)
  }

  /** `x | mask`, one bit at a time from the lowest. */
  function Or(x: int, mask: nat): (r: int)
    ensures x <= r <= x + mask
    decreases mask
  {
    if mask == 0 then x
    else 2 * Or(x / 2, mask / 2) + (if x % 2 == 1 || mask % 2 == 1 then 1 else 0)
  }

  /** Euclidean division is determined by any quotient/remainder pair. */
  lemma DivModUnique(x: int, d: int, q: int, r: int)
    requires d > 0 && x == d * q + r && 0 <= r < d
    ensures x / d == q && x % d == r
  {
    var q' := x / d;
    if q' > q {
      MulStep(d, q, q');
      assert false;
    } else if q' < q {
      MulStep(d, q', q);
      assert false;
    }
  }

  /** A larger factor adds at least one more `d`. */
  lemma MulStep(d: int, a: int, b: int)
    requires d > 0 && a < b
    ensures d * a + d <= d * b
  {
    var k := b - a;
    assert d * b == d * a + d * k;
    assert d * k == d + d * (k - 1);
    assert d * (k - 1) >= 0;
  }

  /** The remainder by `2p` from the remainder of `x / 2` by `p` and the low bit. */
  lemma ModDouble(x: int, p: nat)
    requires p > 0
    ensures x % (2 * p) == 2 * ((x / 2) % p) + x % 2
    ensures x / (2 * p) == (x / 2) / p
  {
    var h, b := x / 2, x % 2;
    var a, c := h / p, h % p;
    assert x == 2 * h + b;
    assert h == p * a + c;
    assert x == (2 * p) * a + (2 * c + b);
    DivModUnique(x, 2 * p, a, 2 * c + b);
  }

  /** Masking with `2^k - 1` keeps the `k` low bits. */
  lemma {:induction false} AndLowBits(x: int, k: nat, m: nat)
    requires m == Pow2(k)
    ensures And(x, m - 1) == x % m
    decreases k
  {
    if k > 0 {
      var p := Pow2(k - 1);
      AndLowBits(x / 2, k - 1, p);
      AndLowBitsStep(x, p, m);
    }
  }

  /** If the mask `p - 1` keeps the low bits of `x / 2`, the mask `2p - 1` keeps those of `x`. */
  lemma AndLowBitsStep(x: int, p: nat, m: nat)
    requires p >= 1 && m == 2 * p && And(x / 2, p - 1) == (x / 2) % p
    ensures And(x, m - 1) == x % m
  {
    var mask := 2 * p - 1;
    DivModUnique(mask, 2, p - 1, 1);
    assert (x % 2) * (mask % 2) == x % 2;
    assert And(x, mask) == 2 * And(x / 2, p - 1) + x % 2;
    ModDouble(x, p);
  }

  /** An even mask masks the value shifted right by one with half the mask. */
  lemma AndEven(x: int, m: nat)
    requires m > 0
    ensures And(x, 2 * m) == 2 * And(x / 2, m)
  {
    DivModUnique(2 * m, 2, m, 0);
  }

  /** Setting bits that all lie above a value adds them. */
  lemma {:induction false} OrAbove(x: int, m: nat, k: nat)
    requires 0 <= x < Pow2(k)
    ensures Or(x, Pow2(k) * m) == x + Pow2(k) * m
    decreases k
  {
    if k > 0 && m > 0 {
      var p := Pow2(k - 1);
      var pm := p * m;
      assert Pow2(k) * m == 2 * pm;
      DivModUnique(2 * pm, 2, pm, 0);
      assert pm > 0;
      assert Or(x, 2 * pm) == 2 * Or(x / 2, pm) + x % 2;
      OrAbove(x / 2, m, k - 1);
    } else if k == 0 {
      OrZero(m);
    }
  }

  /** `0 | m == m`. */
  lemma {:induction false} OrZero(m: nat)
    ensures Or(0, m) == m
  {
    if m > 0 {
      OrZero(m / 2);
    }
  }

  /** `x & 0x0F` is the low nibble. */
  lemma AndLowNibble(x: int)
    ensures And(x, 0x0F) == x % 16
  {
    assert Pow2(4) == 16;
    AndLowBits(x, 4, 16);
  }

  /** `x & 0xF0` is the second nibble, shifted back into place. */
  lemma AndHighNibble(x: int)
    ensures And(x, 0xF0) == x % 256 - x % 16
    ensures And(x, 0xF0) == 16 * ((x / 16) % 16)
  {
    var x2, x4, x8 := x / 2, (x / 2) / 2, ((x / 2) / 2) / 2;
    AndEven(x, 120);
    AndEven(x2, 60);
    AndEven(x4, 30);
    AndEven(x8, 15);
    ModDouble(x, 8);
    ModDouble(x2, 4);
    ModDouble(x4, 2);
    assert x8 / 2 == x / 16;
    assert Pow2(4) == 16;
    AndLowBits(x / 16, 4, 16);
    var q, r := x / 16, x % 16;
    var a, b := q / 16, q % 16;
    assert x == 16 * q + r;
    assert q == 16 * a + b;
    assert x == 256 * a + (16 * b + r);
    DivModUnique(x, 256, a, 16 * b + r);
  }

  /** `c | 0x80` and `c | 0x90` for a channel number `c` in 0..15. */
  lemma OrChannel(c: int)
    requires 0 <= c < 16
    ensures Or(c, 0x80) == 0x80 + c
    ensures Or(c, 0x90) == 0x90 + c
  {
    assert Pow2(4) == 16;
    OrAbove(c, 8, 4);
    OrAbove(c, 9, 4);
  }
}
