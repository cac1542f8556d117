/** Fixed-width integers of the C sources, modelled as bounded `int`s.
    Every wrap-around, truncating conversion and C-style division is an
    explicit function here, so that the models never rely on Dafny's
    unbounded arithmetic where the original relies on machine widths. */
module Bits {

  type byte = x: int | 0 <= x < 0x100
  type u16 = x: int | 0 <= x < 0x1_0000
  type u32 = x: int | 0 <= x < 0x1_0000_0000
  type i16 = x: int | -0x8000 <= x < 0x8000

  /** Assignment of an int to a uint8_t. */
  function Wrap8(x: int): (r: byte)
    ensures (r - x) % 0x100 == 0
    ensures 0 <= x < 0x100 ==> r == x
  {
    x % 0x100
  }

  /** Assignment of an int to a uint16_t. */
  function Wrap16(x: int): (r: u16)
    ensures (r - x) % 0x1_0000 == 0
    ensures 0 <= x < 0x1_0000 ==> r == x
  {
    x % 0x1_0000
  }

  /** Unsigned 32-bit arithmetic (uint32_t, size_t on the target). */
  function Wrap32(x: int): (r: u32)
    ensures (r - x) % 0x1_0000_0000 == 0
    ensures 0 <= x < 0x1_0000_0000 ==> r == x
  {
    x % 0x1_0000_0000
  }

  /** Conversion of an int to int16_t: two's complement truncation. */
  function ToInt16(x: int): (r: i16)
    ensures (r - x) % 0x1_0000 == 0
    ensures -0x8000 <= x < 0x8000 ==> r == x
  {
    var w := x % 0x1_0000;
    if w < 0x8000 then w else w - 0x1_0000
  }

  /** Conversion of a uint32_t to a 32-bit int: two's complement reinterpretation. */
  function ToInt32(x: u32): (r: int)
    ensures -0x8000_0000 <= r < 0x8000_0000
    ensures (r - x) % 0x1_0000_0000 == 0
    ensures x < 0x8000_0000 ==> r == x
  {
    if x < 0x8000_0000 then x else x - 0x1_0000_0000
  }

  /** C's `/` on signed ints: the quotient is truncated toward zero. */
  function TruncDiv(x: int, d: nat): (q: int)
    requires d > 0
    ensures x >= 0 ==> q == x / d
    ensures x < 0 ==> q == -((-x) / d)
  {
    if x >= 0 then x / d else -((-x) / d)
  }

  function Pow2(k: nat): (r: nat)
    ensures r >= 1
  {
    if k == 0 then 1 else 2 * Pow2(k - 1)
  }

  /** Bit k of x, as `(x >> k) & 1`. */
  predicate Bit(x: nat, k: nat) {
    (x / Pow2(k)) % 2 == 1
  }

  /** Bitwise OR of two naturals, one bit at a time. */
  function BitOr(x: nat, y: nat): (r: nat)
    decreases x + y
  {
    if x == 0 then y
    else if y == 0 then x
    else 2 * BitOr(x / 2, y / 2) + (if x % 2 == 1 || y % 2 == 1 then 1 else 0)
  }

  lemma {:induction false} BitOrBits(x: nat, y: nat, k: nat)
    ensures Bit(BitOr(x, y), k) <==> Bit(x, k) || Bit(y, k)
    decreases k
  {
    if x == 0 || y == 0 {
      ZeroBit(k);
    } else {
      var r := BitOr(x / 2, y / 2);
      var b := if x % 2 == 1 || y % 2 == 1 then 1 else 0;
      assert BitOr(x, y) == 2 * r + b;
      SplitLow(x, k);
      SplitLow(y, k);
      if k == 0 {
        LowBit(r, b);
      } else {
        BitOrBits(x / 2, y / 2, k - 1);
        ShiftedBit(r, b, k);
      }
    }
  }

  /** No bit of 0 is set. */
  lemma ZeroBit(k: nat)
    ensures !Bit(0, k)
  {
  }

  /** Bit 0 of 2*r + b is b. */
  lemma LowBit(r: nat, b: nat)
    requires b < 2
    ensures Bit(2 * r + b, 0) <==> b == 1
  {
    assert Pow2(0) == 1;
    ModUnique(2 * r + b, 2, r, b);
  }

  /** Bit k of x read off its halving: bit 0 is x % 2 and bit k > 0 is
      bit k - 1 of x / 2. */
  lemma SplitLow(x: nat, k: nat)
    ensures k == 0 ==> (Bit(x, k) <==> x % 2 == 1)
    ensures k > 0 ==> (Bit(x, k) <==> Bit(x / 2, k - 1))
  {
    assert x == 2 * (x / 2) + x % 2;
    if k == 0 {
      LowBit(x / 2, x % 2);
    } else {
      ShiftedBit(x / 2, x % 2, k);
    }
  }

  /** Bit k+1 of 2*r + b is bit k of r. */
  lemma ShiftedBit(r: nat, b: nat, k: nat)
    requires b < 2 && k > 0
    ensures Bit(2 * r + b, k) <==> Bit(r, k - 1)
  {
    var p := Pow2(k - 1);
    assert Pow2(k) == 2 * p;
    var q := r / p;
    var s := r % p;
    assert 2 * r + b == (2 * p) * q + (2 * s + b);
    DivUnique(2 * r + b, 2 * p, q, 2 * s + b);
  }

  /** Quotients are unique: the usual characterisation of `/`. */
  lemma DivUnique(x: nat, d: nat, q: nat, rem: nat)
    requires d > 0 && x == d * q + rem && rem < d
    ensures x / d == q
  {
    var q0 := x / d;
    var r0 := x % d;
    assert d * (q0 - q) == rem - r0;
    MulSmall(d, q0 - q);
  }

  /** Remainders are unique too, for any sign of x. */
  lemma ModUnique(x: int, d: int, q: int, rem: int)
    requires d > 0 && x == d * q + rem && 0 <= rem < d
    ensures x % d == rem
  {
    var q0 := x / d;
    var r0 := x % d;
    assert d * (q0 - q) == rem - r0;
    MulSmall(d, q0 - q);
  }

  /** Truncating to a byte does not change the low four bits. */
  lemma Wrap8Low4(x: int)
    ensures Wrap8(x) % 16 == x % 16
  {
    var q := x / 0x100;
    var w := x % 0x100;
    assert x == 16 * (16 * q + w / 16) + w % 16;
    ModUnique(x, 16, 16 * q + w / 16, w % 16);
  }

  lemma MulLe(x: int, y: int, c: nat)
    requires x <= y
    ensures x * c <= y * c
  {
  }

  /** A multiple of d strictly between -d and d is zero. */
  lemma MulSmall(d: int, k: int)
    requires d > 0 && -d < d * k < d
    ensures k == 0
  {
  }

  /** Bits of an OR, for every position at once. */
  lemma BitOrAllBits(x: nat, y: nat)
    ensures forall k: nat :: Bit(BitOr(x, y), k) <==> Bit(x, k) || Bit(y, k)
  {
    forall k: nat
      ensures Bit(BitOr(x, y), k) <==> Bit(x, k) || Bit(y, k)
    {
      BitOrBits(x, y, k);
    }
  }

  lemma Pow2Values()
    ensures Pow2(0) == 1 && Pow2(1) == 2 && Pow2(2) == 4 && Pow2(3) == 8
    ensures Pow2(4) == 16 && Pow2(5) == 32 && Pow2(6) == 64 && Pow2(7) == 128 && Pow2(8) == 256
  {
  }

  lemma {:induction false} BitOrZero(y: nat)
    ensures BitOr(0, y) == y
  {
  }

  /** OR of two values below 2^k stays below 2^k. */
  lemma {:induction false} BitOrBound(x: nat, y: nat, k: nat)
    requires x < Pow2(k) && y < Pow2(k)
    ensures BitOr(x, y) < Pow2(k)
    decreases k
  {
    if x == 0 || y == 0 {
    } else if k == 0 {
    } else {
      BitOrBound(x / 2, y / 2, k - 1);
    }
  }

  /** A quotient is at least m when m divisor-multiples fit in x. */
  lemma DivAtLeast(x: nat, d: nat, m: nat)
    requires d > 0 && m * d <= x
    ensures x / d >= m
  {
    var q := x / d;
    assert x == d * q + x % d;
    assert d * (q + 1 - m) > 0;
  }

  /** A quotient is below m when x is below m divisor-multiples. */
  lemma DivBelow(x: nat, d: nat, m: nat)
    requires d > 0 && x < m * d
    ensures x / d < m
  {
    var q := x / d;
    assert x == d * q + x % d;
    assert d * (m - q) > 0;
  }

  /** 2^(a+b) = 2^a * 2^b. */
  lemma {:induction false} Pow2Add(a: nat, b: nat)
    ensures Pow2(a + b) == Pow2(a) * Pow2(b)
    decreases a
  {
    if a > 0 {
      Pow2Add(a - 1, b);
    }
  }

  /** Dividing by a positive number never makes a natural larger. */
  lemma DivBracket(x: nat, d: nat)
    requires d > 0
    ensures (x / d) * d <= x < (x / d + 1) * d
  {
    assert x == d * (x / d) + x % d;
  }

  lemma DivLe(x: nat, d: nat)
    requires d > 0
    ensures 0 <= x / d <= x
  {
    MulLe(1, d, x / d);
  }

  /** Dividing by p and then by q is dividing by p * q. */
  lemma DivTwice(x: nat, p: nat, q: nat)
    requires p > 0 && q > 0
    ensures x / p / q == x / (p * q)
  {
    var x1 := x / p;
    var x2 := x1 / q;
    assert x == p * x1 + x % p;
    assert x1 == q * x2 + x1 % q;
    Regroup(x, p, q, x1, x % p, x2, x1 % q);
    DivUnique(x, p * q, x2, p * (x1 % q) + x % p);
  }

  /** The arithmetic of DivTwice, with the quotients and remainders named:
      two nested divisions make one by the product. */
  lemma Regroup(x: nat, p: nat, q: nat, x1: nat, r1: nat, x2: nat, r2: nat)
    requires r1 < p && r2 < q
    requires x == p * x1 + r1 && x1 == q * x2 + r2
    ensures x == (p * q) * x2 + (p * r2 + r1) && p * r2 + r1 < p * q
  {
    assert p * x1 == (p * q) * x2 + p * r2;
    MulLe(r2 + 1, q, p);
  }

  /** Shifting right by a and then by b is shifting right by a + b. */
  lemma DivPow2Twice(x: nat, a: nat, b: nat)
    ensures x / Pow2(a) / Pow2(b) == x / Pow2(a + b)
  {
    Pow2Add(a, b);
    DivTwice(x, Pow2(a), Pow2(b));
  }

  /** The two digits base 4 at the scale of p survive `% (p * 4k)`. */
  lemma LowDigitKeep(x: nat, p: nat, k: nat)
    requires p > 0 && k > 0
    ensures (x % (p * (4 * k))) / p % 4 == x / p % 4
  {
    var big := p * (4 * k);
    var q := x / big;
    var r := x % big;
    var rq := r / p;
    var rr := r % p;
    var hi := (4 * k) * q + rq;
    assert x == p * hi + rr by {
      assert x == big * q + r;
      assert r == p * rq + rr;
      assert big * q == p * ((4 * k) * q);
    }
    DivUnique(x, p, hi, rr);
    assert hi == 4 * (k * q + rq / 4) + rq % 4;
    ModUnique(hi, 4, k * q + rq / 4, rq % 4);
  }

  /** The two bits at position c lie below 2^m, so `% 2^m` keeps them. */
  lemma LowBitsKeep(x: nat, c: nat, m: nat)
    requires c + 2 <= m
    ensures (x % Pow2(m)) / Pow2(c) % 4 == x / Pow2(c) % 4
  {
    Pow2Add(c, m - c);
    Pow2Add(2, m - c - 2);
    assert Pow2(2) == 4;
    LowDigitKeep(x, Pow2(c), Pow2(m - c - 2));
  }

  /** 2^16, the span of a 16-bit half. */
  lemma Pow2Sixteen()
    ensures Pow2(16) == 0x1_0000
  {
    Pow2Add(8, 8);
    Pow2Values();
  }

  /** Bitwise AND of two naturals, one bit at a time. */
  function BitAnd(x: nat, y: nat): (r: nat)
    ensures r <= x && r <= y
    decreases x + y
  {
    if x == 0 || y == 0 then 0
    else 2 * BitAnd(x / 2, y / 2) + (if x % 2 == 1 && y % 2 == 1 then 1 else 0)
  }

  lemma {:induction false} BitAndBits(x: nat, y: nat, k: nat)
    ensures Bit(BitAnd(x, y), k) <==> Bit(x, k) && Bit(y, k)
    decreases k
  {
    if x == 0 || y == 0 {
      ZeroBit(k);
    } else {
      var r := BitAnd(x / 2, y / 2);
      var b := if x % 2 == 1 && y % 2 == 1 then 1 else 0;
      assert BitAnd(x, y) == 2 * r + b;
      SplitLow(x, k);
      SplitLow(y, k);
      if k == 0 {
        LowBit(r, b);
      } else {
        BitAndBits(x / 2, y / 2, k - 1);
        ShiftedBit(r, b, k);
      }
    }
  }
}
