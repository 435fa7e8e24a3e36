/**
 * Fixed-width machine integers of the MSP430 target and the bit operations the
 * Chaos code applies to them. Widths are unbounded `int`s restricted to their
 * range; every wrap-around of the C code is written out with Wrap8/16/32.
 * Bitwise OR and AND are defined bit by bit from the least significant end, so
 * that facts about them are proved by induction on the bits.
 */
module Bytes {

  type u8 = x: int | 0 <= x < 0x100
  type u16 = x: int | 0 <= x < 0x1_0000
  type u32 = x: int | 0 <= x < 0x1_0000_0000
  /** The msp430 `int`: 16-bit two's complement. */
  type i16 = x: int | -0x8000 <= x < 0x8000

  /** A value that may be absent, such as a NULL pointer or a call not made. */
  datatype Option<T> = None | Some(value: T)

  function Wrap8(x: int): u8 { x % 0x100 }
  function Wrap16(x: int): u16 { x % 0x1_0000 }
  function Wrap32(x: int): u32 { x % 0x1_0000_0000 }

  /** Storing an unsigned 16-bit value into a 16-bit `int` (msp430-gcc keeps the bit pattern). */
  function AsInt16(x: u16): (r: i16)
    ensures Wrap16(r) == x
  {
    if x < 0x8000 then x else x - 0x1_0000
  }

  /** A 32-bit truncation does not change a value modulo 2^16. */
  lemma Wrap16OfWrap32(x: int)
    ensures Wrap16(Wrap32(x)) == Wrap16(x)
  {
    var q := x / 0x1_0000_0000;
    assert x == q * 0x1_0000_0000 + Wrap32(x);
    assert q * 0x1_0000_0000 == (q * 0x1_0000) * 0x1_0000;
  }

  /** 1 << k */
  function Pow2(k: nat): (r: nat)
    ensures r >= 1
  {
    if k == 0 then 1 else 2 * Pow2(k - 1)
  }

  /** Bit k of x is set. */
  predicate Bit(x: nat, k: nat)
  {
    if k == 0 then x % 2 == 1 else Bit(x / 2, k - 1)
  }

  /** Bitwise OR (`|`). */
  function Or(a: nat, b: nat): nat
    decreases a + b
  {
    if a == 0 && b == 0 then 0
    else 2 * Or(a / 2, b / 2) + (if a % 2 == 1 || b % 2 == 1 then 1 else 0)
  }

  /** Bitwise AND (`&`). */
  function And(a: nat, b: nat): nat
    decreases a + b
  {
    if a == 0 || b == 0 then 0
    else 2 * And(a / 2, b / 2) + (if a % 2 == 1 && b % 2 == 1 then 1 else 0)
  }

  /** Number of set bits. */
  function Popcount(x: nat): nat
  {
    if x == 0 then 0 else x % 2 + Popcount(x / 2)
  }

  /** OR on bytes: the result is again a byte. */
  function Or8(a: u8, b: u8): (r: u8)
    ensures forall k :: Bit(r, k) <==> Bit(a, k) || Bit(b, k)
  {
    OrBelow(a, b, 8);
    OrBits(a, b);
    Or(a, b)
  }

  /** AND on bytes: the result is again a byte, and at most either operand. */
  function And8(a: u8, b: u8): (r: u8)
    ensures r <= a && r <= b
  {
    AndBelow(a, b);
    AndComm(a, b);
    AndBelow(b, a);
    And(a, b)
  }

  // ---------------------------------------------------------------- lemmas

  lemma {:induction false} OrBit(a: nat, b: nat, k: nat)
    ensures Bit(Or(a, b), k) <==> Bit(a, k) || Bit(b, k)
    decreases a + b
  {
    if a == 0 && b == 0 {
      ZeroHasNoBits(k);
    } else if k > 0 {
      var r := Or(a, b);
      assert r / 2 == Or(a / 2, b / 2);
      OrBit(a / 2, b / 2, k - 1);
    }
  }

  lemma OrBits(a: nat, b: nat)
    ensures forall k :: Bit(Or(a, b), k) <==> Bit(a, k) || Bit(b, k)
  {
    forall k: nat ensures Bit(Or(a, b), k) <==> Bit(a, k) || Bit(b, k) {
      OrBit(a, b, k);
    }
  }

  lemma {:induction false} AndBit(a: nat, b: nat, k: nat)
    ensures Bit(And(a, b), k) <==> Bit(a, k) && Bit(b, k)
    decreases a + b
  {
    if a == 0 || b == 0 {
      ZeroHasNoBits(k);
    } else if k > 0 {
      var r := And(a, b);
      assert r / 2 == And(a / 2, b / 2);
      AndBit(a / 2, b / 2, k - 1);
    }
  }

  lemma {:induction false} ZeroHasNoBits(k: nat)
    ensures !Bit(0, k)
  {
    if k > 0 { ZeroHasNoBits(k - 1); }
  }

  /** Two numbers with the same bits are equal. */
  lemma {:induction false} BitsDetermine(x: nat, y: nat)
    requires forall k :: Bit(x, k) == Bit(y, k)
    ensures x == y
    decreases x + y
  {
    assert Bit(x, 0) == Bit(y, 0);
    if x != 0 || y != 0 {
      forall k: nat ensures Bit(x / 2, k) == Bit(y / 2, k) {
        assert Bit(x, k + 1) == Bit(y, k + 1);
      }
      BitsDetermine(x / 2, y / 2);
    }
  }

  /** A number below 2^n has no bit at position n or above. */
  lemma {:induction false} NoHighBits(x: nat, n: nat, k: nat)
    requires x < Pow2(n) && k >= n
    ensures !Bit(x, k)
  {
    if k == 0 {
      assert x == 0;
    } else if n == 0 {
      assert x == 0;
      ZeroHasNoBits(k);
    } else {
      NoHighBits(x / 2, n - 1, k - 1);
    }
  }

  /** A number all of whose bits lie below position n is below 2^n. */
  lemma {:induction false} BitsBelow(x: nat, n: nat)
    requires forall k :: k >= n ==> !Bit(x, k)
    ensures x < Pow2(n)
  {
    if n == 0 {
      if x != 0 {
        var k := LowestBit(x);
      }
    } else {
      forall k: nat | k >= n - 1 ensures !Bit(x / 2, k) {
        assert !Bit(x, k + 1);
      }
      BitsBelow(x / 2, n - 1);
    }
  }

  /** Some bit of a non-zero number is set. */
  lemma {:induction false} LowestBit(x: nat) returns (k: nat)
    requires x != 0
    ensures Bit(x, k)
  {
    if x % 2 == 1 {
      k := 0;
    } else {
      var j := LowestBit(x / 2);
      k := j + 1;
    }
  }

  lemma OrBelow(a: nat, b: nat, n: nat)
    requires a < Pow2(n) && b < Pow2(n)
    ensures Or(a, b) < Pow2(n)
  {
    forall k: nat | k >= n ensures !Bit(Or(a, b), k) {
      OrBit(a, b, k);
      NoHighBits(a, n, k);
      NoHighBits(b, n, k);
    }
    BitsBelow(Or(a, b), n);
  }

  lemma {:induction false} AndBelow(a: nat, b: nat)
    ensures And(a, b) <= a
    decreases a + b
  {
    if a != 0 && b != 0 {
      AndBelow(a / 2, b / 2);
    }
  }

  lemma AndComm(a: nat, b: nat)
    ensures And(a, b) == And(b, a)
  {
    forall k: nat ensures Bit(And(a, b), k) == Bit(And(b, a), k) {
      AndBit(a, b, k);
      AndBit(b, a, k);
    }
    BitsDetermine(And(a, b), And(b, a));
  }

  lemma {:induction false} AndSelf(a: nat)
    ensures And(a, a) == a
  {
    if a != 0 { AndSelf(a / 2); }
  }

  /** The running AND of the full flag bytes stays 0xFF exactly while every byte is 0xFF. */
  lemma AndIsFF(a: u8, b: u8)
    ensures And8(a, b) == 0xFF <==> a == 0xFF && b == 0xFF
  {
    if a == 0xFF && b == 0xFF { AndSelf(0xFF); }
  }

  /** OR is idempotent, commutative and absorbs its right operand. */
  lemma OrLaws(a: nat, b: nat, c: nat)
    ensures Or(a, a) == a
    ensures Or(a, b) == Or(b, a)
    ensures Or(Or(a, b), b) == Or(a, b)
    ensures Or(Or(a, b), c) == Or(Or(a, c), b)
  {
    forall k: nat ensures Bit(Or(a, a), k) == Bit(a, k) { OrBit(a, a, k); }
    BitsDetermine(Or(a, a), a);
    forall k: nat ensures Bit(Or(a, b), k) == Bit(Or(b, a), k) { OrBit(a, b, k); OrBit(b, a, k); }
    BitsDetermine(Or(a, b), Or(b, a));
    forall k: nat ensures Bit(Or(Or(a, b), b), k) == Bit(Or(a, b), k) { OrBit(Or(a, b), b, k); OrBit(a, b, k); }
    BitsDetermine(Or(Or(a, b), b), Or(a, b));
    forall k: nat ensures Bit(Or(Or(a, b), c), k) == Bit(Or(Or(a, c), b), k) {
      OrBit(Or(a, b), c, k); OrBit(a, b, k); OrBit(Or(a, c), b, k); OrBit(a, c, k);
    }
    BitsDetermine(Or(Or(a, b), c), Or(Or(a, c), b));
  }

  /** Two bytes differ exactly when OR-ing them adds a bit to one side or the other. */
  lemma DiffersIffOrAddsBits(a: nat, b: nat)
    ensures a != b <==> Or(a, b) != a || Or(a, b) != b
  {
    OrLaws(a, b, b);
  }

  /** ORing a value below 2^n into the low mask 2^n - 1 leaves the mask. */
  lemma OrIntoLowMask(x: nat, n: nat)
    requires x < Pow2(n)
    ensures Or(Pow2(n) - 1, x) == Pow2(n) - 1
  {
    var m: nat := Pow2(n) - 1;
    forall k: nat ensures Bit(Or(m, x), k) == Bit(m, k) {
      OrBit(m, x, k);
      LowMaskBit(n, k);
      if k >= n { NoHighBits(x, n, k); }
    }
    BitsDetermine(Or(m, x), m);
  }

  /** 2^k - 1 has exactly the low k bits set. */
  lemma {:induction false} LowMaskBit(n: nat, j: nat)
    ensures Bit(Pow2(n) - 1, j) <==> j < n
  {
    if n == 0 {
      ZeroHasNoBits(j);
    } else {
      assert (Pow2(n) - 1) / 2 == Pow2(n - 1) - 1;
      if j > 0 { LowMaskBit(n - 1, j - 1); }
    }
  }

  /** 2^k - 1 has k set bits. */
  lemma {:induction false} LowMaskPopcount(n: nat)
    ensures Popcount(Pow2(n) - 1) == n
  {
    if n > 0 {
      assert (Pow2(n) - 1) / 2 == Pow2(n - 1) - 1;
      LowMaskPopcount(n - 1);
    }
  }

  /** 2^k has exactly bit k set. */
  lemma {:induction false} Pow2Bit(n: nat, j: nat)
    ensures Bit(Pow2(n), j) <==> j == n
  {
    if n == 0 {
      if j > 0 { ZeroHasNoBits(j - 1); }
    } else if j > 0 {
      Pow2Bit(n - 1, j - 1);
    }
  }

  /** Bits 0 .. n-1 of x are all set. */
  predicate LowBitsSet(x: nat, n: nat)
  {
    forall j: nat :: j < n ==> Bit(x, j)
  }

  /** Below 2^n, a number is the full mask 2^n - 1 exactly when its low n bits are all set. */
  lemma FullMaskIffLowBits(x: nat, n: nat)
    requires x < Pow2(n)
    ensures x == Pow2(n) - 1 <==> LowBitsSet(x, n)
  {
    var m: nat := Pow2(n) - 1;
    if LowBitsSet(x, n) {
      forall k: nat ensures Bit(x, k) == Bit(m, k) {
        LowMaskBit(n, k);
        if k >= n { NoHighBits(x, n, k); }
      }
      BitsDetermine(x, m);
    }
    if x == m {
      forall j: nat | j < n ensures Bit(x, j) {
        LowMaskBit(n, j);
      }
    }
  }

  /** AND with the single bit 2^n isolates bit n. */
  lemma {:induction false} AndSingleBit(x: nat, n: nat)
    ensures And(x, Pow2(n)) == if Bit(x, n) then Pow2(n) else 0
  {
    if x == 0 {
      ZeroHasNoBits(n);
    } else if n == 0 {
      assert And(x, 1) == 2 * And(x / 2, 0) + (if x % 2 == 1 then 1 else 0);
    } else {
      AndSingleBit(x / 2, n - 1);
    }
  }

  /** Below 2^(n+1), bit n is set exactly when the number is at least 2^n. */
  lemma {:induction false} TopBit(x: nat, n: nat)
    requires x < 2 * Pow2(n)
    ensures Bit(x, n) <==> x >= Pow2(n)
  {
    if n > 0 {
      TopBit(x / 2, n - 1);
    }
  }

  /** The CRC_OK test `b & 0x80` of the footer byte: non-zero exactly when b >= 0x80. */
  lemma CrcOkBit(b: u8)
    ensures And8(b, 0x80) != 0 <==> b >= 0x80
  {
    assert Pow2(7) == 0x80;
    AndSingleBit(b, 7);
    TopBit(b, 7);
  }

  /** memcpy of `src` into the buffer `p` at index `at`. */
  function CopyInto(p: seq<u8>, at: nat, src: seq<u8>): (q: seq<u8>)
    requires at + |src| <= |p|
    ensures |q| == |p| && q[at..at + |src|] == src
    ensures forall i :: 0 <= i < |p| && !(at <= i < at + |src|) ==> q[i] == p[i]
  {
    p[..at] + src + p[at + |src|..]
  }

  /** An 8-bit counter wraps from 255 to 0. */
  lemma Wrap8Succ(x: u8)
    ensures Wrap8(x as int + 1) == if x == 255 then 0 else x as int + 1
  {
  }

  lemma TakeAll(s: seq<u8>)
    ensures s[..|s|] == s
  {
  }

  /** Writing one more element of src after the first i. */
  lemma CopyIntoStep(q: seq<u8>, at: nat, src: seq<u8>, i: nat)
    requires i < |src| && at + |src| <= |q|
    ensures CopyInto(q, at, src[..i])[at + i := src[i]] == CopyInto(q, at, src[..i + 1])
  {
    var a := CopyInto(q, at, src[..i])[at + i := src[i]];
    var b := CopyInto(q, at, src[..i + 1]);
    forall j | 0 <= j < |q|
      ensures a[j] == b[j]
    {
      if at <= j < at + i + 1 {
        assert b[j] == b[at..at + i + 1][j - at];
        if j < at + i {
          assert a[j] == CopyInto(q, at, src[..i])[at..at + i][j - at];
        }
      }
    }
  }

  /** Taking away a multiple of 2^16 does not change a value modulo 2^16. */
  lemma ModShiftDown(s: int, q: int)
    ensures (s - q * 0x1_0000) % 0x1_0000 == s % 0x1_0000
  {
    var M := 0x1_0000;
    var t := s / M;
    assert s == t * M + s % M;
    assert s - q * M == (t - q) * M + s % M;
  }

  /** A 16-bit truncation in the middle of a sum does not change the sum modulo 2^16. */
  lemma Wrap16Shift(x: int, y: int)
    ensures Wrap16(Wrap16(x) + y) == Wrap16(x + y)
  {
    var M := 0x1_0000;
    assert x == (x / M) * M + Wrap16(x);
    assert Wrap16(x) + y == (x + y) - (x / M) * M;
    ModShiftDown(x + y, x / M);
  }
}
