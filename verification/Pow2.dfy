/** Table sizes: powers of two, and the bit-smearing computation of the next one. */
module Pow2 {
  import Arithmetic

  predicate IsPow2(n: nat) {
    n == 1 || (n > 1 && n % 2 == 0 && IsPow2(n / 2))
  }

  function Power(k: nat): (p: nat)
    ensures p > k
  {
    if k == 0 then 1 else 2 * Power(k - 1)
  }

  /** The least power of two that is at least `x`; 0 for 0. */
  function LeastPow2(x: nat): nat {
    if x <= 1 then x else 2 * LeastPow2((x + 1) / 2)
  }

  lemma DoubleIsPow2(n: nat)
    requires IsPow2(n)
    ensures IsPow2(2 * n)
  {
    assert 2 * n / 2 == n;
  }

  lemma {:induction false} LeastPow2IsPower(x: nat)
    requires x > 0
    ensures IsPow2(LeastPow2(x)) && x <= LeastPow2(x) < 2 * x
  {
    if x > 1 {
      var half := (x + 1) / 2;
      LeastPow2IsPower(half);
      assert LeastPow2(x) == 2 * LeastPow2(half);
      DoubleIsPow2(LeastPow2(half));
      OneOrEven(LeastPow2(half));
      hide IsPow2, LeastPow2;
      Doubled(x, half, LeastPow2(half));
    }
  }

  lemma OneOrEven(n: nat)
    requires IsPow2(n)
    ensures n == 1 || n % 2 == 0
  {
  }

  lemma Doubled(x: nat, half: nat, n: nat)
    requires x > 1 && half == (x + 1) / 2 && half <= n < 2 * half && (n == 1 || n % 2 == 0)
    ensures x <= 2 * n < 2 * x
  {
    assert x == 2 * half || x == 2 * half - 1;
  }

  lemma {:induction false} LeastPow2IsLeast(x: nat, p: nat)
    requires IsPow2(p) && x <= p
    ensures LeastPow2(x) <= p
    decreases p
  {
    if x > 1 {
      LeastPow2IsLeast((x + 1) / 2, p / 2);
    }
  }

  lemma {:induction false} LeastPow2OfPower(p: nat)
    requires IsPow2(p)
    ensures LeastPow2(p) == p
  {
    if p > 1 {
      LeastPow2OfPower(p / 2);
    }
  }

  /** Of two powers of two the smaller divides the larger. */
  lemma {:induction false} SmallerDivides(p: nat, n: nat)
    requires IsPow2(p) && IsPow2(n) && p <= n
    ensures n % p == 0
    decreases n
  {
    if p > 1 {
      SmallerDivides(p / 2, n / 2);
      RemainderOfDouble(n, p / 2);
    }
  }

  /** A power of two from 32 up divides into chunks of 32. */
  lemma ThirtyTwos(n: nat)
    requires IsPow2(n) && n >= 32
    ensures n % 32 == 0
  {
    assert IsPow2(n / 2);
    assert IsPow2(n / 2 / 2);
    assert IsPow2(n / 2 / 2 / 2);
    assert IsPow2(n / 2 / 2 / 2 / 2);
    var q := n / 2 / 2 / 2 / 2;
    assert n == 16 * q && q % 2 == 0;
  }

  // Bits of a non-negative int.

  predicate Bit(x: nat, i: nat) {
    if i == 0 then x % 2 == 1 else Bit(x / 2, i - 1)
  }

  function Shr(x: nat, k: nat): nat {
    if k == 0 then x else Shr(x / 2, k - 1)
  }

  function Or(x: nat, y: nat): nat {
    if x == 0 && y == 0 then 0
    else (if x % 2 == 1 || y % 2 == 1 then 1 else 0) + 2 * Or(x / 2, y / 2)
  }

  lemma {:induction false} BitOfOr(x: nat, y: nat, i: nat)
    ensures Bit(Or(x, y), i) == (Bit(x, i) || Bit(y, i))
    decreases i
  {
    if i > 0 {
      assert Or(x, y) / 2 == Or(x / 2, y / 2);
      BitOfOr(x / 2, y / 2, i - 1);
    }
  }

  lemma {:induction false} BitOfShr(x: nat, k: nat, i: nat)
    ensures Bit(Shr(x, k), i) == Bit(x, i + k)
    decreases k
  {
    if k > 0 {
      BitOfShr(x / 2, k - 1, i);
    }
  }

  lemma {:induction false} ShrOfOr(x: nat, y: nat, k: nat)
    ensures Shr(Or(x, y), k) == Or(Shr(x, k), Shr(y, k))
    decreases k
  {
    if k > 0 {
      assert Or(x, y) / 2 == Or(x / 2, y / 2);
      ShrOfOr(x / 2, y / 2, k - 1);
    }
  }

  lemma {:induction false} ShrOfShr(x: nat, j: nat, k: nat)
    ensures Shr(Shr(x, j), k) == Shr(x, j + k)
    decreases j
  {
    if j > 0 {
      ShrOfShr(x / 2, j - 1, k);
    }
  }

  lemma {:induction false} ShrOfZero(k: nat)
    ensures Shr(0, k) == 0
  {
    if k > 0 {
      ShrOfZero(k - 1);
    }
  }

  /** `x` has `len` bits, and the `k` highest of them (or all) are ones. */
  ghost predicate TopOnes(x: nat, len: nat, k: nat) {
    && Shr(x, len) == 0
    && forall i | 0 <= i < len && len <= i + k :: Bit(x, i)
  }

  /** One smearing step doubles the run of ones at the top. */
  lemma Smear(x: nat, len: nat, k: nat)
    requires TopOnes(x, len, k)
    ensures TopOnes(Or(x, Shr(x, k)), len, 2 * k)
  {
    var y := Shr(x, k);
    ShrOfOr(x, y, len);
    ShrOfShr(x, k, len);
    ShrOfShr(x, len, k);
    ShrOfZero(k);
    forall i | 0 <= i < len && len <= i + 2 * k
      ensures Bit(Or(x, y), i)
    {
      BitOfOr(x, y, i);
      BitOfShr(x, k, i);
    }
  }

  lemma {:induction false} AllOnes(x: nat, len: nat)
    requires Shr(x, len) == 0 && forall i | 0 <= i < len :: Bit(x, i)
    ensures x + 1 == Power(len)
    decreases len
  {
    if len > 0 {
      assert Bit(x, 0);
      forall i | 0 <= i < len - 1
        ensures Bit(x / 2, i)
      {
        assert Bit(x, i + 1);
      }
      AllOnes(x / 2, len - 1);
    }
  }

  /** The number of bits of `x`. */
  function BitLength(x: nat): nat {
    if x == 0 then 0 else 1 + BitLength(x / 2)
  }

  lemma {:induction false} BitLengthExact(x: nat)
    ensures Shr(x, BitLength(x)) == 0
    ensures x > 0 ==> Bit(x, BitLength(x) - 1)
    ensures LeastPow2(x + 1) == Power(BitLength(x))
  {
    if x > 0 {
      BitLengthExact(x / 2);
      assert (x + 1 + 1) / 2 == x / 2 + 1;
    }
  }

  lemma {:induction false} BitLengthBound(x: nat, k: nat)
    requires x < Power(k)
    ensures BitLength(x) <= k
    decreases k
  {
    if x > 0 {
      BitLengthBound(x / 2, k - 1);
    }
  }

  /** 2^30 = 32^6 */
  lemma {:induction false} PowerOf32(k: nat)
    ensures Power(k + 5) == 32 * Power(k)
  {
    assert Power(k + 5) == 2 * Power(k + 4);
    assert Power(k + 4) == 2 * Power(k + 3);
    assert Power(k + 3) == 2 * Power(k + 2);
    assert Power(k + 2) == 2 * Power(k + 1);
  }

  const INT_MIN: int := -0x8000_0000
  const INT_MAX: int := 0x7FFF_FFFF

  lemma PowerOf31()
    ensures Power(30) == 0x4000_0000 && Power(31) == 0x8000_0000
  {
    PowerOf32(0);
    PowerOf32(5);
    PowerOf32(10);
    PowerOf32(15);
    PowerOf32(20);
    PowerOf32(25);
    PowerIs(31);
  }

  lemma PowerIs(k: nat)
    requires k > 0
    ensures Power(k) == 2 * Power(k - 1)
  {
  }

  lemma {:induction false} PowerGrows(i: nat, k: nat)
    requires i <= k
    ensures Power(i) <= Power(k)
    decreases k - i
  {
    if i < k {
      PowerGrows(i + 1, k);
    }
  }

  // ---- Signed 32-bit ints ----------------------------------------------------------------------

  /** What an int keeps of x when overflow wraps. */
  function Wrapped(x: int): int
    requires 2 * INT_MIN <= x <= 2 * INT_MAX
  {
    if x > INT_MAX then x - 0x1_0000_0000 else if x < INT_MIN then x + 0x1_0000_0000 else x
  }

  function And(x: nat, y: nat): nat {
    if x == 0 && y == 0 then 0
    else (if x % 2 == 1 && y % 2 == 1 then 1 else 0) + 2 * And(x / 2, y / 2)
  }

  lemma {:induction false} AndBelow(x: nat, y: nat)
    ensures And(x, y) <= y
  {
    if x != 0 || y != 0 {
      AndBelow(x / 2, y / 2);
    }
  }

  /** The mask of a power of two less one keeps the remainder. */
  lemma {:induction false} MaskIsModulo(x: nat, n: nat)
    requires IsPow2(n)
    ensures And(x, n - 1) == x % n
    decreases n
  {
    if n == 1 {
      AndBelow(x, 0);
    } else {
      MaskIsModulo(x / 2, n / 2);
      assert (n - 1) % 2 == 1 && (n - 1) / 2 == n / 2 - 1;
      RemainderOfDouble(x, n / 2);
    }
  }

  lemma RemainderOfDouble(x: nat, m: nat)
    requires m > 0
    ensures x % (2 * m) == x % 2 + 2 * ((x / 2) % m)
  {
    var q, r := x / 2 / m, x / 2 % m;
    assert x / 2 == m * q + r;
    var rest := x % 2 + 2 * r;
    assert x == 2 * m * q + rest && 0 <= rest < 2 * m;
    Arithmetic.DivMod(x, 2 * m, q, rest);
  }

  lemma {:induction false} ShrBelow(x: nat, k: nat, n: nat)
    requires x < Power(n) && k <= n
    ensures Shr(x, k) < Power(n - k)
    decreases k
  {
    if k > 0 {
      ShrBelow(x / 2, k - 1, n - 1);
    }
  }

  /** The complement of a negative number has the complementary bits; shifting right keeps the sign. */
  function ShiftRight(x: int, k: nat): int {
    if x >= 0 then Shr(x, k) else -1 - Shr(-1 - x, k)
  }

  function OrSameSign(x: int, y: int): int
    requires x >= 0 <==> y >= 0
  {
    if x >= 0 then Or(x, y) else -1 - And(-1 - x, -1 - y)
  }

  /** The `k` highest bits of x are ones; of a negative number these are the highest of 32. */
  ghost predicate Smeared(x: int, len: nat, k: nat) {
    if x >= 0 then TopOnes(x, len, k) else k <= 32 && -1 - x < Power(32 - k)
  }

  /** `x |= x >> shift` */
  method SmearStep(x: int, shift: nat, ghost len: nat) returns (r: int)
    requires Smeared(x, len, shift) && shift <= 16
    ensures Smeared(r, len, 2 * shift) && (r >= 0 <==> x >= 0)
  {
    r := OrSameSign(x, ShiftRight(x, shift));
    if x >= 0 {
      Smear(x, len, shift);
    } else {
      SmearNegative(-1 - x, shift);
    }
  }

  /** The complement of a negative number. */
  lemma SmearNegative(y: nat, shift: nat)
    requires shift <= 16 && y < Power(32 - shift)
    ensures And(y, Shr(y, shift)) < Power(32 - 2 * shift)
  {
    ShrBelow(y, shift, 32 - shift);
    AndBelow(y, Shr(y, shift));
  }

  lemma StartSmear(y: int) returns (len: nat)
    requires INT_MIN <= y <= INT_MAX
    ensures Smeared(y, len, 1) && len <= 31 && (y >= 0 ==> Power(len) == LeastPow2(y + 1))
  {
    PowerOf31();
    len := 0;
    if y >= 0 {
      len := BitLength(y);
      BitLengthExact(y);
      BitLengthBound(y, 31);
    }
  }

  lemma EndSmear(y: int, len: nat)
    requires Smeared(y, len, 32) && len <= 31
    ensures y + 1 == if y >= 0 then Power(len) else 0
  {
    if y >= 0 {
      AllOnes(y, len);
    }
  }

  lemma SizeOfPower(x: nat, len: nat)
    requires 0 < x <= 0x8000_0000 && Power(len) == LeastPow2(x) && len <= 31
    ensures x <= 0x4000_0000 ==> Power(len) <= 0x4000_0000
    ensures x > 0x4000_0000 ==> Power(len) == 0x8000_0000
  {
    PowerOf31();
    LeastPow2IsPower(x);
    if len <= 30 {
      PowerGrows(len, 30);
    }
  }

  /** On a 32-bit signed int: the least power of two for 1 to 2^30, 0 for what is not positive, and the
      wrapped sum for what is larger, if overflow wraps. */
  method NearestPow2(x: int) returns (r: int)
    requires INT_MIN <= x <= INT_MAX
    ensures 0 < x <= 0x4000_0000 ==> r == LeastPow2(x)
    ensures INT_MIN < x <= 0 ==> r == 0
    ensures x > 0x4000_0000 || x == INT_MIN ==> r == INT_MIN
  {
    hide IsPow2, LeastPow2, Power, Smeared;
    var y := Wrapped(x - 1);
    ghost var start := y;
    ghost var len := StartSmear(y);
    y := SmearStep(y, 1, len);
    y := SmearStep(y, 2, len);
    y := SmearStep(y, 4, len);
    y := SmearStep(y, 8, len);
    y := SmearStep(y, 16, len);
    EndSmear(y, len);
    if start >= 0 {
      SizeOfPower(start + 1, len);
    }
    r := Wrapped(y + 1);
  }
}
