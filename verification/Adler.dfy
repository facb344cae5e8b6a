/** The Adler-32 checksum (section 8.2 of RFC 1950), as it accumulates over several pieces. */
module Adler {
  import opened Bytes
  import Arithmetic

  const BASE: nat := 65521

  /** The two sums, each below BASE. */
  datatype Sums = Sums(a: nat, b: nat)
  const START := Sums(1, 0)

  ghost predicate Valid(s: Sums) { s.a < BASE && s.b < BASE }

  function Word(s: Sums): nat { s.b * 0x1_0000 + s.a }

  function Update(s: Sums, bytes: seq<byte>): Sums {
    if bytes == [] then s
    else
      var before := Update(s, bytes[..|bytes| - 1]);
      var a := (before.a + bytes[|bytes| - 1]) % BASE;
      Sums(a, (before.b + a) % BASE)
  }

  lemma Empty(s: Sums, bytes: seq<byte>)
    requires bytes == []
    ensures Update(s, bytes) == s
  {
  }

  lemma UpdateOne(s: Sums, bytes: seq<byte>, x: byte)
    ensures var before := Update(s, bytes);
            var a := (before.a + x) % BASE;
            Update(s, bytes + [x]) == Sums(a, (before.b + a) % BASE)
  {
    assert (bytes + [x])[..|bytes|] == bytes;
  }

  function Checksum(bytes: seq<byte>): nat { Word(Update(START, bytes)) }

  lemma {:induction false} UpdateValid(s: Sums, bytes: seq<byte>)
    requires Valid(s)
    ensures Valid(Update(s, bytes)) && Word(Update(s, bytes)) < TWO_32
  {
    if bytes != [] {
      UpdateValid(s, bytes[..|bytes| - 1]);
    }
  }

  /** Checksumming piece by piece is checksumming the whole. */
  lemma {:induction false} Incremental(s: Sums, x: seq<byte>, y: seq<byte>)
    ensures Update(Update(s, x), y) == Update(s, x + y)
  {
    if y == [] {
      assert x + y == x;
    } else {
      Incremental(s, x, y[..|y| - 1]);
      assert (x + y)[..|x + y| - 1] == x + y[..|y| - 1];
    }
  }

  // ---- The sums the standard defines ----------------------------------------------------------

  function Sum(bytes: seq<byte>): nat {
    if bytes == [] then 0 else Sum(bytes[..|bytes| - 1]) + bytes[|bytes| - 1]
  }

  /** The first byte counts |bytes| times, the last one once. */
  function Weighted(bytes: seq<byte>): nat {
    if bytes == [] then 0 else Weighted(bytes[..|bytes| - 1]) + Sum(bytes)
  }

  lemma AddMod(x: nat, y: nat)
    ensures (x % BASE + y) % BASE == (x + y) % BASE
    ensures (y + x % BASE) % BASE == (x + y) % BASE
  {
    assert x == BASE * (x / BASE) + x % BASE;
    ModShift(x % BASE + y, x / BASE);
  }

  lemma {:induction false} ModShift(x: nat, k: nat)
    ensures (x + BASE * k) % BASE == x % BASE
  {
    if k > 0 {
      ModShift(x, k - 1);
      assert x + BASE * k == (x + BASE * (k - 1)) + BASE;
    }
  }

  /** A is one plus the sum of all bytes, B is the sum of all intermediate values of A. */
  lemma {:induction false} ClosedForm(bytes: seq<byte>)
    ensures Update(START, bytes) == Sums((1 + Sum(bytes)) % BASE, (|bytes| + Weighted(bytes)) % BASE)
  {
    if bytes != [] {
      var front, last := bytes[..|bytes| - 1], bytes[|bytes| - 1];
      ClosedForm(front);
      AddMod(1 + Sum(front), last);
      AddMod(|front| + Weighted(front), (1 + Sum(bytes)) % BASE);
      AddMod(1 + Sum(bytes), |front| + Weighted(front));
    }
  }

  lemma {:induction false} SumChange(bytes: seq<byte>, i: nat, x: byte)
    requires i < |bytes|
    ensures Sum(bytes[i := x]) == Sum(bytes) - bytes[i] + x
  {
    var front := bytes[..|bytes| - 1];
    if i < |bytes| - 1 {
      SumChange(front, i, x);
      assert bytes[i := x][..|bytes| - 1] == front[i := x];
    } else {
      assert bytes[i := x][..|bytes| - 1] == front;
    }
  }

  lemma ModApart(x: nat, y: nat)
    requires x < y < x + 256
    ensures x % BASE != y % BASE
  {
    var q, p := x / BASE, y / BASE;
    assert x == BASE * q + x % BASE && y == BASE * p + y % BASE;
    assert x % BASE == y % BASE ==> y - x == BASE * (p - q);
  }

  lemma WordIsExact(s: Sums, t: Sums)
    requires Valid(s) && Valid(t) && s.a != t.a
    ensures Word(s) != Word(t)
  {
  }

  /** A change of one byte is always noticed. */
  lemma OneByteDetected(bytes: seq<byte>, i: nat, x: byte)
    requires i < |bytes| && bytes[i] != x
    ensures Checksum(bytes[i := x]) != Checksum(bytes)
  {
    hide Update, Sum, Weighted, Word;
    var changed := bytes[i := x];
    SumChange(bytes, i, x);
    if Sum(bytes) < Sum(changed) {
      ModApart(1 + Sum(bytes), 1 + Sum(changed));
    } else {
      ModApart(1 + Sum(changed), 1 + Sum(bytes));
    }
    ClosedForm(bytes);
    ClosedForm(changed);
    WordIsExact(Update(START, bytes), Update(START, changed));
  }

  lemma Unpack(s: Sums)
    requires Valid(s)
    ensures Word(s) % 0x1_0000 == s.a && Word(s) / 0x1_0000 == s.b
  {
  }

  lemma Packed(a: nat, b: nat)
    requires a < BASE && b < BASE
    ensures Word(Sums(a, b)) == b * 0x1_0000 + a < TWO_32
  {
  }

  // ---- The modulus ------------------------------------------------------------------------------

  /** None of d, d + 2, ..., d + 14 divides n. */
  predicate NoneOf(n: nat, d: nat)
    requires d > 0
  {
    && n % d != 0 && n % (d + 2) != 0 && n % (d + 4) != 0 && n % (d + 6) != 0
    && n % (d + 8) != 0 && n % (d + 10) != 0 && n % (d + 12) != 0 && n % (d + 14) != 0
  }

  lemma OddsTried(block: nat)
    requires block < 16
    ensures NoneOf(BASE, 3 + 16 * block)
  {
    assert NoneOf(BASE, 3) && NoneOf(BASE, 19) && NoneOf(BASE, 35) && NoneOf(BASE, 51)
           && NoneOf(BASE, 67) && NoneOf(BASE, 83) && NoneOf(BASE, 99) && NoneOf(BASE, 115)
           && NoneOf(BASE, 131) && NoneOf(BASE, 147) && NoneOf(BASE, 163) && NoneOf(BASE, 179)
           && NoneOf(BASE, 195) && NoneOf(BASE, 211) && NoneOf(BASE, 227) && NoneOf(BASE, 243);
  }

  lemma Tried(d: nat)
    requires 2 <= d < 256
    ensures BASE % d != 0
  {
    if d % 2 == 0 {
      if BASE % d == 0 {
        Through(2, d, BASE);
      }
    } else {
      var block := (d - 3) / 16;
      OddsTried(block);
      var from := 3 + 16 * block;
      assert d == from || d == from + 2 || d == from + 4 || d == from + 6
             || d == from + 8 || d == from + 10 || d == from + 12 || d == from + 14;
    }
  }

  lemma Through(p: nat, d: nat, n: nat)
    requires p > 0 && d > 0 && n % d == 0 && d % p == 0
    ensures n % p == 0
  {
    var q, r := n / d, d / p;
    assert n == d * q && d == p * r;
    Arithmetic.Associates(p, r, q);
    Arithmetic.DivMod(n, p, r * q, 0);
  }

  predicate Divides(d: nat, n: nat) { d > 0 && n % d == 0 }

  ghost predicate Prime(n: nat) { n > 1 && forall d | 1 < d < n :: !Divides(d, n) }

  /** The largest prime below 65536, as the standard has it. */
  lemma BaseIsLargestPrime()
    ensures Prime(BASE) && BASE < 0x1_0000 && forall n | BASE < n < 0x1_0000 :: !Prime(n)
  {
    forall d | 1 < d < BASE
      ensures !Divides(d, BASE)
    {
      if Divides(d, BASE) {
        var q := BASE / d;
        assert BASE == d * q;
        SmallFactor(d, q);
      }
    }
    forall n | BASE < n < 0x1_0000
      ensures !Prime(n)
    {
      assert Divides(2, n) || Divides(3, n) || Divides(5, n) || Divides(7, n) || Divides(13, n) || Divides(19, n);
    }
  }

  /** One of two factors is below 256. */
  lemma SmallFactor(d: nat, q: nat)
    requires 1 < d < BASE
    ensures d * q != BASE
  {
    if d * q == BASE {
      if d < 256 {
        Tried(d);
        Arithmetic.DivMod(BASE, d, q, 0);
      } else if q < 256 {
        AtMost(d, q);
        Arithmetic.Commutes(d, q);
        Tried(q);
        Arithmetic.DivMod(BASE, q, d, 0);
      } else {
        Larger(d, q);
      }
    }
  }

  lemma AtMost(d: nat, q: nat)
    requires d < BASE && d * q == BASE
    ensures q >= 2
  {
  }

  lemma Larger(d: nat, q: nat)
    requires d >= 256 && q >= 256
    ensures d * q >= 0x1_0000
  {
    assert d * q >= 256 * q;
  }

  // ---- Known answers ----------------------------------------------------------------------------

  lemma {:induction false} SumOfEqual(n: nat, x: byte)
    ensures Sum(seq(n, _ => x)) == n * x && 2 * Weighted(seq(n, _ => x)) == x * (n * (n + 1))
  {
    if n > 0 {
      SumOfEqual(n - 1, x);
      assert seq(n, _ => x)[..n - 1] == seq(n - 1, _ => x);
      assert x * (n * (n + 1)) == x * ((n - 1) * n) + 2 * (n * x);
    }
  }

  /** 300 bytes of 255: both sums pass the modulus. */
  lemma ManyBytes()
    ensures Checksum(seq(300, _ => 255)) == 0xB90F_2AE4
  {
    var bytes: seq<byte> := seq(300, _ => 255);
    SumOfEqual(300, 255);
    ClosedForm(bytes);
    assert Sum(bytes) == 76500 && Weighted(bytes) == 11513250;
    assert (1 + 76500) % BASE == 0x2AE4 && (300 + 11513250) % BASE == 0xB90F;
  }

  /** Three bytes do not pass the modulus. */
  lemma ThreeBytes(x: byte, y: byte, z: byte)
    ensures Checksum([x, y, z]) == (3 + 3 * x + 2 * y + z) * 0x1_0000 + (1 + x + y + z)
  {
    hide Update;
    Empty(START, []);
    Small(1 + x);
    Letter([], x, [x]);
    assert Update(START, [x]) == Sums(1 + x, 1 + x);
    Small(1 + x + y);
    Small(2 + 2 * x + y);
    Letter([x], y, [x, y]);
    assert Update(START, [x, y]) == Sums(1 + x + y, 2 + 2 * x + y);
    Small(1 + x + y + z);
    Small(3 + 3 * x + 2 * y + z);
    Letter([x, y], z, [x, y, z]);
  }

  lemma Small(x: nat)
    requires x < BASE
    ensures x % BASE == x
  {
  }

  /** The letters "abc". */
  lemma Abc()
    ensures Checksum([97, 98, 99]) == 0x024D_0127
  {
    ThreeBytes(97, 98, 99);
  }

  lemma Letter(bytes: seq<byte>, x: byte, longer: seq<byte>)
    requires longer == bytes + [x]
    ensures var before := Update(START, bytes);
            var a := (before.a + x) % BASE;
            Update(START, longer) == Sums(a, (before.b + a) % BASE)
  {
    UpdateOne(START, bytes, x);
  }

  // ---- The accumulating object ------------------------------------------------------------------

  class Accumulator {
    var adler: nat
    ghost var sums: Sums

    ghost predicate Consistent()
      reads this
    {
      Valid(sums) && adler == Word(sums)
    }

    constructor ()
      ensures Consistent() && sums == START
    {
      adler, sums := Word(START), START;
    }

    method Reset()
      modifies this
      ensures Consistent() && sums == START
    {
      adler, sums := Word(START), START;
    }

    /** Continues the checksum over data[from..to]. */
    method Add(data: array<byte>, from: nat, to: nat) returns (sum: uint32)
      requires Consistent() && from <= to <= data.Length
      modifies this
      ensures Consistent() && sums == Update(old(sums), data[from..to]) && sum == Word(sums)
    {
      hide Update, Word;
      ghost var s, bytes := sums, data[from..to];
      Unpack(s);
      var a: nat, b: nat := adler % 0x1_0000, adler / 0x1_0000;
      var i: nat := 0;
      Empty(s, bytes[..0]);
      while i < to - from
        invariant 0 <= i <= to - from
        invariant Sums(a, b) == Update(s, bytes[..i]) && a < BASE && b < BASE
      {
        UpdateOne(s, bytes[..i], bytes[i]);
        assert bytes[..i + 1] == bytes[..i] + [bytes[i]];
        a := (a + data[from + i]) % BASE;
        b := (b + a) % BASE;
        i := i + 1;
      }
      assert bytes[..i] == bytes;
      Packed(a, b);
      sums := Sums(a, b);
      adler := b * 0x1_0000 + a;
      sum := adler;
    }
  }
}
