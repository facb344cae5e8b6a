/** Base 128 varints of 32-bit values (Protocol Buffers Encoding, section "Base 128 Varints"). */
module Varints {
  import opened Bytes
  import opened Options
  import Arithmetic

  function Encode(v: nat): seq<byte> {
    if v < TWO_7 then [v] else [v % TWO_7 + TWO_7] + Encode(v / TWO_7)
  }

  /** A varint, most significant group last, and what follows it. At most `left` bytes. */
  function DecodeFrom(s: seq<byte>, left: nat): Option<(nat, seq<byte>)> {
    if s == [] || left == 0 then None
    else if s[0] < TWO_7 then Some((s[0] as nat, s[1..]))
    else
      match DecodeFrom(s[1..], left - 1)
      case None => None
      case Some((high, rest)) => Some((s[0] - TWO_7 + TWO_7 * high, rest))
  }

  const MAX_BYTES: nat := 5

  /** A 32-bit varint has at most five bytes. */
  function Decode(s: seq<byte>): Option<(uint32, seq<byte>)> {
    match DecodeFrom(s, MAX_BYTES)
    case None => None
    case Some((v, rest)) => if v < TWO_32 then Some((v, rest)) else None
  }

  function Pow128(n: nat): (p: nat)
    ensures p > 0
  {
    if n == 0 then 1 else TWO_7 * Pow128(n - 1)
  }

  lemma {:induction false} DecodeEncode(v: nat, rest: seq<byte>, left: nat)
    requires 0 < left && v < Pow128(left)
    ensures DecodeFrom(Encode(v) + rest, left) == Some((v, rest)) && 1 <= |Encode(v)| <= left
  {
    var s := Encode(v) + rest;
    if v < TWO_7 {
      assert s[1..] == rest;
    } else {
      DecodeEncode(v / TWO_7, rest, left - 1);
      assert s[1..] == Encode(v / TWO_7) + rest;
    }
  }

  /** Decoding is the inverse of encoding, whatever follows, for every 32-bit value. */
  lemma RoundTrip(v: uint32, rest: seq<byte>)
    ensures Decode(Encode(v) + rest) == Some((v, rest)) && 1 <= |Encode(v)| <= 5
  {
    assert Pow128(5) == TWO_7 * Pow128(4) && Pow128(4) == TWO_7 * Pow128(3) && Pow128(3) == TWO_7 * Pow128(2);
    DecodeEncode(v, rest, MAX_BYTES);
  }

  /** Byte i holds the i-th group of seven bits, least significant first; all but the last have the top bit
      set, and none is there for nothing. */
  lemma {:induction false} Groups(v: nat, i: nat)
    requires i < |Encode(v)|
    ensures Encode(v)[i] % TWO_7 == v / Pow128(i) % TWO_7
    ensures Encode(v)[i] >= TWO_7 <==> i + 1 < |Encode(v)|
    ensures i > 0 ==> v >= Pow128(i)
    decreases i
  {
    if i > 0 {
      Groups(v / TWO_7, i - 1);
      Arithmetic.DivideTwice(v, TWO_7, Pow128(i - 1));
      if i > 1 {
        AtLeastProduct(v, Pow128(i - 1));
      }
    }
  }

  lemma AtLeastProduct(v: nat, p: nat)
    requires v / TWO_7 >= p
    ensures v >= TWO_7 * p
  {
  }

  /** The example of the documentation. */
  lemma ThreeHundred()
    ensures Encode(150) == [0x96, 0x01] && Encode(300) == [0xAC, 0x02]
  {
  }

  /** Writes v into the buffer and returns the offset behind it. */
  method Write(v: uint32, data: array<byte>, offset: nat) returns (next: nat)
    requires offset + 5 <= data.Length
    modifies data
    ensures next == offset + |Encode(v)| <= offset + 5
    ensures data[..next] == old(data[..offset]) + Encode(v) && data[next..] == old(data[next..])
  {
    hide Decode, DecodeFrom;
    var value: nat := v;
    next := offset;
    RoundTrip(v, []);
    ghost var before := data[..];
    while value >= TWO_7
      invariant offset <= next && next + |Encode(value)| == offset + |Encode(v)|
      invariant data[..next] + Encode(value) == before[..offset] + Encode(v)
      invariant forall k | next <= k < data.Length :: data[k] == before[k]
      decreases value
    {
      EncodeStep(value);
      data[next] := value % TWO_7 + TWO_7;
      value := value / TWO_7;
      next := next + 1;
      assert data[..next] == data[..next - 1] + [data[next - 1]];
    }
    data[next] := value;
    next := next + 1;
    assert data[..next] == data[..next - 1] + [data[next - 1]];
    assert data[next..] == before[next..];
  }

  lemma EncodeStep(v: nat)
    requires v >= TWO_7
    ensures Encode(v) == [v % TWO_7 + TWO_7] + Encode(v / TWO_7) && 1 <= |Encode(v / TWO_7)|
  {
  }
}
