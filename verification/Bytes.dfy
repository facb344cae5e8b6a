/** Bytes, machine words and the joining of pieces. */
module Bytes {
  type byte = b: int | 0 <= b < 256 witness 0

  const TWO_7: nat := 0x80
  const TWO_31: nat := 0x8000_0000
  const TWO_32: nat := 0x1_0000_0000

  type uint32 = x: int | 0 <= x < TWO_32 witness 0

  /** What a 32-bit register keeps of x. */
  function Wrapped(x: nat): uint32 { x % TWO_32 }

  function Flat<T>(parts: seq<seq<T>>): seq<T> {
    if parts == [] then [] else parts[0] + Flat(parts[1..])
  }

  lemma {:induction false} FlatAppend<T>(parts: seq<seq<T>>, more: seq<seq<T>>)
    ensures Flat(parts + more) == Flat(parts) + Flat(more)
  {
    if parts == [] {
      assert parts + more == more;
    } else {
      var first, rest := parts[0], parts[1..];
      assert (parts + more)[0] == first && (parts + more)[1..] == rest + more;
      FlatAppend(rest, more);
      Associative(first, Flat(rest), Flat(more));
    }
  }

  lemma Associative<T>(a: seq<T>, b: seq<T>, c: seq<T>)
    ensures a + (b + c) == (a + b) + c
  {
  }

  lemma FlatOne<T>(parts: seq<seq<T>>, last: seq<T>)
    ensures Flat(parts + [last]) == Flat(parts) + last
  {
    FlatAppend(parts, [last]);
    assert Flat([last]) == last + Flat([]);
  }
}
