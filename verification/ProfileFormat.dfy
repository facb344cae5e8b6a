/** The layout of a profile: version, header and its checksum, then entries, each with its own.
    A message is the bytes its serializer produced. */
module ProfileFormat {
  import opened Bytes
  import opened Options
  import Adler
  import Varints

  type Message = seq<byte>

  function Sized(m: Message): seq<byte> { Varints.Encode(|m|) + m }

  /** A record followed by the checksum over all of it. */
  function Sealed(body: seq<byte>): seq<byte> { body + Varints.Encode(Adler.Checksum(body)) }

  function HeaderBody(version: uint32, header: Message): seq<byte> {
    Varints.Encode(version) + Sized(header)
  }

  function Entries(entries: seq<Message>): seq<byte> {
    if entries == [] then [] else Sealed(Sized(entries[0])) + Entries(entries[1..])
  }

  function Profile(version: uint32, header: Message, entries: seq<Message>): seq<byte> {
    Sealed(HeaderBody(version, header)) + Entries(entries)
  }

  // ---- Reading it back --------------------------------------------------------------------------

  /** A message with its length, and what follows. */
  function ReadSized(s: seq<byte>): (r: Option<(Message, seq<byte>)>)
    ensures r.Some? ==> |r.value.1| < |s|
  {
    match Varints.Decode(s)
    case None => None
    case Some((n, rest)) =>
      if n <= |rest| && |rest| < |s| then Some((rest[..n], rest[n..])) else None
  }

  /** Checks that `rest` begins with the checksum of `body`. */
  function ReadSeal(body: seq<byte>, rest: seq<byte>): Option<seq<byte>> {
    match Varints.Decode(rest)
    case None => None
    case Some((sum, after)) => if sum == Adler.Checksum(body) then Some(after) else None
  }

  /** The bytes of s that come before its tail `rest`. */
  function Before(s: seq<byte>, rest: seq<byte>): seq<byte> {
    if |rest| <= |s| then s[..|s| - |rest|] else []
  }

  function ReadEntry(s: seq<byte>): Option<(Message, seq<byte>)> {
    match ReadSized(s)
    case None => None
    case Some((m, rest)) =>
      match ReadSeal(Before(s, rest), rest)
      case None => None
      case Some(after) => Some((m, after))
  }

  function ReadEntries(s: seq<byte>): Option<seq<Message>>
    decreases |s|
  {
    hide ReadEntry;
    if s == [] then Some([])
    else
      match ReadEntry(s)
      case None => None
      case Some((m, after)) =>
        if |after| >= |s| then None
        else
          match ReadEntries(after)
          case None => None
          case Some(ms) => Some([m] + ms)
  }

  datatype Parsed = Parsed(version: uint32, header: Message, entries: seq<Message>)

  function Read(s: seq<byte>): Option<Parsed> {
    match Varints.Decode(s)
    case None => None
    case Some((version, s1)) =>
      match ReadSized(s1)
      case None => None
      case Some((header, s2)) =>
        match ReadSeal(Before(s, s2), s2)
        case None => None
        case Some(s3) =>
          match ReadEntries(s3)
          case None => None
          case Some(entries) => Some(Parsed(version, header, entries))
  }

  // ---- Reading is the inverse of writing --------------------------------------------------------

  predicate Small(m: Message) { |m| < TWO_32 }

  lemma SizedRead(m: Message, rest: seq<byte>)
    requires Small(m)
    ensures ReadSized(Sized(m) + rest) == Some((m, rest))
  {
    Varints.RoundTrip(|m|, m + rest);
    assert Sized(m) + rest == Varints.Encode(|m|) + (m + rest);
    assert (m + rest)[..|m|] == m && (m + rest)[|m|..] == rest;
  }

  lemma SealRead(body: seq<byte>, rest: seq<byte>)
    ensures var sum := Varints.Encode(Adler.Checksum(body));
            ReadSeal(body, sum + rest) == Some(rest) && 1 <= |sum| <= 5
  {
    Adler.UpdateValid(Adler.START, body);
    Varints.RoundTrip(Adler.Checksum(body), rest);
  }

  lemma SealOf(body: seq<byte>, other: seq<byte>, rest: seq<byte>)
    requires Adler.Checksum(other) != Adler.Checksum(body)
    ensures ReadSeal(other, Varints.Encode(Adler.Checksum(body)) + rest) == None
  {
    Adler.UpdateValid(Adler.START, body);
    Varints.RoundTrip(Adler.Checksum(body), rest);
  }

  lemma EntryRead(m: Message, rest: seq<byte>)
    requires Small(m)
    ensures ReadEntry(Sealed(Sized(m)) + rest) == Some((m, rest))
    ensures Sealed(Sized(m)) != []
  {
    hide Adler.Checksum, Sized, ReadSized, ReadSeal;
    var sum := Varints.Encode(Adler.Checksum(Sized(m)));
    var s := Sealed(Sized(m)) + rest;
    assert s == Sized(m) + (sum + rest);
    SizedRead(m, sum + rest);
    assert Before(s, sum + rest) == Sized(m);
    SealRead(Sized(m), rest);
  }

  lemma {:induction false} EntriesRead(entries: seq<Message>)
    requires forall m | m in entries :: Small(m)
    ensures ReadEntries(Entries(entries)) == Some(entries)
  {
    hide ReadEntry, Sealed, Sized;
    if entries != [] {
      EntryRead(entries[0], Entries(entries[1..]));
      EntriesRead(entries[1..]);
      assert entries == [entries[0]] + entries[1..];
    }
  }

  /** For every header and every list of entries, reading the profile gives back the same messages,
      finds every checksum right and leaves no byte over. */
  lemma RoundTrip(version: uint32, header: Message, entries: seq<Message>)
    requires Small(header) && forall m | m in entries :: Small(m)
    ensures Read(Profile(version, header, entries)) == Some(Parsed(version, header, entries))
  {
    hide Adler.Checksum, Sized, ReadSized, ReadSeal, ReadEntries, Entries;
    var body := HeaderBody(version, header);
    var sum := Varints.Encode(Adler.Checksum(body));
    var tail := sum + Entries(entries);
    var s := Profile(version, header, entries);
    assert s == Varints.Encode(version) + (Sized(header) + tail);
    Varints.RoundTrip(version, Sized(header) + tail);
    SizedRead(header, tail);
    assert s == body + tail;
    assert Before(s, tail) == body;
    SealRead(body, Entries(entries));
    EntriesRead(entries);
  }

  lemma ProfileIsUnique(v: uint32, h: Message, es: seq<Message>, v': uint32, h': Message, es': seq<Message>)
    requires Small(h) && Small(h') && (forall m | m in es :: Small(m)) && (forall m | m in es' :: Small(m))
    requires Profile(v, h, es) == Profile(v', h', es')
    ensures v == v' && h == h' && es == es'
  {
    RoundTrip(v, h, es);
    RoundTrip(v', h', es');
  }

  lemma ChangedInside(front: seq<byte>, m: Message, i: nat, x: byte)
    requires i < |m|
    ensures front + m[i := x] == (front + m)[|front| + i := x]
  {
  }

  /** An entry with one byte of its message changed on the way is refused. */
  lemma DamagedEntryRefused(m: Message, i: nat, x: byte, rest: seq<byte>)
    requires Small(m) && i < |m| && m[i] != x
    ensures var sum := Varints.Encode(Adler.Checksum(Sized(m)));
            ReadEntry(Sized(m[i := x]) + (sum + rest)) == None
  {
    var changed := m[i := x];
    ChangedInside(Varints.Encode(|m|), m, i, x);
    Adler.OneByteDetected(Sized(m), |Varints.Encode(|m|)| + i, x);
    hide Adler.Checksum, ReadSized, ReadSeal, Sized, Varints.Encode, Varints.Decode;
    var tail := Varints.Encode(Adler.Checksum(Sized(m))) + rest;
    SizedRead(changed, tail);
    assert Before(Sized(changed) + tail, tail) == Sized(changed);
    SealOf(Sized(m), Sized(changed), rest);
  }

  /** A profile of version 1 with a header of one byte and an entry of two, byte by byte. */
  lemma SmallProfile()
    ensures Profile(1, [7], [[1, 2]]) == [1, 1, 7] + [138, 128, 60] + [2, 1, 2] + [134, 128, 52]
  {
    hide Adler.Checksum;
    SmallSizes();
    Adler.ThreeBytes(1, 1, 7);
    Adler.ThreeBytes(2, 1, 2);
    Sums();
    hide Varints.Encode;
    assert HeaderBody(1, [7]) == [1, 1, 7] && Sized([1, 2]) == [2, 1, 2];
    assert Entries([[1, 2]]) == Sealed(Sized([1, 2])) + Entries([]) && Entries([]) == [];
  }

  lemma SmallSizes()
    ensures Varints.Encode(1) == [1] && Varints.Encode(2) == [2]
  {
  }

  lemma Sums()
    ensures Varints.Encode(15 * 0x1_0000 + 10) == [138, 128, 60]
    ensures Varints.Encode(13 * 0x1_0000 + 6) == [134, 128, 52]
  {
    assert Varints.Encode(60) == [60] && Varints.Encode(52) == [52];
  }
}
