/** The buffered writer of profiles. `chunks` is what it has handed to the unbuffered writer. */
module ProfileWriters {
  import opened Bytes
  import opened Options
  import Adler
  import Varints
  import F = ProfileFormat

  const MIN_FREE_BUFF: nat := 64
  const BUFF_SZ: nat := 0xFFFF

  // ---- The size arithmetic ------------------------------------------------------------------------

  /** How far the buffer is filled, and how large it is. */
  datatype Fill = Fill(offset: nat, capacity: nat)

  predicate FillOk(b: Fill) { b.offset <= b.capacity < TWO_32 }

  /** What asking for `min` bytes makes of the buffer, in 32-bit arithmetic. */
  function Asked(b: Fill, min: uint32): Fill {
    if Wrapped(b.offset + min) > b.capacity then Fill(0, if min > b.capacity then Wrapped(min * 2) else b.capacity)
    else b
  }

  predicate Roomy(b: Fill, min: uint32) { Asked(b, min).offset + min <= Asked(b, min).capacity }

  /** There is room after asking exactly when neither sum nor doubled size wraps. */
  lemma RoomIffNoWrap(b: Fill, min: uint32)
    requires FillOk(b)
    ensures FillOk(Asked(b, min))
    ensures Roomy(b, min) <==> b.offset + min < TWO_32 && (min > b.capacity ==> min < TWO_31)
  {
    if b.offset + min < TWO_32 {
      assert Wrapped(b.offset + min) == b.offset + min;
      assert Wrapped(min * 2) == if min < TWO_31 then min * 2 else min * 2 - TWO_32;
    } else {
      assert Wrapped(b.offset + min) == b.offset + min - TWO_32;
    }
  }

  /** The buffer after asking for room for a message of `size` bytes and appending a record of n bytes. */
  function Filled(b: Fill, size: nat, n: nat): Fill
    requires size + MIN_FREE_BUFF < TWO_32
  {
    var c := Asked(b, size + MIN_FREE_BUFF);
    Fill(c.offset + n, c.capacity)
  }

  /** A message whose size an int can hold, and for which the buffer has room. */
  predicate Writable(b: Fill, m: F.Message) { |m| < TWO_31 && Roomy(b, |m| + MIN_FREE_BUFF) }

  function AfterEntry(b: Fill, e: F.Message): Fill
    requires |e| < TWO_31
  {
    hide F.Sealed, F.Sized;
    Filled(b, |e|, |F.Sealed(F.Sized(e))|)
  }

  /** All entries are, one after the other. */
  predicate AllWritable(b: Fill, entries: seq<F.Message>)
    decreases |entries|
  {
    hide AfterEntry, Roomy;
    entries == [] || (Writable(b, entries[0]) && AllWritable(AfterEntry(b, entries[0]), entries[1..]))
  }

  const FRESH_FILL := Fill(0, BUFF_SZ)

  predicate ProfileWritable(version: uint32, header: F.Message, entries: seq<F.Message>) {
    && Writable(FRESH_FILL, header)
    && AllWritable(FirstFill(version, header), entries)
  }

  function FirstFill(version: uint32, header: F.Message): Fill
    requires |header| < TWO_31
  {
    Filled(FRESH_FILL, |header|, |F.Sealed(F.HeaderBody(version, header))|)
  }

  lemma {:induction false} AllSmall(entries: seq<F.Message>, b: Fill)
    requires AllWritable(b, entries)
    ensures forall e | e in entries :: F.Small(e)
    decreases |entries|
  {
    hide F.Sealed, F.Sized, Roomy;
    if entries != [] {
      AllSmall(entries[1..], AfterEntry(b, entries[0]));
    }
  }

  /** A record is at most 49 bytes short of what is asked for it. */
  const SLACK: nat := 49

  /** Requests up to here cannot make the arithmetic wrap, whatever was written before. */
  const LIMIT: nat := 0x5555_5565

  predicate Small(m: F.Message) { |m| + MIN_FREE_BUFF <= LIMIT }

  predicate SmallFill(b: Fill) { BUFF_SZ <= b.capacity <= 2 * LIMIT && b.offset + SLACK <= b.capacity }

  lemma SmallStays(b: Fill, size: nat, n: nat)
    requires SmallFill(b) && size + MIN_FREE_BUFF <= LIMIT && n <= size + MIN_FREE_BUFF - SLACK
    ensures Roomy(b, size + MIN_FREE_BUFF) && SmallFill(Filled(b, size, n))
  {
    RoomIffNoWrap(b, size + MIN_FREE_BUFF);
  }

  lemma SealedSize(body: seq<byte>)
    ensures |body| + 1 <= |F.Sealed(body)| <= |body| + 5
  {
    F.SealRead(body, []);
  }

  lemma SizedSize(m: F.Message)
    requires |m| < TWO_32
    ensures |m| + 1 <= |F.Sized(m)| <= |m| + 5
  {
    Varints.RoundTrip(|m|, []);
  }

  lemma {:induction false} SmallEntriesWritable(b: Fill, entries: seq<F.Message>)
    requires SmallFill(b) && forall e | e in entries :: Small(e)
    ensures AllWritable(b, entries)
    decreases |entries|
  {
    hide F.Sealed, F.Sized, Roomy;
    if entries != [] {
      var e := entries[0];
      assert Small(e);
      SizedSize(e);
      SealedSize(F.Sized(e));
      SmallStays(b, |e|, |F.Sealed(F.Sized(e))|);
      SmallEntriesWritable(AfterEntry(b, e), entries[1..]);
    }
  }

  /** Any number of messages of any sizes up to about a third of 2^32 can be written. */
  lemma SmallProfileWritable(version: uint32, header: F.Message, entries: seq<F.Message>)
    requires Small(header) && forall e | e in entries :: Small(e)
    ensures ProfileWritable(version, header, entries)
  {
    hide F.Sealed, F.Sized, Roomy;
    SizedSize(header);
    Varints.RoundTrip(version, []);
    SealedSize(F.HeaderBody(version, header));
    SmallStays(FRESH_FILL, |header|, |F.Sealed(F.HeaderBody(version, header))|);
    SmallEntriesWritable(Filled(FRESH_FILL, |header|, |F.Sealed(F.HeaderBody(version, header))|), entries);
  }

  /** Larger ones cannot: after a header and two entries that grow and fill the buffer, the third entry
      wraps the sum and would be written past the end. */
  lemma LargeEntriesWrap(version: uint32, header: F.Message, a: F.Message, b: F.Message, c: F.Message)
    requires |header| == 0 && |a| == |c| == 1_500_000_000 && |b| == 1_490_000_000
    ensures ProfileWritable(version, header, [a, b]) && !ProfileWritable(version, header, [a, b, c])
    ensures var f := Asked(AfterEntry(AfterEntry(FirstFill(version, header), a), b), |c| + MIN_FREE_BUFF);
            f.offset + |c| > f.capacity
  {
    hide F.Sealed, F.Sized;
    var f0 := Filled(FRESH_FILL, |header|, |F.Sealed(F.HeaderBody(version, header))|);
    SizedSize(header);
    Varints.RoundTrip(version, []);
    SealedSize(F.HeaderBody(version, header));
    SizedSize(a);
    SealedSize(F.Sized(a));
    SizedSize(b);
    SealedSize(F.Sized(b));
    assert f0.capacity == BUFF_SZ;
    var f1 := AfterEntry(f0, a);
    assert f1.capacity == 3_000_000_128;
    var f2 := AfterEntry(f1, b);
    assert f2.capacity == 3_000_000_128 && f2.offset > 2_990_000_000;
    RoomIffNoWrap(f2, |c| + MIN_FREE_BUFF);
    Unrolled(f0, a, b, c);
  }

  lemma Unrolled(f: Fill, a: F.Message, b: F.Message, c: F.Message)
    requires |a| < TWO_31 && |b| < TWO_31 && Writable(f, a)
    requires var f1 := AfterEntry(f, a);
             Writable(f1, b) && !Writable(AfterEntry(f1, b), c)
    ensures AllWritable(f, [a, b]) && !AllWritable(f, [a, b, c])
  {
    hide Writable, F.Sealed, F.Sized;
    var f1 := AfterEntry(f, a);
    var f2 := AfterEntry(f1, b);
    assert [a, b][1..] == [b] && [b][1..] == [] && [a, b, c][1..] == [b, c] && [b, c][1..] == [c];
    assert AllWritable(f2, []) && !AllWritable(f2, [c]);
    assert AllWritable(f1, [b]) && !AllWritable(f1, [b, c]);
  }

  // ---- The writer ---------------------------------------------------------------------------------

  /** Chunk i is made of the whole records groups[i]. */
  ghost predicate Whole(chunks: seq<seq<byte>>, groups: seq<seq<seq<byte>>>) {
    |chunks| == |groups| && forall i | 0 <= i < |chunks| :: chunks[i] == Flat(groups[i])
  }

  lemma {:induction false} WholeChunks(chunks: seq<seq<byte>>, groups: seq<seq<seq<byte>>>)
    requires Whole(chunks, groups)
    ensures Flat(chunks) == Flat(Flat(groups))
  {
    if chunks != [] {
      WholeChunks(chunks[1..], groups[1..]);
      FlatAppend(groups[0], Flat(groups[1..]));
    }
  }

  lemma RecordAdded(pending: seq<seq<byte>>, kept: seq<byte>, a: seq<byte>, b: seq<byte>)
    requires kept == Flat(pending)
    ensures (kept + a) + b == Flat(pending + [a + b])
  {
    FlatOne(pending, a + b);
  }

  /** One more record in the buffer is one more record written. */
  lemma WrittenMore(groups: seq<seq<seq<byte>>>, pending: seq<seq<byte>>, record: seq<byte>)
    ensures Flat(groups) + (pending + [record]) == (Flat(groups) + pending) + [record]
  {
  }

  class ProfileWriter {
    const version: uint32
    const checksum: Adler.Accumulator
    var data: array<byte>
    var offset: nat
    var headerWritten: bool
    var chunks: seq<seq<byte>>
    ghost var groups: seq<seq<seq<byte>>>   // the records in each chunk
    ghost var pending: seq<seq<byte>>       // the records in the buffer

    ghost predicate Valid()
      reads this, data, checksum
    {
      && checksum.Consistent() && Room()
      && Whole(chunks, groups) && data[..offset] == Flat(pending)
    }

    ghost function Now(): Fill
      reads this
    {
      Fill(offset, data.Length)
    }

    ghost predicate Room()
      reads this
    {
      FillOk(Now())
    }

    /** The records written so far, flushed or not. */
    ghost function Written(): seq<seq<byte>>
      reads this
    {
      Flat(groups) + pending
    }

    constructor (version: uint32)
      ensures Valid() && Written() == [] && !headerWritten && checksum.sums == Adler.START && Now() == FRESH_FILL
      ensures fresh(data) && fresh(checksum) && this.version == version
    {
      this.version := version;
      checksum := new Adler.Accumulator();
      data := new byte[BUFF_SZ];
      offset, headerWritten := 0, false;
      chunks, groups, pending := [], [], [];
    }

    method Flush()
      requires Valid()
      modifies this`chunks, this`groups, this`pending
      ensures Whole(chunks, groups) && pending == []
      ensures chunks == old(chunks) + [data[..offset]]
      ensures Written() == old(Written())
    {
      chunks := chunks + [data[..offset]];
      FlatOne(groups, pending);
      groups := groups + [pending];
      pending := [];
    }

    /** Asks for room, flushing and growing the buffer when there is too little. */
    method EnsureFreebuff(minRequired: uint32)
      requires Valid()
      modifies this`data, this`offset, this`chunks, this`groups, this`pending
      ensures Valid() && Now() == Asked(old(Now()), minRequired) && (data == old(data) || fresh(data))
      ensures Written() == old(Written())
      ensures old(Roomy(Now(), minRequired)) ==>
                offset + minRequired <= data.Length
                && data[..offset] == old(if offset + minRequired <= data.Length then data[..offset] else [])
    {
      RoomIffNoWrap(Now(), minRequired);
      if Wrapped(offset + minRequired) > data.Length {
        Flush();
        offset := 0;
        if minRequired > data.Length {
          data := new byte[Wrapped(minRequired * 2)];
        }
      }
    }

    /** A 32-bit value as a varint; five bytes must be free. */
    method WriteUnchecked(value: uint32)
      requires Room() && offset + 5 <= data.Length
      modifies this`offset, data
      ensures Room() && offset == old(offset) + |Varints.Encode(value)| <= old(offset) + 5
      ensures data[..offset] == old(data[..offset]) + Varints.Encode(value)
    {
      offset := Varints.Write(value, data, offset);
    }

    /** The size of a message, then its bytes. */
    method WriteUncheckedObj(m: F.Message)
      requires Room() && offset + 5 + |m| <= data.Length
      modifies this`offset, data
      ensures Room() && offset == old(offset) + |F.Sized(m)| <= old(offset) + 5 + |m|
      ensures data[..offset] == old(data[..offset]) + F.Sized(m)
    {
      WriteUnchecked(|m|);
      ghost var before := data[..offset];
      forall i | 0 <= i < |m| {
        data[offset + i] := m[i];
      }
      offset := offset + |m|;
      assert data[..offset] == before + m;
    }

    /** What stays in front of the next record of size sz in the buffer. */
    ghost function Kept(sz: nat): seq<byte>
      requires offset <= data.Length
      reads this, data
    {
      if offset + sz + MIN_FREE_BUFF <= data.Length then data[..offset] else []
    }

    /** The checksum of the header continues the checksum so far over all that is in the buffer. */
    method WriteHeader(header: F.Message)
      requires Valid() && !headerWritten && Writable(Now(), header)
      modifies this, data, checksum
      ensures Valid() && headerWritten && (data == old(data) || fresh(data))
      ensures var body := F.HeaderBody(version, header);
              var sums := Adler.Update(old(checksum.sums), old(Kept(|header|)) + body);
              var record := body + Varints.Encode(Adler.Word(sums));
              Written() == old(Written()) + [record] && Now() == Filled(old(Now()), |header|, |record|)
    {
      hide Whole, Flat, F.Sized, Varints.Encode, Adler.Update, Adler.Word, Asked, Roomy;
      headerWritten := true;
      EnsureFreebuff(|header| + MIN_FREE_BUFF);
      ghost var kept, body := data[..offset], F.HeaderBody(version, header);
      WriteHeaderBody(header);
      assert data[0..offset] == data[..offset];
      var csum := checksum.Add(data, 0, offset);
      WriteChecksum(csum, kept, body);
    }

    method WriteHeaderBody(header: F.Message)
      requires Room() && offset + 10 + |header| <= data.Length
      modifies this`offset, data
      ensures Room() && offset <= old(offset) + 10 + |header|
      ensures data[..offset] == old(data[..offset]) + F.HeaderBody(version, header)
    {
      hide F.Sized, Varints.Encode;
      WriteUnchecked(version);
      WriteUncheckedObj(header);
    }

    /** Completes the record at the end of the buffer with its checksum. */
    method WriteChecksum(csum: uint32, ghost kept: seq<byte>, ghost body: seq<byte>)
      requires Room() && offset + 5 <= data.Length
      requires Whole(chunks, groups) && kept == Flat(pending) && data[..offset] == kept + body
      modifies this`offset, this`pending, data
      ensures Room() && Whole(chunks, groups) && data[..offset] == Flat(pending)
      ensures var record := body + Varints.Encode(csum);
              Written() == old(Written()) + [record] && offset == |kept| + |record| && data[..offset] == kept + record
    {
      hide Whole, Flat, Varints.Encode;
      WriteUnchecked(csum);
      RecordAdded(pending, kept, body, Varints.Encode(csum));
      WrittenMore(groups, pending, body + Varints.Encode(csum));
      pending := pending + [body + Varints.Encode(csum)];
    }

    /** Each entry has its own checksum, over its size and its bytes. */
    method AppendWse(e: F.Message)
      requires Valid() && Writable(Now(), e)
      modifies this, data, checksum
      ensures Valid() && headerWritten == old(headerWritten) && (data == old(data) || fresh(data))
      ensures Written() == old(Written()) + [F.Sealed(F.Sized(e))]
      ensures Now() == Filled(old(Now()), |e|, |F.Sealed(F.Sized(e))|)
      ensures checksum.sums == Adler.Update(Adler.START, F.Sized(e))
      ensures data[..offset] == old(Kept(|e|)) + F.Sealed(F.Sized(e))
    {
      hide Whole, Flat, F.Sized, Varints.Encode, Adler.Update, Adler.Word, Asked, Roomy;
      EnsureFreebuff(|e| + MIN_FREE_BUFF);
      ghost var kept := data[..offset];
      var oldOffset := offset;
      WriteUncheckedObj(e);
      checksum.Reset();
      assert data[oldOffset..offset] == F.Sized(e) by {
        assert data[..offset][oldOffset..] == F.Sized(e);
      }
      var csum := checksum.Add(data, oldOffset, offset);
      WriteChecksum(csum, kept, F.Sized(e));
    }

    /** The destructor. */
    method Close()
      requires Valid()
      modifies this`chunks, this`groups, this`pending
      ensures Whole(chunks, groups) && Flat(groups) == old(Written()) && Flat(chunks) == Flat(old(Written()))
    {
      Flush();
      assert Flat(groups) + [] == Flat(groups);
      WholeChunks(chunks, groups);
    }
  }

  function Records(entries: seq<F.Message>): seq<seq<byte>> {
    if entries == [] then [] else [F.Sealed(F.Sized(entries[0]))] + Records(entries[1..])
  }

  lemma {:induction false} RecordsAre(entries: seq<F.Message>)
    ensures Flat(Records(entries)) == F.Entries(entries)
  {
    hide F.Sealed, F.Sized;
    if entries != [] {
      RecordsAre(entries[1..]);
      assert Records(entries)[1..] == Records(entries[1..]);
    }
  }

  lemma {:induction false} RecordsMore(entries: seq<F.Message>, n: nat)
    requires n < |entries|
    ensures Records(entries[..n + 1]) == Records(entries[..n]) + [F.Sealed(F.Sized(entries[n]))]
  {
    hide F.Sealed, F.Sized;
    if n == 0 {
      assert entries[..1] == [entries[0]] && entries[..1][1..] == [];
    } else {
      RecordsMore(entries[1..], n - 1);
      assert entries[..n + 1][1..] == entries[1..][..n] && entries[..n][1..] == entries[1..][..n - 1];
    }
  }

  method HeaderWritten(version: uint32, header: F.Message) returns (w: ProfileWriter)
    requires Writable(FRESH_FILL, header)
    ensures fresh(w) && fresh(w.data) && fresh(w.checksum) && w.Valid() && w.version == version
    ensures w.Written() == [F.Sealed(F.HeaderBody(version, header))] && w.Now() == FirstFill(version, header)
  {
    hide F.Sealed, F.Sized, F.HeaderBody, Whole, Flat, Filled, FillOk, Asked, Roomy;
    w := new ProfileWriter(version);
    w.WriteHeader(header);
    FreshHeader(F.HeaderBody(version, header));
  }

  method AppendEntries(w: ProfileWriter, entries: seq<F.Message>)
    requires w.Valid() && AllWritable(w.Now(), entries)
    modifies w, w.data, w.checksum
    ensures w.Valid() && w.Written() == old(w.Written()) + Records(entries)
  {
    hide F.Sealed, F.Sized, Whole, Flat, Filled, Writable, FillOk, Asked, Roomy;
    var n := 0;
    while n < |entries|
      invariant 0 <= n <= |entries|
      invariant w.Valid() && (w.data == old(w.data) || fresh(w.data))
      invariant w.Written() == old(w.Written()) + Records(entries[..n]) && AllWritable(w.Now(), entries[n..])
    {
      assert entries[n..][0] == entries[n] && entries[n..][1..] == entries[n + 1..];
      w.AppendWse(entries[n]);
      RecordsMore(entries, n);
      n := n + 1;
    }
    assert entries[..n] == entries;
  }

  /** One profile through a fresh writer: whatever the sizes, the chunks put together are the
      unbuffered encoding, so that it reads back as it was written; and no chunk ends inside a record. */
  method WriteProfile(version: uint32, header: F.Message, entries: seq<F.Message>)
    returns (chunks: seq<seq<byte>>, ghost groups: seq<seq<seq<byte>>>)
    requires ProfileWritable(version, header, entries)
    ensures Flat(chunks) == F.Profile(version, header, entries)
    ensures F.Read(Flat(chunks)) == Some(F.Parsed(version, header, entries))
    ensures Whole(chunks, groups) && Flat(groups) == [F.Sealed(F.HeaderBody(version, header))] + Records(entries)
  {
    AllSmall(entries, FirstFill(version, header));
    hide F.Read, F.Sealed, F.Sized, F.HeaderBody, Whole, Flat, Filled, Writable, FillOk, Asked, Roomy;
    var w := HeaderWritten(version, header);
    ghost var first := F.Sealed(F.HeaderBody(version, header));
    AppendEntries(w, entries);
    w.Close();
    chunks, groups := w.chunks, w.groups;
    ProfileIs(first, entries);
    F.RoundTrip(version, header, entries);
  }

  lemma FreshHeader(body: seq<byte>)
    ensures body + Varints.Encode(Adler.Word(Adler.Update(Adler.START, [] + body))) == F.Sealed(body)
  {
    assert [] + body == body;
  }

  lemma ProfileIs(first: seq<byte>, entries: seq<F.Message>)
    ensures Flat([first] + Records(entries)) == first + F.Entries(entries)
  {
    RecordsAre(entries);
    assert ([first] + Records(entries))[1..] == Records(entries);
  }

  lemma ZeroChecksum()
    ensures Adler.Checksum([0]) == 65537
  {
    Adler.ClosedForm([0]);
    assert [0][..0] == [] && Adler.Sum([]) == 0 && Adler.Weighted([]) == 0;
  }

  lemma ZeroChecksumBytes()
    ensures Varints.Encode(65537) == [129, 128, 4]
  {
    var v: nat := 65537;
    Varints.EncodeStep(v);
    Varints.EncodeStep(v / TWO_7);
  }

  lemma EmptyEntry()
    ensures F.Sealed(F.Sized([])) == [0, 129, 128, 4]
    ensures Writable(FRESH_FILL, []) && Writable(AfterEntry(FRESH_FILL, []), [])
  {
    ZeroChecksum();
    ZeroChecksumBytes();
    assert F.Sized([]) == [0];
    hide Adler.Checksum, Varints.Encode, F.Sized;
    SmallStays(FRESH_FILL, 0, 4);
    hide Asked, Roomy;
    SmallStays(AfterEntry(FRESH_FILL, []), 0, 4);
  }

  lemma EntryFirst(rest: seq<byte>)
    requires |rest| < 65537
    ensures F.Read([0, 129, 128, 4] + rest) == None
  {
    var s := [0, 129, 128, 4] + rest;
    Varints.RoundTrip(0, [129, 128, 4] + rest);
    assert s == Varints.Encode(0) + ([129, 128, 4] + rest);
    ZeroChecksumBytes();
    Varints.RoundTrip(65537, rest);
    hide Varints.Decode, Varints.Encode;
    assert F.ReadSized([129, 128, 4] + rest) == None;
  }

  /** The class also lets the header come after an entry. Then the bytes need not be a profile: with one
      empty entry and an empty header, reading them fails. */
  method HeaderAfterEntry() returns (bytes: seq<byte>)
    ensures F.Read(bytes) == None
  {
    hide F.Read, F.Sealed, F.Sized, Whole, Flat, Adler.Update, Adler.Word, Asked, Roomy, Writable;
    EmptyEntry();
    var w := new ProfileWriter(1);
    w.AppendWse([]);
    ghost var entry := F.Sealed(F.Sized([]));
    assert w.Written() == [entry];
    ghost var sums := Adler.Update(w.checksum.sums, w.Kept(0) + F.HeaderBody(1, []));
    Adler.UpdateValid(w.checksum.sums, w.Kept(0) + F.HeaderBody(1, []));
    ghost var record := F.HeaderBody(1, []) + Varints.Encode(Adler.Word(sums));
    w.WriteHeader([]);
    assert w.Written() == [entry, record];
    w.Close();
    bytes := Flat(w.chunks);
    ShortHeader(sums);
    FlatTwo(entry, record);
    EntryFirst(record);
  }

  lemma ShortHeader(sums: Adler.Sums)
    requires Adler.Valid(sums)
    ensures |F.HeaderBody(1, []) + Varints.Encode(Adler.Word(sums))| <= 7
  {
    Adler.Packed(sums.a, sums.b);
    Varints.RoundTrip(Adler.Word(sums), []);
  }

  lemma FlatTwo(a: seq<byte>, b: seq<byte>)
    ensures Flat([a, b]) == a + b
  {
    assert [a, b] == [a] + [b];
    FlatOne([a], b);
    assert Flat([a]) == a + Flat([]);
  }
}
