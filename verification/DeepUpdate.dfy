/** A table on which an update of a present key is refused: ten hashes with one home fill a chain of ten
    buckets, and an update looks at nine. */
module DeepUpdates {
  import opened Chains
  import opened HashTables

  /** The hashes 0, 32, ..., 32 * (n - 1) in the first n of 32 buckets. */
  function RowCell(n: nat, b: nat, v: int): Cell {
    if b < n then Cell(32 * b, v, if b + 1 < n then 1 else DELTA_EMPTY) else FRESH_CELL
  }

  function RowCells(n: nat, v: int): (t: seq<Cell>)
    ensures |t| == 32 && forall b | 0 <= b < 32 :: t[b] == RowCell(n, b, v)
  {
    seq(32, b requires 0 <= b => RowCell(n, b, v))
  }

  function RowSlot(n: nat): (slot: map<int, nat>)
    ensures forall h :: h in slot <==> 0 <= h < 32 * n && h % 32 == 0
    ensures forall h | h in slot :: slot[h] == h / 32
  {
    if n == 0 then map[] else RowSlot(n - 1)[32 * (n - 1) := n - 1]
  }

  function Row(n: nat, v: int): Snapshot {
    Snapshot(RowCells(n, v), 24 - n, RowSlot(n), seq(32, b requires 0 <= b => if b < n then b else 0))
  }

  lemma {:induction false} RowSlotSize(n: nat)
    ensures |RowSlot(n)| == n
  {
    if n > 0 {
      RowSlotSize(n - 1);
      assert RowSlot(n).Keys == RowSlot(n - 1).Keys + {32 * (n - 1)};
    }
  }

  /** From bucket i of the row the chain leads on to its last bucket. */
  lemma {:induction false} RowTail(n: nat, i: nat, k: nat, v: int)
    requires 0 < n <= 32 && i < n && n - 1 - i <= k && DeltasInRange(RowCells(n, v))
    ensures Ends(RowCells(n, v), i, k) && TailOf(RowCells(n, v), i, k) == n - 1
    decreases n - i
  {
    if i + 1 < n {
      assert Linked(RowCells(n, v), i) && Next(RowCells(n, v), i) == i + 1;
      RowTail(n, i + 1, k - 1, v);
    }
  }

  /** A bucket further on than k links is not reached over k links. */
  lemma {:induction false} RowFar(n: nat, i: nat, b: nat, k: nat, v: int)
    requires n <= 32 && i < n && b < n && i + k < b && DeltasInRange(RowCells(n, v))
    ensures !Reaches(RowCells(n, v), i, b, k)
    decreases k
  {
    assert Linked(RowCells(n, v), i) && Next(RowCells(n, v), i) == i + 1;
    if k > 0 {
      RowFar(n, i + 1, b, k - 1, v);
    }
  }

  /** The first nine go in one behind the other, and so does the tenth. */
  lemma RowNext(n: nat, v: int)
    requires n < 10 && Sound(Row(n, v))
    ensures Accepts(Row(n, v), 32 * n) && Inserted(Row(n, v), 32 * n, v) == Row(n + 1, v)
    ensures v == NO_VALUE ==> Reserved(Row(n, v), 32 * n) == Row(n + 1, v)
  {
    var i := if n == 0 then 0 else n - 1;
    var d := if n == 0 then 0 else 1;
    RowShape(n, v);
    hide Sound, Row, RowSlot, RowCells, Accepts, Inserted;
    NewHash(Row(n, v), 32 * n, i, d, v);
    RowAdded(n, i, d, v);
  }

  lemma RowShape(n: nat, v: int)
    requires n < 10 && Sound(Row(n, v))
    ensures var i := if n == 0 then 0 else n - 1;
            var d := if n == 0 then 0 else 1;
            var s := Row(n, v);
            && |s.cells| == |s.born| == 32 && 32 * n !in s.slot && Home(32 * n, 32) == 0 && s.free > 0
            && Ends(s.cells, 0, MAX_JUMPS) && TailOf(s.cells, 0, MAX_JUMPS) == i
            && Gap(s.cells, i, 0) == d && Step(i, d, 32) == n && !NoRoomBehind(s.cells, i)
  {
    hide Ends, TailOf, Gap, NoRoomBehind, Shape, WithinTen;
    RowRoom(n, if n == 0 then 0 else n - 1, if n == 0 then 0 else 1, v);
  }

  /** How a new hash enters a table, spelled out. */
  lemma NewHash(s: Snapshot, h: int, i: nat, d: nat, v: int)
    requires Sound(s) && |s.cells| == |s.born| == 32 && h !in s.slot && Home(h, 32) == 0 && s.free > 0
    requires Ends(s.cells, 0, MAX_JUMPS) && TailOf(s.cells, 0, MAX_JUMPS) == i
    requires Gap(s.cells, i, 0) == d && !NoRoomBehind(s.cells, i)
    ensures Accepts(s, h) && d < NEIGHBOURHOOD
    ensures Inserted(s, h, v) == WithValue(Claimed(s, i, d, h), Step(i, d, 32), v)
  {
    hide Sound, Ends, TailOf, Gap, Near;
    GapExists(s.cells, i, 0);
  }

  lemma RowRoom(n: nat, i: nat, d: nat, v: int)
    requires n < 10 && DeltasInRange(RowCells(n, v))
    requires i == (if n == 0 then 0 else n - 1) && d == (if n == 0 then 0 else 1)
    ensures Ends(RowCells(n, v), 0, MAX_JUMPS) && TailOf(RowCells(n, v), 0, MAX_JUMPS) == i
    ensures Gap(RowCells(n, v), i, 0) == d && Step(i, d, 32) == n && !NoRoomBehind(RowCells(n, v), i)
  {
    if n > 0 {
      RowTail(n, 0, MAX_JUMPS, v);
    }
    assert Step(i, d, 32) == n && !Allocated(RowCells(n, v)[n]);
    GapIs(RowCells(n, v), i, 0, d);
  }

  lemma RowAdded(n: nat, i: nat, d: nat, v: int)
    requires n < 10 && i == (if n == 0 then 0 else n - 1) && d == (if n == 0 then 0 else 1)
    ensures WithValue(Claimed(Row(n, v), i, d, 32 * n), n, v) == Row(n + 1, v)
  {
    RowSlotSize(n);
    var r := WithValue(Claimed(Row(n, v), i, d, 32 * n), n, v);
    assert r.cells == Row(n + 1, v).cells;
    assert r.slot == Row(n + 1, v).slot;
    assert r.born == Row(n + 1, v).born;
  }

  /** The tenth is within ten buckets, but not within nine. */
  lemma TenthTooDeep()
    requires Sound(Row(10, 1))
    ensures 288 in RowSlot(10) && !Accepts(Row(10, 1), 288)
  {
    assert 288 == 32 * 9 && Home(288, 32) == 0;
    RowFar(10, 0, 9, MAX_JUMPS, 1);
  }

  method EmptyTable() returns (table: HashTable)
    ensures fresh(table) && fresh(table.cells) && table.Valid() && table.Now() == Row(0, 1) && Settled(table.Now())
  {
    table := new HashTable(32);
    assert Budget(32) == 24 && |table.born| == 32;
    EmptyRow(table.Now());
  }

  /** So ten insertions succeed, and updating the last of the ten keys overflows the table. */
  method TenthUpdateOverflows() returns (outcomes: seq<InsertOutcome>, again: InsertOutcome)
    ensures |outcomes| == 10 && (forall k | 0 <= k < 10 :: outcomes[k] == INSERT_OK) && again == INSERT_OVERFLOW
  {
    hide Sound, Accepts, Inserted, Row, RowSlot, Entries, Settled;
    var table := EmptyTable();
    outcomes := [];
    var n := 0;
    while n < 10
      invariant 0 <= n <= 10 && |outcomes| == n && forall k | 0 <= k < n :: outcomes[k] == INSERT_OK
      invariant fresh(table) && fresh(table.cells) && table.Valid() && table.Now() == Row(n, 1) && Settled(table.Now())
    {
      RowNext(n, 1);
      var outcome, oldValue := table.InsertOrUpdate(32 * n, 1);
      outcomes := outcomes + [outcome];
      n := n + 1;
    }
    TenthTooDeep();
    var oldValue;
    again, oldValue := table.InsertOrUpdate(288, 2);
  }

  lemma EmptyRow(s: Snapshot)
    requires |s.cells| == |s.born| == 32 && s.free == 24 && s.slot == map[]
    requires forall b | 0 <= b < 32 :: s.cells[b] == FRESH_CELL && s.born[b] == 0
    ensures forall v :: s == Row(0, v)
  {
    assert forall v :: s.cells == Row(0, v).cells && s.born == Row(0, v).born;
  }
}
