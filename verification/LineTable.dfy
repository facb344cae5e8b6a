/** From a bytecode index to a source line, through a method's line number table. */
module LineTables {
  import opened Options

  const EMPTY_TABLE: int := -101
  const NO_LINE: int := -102
  const JVMTI_FAILED: int := -100

  datatype Entry = Entry(start: int, line: int)

  predicate Increasing(table: seq<Entry>) {
    forall i, j | 0 <= i < j < |table| :: table[i].start < table[j].start
  }

  /** The entries that start at or before bci, which come first. */
  function Started(table: seq<Entry>, bci: int): nat {
    if table == [] || bci < table[0].start then 0 else 1 + Started(table[1..], bci)
  }

  /** The line of the last entry that starts at or before bci. */
  function LineOf(table: seq<Entry>, bci: int): int {
    var n := Started(table, bci);
    if table == [] then EMPTY_TABLE
    else if n == 0 || n > |table| then NO_LINE
    else table[n - 1].line
  }

  lemma {:induction false} StartedSplits(table: seq<Entry>, bci: int)
    requires Increasing(table)
    ensures Started(table, bci) <= |table|
    ensures forall i | 0 <= i < |table| :: table[i].start <= bci <==> i < Started(table, bci)
  {
    if table != [] && table[0].start <= bci {
      StartedSplits(table[1..], bci);
      forall i | 0 <= i < |table|
        ensures table[i].start <= bci <==> i < Started(table, bci)
      {
        if i > 0 {
          assert table[i] == table[1..][i - 1];
        }
      }
    }
  }

  /** What the line is, with no reference to any search: -101 for an empty table, -102 when every
      entry starts after bci, and otherwise the line of the latest start that is not after bci. */
  lemma LineIsLatest(table: seq<Entry>, bci: int)
    requires Increasing(table)
    ensures table == [] ==> LineOf(table, bci) == EMPTY_TABLE
    ensures table != [] && (forall e | e in table :: e.start > bci) ==> LineOf(table, bci) == NO_LINE
    ensures forall e | e in table && e.start <= bci && (forall d | d in table && d.start <= bci :: d.start <= e.start) ::
              LineOf(table, bci) == e.line
  {
    StartedSplits(table, bci);
    var n := Started(table, bci);
    forall e | e in table && e.start <= bci && (forall d | d in table && d.start <= bci :: d.start <= e.start)
      ensures LineOf(table, bci) == e.line
    {
      var k :| 0 <= k < |table| && table[k] == e;
      assert table[n - 1] in table;
      assert k == n - 1;
    }
  }

  /** A scan of the whole table, entry by entry, as the reference. */
  function Scan(table: seq<Entry>, bci: int, line: int): int {
    if table == [] || bci < table[0].start then line
    else if bci == table[0].start then table[0].line
    else Scan(table[1..], bci, table[0].line)
  }

  lemma {:induction false} ScanIsLatest(table: seq<Entry>, bci: int, line: int)
    requires Increasing(table)
    ensures var n := Started(table, bci);
            n <= |table| && Scan(table, bci, line) == if n == 0 then line else table[n - 1].line
  {
    StartedSplits(table, bci);
    if table != [] && table[0].start <= bci {
      if bci == table[0].start {
        assert Started(table, bci) == 1 by {
          assert |table| > 1 ==> table[1].start > bci;
        }
      } else {
        ScanIsLatest(table[1..], bci, table[0].line);
      }
    }
  }

  /** The search in two phases: halving steps that move forward only, then a scan from there. It
      stays within the table and finds what a scan from the start finds. */
  method BciToLine(bci: int, table: seq<Entry>) returns (line: int)
    requires Increasing(table)
    ensures line == LineOf(table, bci)
    ensures table != [] ==> line == Scan(table, bci, NO_LINE)
  {
    StartedSplits(table, bci);
    ScanIsLatest(table, bci, NO_LINE);
    line := EMPTY_TABLE;
    if |table| == 0 {
      return;
    }
    line := NO_LINE;
    var half := |table| / 2;
    var startIndex := 0;
    while half > 0
      invariant 0 <= half && 0 <= startIndex < |table| && startIndex + 2 * half <= |table|
      invariant startIndex == 0 || table[startIndex].start < bci
    {
      var startLocation := table[startIndex + half].start;
      if bci > startLocation {
        startIndex := startIndex + half;
      } else if bci == startLocation {
        return table[startIndex + half].line;
      }
      half := half / 2;
    }
    var i := startIndex;
    while i < |table|
      invariant startIndex <= i <= |table|
      invariant i <= Started(table, bci) || i == 0 || i == startIndex
      invariant i > startIndex ==> i <= Started(table, bci) && line == table[i - 1].line
      invariant i == startIndex ==> line == NO_LINE
      invariant startIndex == 0 || startIndex < Started(table, bci)
    {
      if bci < table[i].start {
        break;
      } else if bci == table[i].start {
        return table[i].line;
      }
      line := table[i].line;
      i := i + 1;
    }
  }

  /** The line the writer logs; `table` is None when the JVM reports an error. */
  method LineNumber(bci: int, table: Option<seq<Entry>>) returns (line: int)
    requires table.Some? ==> Increasing(table.value)
    ensures line == LineFor(bci, table)
  {
    if bci <= 0 {
      return bci;
    }
    match table
    case None => line := JVMTI_FAILED;
    case Some(entries) => line := BciToLine(bci, entries);
  }

  function LineFor(bci: int, table: Option<seq<Entry>>): int {
    if bci <= 0 then bci else if table.None? then JVMTI_FAILED else LineOf(table.value, bci)
  }
}
