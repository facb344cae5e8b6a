/** Moving the entries of tables into a new one, run by a single worker. */
module Migrations {
  import opened Chains
  import opened HashTables
  import Pow2
  import Arithmetic

  // ---- Room ---------------------------------------------------------------------------------

  /** No two of the keys share a home, and together they fit the budget. */
  ghost predicate Spread(keys: set<int>, size: nat) {
    && |keys| <= Budget(size)
    && forall g, h | g in keys && h in keys && size > 0 && Home(g, size) == Home(h, size) :: g == h
  }

  /** A table being filled by a migration: nothing deleted, nothing given up. */
  ghost predicate Filling(d: Snapshot) {
    Sound(d) && Settled(d) && d.slot.Keys == Entries(d).Keys
  }

  /** Whatever of `keys` is still to come, its home bucket in `d` is waiting for it. */
  ghost predicate Roomy(d: Snapshot, keys: set<int>) {
    AllHome(d) && Spread(keys, |d.cells|)
  }

  lemma RoomyHome(d: Snapshot, keys: set<int>, h: int)
    requires Filling(d) && Roomy(d, keys) && d.slot.Keys <= keys && h in keys
    ensures HomeFor(d, h)
  {
    if h !in d.slot {
      SubsetIsSmaller(d.slot.Keys, keys);
      assert |d.slot.Keys| == |d.slot|;
      var t := d.cells;
      assert forall b | 0 <= b < |t| && Allocated(t[b]) :: t[b].hash in keys && Home(t[b].hash, |t|) == b;
    }
  }

  lemma BudgetLeft(d: Snapshot, n: nat)
    requires Sound(d) && |d.slot| < n
    ensures n <= Budget(|d.cells|) ==> d.free > 0
  {
  }

  lemma SubsetIsSmaller(a: set<int>, b: set<int>)
    requires a < b
    ensures |a| < |b|
  {
    assert b == a + (b - a);
    assert b - a != {};
  }

  /** Every finite set of keys is spread by all large enough sizes. */
  lemma {:induction false} SpreadEventually(keys: set<int>) returns (bound: nat)
    ensures forall n | n >= bound :: Spread(keys, n)
  {
    var b := Extent(keys);
    bound := 2 * b + 2 * |keys| + 1;
    forall n | n >= bound
      ensures Spread(keys, n)
    {
      forall g, h | g in keys && h in keys && Home(g, n) == Home(h, n)
        ensures g == h
      {
        CloseAndCongruent(g, h, n);
      }
    }
  }

  lemma {:induction false} Extent(keys: set<int>) returns (b: nat)
    ensures forall h: int | h in keys :: -(b as int) <= h <= b
    decreases keys
  {
    b := 0;
    assert (forall h: int :: h !in keys) ==> keys == {};
    if keys != {} {
      var h: int :| h in keys;
      b := Extent(keys - {h});
      assert forall g | g in keys :: g == h || g in keys - {h};
      if h > b {
        b := h;
      } else if -h > b {
        b := -h;
      }
    }
  }

  lemma CloseAndCongruent(g: int, h: int, n: nat)
    requires n > 0 && -(n as int) < g - h < n && g % n == h % n
    ensures g == h
  {
    var p, q := g / n, h / n;
    assert g == n * p + g % n && h == n * q + h % n;
    Arithmetic.Differ(n, p, q);
    Arithmetic.Multiple(n, p - q);
  }

  // ---- Conservation -------------------------------------------------------------------------

  /** Two disjoint maps that make up `total`. */
  ghost predicate Split(a: map<int, int>, b: map<int, int>, total: map<int, int>) {
    a.Keys !! b.Keys && a + b == total
  }

  lemma SplitMove(a: map<int, int>, b: map<int, int>, total: map<int, int>, h: int)
    requires Split(a, b, total) && h in a
    ensures h !in b && h in total && b.Keys + {h} <= total.Keys
    ensures Split(a - {h}, b[h := a[h]], total)
    ensures (a - {h})[h := a[h]] == a
  {
  }

  ghost predicate Apart(a: HashTable, b: HashTable) {
    a != b && a.cells != b.cells
  }

  /** Re-inserts one entry that the destination does not have yet. */
  method Place(dest: HashTable, h: int, v: int, ghost keys: set<int>) returns (overflow: bool)
    requires Filling(dest.Now()) && h !in dest.Contents() && dest.Contents().Keys + {h} <= keys
    requires h != EMPTY_HASH && v != NO_VALUE && v != MOVED
    modifies dest, dest.cells
    ensures Filling(dest.Now())
    ensures overflow <==> !old(Accepts(dest.Now(), h))
    ensures overflow ==> dest.Now() == old(dest.Now())
    ensures !overflow ==> dest.Contents() == old(dest.Contents())[h := v]
    ensures old(Roomy(dest.Now(), keys)) ==> !overflow && Roomy(dest.Now(), keys)
  {
    hide Sound, Entries, HomeFor, Settled, AllHome, Spread, Accepts, Target, Inserted, KeepsMoved;
    if Roomy(dest.Now(), keys) {
      RoomyHome(dest.Now(), keys, h);
    }
    var outcome, oldValue := dest.InsertOrUpdate(h, v);
    overflow := outcome == INSERT_OVERFLOW;
  }

  /** A destination that does not have an entry of the map yet has fewer allocated buckets than the map
      has entries, so that its budget is not used up if it was made for the map. */
  lemma Lacking(d: Snapshot, total: map<int, int>, h: int)
    requires Filling(d) && Entries(d).Keys <= total.Keys && h in total && h !in Entries(d)
    ensures |d.slot| < |total| && (|total| <= Budget(|d.cells|) ==> d.free > 0)
  {
    SubsetIsSmaller(d.slot.Keys, total.Keys);
    assert |d.slot.Keys| == |d.slot| && |total.Keys| == |total|;
  }

  /** An entry that is still to be moved, and that the new table does not accept. */
  ghost predicate Blocks(c: Cell, d: Snapshot)
    requires Sound(d)
  {
    Live(c) && !Accepts(d, c.hash)
  }

  ghost predicate Blocked(s: Snapshot, d: Snapshot)
    requires Sound(d)
  {
    exists b :: 0 <= b < |s.cells| && Blocks(s.cells[b], d)
  }

  /** One cell: an empty or deleted one is only marked; a live one is marked and re-inserted, or put
      back if the destination overflows. */
  method MigrateCell(from: HashTable, index: nat, dest: HashTable, ghost total: map<int, int>, ghost keys: set<int>)
    returns (overflow: bool)
    requires from.Valid() && Filling(dest.Now()) && Apart(from, dest)
    requires Split(from.Contents(), dest.Contents(), total) && total.Keys <= keys
    requires index < from.cells.Length
    modifies from.cells, dest, dest.cells
    ensures from.Valid() && Filling(dest.Now())
    ensures Split(from.Contents(), dest.Contents(), total)
    ensures from.cells[..] == if overflow then old(from.cells[..])
                              else old(from.cells[..])[index := old(from.cells[index]).(value := MOVED)]
    ensures overflow <==> old(Blocks(from.cells[index], dest.Now()))
    ensures overflow ==> dest.Now() == old(dest.Now()) && |dest.slot| < |total|
    ensures old(Roomy(dest.Now(), keys)) ==> !overflow && Roomy(dest.Now(), keys)
  {
    hide Sound, Entries, Roomy, Settled, Split, Accepts;
    ghost var s := from.Now();
    ghost var a, b := from.Contents(), dest.Contents();
    CellFacts(s, index);
    var srcHash := from.cells[index].hash;
    var srcValue := from.cells[index].value;
    if srcValue == MOVED {
      // Left over from an earlier run.
      assert from.cells[..] == s.cells[index := s.cells[index].(value := MOVED)];
      return false;
    }
    WithValueSound(s, index, MOVED);
    from.Store(index, MOVED);
    if srcValue == NO_VALUE {
      return false;
    }
    SplitMove(a, b, total, srcHash);
    hide Live;
    overflow := Rehouse(from, index, dest, srcHash, srcValue, total, keys);
    assert overflow ==> from.cells[..] == s.cells;
  }

  /** The value taken out of a cell goes into the new table, or back. */
  method Rehouse(from: HashTable, index: nat, dest: HashTable, srcHash: int, srcValue: int, ghost total: map<int, int>, ghost keys: set<int>)
    returns (overflow: bool)
    requires from.Valid() && Filling(dest.Now()) && Apart(from, dest) && index < from.cells.Length
    requires from.cells[index].hash == srcHash != EMPTY_HASH && from.cells[index].value == MOVED
    requires srcValue != NO_VALUE && srcValue != MOVED && srcHash in total && total.Keys <= keys
    requires srcHash !in dest.Contents() && dest.Contents().Keys + {srcHash} <= total.Keys
    requires Split(from.Contents(), dest.Contents()[srcHash := srcValue], total)
    requires Split(from.Contents()[srcHash := srcValue], dest.Contents(), total)
    modifies from.cells, dest, dest.cells
    ensures from.Valid() && Filling(dest.Now())
    ensures Split(from.Contents(), dest.Contents(), total)
    ensures from.cells[..] == if overflow then old(from.cells[..])[index := old(from.cells[index]).(value := srcValue)]
                              else old(from.cells[..])
    ensures overflow <==> !old(Accepts(dest.Now(), srcHash))
    ensures overflow ==> dest.Now() == old(dest.Now()) && |dest.slot| < |total|
    ensures old(Roomy(dest.Now(), keys)) ==> !overflow && Roomy(dest.Now(), keys)
  {
    hide Sound, Entries, Roomy, Settled, Split, Accepts;
    overflow := Place(dest, srcHash, srcValue, keys);
    if overflow {
      Lacking(dest.Now(), total, srcHash);
      WithValueSound(from.Now(), index, srcValue);
      from.Store(index, srcValue);
    }
  }

  /** Moves one chunk of cells, stopping at the first entry that does not fit. */
  method MigrateRange(from: HashTable, startIndex: nat, dest: HashTable, ghost total: map<int, int>, ghost keys: set<int>)
    returns (overflow: bool)
    requires from.Valid() && Filling(dest.Now()) && Apart(from, dest)
    requires Split(from.Contents(), dest.Contents(), total) && total.Keys <= keys
    requires startIndex < from.cells.Length
    modifies from.cells, dest, dest.cells
    ensures from.Valid() && Filling(dest.Now())
    ensures Split(from.Contents(), dest.Contents(), total)
    ensures forall b | 0 <= b < from.cells.Length && old(from.cells[b].value) == MOVED :: from.cells[b].value == MOVED
    ensures !overflow ==>
              forall b | startIndex <= b < startIndex + CHUNK && b < from.cells.Length :: from.cells[b].value == MOVED
    ensures overflow ==> |dest.slot| < |total| && Blocked(from.Now(), dest.Now())
    ensures forall b | 0 <= b < from.cells.Length && !(startIndex <= b < startIndex + CHUNK) :: from.cells[b] == old(from.cells[b])
    ensures old(Roomy(dest.Now(), keys)) ==> !overflow && Roomy(dest.Now(), keys)
  {
    hide Sound, Entries, Roomy, Settled, Split, Blocks;
    var last := if startIndex + CHUNK < from.cells.Length then startIndex + CHUNK else from.cells.Length;
    for index := startIndex to last
      invariant from.Valid() && Filling(dest.Now())
      invariant Split(from.Contents(), dest.Contents(), total)
      invariant forall b | 0 <= b < from.cells.Length && old(from.cells[b].value) == MOVED :: from.cells[b].value == MOVED
      invariant forall b | startIndex <= b < index :: from.cells[b].value == MOVED
      invariant forall b | 0 <= b < from.cells.Length && !(startIndex <= b < index) :: from.cells[b] == old(from.cells[b])
      invariant old(Roomy(dest.Now(), keys)) ==> Roomy(dest.Now(), keys)
    {
      ghost var t := from.cells[..];
      overflow := MigrateCell(from, index, dest, total, keys);
      assert forall b | 0 <= b < from.cells.Length :: from.cells[..][b] == t[b] || (!overflow && b == index && from.cells[..][b].value == MOVED);
      if overflow {
        return;
      }
    }
    return false;
  }

  // ---- Several source tables ----------------------------------------------------------------

  ghost predicate AllValid(ts: seq<HashTable>)
    reads ts, set t | t in ts :: t.cells
  {
    forall t | t in ts :: t.Valid()
  }

  ghost predicate AllApart(ts: seq<HashTable>, d: HashTable) {
    && (forall i, j | 0 <= i < |ts| && 0 <= j < |ts| && i != j :: Apart(ts[i], ts[j]))
    && (forall i | 0 <= i < |ts| :: Apart(ts[i], d))
  }

  ghost function Parts(ts: seq<HashTable>): (ms: seq<map<int, int>>)
    requires AllValid(ts)
    reads ts, set t | t in ts :: t.cells
    ensures |ms| == |ts| && forall i | 0 <= i < |ts| :: ms[i] == ts[i].Contents()
  {
    if ts == [] then [] else [ts[0].Contents()] + Parts(ts[1..])
  }

  ghost function Union(ms: seq<map<int, int>>): map<int, int> {
    if ms == [] then map[] else ms[0] + Union(ms[1..])
  }

  /** No key is in two of the maps. */
  ghost predicate Separate(ms: seq<map<int, int>>) {
    ms == [] || (ms[0].Keys !! Union(ms[1..]).Keys && Separate(ms[1..]))
  }

  /** The entries of all the tables together. */
  ghost function Merged(ts: seq<HashTable>): map<int, int>
    requires AllValid(ts)
    reads ts, set t | t in ts :: t.cells
  {
    Union(Parts(ts))
  }

  ghost predicate AllMoved(s: Snapshot) {
    forall b | 0 <= b < |s.cells| :: s.cells[b].value == MOVED
  }

  lemma MovedIsEmpty(s: Snapshot)
    requires Sound(s) && AllMoved(s)
    ensures Entries(s) == map[]
  {
    assert forall h | h in s.slot :: !Live(s.cells[s.slot[h]]);
    assert Entries(s).Keys == {};
  }

  lemma MovedBlocksNone(s: Snapshot, d: Snapshot)
    requires Sound(d) && AllMoved(s)
    ensures !Blocked(s, d)
  {
  }

  lemma {:induction false} SkipDrained(ms: seq<map<int, int>>, k: nat)
    requires k <= |ms|
    requires forall j | 0 <= j < k :: ms[j] == map[]
    ensures Union(ms) == Union(ms[k..])
    ensures Separate(ms[k..]) ==> Separate(ms)
  {
    if k == 0 {
      assert ms[0..] == ms;
    } else {
      SkipDrained(ms[1..], k - 1);
      assert ms[1..][k - 1..] == ms[k..];
      assert map[] + Union(ms[1..]) == Union(ms[1..]);
    }
  }

  lemma {:induction false} AppendMap(ms: seq<map<int, int>>, d: map<int, int>)
    requires Separate(ms) && d.Keys !! Union(ms).Keys
    ensures Separate(ms + [d]) && Union(ms + [d]) == d + Union(ms)
  {
    if ms == [] {
      assert ms + [d] == [d];
      assert d + map[] == map[] + d;
    } else {
      assert (ms + [d])[1..] == ms[1..] + [d];
      var first, rest := ms[0], Union(ms[1..]);
      assert (first + rest).Keys == first.Keys + rest.Keys;
      AppendMap(ms[1..], d);
      assert (d + rest).Keys == d.Keys + rest.Keys;
      assert first + (d + rest) == d + (first + rest);
    }
  }

  /** The number of chunks to move. */
  function Units(ts: seq<HashTable>): nat {
    if ts == [] then 0 else ts[0].cells.Length / CHUNK + Units(ts[1..])
  }

  lemma UnitsPositive(ts: seq<HashTable>)
    requires AllValid(ts)
    ensures Units(ts) == 0 <==> ts == []
  {
    if ts != [] {
      assert ts[0].Valid();
      SizeFacts(ts[0].Now());
    }
  }

  lemma Regroup(a: map<int, int>, d: map<int, int>, rest: map<int, int>, a': map<int, int>, d': map<int, int>, m: map<int, int>)
    requires a.Keys !! rest.Keys && Split(d, a + rest, m)
    requires Split(a', d', a + d)
    ensures a'.Keys !! rest.Keys && Split(d', a' + rest, m)
    ensures a' == map[] ==> Split(d', rest, m)
  {
    assert (a + rest).Keys == a.Keys + rest.Keys;
    assert (a + d).Keys == a.Keys + d.Keys;
    assert (a' + d').Keys == a'.Keys + d'.Keys;
    assert (a' + rest).Keys == a'.Keys + rest.Keys;
    assert forall h | h in m :: h in d' + (a' + rest) && (d' + (a' + rest))[h] == m[h];
    assert (d' + (a' + rest)).Keys == m.Keys;
  }

  lemma Head(ms: seq<map<int, int>>, k: nat)
    requires k < |ms| && Separate(ms[k..])
    ensures Union(ms[k..]) == ms[k] + Union(ms[k + 1..])
    ensures ms[k].Keys !! Union(ms[k + 1..]).Keys && Separate(ms[k + 1..])
  {
    assert ms[k..][1..] == ms[k + 1..];
  }

  lemma SubmapIsSmaller(a: map<int, int>, b: map<int, int>)
    requires a.Keys <= b.Keys
    ensures |a| <= |b|
  {
    assert |a.Keys| == |a| && |b.Keys| == |b|;
    if a.Keys != b.Keys {
      SubsetIsSmaller(a.Keys, b.Keys);
    }
  }

  lemma BeforeRegroup(a: map<int, int>, d: map<int, int>, rest: map<int, int>, m: map<int, int>)
    requires a.Keys !! rest.Keys && Split(d, a + rest, m)
    ensures Split(a, d, a + d) && (a + d).Keys <= m.Keys
  {
    assert (a + rest).Keys == a.Keys + rest.Keys;
  }

  lemma Reassemble(ms: seq<map<int, int>>, k: nat, a: map<int, int>)
    requires k < |ms| && Separate(ms[k + 1..]) && a.Keys !! Union(ms[k + 1..]).Keys
    requires forall j | 0 <= j < k :: ms[j] == map[]
    ensures Separate(ms[k := a]) && Union(ms[k := a]) == a + Union(ms[k + 1..])
  {
    var ns := ms[k := a];
    assert ns[k..][1..] == ms[k + 1..];
    SkipDrained(ns, k);
  }

  // ---- The migration job --------------------------------------------------------------------

  /** One migration: the tables to empty, the table to fill, and the counters its workers share.
      `state` is 2 per worker inside, plus 1 once the work is done. */
  class Migration {
    const sources: seq<HashTable>
    const dest: HashTable
    var index: seq<nat>
    var overflowed: bool
    var state: int
    var unitsRemaining: int

    /** Before the run: together, the sources and the destination hold exactly `m`. */
    ghost predicate Ready(m: map<int, int>)
      reads this, sources, (set t | t in sources :: t.cells), dest, dest.cells
    {
      && sources != [] && AllApart(sources, dest)
      && AllValid(sources) && Filling(dest.Now())
      && Separate(Parts(sources)) && Split(dest.Contents(), Merged(sources), m)
      && |index| == |sources| && (forall i | 0 <= i < |index| :: index[i] == 0)
      && !overflowed && state == 0 && unitsRemaining == Units(sources)
    }

    constructor (tables: seq<HashTable>, to: HashTable, ghost m: map<int, int>)
      requires tables != [] && AllApart(tables, to) && AllValid(tables) && Filling(to.Now())
      requires to.Contents() == map[] && Separate(Parts(tables)) && Merged(tables) == m
      ensures Ready(m) && sources == tables && dest == to
    {
      hide Sound, Entries, Settled, AllApart, Separate, Union;
      assert map[] + Merged(tables) == m;
      sources, dest := tables, to;
      index := seq(|tables|, _ => 0);
      overflowed, state := false, 0;
      unitsRemaining := Units(tables);
    }

    /** Moves source number `k`, chunk by chunk; `ended` when the run is over. */
    method MigrateSource(k: nat, ghost total: map<int, int>, ghost keys: set<int>) returns (ended: bool)
      requires k < |sources| == |index| && index[k] == 0
      requires sources[k].Valid() && Filling(dest.Now()) && Apart(sources[k], dest)
      requires Split(sources[k].Contents(), dest.Contents(), total) && total.Keys <= keys
      requires !overflowed && state == 2 && unitsRemaining == Units(sources[k..])
      modifies this, sources[k].cells, dest, dest.cells
      ensures sources[k].Valid() && Filling(dest.Now())
      ensures Split(sources[k].Contents(), dest.Contents(), total)
      ensures |index| == |sources| && forall j | k < j < |sources| :: index[j] == old(index[j])
      ensures overflowed ==> ended && |dest.slot| < |total| && Blocked(sources[k].Now(), dest.Now())
      ensures !overflowed ==> AllMoved(sources[k].Now()) && unitsRemaining == Units(sources[k + 1..])
                              && (ended <==> Units(sources[k + 1..]) == 0)
      ensures state == if ended then 3 else 2
      ensures old(Roomy(dest.Now(), keys)) ==> !overflowed && Roomy(dest.Now(), keys)
    {
      hide Sound, Entries, Roomy, Settled, Split, AllApart, Blocked;
      var table := sources[k];
      ghost var rest := Units(sources[k + 1..]);
      assert unitsRemaining == table.cells.Length / CHUNK + rest by {
        assert sources[k..][1..] == sources[k + 1..];
      }
      hide Units;
      SizeFacts(table.Now());
      Pow2.ThirtyTwos(table.cells.Length);
      ghost var roomy := Roomy(dest.Now(), keys);
      ghost var left := table.cells.Length / CHUNK;
      while true
        invariant table.Valid() && Filling(dest.Now())
        invariant Split(table.Contents(), dest.Contents(), total)
        invariant |index| == |sources| && forall j | k < j < |sources| :: index[j] == old(index[j])
        invariant left >= 0 && index[k] + CHUNK * left == table.cells.Length
        invariant forall b | 0 <= b < index[k] && b < table.cells.Length :: table.cells[b].value == MOVED
        invariant !overflowed && state == 2
        invariant unitsRemaining == left + rest && (left == 0 ==> rest > 0)
        invariant roomy ==> Roomy(dest.Now(), keys)
        decreases left
      {
        var start := index[k];
        index := index[k := index[k] + CHUNK];
        if start >= table.cells.Length {
          return false;
        }
        var rangeOverflow := MigrateRange(table, start, dest, total, keys);
        if rangeOverflow {
          overflowed := true;
          state := 3;
          return true;
        }
        left := left - 1;
        var sizeToMigrate := unitsRemaining;
        unitsRemaining := unitsRemaining - 1;
        if sizeToMigrate == 1 {
          state := 3;
          return true;
        }
      }
    }

    /** Before source `k`: the earlier sources are empty, and the destination and the sources from
        `k` on hold `m`. */
    ghost predicate Underway(k: nat, m: map<int, int>)
      reads this`index, this`unitsRemaining, sources, (set t | t in sources :: t.cells), dest, dest.cells
    {
      && k <= |sources| == |index| && AllApart(sources, dest)
      && AllValid(sources) && Filling(dest.Now())
      && Separate(Parts(sources)[k..]) && Split(dest.Contents(), Union(Parts(sources)[k..]), m)
      && (forall j | 0 <= j < k :: AllMoved(sources[j].Now()))
      && (forall j | k <= j < |index| :: index[j] == 0)
      && unitsRemaining == Units(sources[k..])
    }

    /** Source `k` of a run, with the whole of `m` accounted for. */
    method RunSource(k: nat, ghost m: map<int, int>, ghost keys: set<int>) returns (ended: bool)
      requires Underway(k, m) && k < |sources| && m.Keys <= keys
      requires !overflowed && state == 2
      modifies this, sources[k].cells, dest, dest.cells
      ensures overflowed ==> ended && |dest.slot| < |m|
      ensures state == if ended then 3 else 2
      ensures !overflowed ==> Underway(k + 1, m) && (ended <==> k + 1 == |sources|)
      ensures overflowed ==> AllApart(sources, dest) && AllValid(sources) && Filling(dest.Now())
      ensures overflowed ==> Blocked(sources[k].Now(), dest.Now())
      ensures overflowed ==> Separate(Parts(sources)) && Split(dest.Contents(), Merged(sources), m)
      ensures old(Roomy(dest.Now(), keys)) ==> !overflowed && Roomy(dest.Now(), keys)
    {
      hide Sound, Entries, Roomy, Settled, Separate, Union, Split, Parts, Units, AllMoved, Blocked;
      ghost var ms := Parts(sources);
      EarlierAreEmpty(k, ms);
      ended := DrainSource(k, m, keys);
      if overflowed {
        Reassemble(ms, k, sources[k].Contents());
      } else {
        assert sources[k].Valid();
        MovedIsEmpty(sources[k].Now());
        assert Parts(sources)[k + 1..] == ms[k + 1..];
        UnitsPositive(sources[k + 1..]);
      }
    }

    lemma EarlierAreEmpty(k: nat, ms: seq<map<int, int>>)
      requires AllValid(sources) && ms == Parts(sources) && k <= |sources|
      requires forall j | 0 <= j < k :: AllMoved(sources[j].Now())
      ensures forall j | 0 <= j < k :: ms[j] == map[]
    {
      hide Sound, Entries, Parts, AllMoved;
      forall j | 0 <= j < k
        ensures ms[j] == map[]
      {
        assert sources[j] in sources;
        MovedIsEmpty(sources[j].Now());
      }
    }

    /** What is left of source `k`, the destination and the later sources make up `m`. */
    method DrainSource(k: nat, ghost m: map<int, int>, ghost keys: set<int>) returns (ended: bool)
      requires Underway(k, m) && k < |sources| && m.Keys <= keys
      requires !overflowed && state == 2
      modifies this, sources[k].cells, dest, dest.cells
      ensures AllValid(sources) && Filling(dest.Now())
      ensures Parts(sources) == old(Parts(sources))[k := sources[k].Contents()]
      ensures var rest := Union(old(Parts(sources))[k + 1..]);
              && Separate(old(Parts(sources))[k + 1..]) && sources[k].Contents().Keys !! rest.Keys
              && Split(dest.Contents(), sources[k].Contents() + rest, m)
              && (sources[k].Contents() == map[] ==> Split(dest.Contents(), rest, m))
      ensures |index| == |sources| && forall j | k < j < |sources| :: index[j] == old(index[j])
      ensures overflowed ==> ended && |dest.slot| < |m| && Blocked(sources[k].Now(), dest.Now())
      ensures !overflowed ==> AllMoved(sources[k].Now()) && unitsRemaining == Units(sources[k + 1..])
                              && (ended <==> Units(sources[k + 1..]) == 0)
      ensures state == if ended then 3 else 2
      ensures old(Roomy(dest.Now(), keys)) ==> !overflowed && Roomy(dest.Now(), keys)
    {
      hide Sound, Entries, Roomy, Settled, Separate, Union, Split, Parts, Units, AllMoved, Blocked;
      ghost var ms := Parts(sources);
      ghost var a, d, rest := ms[k], dest.Contents(), Union(ms[k + 1..]);
      Head(ms, k);
      BeforeRegroup(a, d, rest, m);
      SubmapIsSmaller(a + d, m);
      ended := MigrateOne(k, a + d, keys);
      Regroup(a, d, rest, sources[k].Contents(), dest.Contents(), m);
    }

    /** Source `k` alone, and the other sources stay as they are. */
    method MigrateOne(k: nat, ghost total: map<int, int>, ghost keys: set<int>) returns (ended: bool)
      requires k < |sources| == |index| && index[k] == 0 && AllValid(sources) && AllApart(sources, dest)
      requires Filling(dest.Now()) && Split(sources[k].Contents(), dest.Contents(), total) && total.Keys <= keys
      requires !overflowed && state == 2 && unitsRemaining == Units(sources[k..])
      modifies this, sources[k].cells, dest, dest.cells
      ensures AllValid(sources) && Filling(dest.Now())
      ensures Parts(sources) == old(Parts(sources))[k := sources[k].Contents()]
      ensures Split(sources[k].Contents(), dest.Contents(), total)
      ensures |index| == |sources| && forall j | k < j < |sources| :: index[j] == old(index[j])
      ensures overflowed ==> ended && |dest.slot| < |total| && Blocked(sources[k].Now(), dest.Now())
      ensures !overflowed ==> AllMoved(sources[k].Now()) && unitsRemaining == Units(sources[k + 1..])
                              && (ended <==> Units(sources[k + 1..]) == 0)
      ensures state == if ended then 3 else 2
      ensures old(Roomy(dest.Now(), keys)) ==> !overflowed && Roomy(dest.Now(), keys)
    {
      hide Sound, Entries, Roomy, Settled, Split, Parts, Units, AllMoved, Blocked;
      ghost var ms := Parts(sources);
      ended := MigrateSource(k, total, keys);
      assert forall i | 0 <= i < |sources| && i != k :: sources[i].Valid() && sources[i].Contents() == ms[i];
      assert Parts(sources) == ms[k := sources[k].Contents()];
    }

    /** Some source holds an entry that the destination does not accept. */
    ghost predicate Stuck()
      requires dest.Valid()
      reads sources, (set t | t in sources :: t.cells), dest, dest.cells
    {
      exists t | t in sources :: Blocked(t.Now(), dest.Now())
    }

    lemma UnderwayAtStart(m: map<int, int>)
      requires Ready(m)
      ensures Underway(0, m)
    {
      assert sources[0..] == sources && Parts(sources)[0..] == Parts(sources);
    }

    lemma UnderwayAtEnd(m: map<int, int>)
      requires Underway(|sources|, m)
      ensures AllApart(sources, dest) && AllValid(sources) && Filling(dest.Now())
      ensures dest.Contents() == m && forall t | t in sources :: AllMoved(t.Now())
    {
      assert Parts(sources)[|sources|..] == [];
      assert dest.Contents() + map[] == dest.Contents();
    }

    /** The only worker of the run: empties the sources in order, or stops at an overflow. That is never
        for lack of budget when the budget of the destination is at least the size of the map. */
    method Run(ghost m: map<int, int>, ghost keys: set<int>)
      requires Ready(m) && m.Keys <= keys
      modifies this, (set t | t in sources :: t.cells), dest, dest.cells
      ensures state == 1
      ensures AllApart(sources, dest) && AllValid(sources) && Filling(dest.Now())
      ensures !overflowed ==> dest.Contents() == m && forall t | t in sources :: AllMoved(t.Now())
      ensures overflowed ==> Separate(Parts(sources)) && Split(dest.Contents(), Merged(sources), m)
      ensures overflowed && |m| <= Budget(dest.cells.Length) ==> dest.freeBuckets > 0
      ensures overflowed <==> Stuck()
      ensures old(Roomy(dest.Now(), keys)) ==> !overflowed && Roomy(dest.Now(), keys)
    {
      hide Sound, Entries, Roomy, Settled, AllMoved, AllApart, Underway, Split, Separate, Union, Parts, Blocked;
      UnderwayAtStart(m);
      state := state + 2;
      var ended := false;
      var k := 0;
      while !ended
        invariant k <= |sources|
        invariant !ended ==> state == 2 && k < |sources| && !overflowed && Underway(k, m)
        invariant ended ==> state == 3
        invariant ended && !overflowed ==> k == |sources| && Underway(k, m)
        invariant overflowed ==> AllApart(sources, dest) && AllValid(sources) && Filling(dest.Now())
        invariant overflowed ==> Separate(Parts(sources)) && Split(dest.Contents(), Merged(sources), m)
        invariant overflowed ==> |dest.slot| < |m| && k > 0 && Blocked(sources[k - 1].Now(), dest.Now())
        invariant old(Roomy(dest.Now(), keys)) ==> !overflowed && Roomy(dest.Now(), keys)
        decreases |sources| - k, !ended
      {
        ended := RunSource(k, m, keys);
        k := k + 1;
      }
      if !overflowed {
        UnderwayAtEnd(m);
        forall t | t in sources
          ensures !Blocked(t.Now(), dest.Now())
        {
          MovedBlocksNone(t.Now(), dest.Now());
        }
      } else {
        BudgetLeft(dest.Now(), |m|);
        assert sources[k - 1] in sources;
      }
      state := state - 2;
    }
  }
}
