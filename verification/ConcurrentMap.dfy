/** The map provider, used by one thread: put, get and remove over tables that are migrated to new
    sizes on overflow. It behaves as a finite map, and put terminates. */
module ConcurrentMaps {
  import opened Chains
  import opened HashTables
  import opened Migrations
  import opened Options
  import Pow2
  import Arithmetic

  const MAX_SAMPLE: nat := 256

  class ConcurrentMap {
    var current: HashTable

    /** Between operations the current table is whole: no cell has been given up. */
    ghost predicate Valid()
      reads this, current, current.cells
    {
      current.Valid() && Settled(current.Now())
    }

    /** The finite map this object stands for. */
    ghost function Contents(): map<int, int>
      requires Valid()
      reads this, current, current.cells
    {
      current.Contents()
    }

    constructor (initialSize: nat)
      ensures Valid() && Contents() == map[]
      ensures fresh(current) && fresh(current.cells)
    {
      current := new HashTable(initialSize);
    }

    method Get(h: int) returns (v: int)
      requires Valid() && h != EMPTY_HASH
      ensures v == EntryOr(Contents(), h)
    {
      var el, looked := current.Find(h);
      SlotFacts(current.Now(), h);
      if el == -1 {
        return NO_VALUE;
      }
      return current.cells[el].value;
    }

    method Remove(h: int) returns (oldValue: int)
      requires Valid() && h != EMPTY_HASH
      modifies current.cells
      ensures Valid() && Contents() == old(Contents()) - {h}
      ensures oldValue == EntryOr(old(Contents()), h)
    {
      hide Sound, Entries;
      ghost var s := current.Now();
      SlotFacts(s, h);
      var entr, looked := current.Find(h);
      if entr == -1 {
        assert Contents() == Contents() - {h};
        return NO_VALUE;
      }
      oldValue := current.cells[entr].value;
      WithValueSound(s, entr, NO_VALUE);
      current.Store(entr, NO_VALUE);
    }

    /** The size of the next table: double, or the least power of two that is at least twice the live
        entries estimated by a sample. For tables that the sample covers, all entries and one more fit the
        budget of the new table. None when the sample meets a cell that was given up: a migration is under
        way already, and is to be joined. */
    method TargetSize(doubleSize: bool) returns (newSize: Option<nat>)
      requires current.Valid()
      ensures newSize.Some? ==> Pow2.IsPow2(newSize.value) && newSize.value >= SIZE_MIN
      ensures doubleSize ==> newSize == Some(2 * current.cells.Length)
      ensures !doubleSize ==>
                (newSize == None <==> exists b :: 0 <= b < MAX_SAMPLE && b < current.cells.Length && current.cells[b].value == MOVED)
      ensures !doubleSize && newSize.Some? ==> Sampled(current.cells[..], newSize.value)
      ensures !doubleSize && newSize.Some? && current.cells.Length <= MAX_SAMPLE ==>
                Settled(current.Now()) && |current.Contents()| < Budget(newSize.value)
                && newSize.value <= SIZE_MIN + 4 * |current.Contents()|
    {
      hide Sound, Entries;
      if doubleSize {
        SizeFacts(current.Now());
        Pow2.DoubleIsPow2(current.cells.Length);
        return Some(2 * current.cells.Length);
      }
      SizeFacts(current.Now());
      var size := current.cells.Length;
      var sampleMax := SampleSize(size);
      var sample := Sample(sampleMax);
      if sample == None {
        return None;
      }
      // The source's float product and quotient are exact: EstimateIsExact.
      var sizeApprox := size * sample.value / sampleMax;
      if sampleMax == size {
        Arithmetic.DivMod(size * sample.value, size, sample.value, 0);
        LiveCountExact(current.Now());
      }
      var n := AtLeastMin(2 * sizeApprox);
      newSize := Some(n);
    }

    /** The live entries in the first cells. None when one of these was given up. */
    method Sample(sampleMax: nat) returns (sample: Option<nat>)
      requires sampleMax <= current.cells.Length
      ensures sample == None <==> exists b :: 0 <= b < sampleMax && current.cells[b].value == MOVED
      ensures sample.Some? ==> sample.value == LiveCount(current.cells[..], sampleMax)
    {
      var estimatedSize := 0;
      for i := 0 to sampleMax
        invariant estimatedSize == LiveCount(current.cells[..], i)
        invariant forall b | 0 <= b < i :: current.cells[b].value != MOVED
      {
        var value := current.cells[i].value;
        if value == MOVED {
          return None;
        } else if value != NO_VALUE {
          estimatedSize := estimatedSize + 1;
        }
      }
      sample := Some(estimatedSize);
    }

    /** Inserts or overwrites, migrating as often as it takes. `tried` are the sizes of the tables it tries:
        the first migration is to a sampled size, each further one in a row to twice the last one, or more
        if destinations overflow. Terminates: from the second attempt on
        every retry at least doubles the table, and once the sizes spread the keys nothing overflows. */
    method Put(h: int, v: int) returns (oldValue: int, ghost tried: seq<nat>)
      requires Valid() && h != EMPTY_HASH && v != NO_VALUE && v != MOVED
      modifies this, current, current.cells
      ensures Valid() && Contents() == old(Contents())[h := v]
      ensures oldValue == EntryOr(old(Contents()), h)
      ensures current == old(current) || (fresh(current) && fresh(current.cells))
      ensures |tried| == 1 <==> old(Accepts(current.Now(), h))
      ensures Sizes(old(current.cells[..]), tried) && tried[|tried| - 1] == current.cells.Length
      ensures |tried| == 1 ==> current == old(current) && current.Now() == old(Inserted(current.Now(), h, v))
    {
      hide Sound, Entries, Settled, Spread, AllHome, Accepts, Inserted, Target, KeepsMoved, Sampled;
      ghost var m := Contents();
      ghost var keys := m.Keys + {h};
      ghost var bound := SpreadEventually(keys);
      var doubleSize := false;
      tried := [current.cells.Length];
      while true
        invariant Valid() && Contents() == m
        invariant Sizes(old(current.cells[..]), tried) && tried[|tried| - 1] == current.cells.Length
        invariant |tried| == 1 <==> !doubleSize
        invariant |tried| == 1 ==> current == old(current) && current.Now() == old(current.Now())
        invariant |tried| > 1 ==> !old(Accepts(current.Now(), h))
        invariant current == old(current) || (fresh(current) && fresh(current.cells))
        invariant doubleSize ==> Filling(current.Now())
        invariant doubleSize && current.cells.Length >= bound ==> Roomy(current.Now(), keys)
        decreases !doubleSize, bound - current.cells.Length
      {
        SizeFacts(current.Now());
        if Filling(current.Now()) && Roomy(current.Now(), keys) {
          RoomyHome(current.Now(), keys, h);
        }
        ghost var s := current.Now();
        var outcome, old' := current.InsertOrUpdate(h, v);
        if outcome == INSERT_OK {
          return old', tried;
        }
        assert current.Now() == s;
        var newSize := TargetSize(doubleSize);
        assert newSize.Some? by {
          NothingGivenUp(s);
        }
        ghost var restarts := Migrate(newSize.value, keys, bound);
        MoreSizes(old(current.cells[..]), tried, newSize.value, restarts);
        tried := tried + [current.cells.Length];
        doubleSize := true;
      }
    }

    /** Creates the next table, moves everything into it and makes it current; every overflow of the
        destination restarts the work with a table twice as large and one more source. */
    method Migrate(newSize: nat, ghost keys: set<int>, ghost bound: nat) returns (ghost restarts: nat)
      requires Pow2.IsPow2(newSize) && newSize >= SIZE_MIN
      requires Valid() && Contents().Keys <= keys
      requires forall n | n >= bound :: Spread(keys, n)
      modifies this, current.cells
      ensures Valid() && Contents() == old(Contents())
      ensures fresh(current) && fresh(current.cells) && Filling(current.Now())
      ensures current.cells.Length == Doublings(newSize, restarts)
      ensures current.cells.Length >= bound ==> Roomy(current.Now(), keys)
    {
      hide Sound, Entries, Settled, Split, Separate, Union, Spread, AllHome, Parts, Migration.Ready, Migration.Stuck;
      var root := current;
      ghost var m := Contents();
      var job := StartMigration(root, newSize, m);
      restarts := 0;
      while true
        invariant job.Ready(m) && fresh(job) && fresh(job.dest) && fresh(job.dest.cells)
        invariant forall t | t in job.sources :: t == root || (fresh(t) && fresh(t.cells))
        invariant Filling(job.dest.Now()) && AllHome(job.dest.Now())
        invariant job.dest.cells.Length == Doublings(newSize, restarts)
        invariant current == root
        decreases bound - job.dest.cells.Length
      {
        SizeFacts(job.dest.Now());
        job.Run(m, keys);
        if !job.overflowed {
          current := job.dest;
          return;
        }
        job := RestartMigration(job, m);
        restarts := restarts + 1;
      }
    }
  }

  function Doublings(n: nat, times: nat): (m: nat)
    ensures m >= n
  {
    if times == 0 then n else 2 * Doublings(n, times - 1)
  }

  ghost predicate GrownFrom(m: nat, n: nat) {
    exists times :: m == Doublings(n, times)
  }

  /** The sizes of the tables of one put, from the first one's cells on. */
  ghost predicate Sizes(t: seq<Cell>, tried: seq<nat>) {
    && |tried| > 0 && tried[0] == |t|
    && (|tried| > 1 ==> |t| > 0 && exists n :: Sampled(t, n) && GrownFrom(tried[1], n))
    && forall k | 1 < k < |tried| :: GrownFrom(tried[k], 2 * tried[k - 1])
  }

  lemma MoreSizes(t: seq<Cell>, tried: seq<nat>, n: nat, times: nat)
    requires Sizes(t, tried) && |t| > 0
    requires if |tried| == 1 then Sampled(t, n) else n == 2 * tried[|tried| - 1]
    ensures Sizes(t, tried + [Doublings(n, times)])
  {
    hide Sampled;
    assert GrownFrom(Doublings(n, times), n);
  }

  lemma NothingGivenUp(s: Snapshot)
    requires Settled(s)
    ensures forall b | 0 <= b < |s.cells| :: s.cells[b].value != MOVED
  {
  }

  method StartMigration(root: HashTable, newSize: nat, ghost m: map<int, int>) returns (job: Migration)
    requires root.Valid() && root.Contents() == m && Pow2.IsPow2(newSize) && newSize >= SIZE_MIN
    ensures job.Ready(m) && fresh(job) && job.sources == [root]
    ensures fresh(job.dest) && fresh(job.dest.cells)
    ensures Filling(job.dest.Now()) && AllHome(job.dest.Now()) && job.dest.cells.Length == newSize
  {
    hide Sound, Entries, Settled, Split, Separate, Union, Pow2.LeastPow2, Units, Parts, Migration.Ready;
    var dest := new HashTable(newSize);
    EmptyTable(dest.Now());
    Pow2.LeastPow2OfPower(newSize);
    SingleTable(root);
    job := new Migration([root], dest, m);
  }

  method RestartMigration(job: Migration, ghost m: map<int, int>) returns (next: Migration)
    requires AllApart(job.sources, job.dest) && AllValid(job.sources) && Filling(job.dest.Now())
    requires Separate(Parts(job.sources)) && Split(job.dest.Contents(), Merged(job.sources), m)
    ensures next.Ready(m) && fresh(next) && next.sources == job.sources + [job.dest]
    ensures fresh(next.dest) && fresh(next.dest.cells)
    ensures Filling(next.dest.Now()) && AllHome(next.dest.Now())
    ensures next.dest.cells.Length == 2 * job.dest.cells.Length
  {
    hide Sound, Entries, Settled, Split, Separate, Union, Pow2.LeastPow2, Units, Parts, Migration.Ready;
    SizeFacts(job.dest.Now());
    var bigger := new HashTable(2 * job.dest.cells.Length);
    EmptyTable(bigger.Now());
    Doubled(job.dest.cells.Length);
    NextSources(job.sources, job.dest, m);
    next := new Migration(job.sources + [job.dest], bigger, m);
  }

  function SampleSize(size: nat): nat { if size < MAX_SAMPLE then size else MAX_SAMPLE }

  /** The entries, if they are as frequent everywhere as in the first cells. */
  function Estimated(t: seq<Cell>): nat
    requires |t| > 0
  {
    |t| * LiveCount(t, SampleSize(|t|)) / SampleSize(|t|)
  }

  /** The least size a table may have that is at least twice that. */
  ghost predicate Sampled(t: seq<Cell>, n: nat)
    requires |t| > 0
  {
    && Pow2.IsPow2(n) && n >= SIZE_MIN && n >= 2 * Estimated(t)
    && (n == SIZE_MIN || n < 4 * Estimated(t))
  }

  /** There is no remainder: a quotient of powers of two times a count. */
  lemma EstimateIsExact(t: seq<Cell>)
    requires Pow2.IsPow2(|t|)
    ensures Estimated(t) == |t| / SampleSize(|t|) * LiveCount(t, SampleSize(|t|))
    ensures |t| % SampleSize(|t|) == 0
  {
    var k := SampleSize(|t|);
    SampleIsPow2(|t|);
    Pow2.SmallerDivides(k, |t|);
    hide Pow2.IsPow2, LiveCount;
    Shares(|t|, k, LiveCount(t, k));
  }

  lemma Shares(size: nat, k: nat, live: nat)
    requires k > 0 && size % k == 0
    ensures size * live / k == size / k * live
  {
    var q := size / k;
    assert size == k * q;
    QuotientOfProduct(k, q, live);
  }

  lemma QuotientOfProduct(k: nat, q: nat, live: nat)
    requires k > 0
    ensures (k * q) * live / k == q * live
  {
    Arithmetic.Associates(k, q, live);
    Arithmetic.DivMod((k * q) * live, k, q * live, 0);
  }

  lemma SampleIsPow2(size: nat)
    requires Pow2.IsPow2(size)
    ensures Pow2.IsPow2(SampleSize(size)) && 0 < SampleSize(size) <= size
  {
    assert Pow2.IsPow2(16);
    assert MAX_SAMPLE == 2 * (2 * (2 * (2 * 16)));
    Pow2.DoubleIsPow2(16);
    Pow2.DoubleIsPow2(32);
    Pow2.DoubleIsPow2(64);
    Pow2.DoubleIsPow2(128);
  }

  function LiveCount(t: seq<Cell>, n: nat): nat
    requires n <= |t|
  {
    if n == 0 then 0 else LiveCount(t, n - 1) + if t[n - 1].value != NO_VALUE then 1 else 0
  }

  function LiveHashes(t: seq<Cell>, n: nat): set<int>
    requires n <= |t|
  {
    set b | 0 <= b < n && Live(t[b]) :: t[b].hash
  }

  lemma {:induction false} CountHashes(t: seq<Cell>, n: nat)
    requires n <= |t| && forall b | 0 <= b < |t| :: t[b].value != MOVED
    requires forall b, c | 0 <= b < c < |t| && Live(t[b]) && Live(t[c]) :: t[b].hash != t[c].hash
    ensures |LiveHashes(t, n)| == LiveCount(t, n)
  {
    if n > 0 {
      CountHashes(t, n - 1);
      var c := t[n - 1];
      if Live(c) {
        assert LiveHashes(t, n) == LiveHashes(t, n - 1) + {c.hash};
        assert c.hash !in LiveHashes(t, n - 1);
      } else {
        assert LiveHashes(t, n) == LiveHashes(t, n - 1);
      }
    }
  }

  lemma LiveCountExact(s: Snapshot)
    requires Sound(s) && Settled(s)
    ensures LiveCount(s.cells, |s.cells|) == |Entries(s)|
  {
    hide Sound, Entries;
    forall b | 0 <= b < |s.cells|
      ensures Live(s.cells[b]) ==> s.cells[b].hash in Entries(s) && s.slot[s.cells[b].hash] == b
    {
      CellFacts(s, b);
    }
    CountHashes(s.cells, |s.cells|);
    forall h | h in Entries(s)
      ensures h in LiveHashes(s.cells, |s.cells|)
    {
      SlotFacts(s, h);
    }
    assert LiveHashes(s.cells, |s.cells|) == Entries(s).Keys;
  }

  method AtLeastMin(x: nat) returns (n: nat)
    ensures n >= SIZE_MIN && Pow2.IsPow2(n)
    ensures x <= n && (n == SIZE_MIN || n < 2 * x)
  {
    LeastPow2Bound(x);
    if x > 0 {
      Pow2.LeastPow2IsPower(x);
    }
    n := Pow2.LeastPow2(x);
    if n < SIZE_MIN {
      n := SIZE_MIN;
    }
  }

  lemma EmptyTable(s: Snapshot)
    requires Sound(s) && Settled(s) && s.slot == map[]
    ensures Filling(s) && AllHome(s) && Entries(s) == map[]
  {
    assert Entries(s).Keys <= {};
  }

  lemma LeastPow2Bound(n: nat)
    ensures Pow2.LeastPow2(n) >= n
  {
    if n > 0 {
      Pow2.LeastPow2IsPower(n);
    }
  }

  lemma Doubled(n: nat)
    requires Pow2.IsPow2(n)
    ensures Pow2.LeastPow2(2 * n) == 2 * n
  {
    Pow2.LeastPow2OfPower(2 * n);
  }

  lemma SingleTable(t: HashTable)
    requires t.Valid()
    ensures AllValid([t]) && Separate(Parts([t])) && Merged([t]) == t.Contents()
  {
    var ms := Parts([t]);
    assert ms == [t.Contents()] && ms[1..] == [];
    assert t.Contents() + map[] == t.Contents();
  }

  lemma NextSources(ts: seq<HashTable>, d: HashTable, m: map<int, int>)
    requires AllValid(ts) && d.Valid() && Separate(Parts(ts)) && Split(d.Contents(), Merged(ts), m)
    ensures AllValid(ts + [d]) && Separate(Parts(ts + [d])) && Merged(ts + [d]) == m
  {
    assert AllValid(ts + [d]);
    assert Parts(ts + [d]) == Parts(ts) + [d.Contents()];
    AppendMap(Parts(ts), d.Contents());
  }
}
