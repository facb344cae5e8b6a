/** The bucket array of the lock-free map: cells, delta links and the chains they form.
    Everything here is about values (`seq<Cell>`); `HashTable` runs the sequential code on an
    array of the same cells and `ChainProtocol` runs any number of inserting threads on them. */
module Chains {

  // Sentinels and limits of the map.
  const EMPTY_HASH: int := -1
  const NO_VALUE: int := 0
  const MOVED: int := -1
  const DELTA_EMPTY: nat := 0
  const DELTA_EXTEND: nat := 0xFFFF_FFFF
  const NEIGHBOURHOOD: nat := 16
  const MAX_JUMPS: nat := 8
  const SIZE_MIN: nat := 32
  const CHUNK: nat := 32

  datatype Cell = Cell(hash: int, value: int, delta: nat)

  const FRESH_CELL := Cell(EMPTY_HASH, NO_VALUE, DELTA_EMPTY)

  predicate Allocated(c: Cell) { c.hash != EMPTY_HASH }

  predicate Live(c: Cell) { c.value != NO_VALUE && c.value != MOVED }

  /** `hash & sizeMask`: the sizes are powers of two, so masking is reduction modulo the size. */
  function Home(h: int, size: nat): (b: nat)
    requires size > 0
    ensures b < size
  {
    h % size
  }

  /** `(i + d) & sizeMask` for an index below the size and an offset below the neighbourhood. */
  function Step(b: nat, d: nat, size: nat): (r: nat)
    requires b < size && d < NEIGHBOURHOOD <= size
    ensures r < size
  {
    if b + d < size then b + d else b + d - size
  }

  lemma StepIsMasked(b: nat, d: nat, size: nat)
    requires b < size && d < NEIGHBOURHOOD <= size
    ensures Step(b, d, size) == (b + d) % size
  {
    if b + d >= size {
      assert (b + d) % size == (b + d - size) % size;
    }
  }

  predicate Linked(t: seq<Cell>, b: nat)
    requires b < |t|
  {
    t[b].delta != DELTA_EMPTY && t[b].delta != DELTA_EXTEND
  }

  ghost predicate DeltasInRange(t: seq<Cell>) {
    && |t| >= SIZE_MIN
    && forall b {:trigger t[b]} | 0 <= b < |t| ::
         t[b].delta < NEIGHBOURHOOD || t[b].delta == DELTA_EXTEND
  }

  function Next(t: seq<Cell>, b: nat): (r: nat)
    requires b < |t| && |t| >= SIZE_MIN && t[b].delta < NEIGHBOURHOOD
    ensures r < |t|
  {
    Step(b, t[b].delta, |t|)
  }

  /** Bucket `b` is reached from bucket `i` over at most `k` links. */
  ghost predicate Reaches(t: seq<Cell>, i: nat, b: nat, k: nat)
    requires DeltasInRange(t) && i < |t|
    decreases k
  {
    i == b || (k > 0 && Linked(t, i) && Reaches(t, Next(t, i), b, k - 1))
  }

  /** Links join allocated buckets only, and lead from earlier to later allocations;
      `born[b]` is the number of buckets allocated before `b`. */
  ghost predicate LinksGrow(t: seq<Cell>, born: seq<nat>)
    requires DeltasInRange(t) && |born| == |t|
  {
    forall b | 0 <= b < |t| && Linked(t, b) ::
      Allocated(t[b]) && Allocated(t[Next(t, b)]) && born[b] < born[Next(t, b)]
  }

  ghost predicate OnePredecessor(t: seq<Cell>)
    requires DeltasInRange(t)
  {
    forall a, b | 0 <= a < |t| && 0 <= b < |t| && Linked(t, a) && Linked(t, b) && Next(t, a) == Next(t, b) ::
      a == b
  }

  /** `slot` gives for each allocated hash the one bucket that holds it. */
  ghost predicate SlotsExact(t: seq<Cell>, slot: map<int, nat>) {
    && (forall h | h in slot :: h != EMPTY_HASH && slot[h] < |t| && t[slot[h]].hash == h)
    && (forall b | 0 <= b < |t| && Allocated(t[b]) :: t[b].hash in slot && slot[t[b].hash] == b)
  }

  ghost predicate BornBounded(t: seq<Cell>, born: seq<nat>, clock: nat)
    requires |born| == |t|
  {
    forall b | 0 <= b < |t| && Allocated(t[b]) :: born[b] < clock
  }

  /** The shape every table has, whatever its threads are doing. */
  ghost predicate Shape(t: seq<Cell>, born: seq<nat>, slot: map<int, nat>) {
    && DeltasInRange(t)
    && |born| == |t|
    && LinksGrow(t, born)
    && OnePredecessor(t)
    && SlotsExact(t, slot)
    && BornBounded(t, born, |slot|)
  }

  /** Every hash sits at most nine links, that is within ten buckets, of its home. */
  ghost predicate WithinTen(t: seq<Cell>, slot: map<int, nat>)
    requires DeltasInRange(t) && SlotsExact(t, slot)
  {
    forall h | h in slot :: Reaches(t, Home(h, |t|), slot[h], MAX_JUMPS + 1)
  }

  /** No link of `t` is lost in `u`. */
  ghost predicate LinksKept(t: seq<Cell>, u: seq<Cell>) {
    && |t| == |u|
    && forall b {:trigger t[b]} {:trigger u[b]} | 0 <= b < |t| && Linked(t, b) :: u[b].delta == t[b].delta
  }

  lemma {:induction false} ReachesKept(t: seq<Cell>, u: seq<Cell>, i: nat, b: nat, k: nat)
    requires DeltasInRange(t) && DeltasInRange(u) && LinksKept(t, u) && i < |t|
    requires Reaches(t, i, b, k)
    ensures Reaches(u, i, b, k)
    decreases k
  {
    if i != b {
      ReachesKept(t, u, Next(t, i), b, k - 1);
    }
  }

  lemma {:induction false} ReachesLonger(t: seq<Cell>, i: nat, b: nat, k: nat, m: nat)
    requires DeltasInRange(t) && i < |t| && k <= m
    requires Reaches(t, i, b, k)
    ensures Reaches(t, i, b, m)
    decreases k
  {
    if i != b {
      ReachesLonger(t, Next(t, i), b, k - 1, m - 1);
    }
  }

  /** One more link at the end of a route. */
  lemma {:induction false} ReachesNext(t: seq<Cell>, i: nat, b: nat, k: nat)
    requires DeltasInRange(t) && i < |t| && b < |t|
    requires Reaches(t, i, b, k) && Linked(t, b)
    ensures Reaches(t, i, Next(t, b), k + 1)
    decreases k
  {
    if i != b {
      ReachesNext(t, Next(t, i), b, k - 1);
    }
  }

  /** Routes climb in allocation order, so no chain has a cycle. */
  lemma {:induction false} RoutesClimb(t: seq<Cell>, born: seq<nat>, i: nat, b: nat, k: nat)
    requires DeltasInRange(t) && |born| == |t| && LinksGrow(t, born) && i < |t|
    requires Reaches(t, i, b, k)
    ensures i == b || (b < |t| && born[i] < born[b] && Allocated(t[b]))
    decreases k
  {
    if i != b {
      RoutesClimb(t, born, Next(t, i), b, k - 1);
    }
  }

  /** The table after a thread standing at the chain tail `i` claims bucket `e`, `d` places on. */
  function Extended(t: seq<Cell>, i: nat, d: nat, h: int): (u: seq<Cell>)
    requires i < |t| && d < NEIGHBOURHOOD <= |t|
    ensures |u| == |t|
  {
    var e := Step(i, d, |t|);
    var claimed := t[e := t[e].(hash := h)];
    claimed[i := claimed[i].(delta := d)]
  }

  /** What a thread must know before it claims bucket `e = i + d` for hash `h`. */
  ghost predicate CanExtend(t: seq<Cell>, slot: map<int, nat>, i: nat, d: nat, h: int) {
    && DeltasInRange(t)
    && i < |t| && d < NEIGHBOURHOOD && !Linked(t, i)
    && h != EMPTY_HASH && h !in slot
    && !Allocated(t[Step(i, d, |t|)]) && (d > 0 ==> Allocated(t[i]))
  }

  lemma ExtendLinks(t: seq<Cell>, born: seq<nat>, slot: map<int, nat>, i: nat, d: nat, h: int)
    requires Shape(t, born, slot) && CanExtend(t, slot, i, d, h)
    ensures var e := Step(i, d, |t|);
            var u := Extended(t, i, d, h);
            DeltasInRange(u) && LinksKept(t, u) && LinksGrow(u, born[e := |slot|]) && OnePredecessor(u)
  {
    var n := |t|;
    var e := Step(i, d, n);
    var u := Extended(t, i, d, h);
    assert e == i <==> d == 0;
    assert !Linked(t, e);
    forall b | 0 <= b < n && Linked(u, b)
      ensures b == i || (Linked(t, b) && Next(u, b) == Next(t, b) != e && b != e)
    {
    }
    assert d > 0 ==> Next(u, i) == e;
  }

  lemma ExtendSlots(t: seq<Cell>, born: seq<nat>, slot: map<int, nat>, i: nat, d: nat, h: int)
    requires Shape(t, born, slot) && CanExtend(t, slot, i, d, h)
    ensures var e := Step(i, d, |t|);
            var u := Extended(t, i, d, h);
            SlotsExact(u, slot[h := e]) && BornBounded(u, born[e := |slot|], |slot[h := e]|)
  {
    var e := Step(i, d, |t|);
    var u := Extended(t, i, d, h);
    assert forall b | 0 <= b < |t| && b != e :: u[b].hash == t[b].hash;
    assert u[e].hash == h;
    assert slot[h := e].Keys == slot.Keys + {h};
    assert |slot[h := e]| == |slot| + 1;
  }

  /** Claiming an empty bucket behind a tail keeps the shape and puts the new hash in reach. */
  lemma ExtendKeeps(t: seq<Cell>, born: seq<nat>, slot: map<int, nat>, i: nat, d: nat, h: int, k: nat)
    requires Shape(t, born, slot) && WithinTen(t, slot) && CanExtend(t, slot, i, d, h)
    requires k <= MAX_JUMPS && Reaches(t, Home(h, |t|), i, k)
    ensures var e := Step(i, d, |t|);
            var u := Extended(t, i, d, h);
            Shape(u, born[e := |slot|], slot[h := e]) && WithinTen(u, slot[h := e])
  {
    var n := |t|;
    var e := Step(i, d, n);
    var u := Extended(t, i, d, h);
    var slot' := slot[h := e];
    ExtendLinks(t, born, slot, i, d, h);
    ExtendSlots(t, born, slot, i, d, h);
    forall g | g in slot'
      ensures Reaches(u, Home(g, n), slot'[g], MAX_JUMPS + 1)
    {
      if g != h {
        ReachesKept(t, u, Home(g, n), slot[g], MAX_JUMPS + 1);
      } else {
        ReachesKept(t, u, Home(h, n), i, k);
        ReachesLonger(u, Home(h, n), i, k, MAX_JUMPS);
        if d > 0 {
          assert Linked(u, i) && Next(u, i) == e;
          ReachesNext(u, Home(h, n), i, MAX_JUMPS);
        } else {
          ReachesLonger(u, Home(h, n), i, MAX_JUMPS, MAX_JUMPS + 1);
        }
      }
    }
  }
}
