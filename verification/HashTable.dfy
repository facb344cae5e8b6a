/** One bucket table run by a single thread: lookup, insert-or-update, and the moving of cells
    into another table. What a table means is defined on `Snapshot` values; the methods of
    `HashTable` work on the array and are tied to them. */
module HashTables {
  import opened Chains
  import Pow2
  import Arithmetic

  // ---- Tables as values ---------------------------------------------------------------------

  /** A bucket array with its budget; `slot` and `born` record where and when each hash came in. */
  datatype Snapshot = Snapshot(cells: seq<Cell>, free: int, slot: map<int, nat>, born: seq<nat>)

  /** Three quarters of the buckets may be allocated. */
  function Budget(size: nat): nat { size * 3 / 4 }

  ghost predicate Quiet(t: seq<Cell>) {
    forall b {:trigger t[b]} | 0 <= b < |t| :: t[b].delta < NEIGHBOURHOOD && (Live(t[b]) ==> Allocated(t[b]))
  }

  ghost predicate Sound(s: Snapshot) {
    && Pow2.IsPow2(|s.cells|)
    && Shape(s.cells, s.born, s.slot)
    && WithinTen(s.cells, s.slot)
    && Quiet(s.cells)
    && s.free + |s.slot| == Budget(|s.cells|)
  }

  ghost function LiveEntries(t: seq<Cell>, slot: map<int, nat>): (m: map<int, int>)
    requires SlotsExact(t, slot)
    ensures m.Keys <= slot.Keys
  {
    map h | h in slot && Live(t[slot[h]]) :: t[slot[h]].value
  }

  /** The live entries. */
  ghost function Entries(s: Snapshot): (m: map<int, int>)
    requires Sound(s)
    ensures m.Keys <= s.slot.Keys
  {
    LiveEntries(s.cells, s.slot)
  }

  function EntryOr(m: map<int, int>, h: int): int {
    if h in m then m[h] else NO_VALUE
  }

  function WithValue(s: Snapshot, b: nat, v: int): (r: Snapshot)
    requires b < |s.cells|
    ensures |r.cells| == |s.cells|
  {
    s.(cells := s.cells[b := s.cells[b].(value := v)])
  }

  function Claimed(s: Snapshot, i: nat, d: nat, h: int): (r: Snapshot)
    requires i < |s.cells| && |s.born| == |s.cells| && d < NEIGHBOURHOOD <= |s.cells|
    ensures |r.cells| == |s.cells|
  {
    var e := Step(i, d, |s.cells|);
    Snapshot(Extended(s.cells, i, d, h), s.free - 1, s.slot[h := e], s.born[e := |s.slot|])
  }

  /** `hash & sizeMask` on a word of `word` values in two's complement, of which the size divides the number. */
  lemma HomeIsMasked(h: int, word: nat, size: nat)
    requires Pow2.IsPow2(size) && word % size == 0 && -(word as int) <= h < word
    ensures Home(h, size) == Pow2.And(if h >= 0 then h else word + h, size - 1)
  {
    Pow2.MaskIsModulo(if h >= 0 then h else word + h, size);
    if h < 0 {
      WordsApart(h, word, size);
    }
  }

  lemma WordsApart(h: int, word: nat, size: nat)
    requires size > 0 && word % size == 0 && word + h >= 0
    ensures (word + h) % size == h % size
  {
    var q, p := word / size, h / size;
    Arithmetic.Distributes(size, q, p);
    assert word + h == size * (q + p) + h % size;
    Arithmetic.DivMod(word + h, size, q + p, h % size);
  }

  /** Three quarters, whatever the power of two. */
  lemma BudgetIsThreeQuarters(size: nat)
    requires Pow2.IsPow2(size) && size >= SIZE_MIN
    ensures 4 * Budget(size) == 3 * size
  {
    Pow2.ThirtyTwos(size);
  }

  /** No cell has been given up to a migration. */
  ghost predicate Settled(s: Snapshot) {
    forall b | 0 <= b < |s.cells| :: s.cells[b].value != MOVED
  }

  /** Every hash sits in its own home bucket. */
  ghost predicate AllHome(s: Snapshot) {
    |s.cells| > 0 && forall h | h in s.slot :: s.slot[h] == Home(h, |s.cells|)
  }

  lemma SizeFacts(s: Snapshot)
    requires Sound(s)
    ensures DeltasInRange(s.cells) && |s.born| == |s.cells| && Pow2.IsPow2(|s.cells|)
    ensures s.free + |s.slot| == Budget(|s.cells|)
  {
  }

  lemma CellFacts(s: Snapshot, b: nat)
    requires Sound(s) && b < |s.cells|
    ensures Allocated(s.cells[b]) ==> s.cells[b].hash in s.slot && s.slot[s.cells[b].hash] == b
    ensures Live(s.cells[b]) ==>
              Allocated(s.cells[b]) && s.cells[b].hash in Entries(s) && Entries(s)[s.cells[b].hash] == s.cells[b].value
    ensures s.cells[b].delta < NEIGHBOURHOOD
  {
  }

  lemma SlotFacts(s: Snapshot, h: int)
    requires Sound(s)
    ensures h in s.slot ==>
              s.slot[h] < |s.cells| && s.cells[s.slot[h]].hash == h && h != EMPTY_HASH
              && (s.cells[s.slot[h]].value != MOVED ==> s.cells[s.slot[h]].value == EntryOr(Entries(s), h))
    ensures h in Entries(s) <==> h in s.slot && Live(s.cells[s.slot[h]])
  {
  }

  lemma ValueKeepsShape(t: seq<Cell>, born: seq<nat>, slot: map<int, nat>, b: nat, v: int)
    requires Shape(t, born, slot) && WithinTen(t, slot) && b < |t|
    ensures var u := t[b := t[b].(value := v)];
            Shape(u, born, slot) && WithinTen(u, slot)
  {
    var u := t[b := t[b].(value := v)];
    assert DeltasInRange(u);
    assert forall c | 0 <= c < |t| :: u[c].hash == t[c].hash && u[c].delta == t[c].delta;
    assert forall c | 0 <= c < |t| && Linked(u, c) :: Next(u, c) == Next(t, c);
    forall g | g in slot
      ensures Reaches(u, Home(g, |t|), slot[g], MAX_JUMPS + 1)
    {
      ReachesKept(t, u, Home(g, |t|), slot[g], MAX_JUMPS + 1);
    }
  }

  lemma StoredEntries(t: seq<Cell>, slot: map<int, nat>, h: int, v: int)
    requires SlotsExact(t, slot) && h in slot
    ensures var u := t[slot[h] := t[slot[h]].(value := v)];
            SlotsExact(u, slot)
            && LiveEntries(u, slot) ==
               if v != NO_VALUE && v != MOVED then LiveEntries(t, slot)[h := v] else LiveEntries(t, slot) - {h}
  {
    var u := t[slot[h] := t[slot[h]].(value := v)];
    assert SlotsExact(u, slot);
    assert forall g | g in slot && g != h :: u[slot[g]] == t[slot[g]];
    var after := if v != NO_VALUE && v != MOVED then LiveEntries(t, slot)[h := v] else LiveEntries(t, slot) - {h};
    assert LiveEntries(u, slot).Keys == after.Keys;
  }

  lemma SameEntries(t: seq<Cell>, slot: map<int, nat>, b: nat, v: int)
    requires SlotsExact(t, slot) && b < |t| && !Allocated(t[b])
    ensures var u := t[b := t[b].(value := v)];
            SlotsExact(u, slot) && LiveEntries(u, slot) == LiveEntries(t, slot)
  {
    var u := t[b := t[b].(value := v)];
    assert SlotsExact(u, slot);
    assert forall g | g in slot :: u[slot[g]] == t[slot[g]];
    assert LiveEntries(u, slot).Keys == LiveEntries(t, slot).Keys;
  }

  /** Overwriting a value changes the entry of that bucket's hash and no other. */
  lemma WithValueSound(s: Snapshot, b: nat, v: int)
    requires Sound(s) && b < |s.cells|
    requires Allocated(s.cells[b]) || v == NO_VALUE || v == MOVED
    ensures Sound(WithValue(s, b, v))
    ensures Entries(WithValue(s, b, v)) ==
              if v != NO_VALUE && v != MOVED then Entries(s)[s.cells[b].hash := v]
              else if Live(s.cells[b]) then Entries(s) - {s.cells[b].hash}
              else Entries(s)
  {
    hide WithinTen, LinksGrow, OnePredecessor, BornBounded, LiveEntries;
    ValueKeepsShape(s.cells, s.born, s.slot, b, v);
    CellFacts(s, b);
    var h := s.cells[b].hash;
    if Allocated(s.cells[b]) {
      StoredEntries(s.cells, s.slot, h, v);
      if !Live(s.cells[b]) {
        DeadEntry(s.cells, s.slot, h);
        assert Entries(s) - {h} == Entries(s);
      }
    } else {
      SameEntries(s.cells, s.slot, b, v);
    }
  }

  lemma DeadEntry(t: seq<Cell>, slot: map<int, nat>, h: int)
    requires SlotsExact(t, slot) && h in slot && !Live(t[slot[h]])
    ensures h !in LiveEntries(t, slot)
  {
  }

  lemma ClaimedEntries(t: seq<Cell>, slot: map<int, nat>, i: nat, d: nat, h: int)
    requires SlotsExact(t, slot) && CanExtend(t, slot, i, d, h)
    requires !Live(t[Step(i, d, |t|)])
    ensures var u := Extended(t, i, d, h);
            var slot' := slot[h := Step(i, d, |t|)];
            SlotsExact(u, slot') && LiveEntries(u, slot') == LiveEntries(t, slot)
  {
    var e := Step(i, d, |t|);
    var u := Extended(t, i, d, h);
    var slot' := slot[h := e];
    assert forall b | 0 <= b < |t| && b != e :: u[b].hash == t[b].hash && u[b].value == t[b].value;
    assert forall g | g in slot :: slot[g] != e;
    assert SlotsExact(u, slot');
    forall g | g in slot
      ensures g != h && slot'[g] == slot[g] && u[slot[g]].value == t[slot[g]].value
    {
    }
    assert u[slot'[h]].value == t[e].value;
    assert LiveEntries(u, slot').Keys == LiveEntries(t, slot).Keys;
  }

  lemma ClaimedQuiet(t: seq<Cell>, i: nat, d: nat, h: int)
    requires Quiet(t) && i < |t| && d < NEIGHBOURHOOD <= |t| && h != EMPTY_HASH
    ensures Quiet(Extended(t, i, d, h))
  {
  }

  lemma ClaimedSound(s: Snapshot, i: nat, d: nat, h: int, k: nat)
    requires Sound(s) && CanExtend(s.cells, s.slot, i, d, h)
    requires k <= MAX_JUMPS && Reaches(s.cells, Home(h, |s.cells|), i, k)
    ensures var r := Claimed(s, i, d, h);
            Sound(r) && Entries(r) == Entries(s)
  {
    hide WithinTen, LinksGrow, OnePredecessor, BornBounded, LiveEntries, Reaches, Quiet, SlotsExact;
    SizeFacts(s);
    var r := Claimed(s, i, d, h);
    ExtendKeeps(s.cells, s.born, s.slot, i, d, h, k);
    assert r.slot.Keys == s.slot.Keys + {h};
    assert |r.slot| == |s.slot| + 1;
    CellFacts(s, Step(i, d, |s.cells|));
    ClaimedQuiet(s.cells, i, d, h);
    ClaimedEntries(s.cells, s.slot, i, d, h);
  }

  // ---- The table on its array ---------------------------------------------------------------

  /** How the walk along a chain ends: at the bucket of the hash, after too many jumps,
      or at the tail, which may be extended. */
  datatype WalkEnd = FoundAt(b: nat) | TooFar | Tail(b: nat)

  datatype InsertOutcome = INSERT_OK | INSERT_OVERFLOW | INSERT_HELP_MIGRATION

  ghost predicate NoRoomBehind(t: seq<Cell>, i: nat)
    requires i < |t| && |t| >= SIZE_MIN
  {
    forall d {:trigger Step(i, d, |t|)} | 0 <= d < NEIGHBOURHOOD :: Allocated(t[Step(i, d, |t|)])
  }

  /** The bucket `d` places ahead, cyclically, is allocated. */
  predicate TakenAhead(t: seq<Cell>, i: nat, d: nat)
    requires |t| > 0
  {
    Allocated(t[(i + d) % |t|])
  }

  /** The buckets a new hash can get are the tail itself and the next fifteen. */
  lemma RoomWithinSixteen(t: seq<Cell>, i: nat)
    requires i < |t| && |t| >= SIZE_MIN
    ensures NoRoomBehind(t, i) <==> forall d: nat | d < 16 :: TakenAhead(t, i, d)
  {
    forall d: nat | d < 16
      ensures TakenAhead(t, i, d) == Allocated(t[Step(i, d, |t|)])
    {
      StepIsMasked(i, d, |t|);
    }
    hide TakenAhead, Step;
    assert NEIGHBOURHOOD == 16;
  }

  /** The distance of the nearest unallocated bucket behind `i`, from `d` on; NEIGHBOURHOOD if none. */
  function Gap(t: seq<Cell>, i: nat, d: nat): (g: nat)
    requires i < |t| && |t| >= SIZE_MIN && d <= NEIGHBOURHOOD
    ensures d <= g <= NEIGHBOURHOOD
    decreases NEIGHBOURHOOD - d
  {
    if d == NEIGHBOURHOOD || !Allocated(t[Step(i, d, |t|)]) then d else Gap(t, i, d + 1)
  }

  lemma {:induction false} GapIs(t: seq<Cell>, i: nat, d: nat, g: nat)
    requires i < |t| && |t| >= SIZE_MIN && d <= g <= NEIGHBOURHOOD
    requires g < NEIGHBOURHOOD ==> !Allocated(t[Step(i, g, |t|)])
    requires forall c {:trigger Step(i, c, |t|)} | d <= c < g :: Allocated(t[Step(i, c, |t|)])
    ensures Gap(t, i, d) == g
    decreases g - d
  {
    if d < g {
      assert Allocated(t[Step(i, d, |t|)]);
      GapIs(t, i, d + 1, g);
    }
  }

  /** All hashes are at home, and so is or can be `h`. */
  ghost predicate HomeFor(s: Snapshot, h: int) {
    && AllHome(s)
    && (h in s.slot || (s.free > 0 && !Allocated(s.cells[Home(h, |s.cells|)])))
  }

  /** At the tail `i` of the chain of `h`, `k` links from home, where `h` may be added. */
  ghost predicate AtTail(s: Snapshot, h: int, i: nat, k: nat)
    requires Sound(s)
  {
    && h !in s.slot && i < |s.cells| && !Linked(s.cells, i)
    && k <= MAX_JUMPS && Reaches(s.cells, Home(h, |s.cells|), i, k)
  }

  /** The walk for `h` has come over `k` links to bucket `i` and, if `h` is in the table, its bucket
      is still ahead. */
  ghost predicate OnRoute(s: Snapshot, h: int, i: nat, k: nat)
    requires Sound(s)
  {
    && i < |s.cells| && Reaches(s.cells, Home(h, |s.cells|), i, k)
    && (h in s.slot ==> k <= MAX_JUMPS + 1 && Reaches(s.cells, i, s.slot[h], MAX_JUMPS + 1 - k))
    && (Near(s, h) ==> k <= MAX_JUMPS && Reaches(s.cells, i, s.slot[h], MAX_JUMPS - k))
  }

  /** The hash sits within nine buckets, where an update still finds it. */
  ghost predicate Near(s: Snapshot, h: int)
    requires Sound(s)
  {
    h in s.slot && Reaches(s.cells, Home(h, |s.cells|), s.slot[h], MAX_JUMPS)
  }

  /** The chain through bucket `i` ends within `n` links. */
  ghost predicate Ends(t: seq<Cell>, i: nat, n: nat)
    requires DeltasInRange(t) && i < |t|
    decreases n
  {
    !Linked(t, i) || (n > 0 && Ends(t, Next(t, i), n - 1))
  }

  /** The last bucket of that chain. */
  ghost function TailOf(t: seq<Cell>, i: nat, n: nat): (b: nat)
    requires DeltasInRange(t) && i < |t| && Ends(t, i, n)
    ensures b < |t|
    decreases n
  {
    if !Linked(t, i) then i else TailOf(t, Next(t, i), n - 1)
  }

  /** When a table takes a value for `h`: its bucket is among the first nine of its chain; or it has
      none, the chain is no longer than that, an empty bucket is near its tail and the budget is not
      used up. */
  ghost predicate Accepts(s: Snapshot, h: int)
    requires Sound(s)
  {
    var home := Home(h, |s.cells|);
    if h in s.slot then Near(s, h)
    else Ends(s.cells, home, MAX_JUMPS) && !NoRoomBehind(s.cells, TailOf(s.cells, home, MAX_JUMPS)) && s.free > 0
  }

  /** The nearest unallocated bucket behind `i`. */
  ghost function FreeBehind(t: seq<Cell>, i: nat): (b: nat)
    requires i < |t| && |t| >= SIZE_MIN && !NoRoomBehind(t, i)
    ensures b < |t| && !Allocated(t[b])
  {
    GapExists(t, i, 0);
    Step(i, Gap(t, i, 0), |t|)
  }

  /** The search behind a marked tail, which sees the hashes alone. */
  lemma NearestFree(t: seq<Cell>, u: seq<Cell>, i: nat, d: nat)
    requires |t| == |u| >= SIZE_MIN && i < |t| && u == t[i := u[i]] && u[i].hash == t[i].hash && d <= NEIGHBOURHOOD
    requires d < NEIGHBOURHOOD ==> !Allocated(u[Step(i, d, |u|)])
    requires forall c {:trigger Step(i, c, |u|)} | 0 <= c < d :: Allocated(u[Step(i, c, |u|)])
    ensures Gap(t, i, 0) == d && (d == NEIGHBOURHOOD <==> NoRoomBehind(t, i))
    ensures d < NEIGHBOURHOOD ==> FreeBehind(t, i) == Step(i, d, |t|) && !Allocated(t[Step(i, d, |t|)])
    ensures d > 0 && d < NEIGHBOURHOOD ==> Step(i, d, |t|) != i
    ensures d < NEIGHBOURHOOD && !Allocated(t[i]) ==> Step(i, d, |t|) == i
  {
    assert Step(i, 0, |t|) == i;
    forall c {:trigger Step(i, c, |t|)} | 0 <= c < NEIGHBOURHOOD
      ensures u[Step(i, c, |t|)].hash == t[Step(i, c, |t|)].hash
    {
    }
    GapIs(t, i, 0, d);
  }

  lemma AtTailFacts(s: Snapshot, h: int, i: nat, k: nat)
    requires Sound(s) && AtTail(s, h, i, k)
    ensures |s.cells| >= SIZE_MIN && i < |s.cells| && s.cells[i].delta == DELTA_EMPTY && h !in s.slot
    ensures |s.born| == |s.cells|
  {
    CellFacts(s, i);
  }

  lemma ExtendsHere(s: Snapshot, h: int, i: nat, k: nat, d: nat)
    requires Sound(s) && AtTail(s, h, i, k) && h != EMPTY_HASH && d < NEIGHBOURHOOD
    requires !Allocated(s.cells[Step(i, d, |s.cells|)])
    requires d > 0 ==> Allocated(s.cells[i])
    ensures CanExtend(s.cells, s.slot, i, d, h)
  {
    assert d == 0 ==> Step(i, d, |s.cells|) == i;
    CellFacts(s, i);
  }

  lemma AddedIs(s: Snapshot, i: nat, d: nat, h: int, v: int)
    requires i < |s.cells| && |s.born| == |s.cells| >= SIZE_MIN && !NoRoomBehind(s.cells, i) && Gap(s.cells, i, 0) == d < NEIGHBOURHOOD
    ensures ReservedBehind(s, i, h) == Claimed(s, i, d, h)
    ensures Added(s, i, h, v) == WithValue(Claimed(s, i, d, h), Step(i, d, |s.cells|), v)
  {
  }

  lemma KeptAll(t: seq<Cell>)
    ensures KeepsMoved(t, t)
  {
  }

  lemma NotGivenUp(s: Snapshot, b: nat)
    requires Settled(s) && b < |s.cells|
    ensures s.cells[b].value != MOVED
  {
  }

  /** A cell that was given up to a migration stays so. */
  predicate KeepsMoved(t: seq<Cell>, u: seq<Cell>) {
    |u| == |t| && forall b | 0 <= b < |t| && t[b].value == MOVED :: u[b].value == MOVED
  }

  /** The bucket that an accepted hash is in or gets. */
  ghost function Target(s: Snapshot, h: int): (b: nat)
    requires Sound(s) && Accepts(s, h)
    ensures b < |s.cells|
  {
    if h in s.slot then s.slot[h] else FreeBehind(s.cells, TailOf(s.cells, Home(h, |s.cells|), MAX_JUMPS))
  }

  /** There is room behind `i`, but in a cell that was given up to a migration. */
  ghost predicate GivenUpBehind(s: Snapshot, i: nat)
    requires i < |s.cells| && |s.cells| >= SIZE_MIN
  {
    !NoRoomBehind(s.cells, i) && s.free > 0 && s.cells[FreeBehind(s.cells, i)].value == MOVED
  }

  /** The table with a new hash in the nearest unallocated bucket behind tail `i`, linked to it. */
  ghost function ReservedBehind(s: Snapshot, i: nat, h: int): Snapshot
    requires i < |s.cells| && |s.born| == |s.cells| >= SIZE_MIN && !NoRoomBehind(s.cells, i)
  {
    GapExists(s.cells, i, 0);
    Claimed(s, i, Gap(s.cells, i, 0), h)
  }

  /** And with the value there. */
  ghost function Added(s: Snapshot, i: nat, h: int, v: int): Snapshot
    requires i < |s.cells| && |s.born| == |s.cells| >= SIZE_MIN && !NoRoomBehind(s.cells, i)
  {
    WithValue(ReservedBehind(s, i, h), FreeBehind(s.cells, i), v)
  }

  lemma {:induction false} GapExists(t: seq<Cell>, i: nat, d: nat)
    requires i < |t| && |t| >= SIZE_MIN && d <= NEIGHBOURHOOD
    ensures Gap(t, i, d) == NEIGHBOURHOOD ==> forall c {:trigger Step(i, c, |t|)} | d <= c < NEIGHBOURHOOD :: Allocated(t[Step(i, c, |t|)])
    ensures Gap(t, i, d) < NEIGHBOURHOOD ==> !Allocated(t[Step(i, Gap(t, i, d), |t|)])
    decreases NEIGHBOURHOOD - d
  {
    if d < NEIGHBOURHOOD && Allocated(t[Step(i, d, |t|)]) {
      GapExists(t, i, d + 1);
    }
  }

  /** What an insertion or update that is accepted makes of the table. */
  ghost function Inserted(s: Snapshot, h: int, v: int): Snapshot
    requires Sound(s) && Accepts(s, h)
  {
    if h in s.slot then WithValue(s, s.slot[h], v)
    else Added(s, TailOf(s.cells, Home(h, |s.cells|), MAX_JUMPS), h, v)
  }

  /** What an accepted hash finds a cell given up makes of the table: a new one has its bucket, without value. */
  ghost function Reserved(s: Snapshot, h: int): Snapshot
    requires Sound(s) && Accepts(s, h)
  {
    if h in s.slot then s
    else ReservedBehind(s, TailOf(s.cells, Home(h, |s.cells|), MAX_JUMPS), h)
  }

  /** The walk that has come over `k` links to `i` has the same end before it as from home. */
  ghost predicate SameEnd(t: seq<Cell>, home: nat, i: nat, k: nat)
    requires DeltasInRange(t) && home < |t| && i < |t|
  {
    if k > MAX_JUMPS then !Ends(t, home, MAX_JUMPS)
    else (Ends(t, home, MAX_JUMPS) <==> Ends(t, i, MAX_JUMPS - k))
         && (Ends(t, home, MAX_JUMPS) ==> TailOf(t, home, MAX_JUMPS) == TailOf(t, i, MAX_JUMPS - k))
  }

  lemma SameEndStep(t: seq<Cell>, home: nat, i: nat, k: nat)
    requires DeltasInRange(t) && home < |t| && i < |t| && k <= MAX_JUMPS && SameEnd(t, home, i, k) && Linked(t, i)
    ensures SameEnd(t, home, Next(t, i), k + 1)
  {
  }

  lemma SameEndHere(t: seq<Cell>, home: nat, i: nat, k: nat)
    requires DeltasInRange(t) && home < |t| && i < |t| && k <= MAX_JUMPS && SameEnd(t, home, i, k) && !Linked(t, i)
    ensures Ends(t, home, MAX_JUMPS) && TailOf(t, home, MAX_JUMPS) == i
  {
  }

  lemma SameEndAtHome(t: seq<Cell>, home: nat)
    requires DeltasInRange(t) && home < |t|
    ensures SameEnd(t, home, home, 0)
  {
  }

  lemma TooFarOut(t: seq<Cell>, home: nat, i: nat, k: nat)
    requires DeltasInRange(t) && home < |t| && i < |t| && SameEnd(t, home, i, k) && k > MAX_JUMPS
    ensures !Ends(t, home, MAX_JUMPS)
  {
  }

  lemma TailIsNew(s: Snapshot, h: int, i: nat, k: nat)
    requires Sound(s) && AtTail(s, h, i, k)
    ensures h !in s.slot && !Near(s, h)
  {
  }

  lemma NearEnough(s: Snapshot, h: int, i: nat, k: nat)
    requires Sound(s) && OnRoute(s, h, i, k) && k <= MAX_JUMPS && h in s.slot && s.slot[h] == i
    ensures Near(s, h)
  {
    ReachesLonger(s.cells, Home(h, |s.cells|), i, k, MAX_JUMPS);
  }

  lemma RouteStart(s: Snapshot, h: int)
    requires Sound(s)
    ensures OnRoute(s, h, Home(h, |s.cells|), 0)
  {
  }

  lemma RouteStep(s: Snapshot, h: int, i: nat, k: nat)
    requires Sound(s) && OnRoute(s, h, i, k) && k <= MAX_JUMPS
    requires s.cells[i].hash != h && Linked(s.cells, i)
    ensures s.cells[i].delta < NEIGHBOURHOOD && Allocated(s.cells[i])
    ensures OnRoute(s, h, Step(i, s.cells[i].delta, |s.cells|), k + 1)
  {
    ReachesNext(s.cells, Home(h, |s.cells|), i, k);
  }

  lemma RouteHere(s: Snapshot, h: int, i: nat, k: nat)
    requires Sound(s) && OnRoute(s, h, i, k) && h != EMPTY_HASH
    ensures s.cells[i].hash == h ==> h in s.slot && s.slot[h] == i
    ensures s.cells[i].hash != h && !Linked(s.cells, i) && k <= MAX_JUMPS ==> AtTail(s, h, i, k)
    ensures Near(s, h) ==> k <= MAX_JUMPS && (!Linked(s.cells, i) ==> s.cells[i].hash == h)
  {
  }

  /** What it comes to when the walk finds the hash, */
  lemma AcceptedThere(s: Snapshot, h: int)
    requires Sound(s) && Near(s, h)
    ensures h in s.slot && Accepts(s, h) && Target(s, h) == s.slot[h] && Reserved(s, h) == s
    ensures forall v {:trigger Inserted(s, h, v)} :: Inserted(s, h, v) == WithValue(s, s.slot[h], v)
  {
  }

  /** and when it comes to a tail. */
  lemma AcceptedBehind(s: Snapshot, h: int, i: nat)
    requires Sound(s) && h !in s.slot && i < |s.cells| && |s.cells| >= SIZE_MIN
    requires Ends(s.cells, Home(h, |s.cells|), MAX_JUMPS) && TailOf(s.cells, Home(h, |s.cells|), MAX_JUMPS) == i
    ensures Accepts(s, h) <==> !NoRoomBehind(s.cells, i) && s.free > 0
    ensures Accepts(s, h) ==> Target(s, h) == FreeBehind(s.cells, i) && Reserved(s, h) == ReservedBehind(s, i, h)
    ensures GivenUpBehind(s, i) <==> Accepts(s, h) && s.cells[Target(s, h)].value == MOVED
    ensures Accepts(s, h) ==> forall v {:trigger Inserted(s, h, v)} :: Inserted(s, h, v) == Added(s, i, h, v)
  {
  }

  /** Otherwise the table refuses it. */
  lemma Refused(s: Snapshot, h: int)
    requires Sound(s) && !Near(s, h) && (h !in s.slot ==> !Ends(s.cells, Home(h, |s.cells|), MAX_JUMPS))
    ensures !Accepts(s, h)
  {
  }

  lemma TailHasNone(s: Snapshot, h: int, i: nat, k: nat)
    requires Sound(s) && AtTail(s, h, i, k)
    ensures h !in s.slot && i < |s.cells| && |s.cells| >= SIZE_MIN
  {
  }

  function EntryAt(s: Snapshot, b: nat): int
    requires b < |s.cells|
  {
    s.cells[b].value
  }

  lemma StillHome(s: Snapshot, s': Snapshot, h: int)
    requires |s'.cells| == |s.cells| && (s'.slot == s.slot || (h in s'.slot && s'.slot == s.slot[h := s'.slot[h]]))
    ensures AllHome(s) && (s'.slot == s.slot || s'.slot[h] == Home(h, |s.cells|)) ==> AllHome(s')
  {
  }

  lemma HomeWalk(s: Snapshot, h: int)
    requires Sound(s)
    ensures HomeFor(s, h) ==> AllHome(s)
    ensures HomeFor(s, h) && h in s.slot ==> Near(s, h)
    ensures HomeFor(s, h) && h !in s.slot ==>
              var i := Home(h, |s.cells|);
              s.free > 0 && !Allocated(s.cells[i]) && !NoRoomBehind(s.cells, i)
  {
    if h !in s.slot {
      assert Step(Home(h, |s.cells|), 0, |s.cells|) == Home(h, |s.cells|);
    }
  }

  class HashTable {
    const cells: array<Cell>
    var freeBuckets: int
    ghost var slot: map<int, nat>
    ghost var born: seq<nat>

    ghost function Now(): Snapshot
      reads this, cells
    {
      Snapshot(cells[..], freeBuckets, slot, born)
    }

    ghost predicate Valid()
      reads this, cells
    {
      Sound(Now())
    }

    ghost function Contents(): map<int, int>
      requires Valid()
      reads this, cells
    {
      Entries(Now())
    }

    constructor (initialSize: nat)
      ensures Valid() && fresh(cells)
      ensures Settled(Now()) && slot == map[] && Contents() == map[]
      ensures (forall b | 0 <= b < cells.Length :: cells[b] == FRESH_CELL && born[b] == 0) && freeBuckets == Budget(cells.Length)
      ensures cells.Length == if initialSize <= SIZE_MIN then SIZE_MIN else Pow2.LeastPow2(initialSize)
    {
      // nearestPow2 computes LeastPow2 on the source's range, 0 to 2^30.
      var size := Pow2.LeastPow2(initialSize);
      if initialSize > 0 {
        Pow2.LeastPow2IsPower(initialSize);
      }
      if initialSize <= SIZE_MIN {
        Pow2.LeastPow2IsLeast(initialSize, SIZE_MIN);
      }
      var allocatedSize := if size > SIZE_MIN then size else SIZE_MIN;
      cells := new Cell[allocatedSize](_ => FRESH_CELL);
      freeBuckets := Budget(allocatedSize);
      slot := map[];
      born := seq(allocatedSize, _ => 0);
    }

    /** The bucket holding `h`, or -1. `looked` buckets are examined: at most ten when `h` is in the
        table, and otherwise at most one more than there are allocated ones. */
    method Find(h: int) returns (b: int, ghost looked: nat)
      requires Valid() && h != EMPTY_HASH
      ensures h in slot ==> b == slot[h] && looked <= MAX_JUMPS + 2
      ensures h !in slot ==> b == -1
      ensures looked <= |slot| + 1
    {
      var i: nat := Home(h, cells.Length);
      looked := 1;
      while true
        invariant i < cells.Length && looked >= 1
        invariant Allocated(cells[i]) ==> looked <= born[i] + 1
        invariant !Allocated(cells[i]) ==> looked == 1
        invariant h in slot ==>
                    looked <= MAX_JUMPS + 2 && Reaches(cells[..], i, slot[h], MAX_JUMPS + 2 - looked)
        decreases if Allocated(cells[i]) then |slot| - born[i] else 0
      {
        if cells[i].hash == EMPTY_HASH {
          return -1, looked;
        } else if cells[i].hash == h {
          return i, looked;
        }
        var delta := cells[i].delta;
        if delta == DELTA_EMPTY || delta == DELTA_EXTEND {
          return -1, looked;
        }
        assert Linked(cells[..], i);
        i := Step(i, delta, cells.Length);
        looked := looked + 1;
      }
    }

    /** Overwrites the value of a bucket. */
    method Store(b: nat, v: int)
      requires Valid() && b < cells.Length
      requires Allocated(cells[b]) || v == NO_VALUE || v == MOVED
      modifies cells
      ensures Valid() && Now() == WithValue(old(Now()), b, v)
    {
      hide Sound;
      ghost var s := Now();
      WithValueSound(s, b, v);
      cells[b] := cells[b].(value := v);
      assert cells[..] == WithValue(s, b, v).cells;
    }

    method Walk(h: int) returns (w: WalkEnd, jumps: nat)
      requires Valid() && h != EMPTY_HASH
      ensures w.FoundAt? ==> h in slot && w.b == slot[h]
      ensures w.Tail? ==> AtTail(Now(), h, w.b, jumps)
      ensures w.FoundAt? <==> Near(Now(), h)
      ensures w.Tail? ==> Ends(cells[..], Home(h, cells.Length), MAX_JUMPS)
                          && w.b == TailOf(cells[..], Home(h, cells.Length), MAX_JUMPS)
      ensures w.TooFar? && h !in slot ==> !Ends(cells[..], Home(h, cells.Length), MAX_JUMPS)
      ensures !Allocated(cells[Home(h, cells.Length)]) ==> w == Tail(Home(h, cells.Length))
    {
      hide Sound, OnRoute, AtTail, Reaches, Ends, TailOf, SameEnd, Near;
      ghost var s := Now();
      SizeFacts(s);
      var i: nat := Home(h, cells.Length);
      ghost var home := i;
      RouteStart(s, h);
      SameEndAtHome(s.cells, home);
      jumps := 0;
      while true
        invariant i < cells.Length && jumps <= MAX_JUMPS + 1 && OnRoute(s, h, i, jumps)
        invariant SameEnd(s.cells, home, i, jumps)
        invariant jumps == 0 ==> i == Home(h, cells.Length)
        invariant jumps > 0 ==> Allocated(cells[Home(h, cells.Length)])
        decreases MAX_JUMPS + 1 - jumps
      {
        RouteHere(s, h, i, jumps);
        if jumps > MAX_JUMPS {
          TooFarOut(s.cells, home, i, jumps);
          return TooFar, jumps;
        }
        if cells[i].hash == h {
          NearEnough(s, h, i, jumps);
          return FoundAt(i), jumps;
        }
        var delta := cells[i].delta;
        if delta == DELTA_EMPTY || delta == DELTA_EXTEND {
          SameEndHere(s.cells, home, i, jumps);
          TailIsNew(s, h, i, jumps);
          return Tail(i), jumps;
        }
        RouteStep(s, h, i, jumps);
        SameEndStep(s.cells, home, i, jumps);
        i := Step(i, delta, cells.Length);
        jumps := jumps + 1;
      }
    }

    /** The linear search of the neighbourhood; a bucket that already has the new hash cannot turn
        up in it, because the walk would have found that bucket. */
    method FirstEmpty(i: nat) returns (d: nat)
      requires i < cells.Length && cells.Length >= SIZE_MIN
      ensures d <= NEIGHBOURHOOD
      ensures d < NEIGHBOURHOOD ==> !Allocated(cells[Step(i, d, cells.Length)])
      ensures forall c {:trigger Step(i, c, cells.Length)} | 0 <= c < d :: Allocated(cells[Step(i, c, cells.Length)])
      ensures d == NEIGHBOURHOOD <==> NoRoomBehind(cells[..], i)
      ensures d > 0 ==> Allocated(cells[i])
    {
      d := 0;
      assert Step(i, 0, cells.Length) == i;
      while d < NEIGHBOURHOOD
        invariant d <= NEIGHBOURHOOD
        invariant forall c {:trigger Step(i, c, cells.Length)} | 0 <= c < d :: Allocated(cells[Step(i, c, cells.Length)])
      {
        if cells[Step(i, d, cells.Length)].hash == EMPTY_HASH {
          return;
        }
        d := d + 1;
      }
    }

    /** Holding the marker of the tail `i`, claims the first empty bucket of its neighbourhood. */
    method Extend(h: int, v: int, i: nat, ghost k: nat) returns (outcome: InsertOutcome, oldValue: int)
      requires Valid() && h != EMPTY_HASH && v != NO_VALUE && v != MOVED
      requires AtTail(Now(), h, i, k)
      modifies this, cells
      ensures Valid()
      ensures outcome == INSERT_OVERFLOW <==> old(NoRoomBehind(cells[..], i)) || old(freeBuckets) <= 0
      ensures outcome == INSERT_OVERFLOW ==> Now() == old(Now())
      ensures outcome == INSERT_OK ==> oldValue == NO_VALUE && Contents() == old(Contents())[h := v]
      ensures outcome == INSERT_OK ==> Now() == Added(old(Now()), i, h, v)
      ensures outcome == INSERT_HELP_MIGRATION <==> GivenUpBehind(old(Now()), i)
      ensures outcome == INSERT_HELP_MIGRATION ==> Now() == ReservedBehind(old(Now()), i, h)
      ensures outcome == INSERT_HELP_MIGRATION ==> Contents() == old(Contents()) && !old(Settled(Now()))
      ensures KeepsMoved(old(cells[..]), cells[..])
      ensures outcome != INSERT_OVERFLOW ==>
                h in slot && slot == old(slot)[h := slot[h]] && (!Allocated(old(cells[i])) ==> slot[h] == i)
      ensures old(Settled(Now())) ==> Settled(Now())
    {
      hide Sound, Reaches, NoRoomBehind, Gap, Step, FreeBehind, AtTail, Settled, KeepsMoved, Entries, Claimed, WithValue, Added, ReservedBehind;
      ghost var s := Now();
      SizeFacts(s);
      AtTailFacts(s, h, i, k);
      cells[i] := cells[i].(delta := DELTA_EXTEND);
      var d := FirstEmpty(i);
      NearestFree(s.cells, cells[..], i, d);
      var fits := false;
      if d < NEIGHBOURHOOD {
        fits := Reserve();
      }
      if !fits {
        cells[i] := cells[i].(delta := DELTA_EMPTY);
        assert cells[..] == s.cells;
        KeptAll(s.cells);
        return INSERT_OVERFLOW, NO_VALUE;
      }
      ExtendsHere(s, h, i, k, d);
      AddedIs(s, i, d, h, v);
      hide CanExtend;
      outcome, oldValue := Claim(h, v, i, d, s, k);
      if Settled(s) {
        NotGivenUp(s, Step(i, d, |s.cells|));
      }
    }

    /** Takes one bucket off the budget, unless it is used up. */
    method Reserve() returns (fits: bool)
      modifies this`freeBuckets
      ensures fits <==> old(freeBuckets) > 0
      ensures freeBuckets == old(freeBuckets) - if fits then 1 else 0
    {
      var cellsBeforeInsert := freeBuckets;
      freeBuckets := freeBuckets - 1;
      if cellsBeforeInsert <= 0 {
        freeBuckets := freeBuckets + 1;
        return false;
      }
      return true;
    }

    /** The bucket `i + d` is empty and reserved: takes it, links it behind `i` and fills it. */
    method Claim(h: int, v: int, i: nat, d: nat, ghost s: Snapshot, ghost k: nat)
      returns (outcome: InsertOutcome, oldValue: int)
      requires Sound(s) && AtTail(s, h, i, k) && v != NO_VALUE && v != MOVED
      requires CanExtend(s.cells, s.slot, i, d, h)
      requires Now() == Snapshot(s.cells[i := s.cells[i].(delta := DELTA_EXTEND)], s.free - 1, s.slot, s.born)
      modifies this, cells
      ensures Valid()
      ensures slot == s.slot[h := Step(i, d, |s.cells|)]
      ensures s.cells[Step(i, d, |s.cells|)].value == MOVED ==>
                outcome == INSERT_HELP_MIGRATION && Contents() == Entries(s) && Now() == Claimed(s, i, d, h)
      ensures s.cells[Step(i, d, |s.cells|)].value != MOVED ==>
                outcome == INSERT_OK && oldValue == NO_VALUE && Contents() == Entries(s)[h := v]
                && Now() == WithValue(Claimed(s, i, d, h), Step(i, d, |s.cells|), v)
      ensures KeepsMoved(s.cells, cells[..])
      ensures Settled(s) ==> Settled(Now())
    {
      hide Sound, Reaches, Entries, LiveEntries;
      SizeFacts(s);
      assert |cells[..]| == |s.cells|;
      var e := Step(i, d, cells.Length);
      ClaimedSound(s, i, d, h, k);
      cells[e] := cells[e].(hash := h);
      cells[i] := cells[i].(delta := if d > 0 then d else DELTA_EMPTY);
      slot, born := slot[h := e], born[e := |slot|];
      assert cells[..] == Extended(s.cells, i, d, h);
      assert Now() == Claimed(s, i, d, h);
      oldValue := cells[e].value;
      CellFacts(s, e);
      if oldValue == MOVED {
        return INSERT_HELP_MIGRATION, oldValue;
      }
      WithValueSound(Now(), e, v);
      Store(e, v);
      return INSERT_OK, oldValue;
    }

    /** Overwrites the value of a present hash, unless its cell was given up to a migration. */
    method Update(h: int, v: int, b: nat) returns (outcome: InsertOutcome, oldValue: int)
      requires Valid() && h in slot && slot[h] == b && v != NO_VALUE && v != MOVED
      modifies cells
      ensures Valid() && outcome == if old(EntryAt(Now(), b)) == MOVED then INSERT_HELP_MIGRATION else INSERT_OK
      ensures outcome == INSERT_HELP_MIGRATION ==> Now() == old(Now()) && !Settled(Now())
      ensures outcome == INSERT_OK ==>
                Now() == WithValue(old(Now()), b, v) && Contents() == old(Contents())[h := v]
                && oldValue == EntryOr(old(Contents()), h)
      ensures KeepsMoved(old(cells[..]), cells[..])
      ensures old(Settled(Now())) ==> Settled(Now())
    {
      hide Sound, Entries;
      ghost var s := Now();
      SlotFacts(s, h);
      oldValue := cells[b].value;
      if oldValue == MOVED {
        return INSERT_HELP_MIGRATION, oldValue;
      }
      WithValueSound(s, b, v);
      Store(b, v);
      return INSERT_OK, oldValue;
    }

    /** Inserts or updates; with a single thread the tail marker is always free and no CAS fails. */
    method InsertOrUpdate(h: int, v: int) returns (outcome: InsertOutcome, oldValue: int)
      requires Valid() && h != EMPTY_HASH && v != NO_VALUE && v != MOVED
      modifies this, cells
      ensures Valid()
      ensures outcome == INSERT_OVERFLOW <==> !old(Accepts(Now(), h))
      ensures outcome == INSERT_OVERFLOW ==> Now() == old(Now())
      ensures outcome == INSERT_OK ==> Now() == old(Inserted(Now(), h, v))
      ensures outcome == INSERT_OK ==>
                Contents() == old(Contents())[h := v] && oldValue == EntryOr(old(Contents()), h)
                && slot.Keys == old(slot).Keys + {h}
      ensures outcome == INSERT_HELP_MIGRATION <==>
                old(Accepts(Now(), h)) && old(Now().cells[Target(Now(), h)].value) == MOVED
      ensures outcome == INSERT_HELP_MIGRATION ==> Now() == old(Reserved(Now(), h))
      ensures outcome == INSERT_HELP_MIGRATION ==> Contents() == old(Contents()) && !old(Settled(Now()))
      ensures KeepsMoved(old(cells[..]), cells[..])
      ensures old(Settled(Now())) ==> Settled(Now())
      ensures old(Settled(Now()) && HomeFor(Now(), h)) ==> outcome == INSERT_OK && AllHome(Now())
    {
      hide Sound, Reaches, NoRoomBehind, Entries, Ends, TailOf, AtTail, HomeFor, AllHome, Settled, Accepts, Near;
      hide KeepsMoved, Inserted, Reserved, Target, Added, ReservedBehind, FreeBehind, GivenUpBehind;
      ghost var s := Now();
      SizeFacts(s);
      HomeWalk(s, h);
      var w, jumps := Walk(h);
      match w
      case FoundAt(b) =>
        AcceptedThere(s, h);
        outcome, oldValue := Update(h, v, b);
        StillHome(s, Now(), h);
      case TooFar =>
        KeptAll(s.cells);
        Refused(s, h);
        return INSERT_OVERFLOW, NO_VALUE;
      case Tail(i) =>
        TailHasNone(s, h, i, jumps);
        AcceptedBehind(s, h, i);
        outcome, oldValue := Extend(h, v, i, jumps);
        StillHome(s, Now(), h);
    }
  }
}
