/** A run in which an insertion gives up on a chain of six buckets with room and budget left: it has used up
    its rounds on waiting for the markers of others. */
module ChainWaits {
  import Runs
  import opened Chains
  import opened Options
  import opened HashTables
  import opened ChainProtocol
  import opened ChainOutcomes
  import opened ChainSolo
  import opened DeepUpdates

  ghost predicate Reachable(s: State) {
    exists run :: IsRun(run) && run[|run| - 1] == s
  }

  lemma Goes(s: State, a: Action, s': State)
    requires Reachable(s) && Enabled(s, a) && s' == Succ(s, a)
    ensures Reachable(s')
  {
    hide Enabled, Succ, Init;
    var run :| IsRun(run) && run[|run| - 1] == s;
    Runs.Longer(run, s', Init, Steps);
    assert IsRun(run + [s']);
  }

  lemma RunTo(s: State) returns (run: seq<State>)
    requires Reachable(s)
    ensures IsRun(run) && |run| > 0 && run[|run| - 1] == s
  {
    hide Enabled, Succ, Init, Steps;
    run :| IsRun(run) && run[|run| - 1] == s;
  }

  lemma {:induction false} AloneReachable(s: State, h: int, n: nat, s': State)
    requires Reachable(s) && Alone(s, h, n, s')
    ensures Reachable(s')
    decreases n
  {
    hide Reachable, Do, Enabled;
    if n > 0 {
      DoIsSucc(s, h);
      Goes(s, Advance(h), Do(s, h));
      AloneReachable(Do(s, h), h, n - 1, s');
    }
  }

  lemma DoIsSucc(s: State, h: int)
    requires Enabled(s, Advance(h))
    ensures Succ(s, Advance(h)) == Do(s, h)
  {
  }

  lemma LeadsReachable(s: State, h: int, s': State)
    requires Reachable(s) && Leads(s, h, s')
    ensures Reachable(s')
  {
    hide Reachable, Alone;
    var n: nat :| Alone(s, h, n, s');
    AloneReachable(s, h, n, s');
  }

  /** The insertion that waits. */
  const WAITER: int := 640

  /** The first n buckets hold the chain of 0, 32, 64, ...; the waiter alone is in flight. */
  ghost predicate Halted(s: State, n: nat, pc: Pc) {
    && Reachable(s) && Table(s) == Row(n, NO_VALUE) && s.owner == map[] && s.readers == map[]
    && s.inflight == map[WAITER := pc]
  }

  lemma RunFacts(s: State)
    requires Reachable(s)
    ensures Explained(s) && Plain(s)
  {
    hide Init, Steps, Explained, Plain;
    var run :| IsRun(run) && run[|run| - 1] == s;
    RunExplained(run, |run| - 1);
    RunPlain(run, |run| - 1);
  }

  lemma HaltedIsSound(s: State, n: nat, pc: Pc)
    requires Halted(s, n, pc)
    ensures Sound(Row(n, NO_VALUE)) && Unmarked(s)
  {
    RunFacts(s);
    assert Unmarked(s);
    hide Reachable, Explained, Plain, Inv, Row, Unmarked;
    UnmarkedIsSound(s);
  }

  // ---- The first bucket, and the waiter ---------------------------------------------------------

  const START := State(seq(32, _ => FRESH_CELL), 24, map[], map[], map[], seq(32, _ => 0), map[], map[], {})

  lemma Starts()
    ensures Reachable(START) && Table(START) == Row(0, NO_VALUE) && START.owner == map[]
  {
    assert Budget(32) == 24 && Init(START);
    assert IsRun([START]);
    EmptyRow(Table(START));
  }

  lemma FirstGoesIn() returns (s: State)
    ensures Reachable(s) && Table(s) == Row(1, NO_VALUE) && s.owner == map[] && s.readers == map[] && s.inflight == map[]
  {
    Starts();
    RunFacts(START);
    hide Inv, Reachable, Leads, Sound, Row, Accepts, Reserved, Plain;
    UnmarkedIsSound(START);
    RowNext(0, NO_VALUE);
    s := AloneFrom(START, 0);
    Goes(START, Begin(0), Succ(START, Begin(0)));
    LeadsReachable(Succ(START, Begin(0)), 0, s);
  }

  lemma WaiterComes() returns (s: State)
    ensures Halted(s, 1, Look(0, 1))
  {
    var t := FirstGoesIn();
    hide Reachable;
    assert |t.cells| == |t.born| == 32 by { assert Table(t) == Row(1, NO_VALUE); }
    s := Succ(t, Begin(WAITER));
    Goes(t, Begin(WAITER), s);
    assert Home(WAITER, 32) == 0;
  }

  // ---- One round --------------------------------------------------------------------------------

  /** The next insertion walks along the row to its tail and takes the marker there. */
  lemma {:induction false} WalksTo(t: State, g: int, b: nat, r: nat, w: map<int, Walked>) returns (w': map<int, Walked>)
    requires b <= r < 8 && t.cells == RowCells(r + 1, NO_VALUE) && |t.born| == 32 && g > 32 * r
    ensures Leads(Walking(t, g, Look(b, b + 1), w), g, Marked(t.(walked := w'), g, r, Scan(r, r + 1, 0)))
    decreases r - b
  {
    var look, read := Walking(t, g, Look(b, b + 1), w), Walking(t, g, ReadDelta(b, b + 1), w);
    assert t.cells[b] == RowCell(r + 1, b, NO_VALUE);
    assert Do(look, g) == read by { assert look.inflight[g := ReadDelta(b, b + 1)] == read.inflight; }
    if b < r {
      var w1 := WalkedOn(read, g);
      assert Do(read, g) == Walking(t, g, Look(b + 1, b + 2), w1) by {
        assert read.inflight[g := Look(b + 1, b + 2)] == t.inflight[g := Look(b + 1, b + 2)];
      }
      w' := WalksTo(t, g, b + 1, r, w1);
    } else {
      w' := w;
      TakesMarker(t, g, r, w);
    }
    hide Leads, Do;
    LeadsOn(read, g, Marked(t.(walked := w'), g, r, Scan(r, r + 1, 0)));
    LeadsOn(look, g, Marked(t.(walked := w'), g, r, Scan(r, r + 1, 0)));
  }

  lemma TakesMarker(t: State, g: int, r: nat, w: map<int, Walked>)
    requires r < 8 && t.cells == RowCells(r + 1, NO_VALUE) && |t.born| == 32
    ensures var read := Walking(t, g, ReadDelta(r, r + 1), w);
            Enabled(read, Advance(g)) && Leads(Do(read, g), g, Marked(t.(walked := w), g, r, Scan(r, r + 1, 0)))
  {
    var read, mark := Walking(t, g, ReadDelta(r, r + 1), w), Walking(t, g, TryMark(r, r + 1), w);
    var marked := Marked(t.(walked := w), g, r, Scan(r, r + 1, 0));
    assert t.cells[r] == RowCell(r + 1, r, NO_VALUE);
    assert Do(read, g) == mark by { assert read.inflight[g := TryMark(r, r + 1)] == mark.inflight; }
    assert Do(mark, g) == marked by { assert mark.inflight[g := Scan(r, r + 1, 0)] == marked.inflight; }
    hide Leads, Do;
    LeadsNowhere(marked, g);
    LeadsOn(mark, g, marked);
  }

  /** The waiter looks at the tail while the marker is there. */
  lemma MeetsMarker(m: State, r: nat, j: nat)
    requires Reachable(m) && r < |m.cells| == |m.born| && |m.cells| >= SIZE_MIN && m.cells[r].delta == DELTA_EXTEND
    requires m.cells[r].hash != WAITER && WAITER in m.inflight && m.inflight[WAITER] == Look(r, j)
    ensures Reachable(m.(inflight := m.inflight[WAITER := Wait(r, j)]))
  {
    hide Reachable;
    var read := m.(inflight := m.inflight[WAITER := ReadDelta(r, j)]);
    Goes(m, Advance(WAITER), read);
    var mark := m.(inflight := m.inflight[WAITER := TryMark(r, j)]);
    assert read.inflight[WAITER := TryMark(r, j)] == mark.inflight;
    Goes(read, Advance(WAITER), mark);
    assert mark.inflight[WAITER := Wait(r, j)] == m.inflight[WAITER := Wait(r, j)];
    Goes(mark, Advance(WAITER), m.(inflight := m.inflight[WAITER := Wait(r, j)]));
  }

  /** While it waits the other one finishes: the chain is one bucket longer. */
  lemma OtherFinishes(u: State, g: int, r: nat, j: nat) returns (s: State)
    requires r < 8 && Table(u) == Row(r + 1, NO_VALUE) && Sound(Table(u)) && g == 32 * (r + 1)
    requires u.owner == map[] && u.readers == map[] && u.inflight.Keys == {WAITER, g}
    requires u.inflight[WAITER] == Wait(r, j) && g != WAITER
    requires Reachable(Marked(u, g, r, Scan(r, r + 1, 0)))
    ensures Halted(s, r + 2, Wait(r, j))
  {
    AtRowsTail(u, g, r);
    RowNext(r + 1, NO_VALUE);
    OneLeft(u.inflight, g, Wait(r, j));
    hide Reachable, Leads, Sound, Row, Accepts, Reserved, AtItsTail, NearerTaken, Marked;
    SoloScan(u, g, r, r + 1, 0);
    s :| Leads(Marked(u, g, r, Scan(r, r + 1, 0)), g, s) && Finished(u, s, g);
    LeadsReachable(Marked(u, g, r, Scan(r, r + 1, 0)), g, s);
  }

  lemma OneLeft(inflight: map<int, Pc>, g: int, pc: Pc)
    requires inflight.Keys == {WAITER, g} && g != WAITER && inflight[WAITER] == pc
    ensures inflight - {g} == map[WAITER := pc]
  {
  }

  lemma AtRowsTail(u: State, g: int, r: nat)
    requires r < 8 && Table(u) == Row(r + 1, NO_VALUE) && Sound(Table(u)) && g == 32 * (r + 1)
    requires u.owner == map[] && g in u.inflight
    ensures r < |u.cells| && |u.cells| >= SIZE_MIN && AtItsTail(u, g, r) && NearerTaken(u.cells, r, 0)
  {
    RowShape(r + 1, NO_VALUE);
    hide Ends, TailOf, Sound;
    assert u.cells[r] == RowCell(r + 1, r, NO_VALUE);
  }

  lemma Round(s: State, r: nat) returns (s': State)
    requires r <= 4 && Halted(s, r + 1, Look(r, 1 + 2 * r))
    ensures Halted(s', r + 2, Wait(r, 1 + 2 * r))
  {
    hide Halted, Both, Reachable, Row, Sound;
    HaltedIsSound(s, r + 1, Look(r, 1 + 2 * r));
    var b := OtherComes(s, r, 1 + 2 * r, 32 * (r + 1));
    s' := RoundOf(b, r, 1 + 2 * r, 32 * (r + 1));
  }

  lemma RoundOf(b: State, r: nat, j: nat, g: int) returns (s': State)
    requires r <= 4 && g == 32 * (r + 1) && Both(b, r, j, g) && b.inflight[g] == Look(0, 1) && Reachable(b)
    requires Sound(Row(r + 1, NO_VALUE))
    ensures Halted(s', r + 2, Wait(r, j))
  {
    hide Reachable, Sound, Halted, Row;
    var t := OtherMarks(b, r, j, g);
    var m := Marked(t, g, r, Scan(r, r + 1, 0));
    MarkedRow(t, g, r);
    hide Marked;
    MeetsMarker(m, r, j);
    MarkedSwap(t, g, r, Scan(r, r + 1, 0), WAITER, Wait(r, j));
    s' := OtherFinishes(t.(inflight := t.inflight[WAITER := Wait(r, j)]), g, r, j);
  }

  /** The waiter and another one are in flight, and the row is r + 1 buckets long. */
  ghost predicate Both(s: State, r: nat, j: nat, g: int) {
    && Table(s) == Row(r + 1, NO_VALUE) && s.owner == map[] && s.readers == map[]
    && g != WAITER && s.inflight.Keys == {WAITER, g} && s.inflight[WAITER] == Look(r, j)
  }

  lemma OtherComes(s: State, r: nat, j: nat, g: int) returns (b: State)
    requires r <= 4 && g == 32 * (r + 1) && Halted(s, r + 1, Look(r, j))
    ensures Both(b, r, j, g) && b.inflight[g] == Look(0, 1) && Reachable(b)
  {
    assert |s.cells| == |s.born| == 32 && Home(g, 32) == 0;
    b := Succ(s, Begin(g));
    hide Reachable, Row;
    Goes(s, Begin(g), b);
  }

  /** The other one takes the marker of the tail. */
  lemma OtherMarks(b: State, r: nat, j: nat, g: int) returns (t: State)
    requires r <= 4 && g == 32 * (r + 1) && Both(b, r, j, g) && b.inflight[g] == Look(0, 1) && Reachable(b)
    ensures Both(t, r, j, g) && r < |t.cells| && Reachable(Marked(t, g, r, Scan(r, r + 1, 0)))
  {
    assert b.cells == RowCells(r + 1, NO_VALUE) && |b.born| == 32;
    hide Reachable, Leads, Row, RowCells, Marked;
    var w := WalksTo(b, g, 0, r, b.walked);
    assert b.inflight[g := Look(0, 1)] == b.inflight;
    t := b.(walked := w);
    LeadsReachable(b, g, Marked(t, g, r, Scan(r, r + 1, 0)));
  }

  lemma MarkedRow(t: State, g: int, r: nat)
    requires r <= 4 && Table(t) == Row(r + 1, NO_VALUE) && WAITER in t.inflight && g != WAITER
    ensures |t.cells| == 32
    ensures var m := Marked(t, g, r, Scan(r, r + 1, 0));
            && |m.born| == |m.cells| == 32 && m.cells[r].hash == 32 * r && m.cells[r].delta == DELTA_EXTEND
            && WAITER in m.inflight && m.inflight[WAITER] == t.inflight[WAITER]
  {
    assert t.cells[r] == RowCell(r + 1, r, NO_VALUE);
  }

  lemma MarkedSwap(t: State, g: int, i: nat, pc: Pc, x: int, to: Pc)
    requires g != x && i < |t.cells|
    ensures var m := Marked(t, g, i, pc);
            m.(inflight := m.inflight[x := to]) == Marked(t.(inflight := t.inflight[x := to]), g, i, pc)
  {
    assert t.inflight[g := pc][x := to] == t.inflight[x := to][g := pc];
  }

  /** The waiter goes on over the new link: two rounds for one bucket. */
  lemma Follows(s: State, r: nat)
    returns (s': State)
    requires r <= 3 && Halted(s, r + 2, Wait(r, 1 + 2 * r))
    ensures Halted(s', r + 2, Look(r + 1, 3 + 2 * r))
  {
    assert s.cells[r] == RowCell(r + 2, r, NO_VALUE) && |s.cells| == |s.born| == 32;
    hide Reachable, Row, RowCells;
    var s1 := Do(s, WAITER);
    assert s1.inflight == map[WAITER := Look(r, 2 + 2 * r)];
    Goes(s, Advance(WAITER), s1);
    var s2 := Do(s1, WAITER);
    assert s2.inflight == map[WAITER := ReadDelta(r, 2 + 2 * r)];
    Goes(s1, Advance(WAITER), s2);
    s' := Do(s2, WAITER);
    assert s'.inflight == map[WAITER := Look(r + 1, 3 + 2 * r)];
    Goes(s2, Advance(WAITER), s');
  }

  lemma {:induction false} Rounds(r: nat) returns (s: State)
    requires r <= 4
    ensures Halted(s, r + 2, Wait(r, 1 + 2 * r))
  {
    hide Halted;
    if r == 0 {
      var t := WaiterComes();
      s := Round(t, 0);
    } else {
      var t := Rounds(r - 1);
      var u := Follows(t, r - 1);
      s := Round(u, r);
    }
  }

  /** It gives up at its fifth bucket: the chain has six, none of them with its hash, and the table would
      accept it. */
  lemma WaitsUseUpRounds() returns (run: seq<State>)
    ensures IsRun(run)
    ensures var s := run[|run| - 1];
            && s.inflight == map[WAITER := Wait(4, 9)] && Enabled(s, Advance(WAITER)) && After(s, WAITER) == None
            && |s.slot| == 6 && Sound(Table(s)) && WAITER !in s.slot && Accepts(Table(s), WAITER)
  {
    var s := Rounds(4);
    HaltedIsSound(s, 6, Wait(4, 9));
    AcceptedStill();
    RowSlotSize(6);
    hide Accepts, Sound, IsRun, Reachable;
    OutOfRounds(s);
    hide Enabled, After;
    run := RunTo(s);
  }

  lemma OutOfRounds(s: State)
    requires Table(s) == Row(6, NO_VALUE) && s.inflight == map[WAITER := Wait(4, 9)]
    ensures Enabled(s, Advance(WAITER)) && After(s, WAITER) == None
  {
    assert s.cells[4] == RowCell(6, 4, NO_VALUE) && |s.cells| == |s.born| == 32;
  }

  lemma AcceptedStill()
    requires Sound(Row(6, NO_VALUE))
    ensures WAITER !in RowSlot(6) && Accepts(Row(6, NO_VALUE), WAITER)
  {
    RowShape(6, NO_VALUE);
    assert Home(WAITER, 32) == 0;
    hide Sound, Row, RowCells;
    NewHash(Row(6, NO_VALUE), WAITER, 5, 1, NO_VALUE);
  }
}
