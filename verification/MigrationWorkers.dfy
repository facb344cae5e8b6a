/** The workers of one migration: who may enter, who migrates which chunk, who is the last to leave.
    Any number of workers, interleaved at single accesses of the shared counters. */
module MigrationWorkers {
  import Runs
  import opened Collections
  import opened Options

  /** Where a worker is. `s` is the source table it draws chunks from, `c` the chunk it moves. */
  datatype Pc =
    | Entering                  // saw the done flag clear, has not counted itself in yet
    | AtSource(s: nat)          // about to test the done flag
    | Fetching(s: nat)          // about to draw the next chunk
    | Working(s: nat, c: nat)   // inside migrateRange
    | Overflowing               // the destination was full; about to record it
    | Counting(s: nat)          // a chunk is finished; about to count it off
    | Flagging                  // about to set the done flag
    | Leaving                   // about to count itself out
    | Last                      // passed the last-worker test
    | Restarting                // has found the source tables after an overflow; about to lock the first
    | Faulted                   // has followed the null pointer that was left in place of it

  type Unit = (nat, nat)

  /** `state` of the source is 2 * inside + done; `cleared` says that the source tables were handed on to
      the next migration and their pointers set to null. From `log` on the fields are history: the chunks
      finished, being moved and given up, who is about to set the flag, how often the last-worker
      test was passed, how often a worker entered an empty, finished migration, and how many workers
      are through with what the last one does. */
  datatype Run = Run(
    chunks: seq<nat>, index: seq<nat>, remaining: int,
    inside: nat, done: bool, overflowed: bool, cleared: bool,
    workers: map<nat, Pc>,
    log: seq<Unit>, busy: map<Unit, nat>, lost: set<Unit>, flagger: Option<nat>,
    passes: nat, reentries: nat, ended: nat)

  datatype Action =
    | Test(w: nat)
    | Enter(w: nat)
    | Probe(w: nat)             // the done-flag test at the top of the loop
    | Fetch(w: nat)
    | Succeed(w: nat)           // migrateRange returns false
    | Fail(w: nat)              // migrateRange returns true
    | Record(w: nat)            // overflowed.store(true)
    | Count(w: nat)
    | Flag(w: nat)
    | Leave(w: nat)
    | Peek(w: nat)              // the last worker of an overflowed run reads its first source table
    | Conclude(w: nat)          // publishes the destination, or restarts unless that was done

  function SumTo(xs: seq<nat>, n: nat): nat
    requires n <= |xs|
  {
    if n == 0 then 0 else SumTo(xs, n - 1) + xs[n - 1]
  }

  function SumOf(xs: seq<nat>): nat { SumTo(xs, |xs|) }

  ghost predicate Init(r: Run) {
    && |r.index| == |r.chunks| && (forall s | 0 <= s < |r.index| :: r.index[s] == 0)
    && SumOf(r.chunks) > 0 && r.remaining == SumOf(r.chunks)
    && r.inside == 0 && !r.done && !r.overflowed && !r.cleared
    && r.workers == map[] && r.log == [] && r.busy == map[] && r.lost == {} && r.flagger == None
    && r.passes == 0 && r.reentries == 0 && r.ended == 0
  }

  predicate Enabled(r: Run, a: Action) {
    |r.index| == |r.chunks| &&
    match a
    case Test(w) => w !in r.workers
    case Enter(w) => w in r.workers && r.workers[w].Entering?
    case Probe(w) => w in r.workers && r.workers[w].AtSource? && r.workers[w].s <= |r.chunks|
    case Fetch(w) => w in r.workers && r.workers[w].Fetching? && r.workers[w].s < |r.chunks|
    case Succeed(w) => w in r.workers && r.workers[w].Working?
    case Fail(w) => w in r.workers && r.workers[w].Working?
    case Record(w) => w in r.workers && r.workers[w].Overflowing?
    case Count(w) => w in r.workers && r.workers[w].Counting?
    case Flag(w) => w in r.workers && r.workers[w].Flagging?
    case Leave(w) => w in r.workers && r.workers[w].Leaving? && r.inside > 0
    case Peek(w) => w in r.workers && r.workers[w].Last? && r.overflowed
    case Conclude(w) => w in r.workers && if r.overflowed then r.workers[w].Restarting? else r.workers[w].Last?
  }

  /** Where worker `a.w` stands after the action; None when it is gone. */
  function After(r: Run, a: Action): Option<Pc>
    requires Enabled(r, a)
  {
    match a
    case Test(w) => if r.done then None else Some(Entering)
    case Enter(w) => Some(AtSource(0))
    case Probe(w) =>
      var s := r.workers[w].s;
      Some(if s == |r.chunks| || r.done then Leaving else Fetching(s))
    case Fetch(w) =>
      var s := r.workers[w].s;
      var c := r.index[s];
      Some(if c >= r.chunks[s] then AtSource(s + 1) else Working(s, c))
    case Succeed(w) => Some(Counting(r.workers[w].s))
    case Fail(w) => Some(Overflowing)
    case Record(w) => Some(Flagging)
    case Count(w) => Some(if r.remaining == 1 then Flagging else AtSource(r.workers[w].s))
    case Flag(w) => Some(Leaving)
    case Leave(w) => if r.inside > 1 then None else Some(Last)
    case Peek(w) => Some(if r.cleared then Faulted else Restarting)
    case Conclude(w) => None
  }

  /** What the action does to the shared counters and the history. */
  function Effect(r: Run, a: Action): Run
    requires Enabled(r, a)
  {
    match a
    case Enter(w) =>
      r.(inside := r.inside + 1, reentries := r.reentries + if r.done && r.inside == 0 then 1 else 0)
    case Fetch(w) =>
      var s := r.workers[w].s;
      var c := r.index[s];
      var drawn := r.(index := r.index[s := c + 1]);
      if c >= r.chunks[s] then drawn else drawn.(busy := r.busy[(s, c) := w])
    case Succeed(w) =>
      var u := (r.workers[w].s, r.workers[w].c);
      r.(log := r.log + [u], busy := r.busy - {u})
    case Fail(w) =>
      var u := (r.workers[w].s, r.workers[w].c);
      r.(lost := r.lost + {u}, busy := r.busy - {u}, flagger := Some(w))
    case Record(w) => r.(overflowed := true)
    case Count(w) =>
      r.(remaining := r.remaining - 1, flagger := if r.remaining == 1 then Some(w) else r.flagger)
    case Flag(w) => r.(done := true)
    case Leave(w) => r.(inside := r.inside - 1, passes := r.passes + if r.inside > 1 then 0 else 1)
    case Conclude(w) => r.(ended := r.ended + 1, cleared := r.overflowed)
    case _ => r
  }

  function Moved(m: map<nat, Pc>, w: nat, to: Option<Pc>): map<nat, Pc> {
    if to.Some? then m[w := to.value] else m - {w}
  }

  function Next(r: Run, a: Action): Run
    requires Enabled(r, a)
  {
    Effect(r, a).(workers := Moved(r.workers, a.w, After(r, a)))
  }

  // ---- The invariant ------------------------------------------------------------------------

  predicate Past(pc: Pc) { pc.Last? || pc.Restarting? || pc.Faulted? }
  predicate Inside(pc: Pc) { !pc.Entering? && !Past(pc) }

  function Insiders(m: map<nat, Pc>): set<nat> { set w | w in m && Inside(m[w]) }
  function Lasts(m: map<nat, Pc>): set<nat> { set w | w in m && Past(m[w]) }
  function Counters(m: map<nat, Pc>): set<nat> { set w | w in m && m[w].Counting? }

  ghost predicate Counted(r: Run) {
    && r.inside == |Insiders(r.workers)|
    && r.remaining + |r.log| - |Counters(r.workers)| == SumOf(r.chunks)
  }

  predicate IsUnit(r: Run, u: Unit) { u.0 < |r.chunks| && u.1 < r.chunks[u.0] }

  /** Every chunk drawn so far is finished, being moved or given up, and only one of these. */
  ghost predicate Drawn(r: Run) {
    && |r.index| == |r.chunks|
    && (forall u: Unit | IsUnit(r, u) && u.1 < r.index[u.0] :: u in r.log || u in r.busy || u in r.lost)
    && (forall u | u in r.log || u in r.busy || u in r.lost :: IsUnit(r, u) && u.1 < r.index[u.0])
    && NoRepeats(r.log)
    && (forall u | u in r.busy :: u !in r.log && u !in r.lost)
    && (forall u | u in r.lost :: u !in r.log)
  }

  /** A chunk being moved is moved by one worker. */
  ghost predicate Assigned(r: Run) {
    && (forall w | w in r.workers && r.workers[w].Working? ::
          (r.workers[w].s, r.workers[w].c) in r.busy && r.busy[(r.workers[w].s, r.workers[w].c)] == w)
    && (forall u | u in r.busy :: r.busy[u] in r.workers && r.workers[r.busy[u]] == Working(u.0, u.1))
  }

  predicate ExhaustedTo(r: Run, s: nat) {
    s <= |r.chunks| == |r.index| && forall j | 0 <= j < s :: r.index[j] >= r.chunks[j]
  }

  /** A worker moves on only past exhausted sources, and stops only at the end or for the flag. */
  ghost predicate PcOk(r: Run, pc: Pc) {
    match pc
    case AtSource(s) => ExhaustedTo(r, s)
    case Fetching(s) => s < |r.chunks| && ExhaustedTo(r, s)
    case Counting(s) => s < |r.chunks| && ExhaustedTo(r, s)
    case Working(s, c) => s < |r.chunks| && ExhaustedTo(r, s)
    case Leaving => r.done || ExhaustedTo(r, |r.chunks|)
    case _ => true
  }

  ghost predicate Progress(r: Run) {
    forall w | w in r.workers :: PcOk(r, r.workers[w])
  }

  ghost predicate Flags(r: Run) {
    && ((r.remaining <= 0 || r.lost != {}) && !r.done ==>
          r.flagger.Some? && r.flagger.value in r.workers
          && (r.workers[r.flagger.value].Overflowing? || r.workers[r.flagger.value].Flagging?))
    && (r.done ==> r.remaining <= 0 || r.lost != {})
    && (r.overflowed ==> r.lost != {})
    && (forall w | w in r.workers && r.workers[w].Flagging? :: r.remaining <= 0 || r.overflowed)
    && (forall w | w in r.workers && r.workers[w].Overflowing? :: r.lost != {})
    && (r.done && !r.overflowed ==> r.remaining <= 0)
  }

  ghost predicate Published(r: Run) {
    && (!r.done ==> r.passes == 0 && r.reentries == 0 && (forall w | w in r.workers :: !r.workers[w].Last?))
    && (r.done ==> r.passes + (if r.inside > 0 then 1 else 0) == 1 + r.reentries)
  }

  /** Whoever has passed the last-worker test is past it still or through. */
  ghost predicate Tallied(r: Run) {
    r.passes == |Lasts(r.workers)| + r.ended && (r.cleared <==> r.overflowed && r.ended > 0)
  }

  /** Once somebody has passed it no worker gets further than the done flag. */
  predicate LateOk(r: Run, pc: Pc) {
    && (pc.Faulted? ==> r.cleared)
    && (pc.Restarting? ==> r.overflowed)
    && (r.passes > 0 && Inside(pc) ==> pc.AtSource? || pc.Leaving?)
  }

  ghost predicate Concluded(r: Run) {
    Tallied(r) && forall w | w in r.workers :: LateOk(r, r.workers[w])
  }

  ghost predicate Inv(r: Run) {
    Counted(r) && Drawn(r) && Assigned(r) && Progress(r) && Flags(r) && Published(r) && Concluded(r)
  }

  // ---- Chunks are finitely many ---------------------------------------------------------------

  function UnitsTo(chunks: seq<nat>, n: nat): set<Unit>
    requires n <= |chunks|
  {
    set s: nat, c: nat | s < n && c < chunks[s] :: (s, c)
  }

  function Row(s: nat, k: nat): set<Unit> {
    set c: nat | c < k :: (s, c)
  }

  lemma {:induction false} RowCard(s: nat, k: nat)
    ensures |Row(s, k)| == k
  {
    if k == 0 {
      assert Row(s, k) == {};
    } else {
      RowCard(s, k - 1);
      assert Row(s, k) == Row(s, k - 1) + {(s, k - 1)};
    }
  }

  lemma {:induction false} UnitsCard(chunks: seq<nat>, n: nat)
    requires n <= |chunks|
    ensures |UnitsTo(chunks, n)| == SumTo(chunks, n)
  {
    if n == 0 {
      assert UnitsTo(chunks, 0) == {};
    } else {
      UnitsCard(chunks, n - 1);
      RowCard(n - 1, chunks[n - 1]);
      var row := Row(n - 1, chunks[n - 1]);
      assert UnitsTo(chunks, n) == UnitsTo(chunks, n - 1) + row;
      assert UnitsTo(chunks, n - 1) !! row;
    }
  }

  function Elements(xs: seq<Unit>): set<Unit> { set u | u in xs }

  lemma {:induction false} DistinctCard(xs: seq<Unit>)
    requires NoRepeats(xs)
    ensures |Elements(xs)| == |xs|
  {
    if xs == [] {
      assert Elements(xs) == {};
    } else {
      var n := |xs| - 1;
      var front := xs[..n];
      DistinctCard(front);
      assert xs == front + [xs[n]];
      assert Elements(xs) == Elements(front) + {xs[n]};
      assert xs[n] !in Elements(front);
    }
  }

  lemma SubsetCard(a: set<Unit>, b: set<Unit>)
    requires a <= b
    ensures |a| <= |b| && (|a| == |b| ==> a == b)
  {
    assert b == a + (b - a);
  }

  /** No more chunks are finished than there are; with as many, all are. */
  lemma LogFits(r: Run)
    requires Drawn(r)
    ensures |r.log| <= SumOf(r.chunks)
    ensures |r.log| == SumOf(r.chunks) ==> forall u: Unit | IsUnit(r, u) :: u in r.log
    ensures (forall u: Unit | IsUnit(r, u) :: u in r.log) ==> |r.log| == SumOf(r.chunks)
  {
    var all := UnitsTo(r.chunks, |r.chunks|);
    UnitsCard(r.chunks, |r.chunks|);
    DistinctCard(r.log);
    forall u | u in Elements(r.log)
      ensures u in all
    {
      assert IsUnit(r, u);
    }
    SubsetCard(Elements(r.log), all);
    if forall u: Unit | IsUnit(r, u) :: u in r.log {
      forall u | u in all
        ensures u in Elements(r.log)
      {
        assert IsUnit(r, u);
      }
      SubsetCard(all, Elements(r.log));
    }
    assert forall u: Unit | IsUnit(r, u) :: u in all;
  }

  // ---- Every step keeps the invariant ---------------------------------------------------------

  lemma CountsMove(m: map<nat, Pc>, w: nat, to: Option<Pc>)
    ensures |Insiders(Moved(m, w, to))| ==
            |Insiders(m)| - (if w in m && Inside(m[w]) then 1 else 0) + (if to.Some? && Inside(to.value) then 1 else 0)
    ensures |Counters(Moved(m, w, to))| ==
            |Counters(m)| - (if w in m && m[w].Counting? then 1 else 0) + (if to.Some? && to.value.Counting? then 1 else 0)
  {
    CardMove(Insiders(m), Insiders(Moved(m, w, to)), w);
    CardMove(Counters(m), Counters(Moved(m, w, to)), w);
  }

  lemma LastsMove(m: map<nat, Pc>, w: nat, to: Option<Pc>)
    ensures |Lasts(Moved(m, w, to))| ==
            |Lasts(m)| - (if w in m && Past(m[w]) then 1 else 0) + (if to.Some? && Past(to.value) then 1 else 0)
  {
    CardMove(Lasts(m), Lasts(Moved(m, w, to)), w);
  }

  lemma CountedKeeps(r: Run, a: Action)
    requires Counted(r) && Enabled(r, a)
    ensures Counted(Next(r, a))
  {
    hide Insiders, Counters, Lasts, Moved, SumOf;
    CountsMove(r.workers, a.w, After(r, a));
  }

  lemma DrawnKeeps(r: Run, a: Action)
    requires Drawn(r) && Assigned(r) && Enabled(r, a)
    ensures Drawn(Next(r, a))
  {
    hide Drawn, Assigned, Moved;
    match a
    case Fetch(w) => FetchDrawn(r, w);
    case Succeed(w) => EndDrawn(r, a);
    case Fail(w) => EndDrawn(r, a);
    case _ => DrawnApart(r, Next(r, a));
  }

  lemma FetchDrawn(r: Run, w: nat)
    requires Drawn(r) && Enabled(r, Fetch(w))
    ensures Drawn(Next(r, Fetch(w)))
  {
    hide Drawn, Moved;
    var s := r.workers[w].s;
    DrawOne(r, s, r.index[s], w);
    DrawnApart(Effect(r, Fetch(w)), Next(r, Fetch(w)));
  }

  lemma EndDrawn(r: Run, a: Action)
    requires Drawn(r) && Assigned(r) && Enabled(r, a) && (a.Succeed? || a.Fail?)
    ensures Drawn(Next(r, a))
  {
    BusyWorker(r, a.w);
    hide Drawn, Assigned, Moved;
    var u := (r.workers[a.w].s, r.workers[a.w].c);
    EndOne(r, u);
    if a.Succeed? {
      DrawnApart(r.(log := r.log + [u], busy := r.busy - {u}), Next(r, a));
    } else {
      DrawnApart(r.(lost := r.lost + {u}, busy := r.busy - {u}), Next(r, a));
    }
  }

  lemma BusyWorker(r: Run, w: nat)
    requires Assigned(r)
    ensures w in r.workers && r.workers[w].Working? ==> (r.workers[w].s, r.workers[w].c) in r.busy
  {
  }

  lemma DrawnApart(r: Run, r': Run)
    requires r'.chunks == r.chunks && r'.index == r.index && r'.log == r.log && r'.busy == r.busy && r'.lost == r.lost
    ensures Drawn(r) ==> Drawn(r')
  {
  }

  lemma DrawOne(r: Run, s: nat, c: nat, w: nat)
    requires Drawn(r) && s < |r.chunks| && c == r.index[s]
    ensures var d := r.(index := r.index[s := c + 1]);
            (c >= r.chunks[s] ==> Drawn(d)) && (c < r.chunks[s] ==> Drawn(d.(busy := r.busy[(s, c) := w])))
  {
    var d := r.(index := r.index[s := c + 1]);
    assert forall u: Unit | IsUnit(r, u) && u.1 < d.index[u.0] :: u.1 < r.index[u.0] || u == (s, c);
  }

  lemma EndOne(r: Run, u: Unit)
    requires Drawn(r) && u in r.busy
    ensures Drawn(r.(log := r.log + [u], busy := r.busy - {u}))
    ensures Drawn(r.(lost := r.lost + {u}, busy := r.busy - {u}))
  {
    var log := r.log + [u];
    assert forall v :: v in log <==> v in r.log || v == u;
    assert forall i | 0 <= i < |r.log| :: log[i] == r.log[i] && r.log[i] != u;
  }

  lemma AssignedKeeps(r: Run, a: Action)
    requires Drawn(r) && Assigned(r) && Enabled(r, a)
    ensures Assigned(Next(r, a))
  {
    hide Drawn, Assigned;
    match a
    case Fetch(w) => FetchAssigned(r, w);
    case Succeed(w) => EndAssigned(r, a);
    case Fail(w) => EndAssigned(r, a);
    case _ => AssignedApart(r, Next(r, a), a.w, After(r, a));
  }

  lemma DrawnIsNew(r: Run, s: nat)
    requires Drawn(r) && s < |r.chunks|
    ensures (s, r.index[s]) !in r.busy
  {
  }

  lemma FetchAssigned(r: Run, w: nat)
    requires Drawn(r) && Assigned(r) && Enabled(r, Fetch(w))
    ensures Assigned(Next(r, Fetch(w)))
  {
    DrawnIsNew(r, r.workers[w].s);
    hide Drawn, Assigned;
    var s := r.workers[w].s;
    if r.index[s] >= r.chunks[s] {
      AssignedApart(r, Next(r, Fetch(w)), w, After(r, Fetch(w)));
    } else {
      Given(r, Next(r, Fetch(w)), w, (s, r.index[s]));
    }
  }

  lemma Given(r: Run, r': Run, w: nat, u: Unit)
    requires Assigned(r) && u !in r.busy && w in r.workers && !r.workers[w].Working?
    requires r'.busy == r.busy[u := w] && r'.workers == r.workers[w := Working(u.0, u.1)]
    ensures Assigned(r')
  {
  }

  lemma EndAssigned(r: Run, a: Action)
    requires Assigned(r) && Enabled(r, a) && (a.Succeed? || a.Fail?)
    ensures Assigned(Next(r, a))
  {
    hide Assigned;
    Released(r, Next(r, a), a.w);
  }

  lemma Released(r: Run, r': Run, w: nat)
    requires Assigned(r) && w in r.workers && r.workers[w].Working?
    requires r'.busy == r.busy - {(r.workers[w].s, r.workers[w].c)}
    requires w in r'.workers && r'.workers == r.workers[w := r'.workers[w]] && !r'.workers[w].Working?
    ensures Assigned(r')
  {
  }

  lemma AssignedApart(r: Run, r': Run, w: nat, to: Option<Pc>)
    requires Assigned(r) && r'.workers == Moved(r.workers, w, to) && r'.busy == r.busy
    requires w in r.workers ==> !r.workers[w].Working?
    requires to.Some? ==> !to.value.Working?
    ensures Assigned(r')
  {
  }

  lemma ProgressKeeps(r: Run, a: Action)
    requires Progress(r) && Enabled(r, a)
    ensures Progress(Next(r, a))
  {
    var r' := Next(r, a);
    assert forall s | ExhaustedTo(r, s) :: ExhaustedTo(r', s);
    forall w | w in r'.workers
      ensures PcOk(r', r'.workers[w])
    {
      if w == a.w {
        ActorProgress(r, a);
      } else {
        assert PcOk(r, r.workers[w]);
      }
    }
  }

  lemma ActorProgress(r: Run, a: Action)
    requires Progress(r) && Enabled(r, a) && After(r, a).Some?
    ensures PcOk(Next(r, a), After(r, a).value)
  {
    ActorOk(r, a.w);
    hide Progress, Moved;
    assert a.Fetch? ==> forall s | ExhaustedTo(r, s) :: ExhaustedTo(Effect(r, a), s);
  }

  lemma ActorOk(r: Run, w: nat)
    requires Progress(r)
    ensures w in r.workers ==> PcOk(r, r.workers[w])
  {
  }

  lemma FlagsKeeps(r: Run, a: Action)
    requires Inv(r) && Enabled(r, a)
    ensures Flags(Next(r, a))
  {
    hide Drawn, Assigned, Progress, Published, Concluded, Counters, Insiders, SumOf, Moved;
    match a
    case Count(w) => CountFlags(r, w);
    case Fail(w) => FailFlags(r, w);
    case Flag(w) => FlagFlags(r, w);
    case Record(w) => RecordFlags(r, w);
    case _ => FlagsApart(r, Next(r, a), a.w, After(r, a));
  }

  lemma CountFlags(r: Run, w: nat)
    requires Flags(r) && Drawn(r) && Counted(r) && Enabled(r, Count(w))
    ensures Flags(Next(r, Count(w)))
  {
    hide Drawn, SumOf;
    LogFits(r);
    CounterIsOne(r);
  }

  lemma FailFlags(r: Run, w: nat)
    requires Flags(r) && Enabled(r, Fail(w))
    ensures Flags(Next(r, Fail(w)))
  {
  }

  lemma FlagFlags(r: Run, w: nat)
    requires Flags(r) && Enabled(r, Flag(w))
    ensures Flags(Next(r, Flag(w)))
  {
  }

  lemma RecordFlags(r: Run, w: nat)
    requires Flags(r) && Enabled(r, Record(w))
    ensures Flags(Next(r, Record(w)))
  {
  }

  lemma CounterIsOne(r: Run)
    ensures forall w | w in r.workers && r.workers[w].Counting? :: |Counters(r.workers)| >= 1
  {
    forall w | w in r.workers && r.workers[w].Counting?
      ensures |Counters(r.workers)| >= 1
    {
      assert Counters(r.workers) == (Counters(r.workers) - {w}) + {w};
    }
  }

  lemma FlagsApart(r: Run, r': Run, w: nat, to: Option<Pc>)
    requires Flags(r) && r'.workers == Moved(r.workers, w, to)
    requires w in r.workers ==> !r.workers[w].Overflowing? && !r.workers[w].Flagging?
    requires to.Some? ==> !to.value.Overflowing? && !to.value.Flagging?
    requires r'.remaining == r.remaining && r'.lost == r.lost && r'.done == r.done
    requires r'.overflowed == r.overflowed && r'.flagger == r.flagger
    ensures Flags(r')
  {
  }

  /** A worker that passes the last-worker test finds the done flag set. */
  lemma LastFindsDone(r: Run, w: nat)
    requires Inv(r) && Enabled(r, Leave(w)) && r.inside == 1
    ensures r.done
  {
    OnlyInsider(r, w);
    LogFits(r);
  }

  lemma OnlyInsider(r: Run, w: nat)
    requires Counted(r) && w in r.workers && Inside(r.workers[w]) && r.inside == 1
    ensures forall v | v in r.workers && Inside(r.workers[v]) :: v == w
  {
    var others := Insiders(r.workers) - {w};
    assert Insiders(r.workers) == others + {w};
    assert |others| == 0;
    assert forall v | v in r.workers && Inside(r.workers[v]) && v != w :: v in others;
  }

  lemma PublishedKeeps(r: Run, a: Action)
    requires Inv(r) && Enabled(r, a)
    ensures Published(Next(r, a))
  {
    hide Drawn, Assigned, Progress, Flags, Concluded, Insiders, SumOf;
    if a.Leave? && r.inside == 1 {
      LastFindsDone(r, a.w);
    }
    if a.Flag? {
      InsiderCounts(r, a.w);
    }
  }

  lemma InsiderCounts(r: Run, w: nat)
    requires Counted(r) && w in r.workers && Inside(r.workers[w])
    ensures r.inside >= 1
  {
    assert Insiders(r.workers) == (Insiders(r.workers) - {w}) + {w};
  }

  lemma ConcludedKeeps(r: Run, a: Action)
    requires Inv(r) && Enabled(r, a)
    ensures Concluded(Next(r, a))
  {
    LastLeaves(r, a);
    assert Published(r) && Concluded(r);
    hide Inv, Moved;
    TalliedKeeps(r, a);
    LatesKeep(r, a);
  }

  lemma LatesKeep(r: Run, a: Action)
    requires Enabled(r, a) && Published(r) && Concluded(r)
    requires a.Leave? && r.inside == 1 ==> r.done && forall v | v in r.workers && v != a.w :: !Inside(r.workers[v])
    ensures forall w | w in Next(r, a).workers :: LateOk(Next(r, a), Next(r, a).workers[w])
  {
    assert Tallied(r) && forall w | w in r.workers :: LateOk(r, r.workers[w]);
    assert a.w in r.workers ==> LateOk(r, r.workers[a.w]);
    hide Enabled, After, Effect, LateOk, Published, Tallied, Moved, Inside;
    if After(r, a).Some? {
      ActorLate(r, a);
    }
    forall w | w in r.workers && w != a.w
      ensures LateOk(Effect(r, a), r.workers[w])
    {
      OtherLate(r, a, r.workers[w]);
    }
    MovedLate(Effect(r, a), Next(r, a), a.w, After(r, a));
  }

  lemma LastLeaves(r: Run, a: Action)
    requires Inv(r) && Enabled(r, a)
    ensures a.Leave? && r.inside == 1 ==>
              r.done && forall v | v in r.workers && v != a.w :: !Inside(r.workers[v])
  {
    if a.Leave? && r.inside == 1 {
      LastFindsDone(r, a.w);
      OnlyInsider(r, a.w);
    }
  }

  lemma TalliedKeeps(r: Run, a: Action)
    requires Tallied(r) && Enabled(r, a) && (a.w in r.workers ==> LateOk(r, r.workers[a.w]))
    ensures Tallied(Next(r, a))
  {
    hide Lasts, Moved;
    LastsMove(r.workers, a.w, After(r, a));
  }

  lemma ActorLate(r: Run, a: Action)
    requires Enabled(r, a) && Tallied(r) && Published(r) && After(r, a).Some?
    requires a.w in r.workers ==> LateOk(r, r.workers[a.w])
    requires a.Leave? && r.inside == 1 ==> r.done
    ensures LateOk(Effect(r, a), After(r, a).value)
  {
    hide Lasts;
  }

  lemma OtherLate(r: Run, a: Action, pc: Pc)
    requires Enabled(r, a) && Tallied(r) && LateOk(r, pc)
    requires a.Leave? && r.inside == 1 ==> !Inside(pc)
    ensures LateOk(Effect(r, a), pc)
  {
    hide Lasts;
  }

  lemma PastIsCounted(r: Run, w: nat)
    requires Tallied(r) && w in r.workers && Past(r.workers[w])
    ensures r.passes > r.ended
  {
    assert Lasts(r.workers) == (Lasts(r.workers) - {w}) + {w};
  }

  lemma MovedLate(r: Run, r': Run, w: nat, to: Option<Pc>)
    requires r'.workers == Moved(r.workers, w, to)
    requires r'.passes == r.passes && r'.cleared == r.cleared && r'.overflowed == r.overflowed
    requires to.Some? ==> LateOk(r, to.value)
    requires forall v | v in r.workers && v != w :: LateOk(r, r.workers[v])
    ensures forall v | v in r'.workers :: LateOk(r', r'.workers[v])
  {
  }

  lemma StepKeeps(r: Run, a: Action)
    requires Inv(r) && Enabled(r, a)
    ensures Inv(Next(r, a))
  {
    hide Counted, Drawn, Assigned, Progress, Flags, Published, Concluded, Next, Enabled;
    CountedKeeps(r, a);
    DrawnKeeps(r, a);
    AssignedKeeps(r, a);
    ProgressKeeps(r, a);
    FlagsKeeps(r, a);
    PublishedKeeps(r, a);
    ConcludedKeeps(r, a);
  }

  lemma InitInv(r: Run)
    requires Init(r)
    ensures Inv(r)
  {
    assert Insiders(r.workers) == {} && Counters(r.workers) == {} && Lasts(r.workers) == {};
  }

  // ---- Runs ---------------------------------------------------------------------------------

  ghost predicate Steps(r: Run, r': Run) {
    exists a :: Enabled(r, a) && r' == Next(r, a)
  }

  ghost predicate IsRun(run: seq<Run>) { Runs.IsRun(run, Init, Steps) }

  lemma RunKeeps(run: seq<Run>, k: nat)
    requires IsRun(run) && k < |run|
    ensures Inv(run[k])
  {
    hide Inv, Enabled, Next, Init;
    forall r | Init(r)
      ensures Inv(r)
    {
      InitInv(r);
    }
    forall r, r' | Inv(r) && Steps(r, r')
      ensures Inv(r')
    {
      var a :| Enabled(r, a) && r' == Next(r, a);
      StepKeeps(r, a);
    }
    Runs.Keeps(run, k, Init, Steps, Inv);
  }

  /** A worker that passes the last-worker test finds the done flag set and nobody in migrateRange;
      and unless a chunk overflowed, every chunk of every source has been migrated exactly once. */
  lemma LastWorkerSeesAll(run: seq<Run>, k: nat, w: nat)
    requires IsRun(run) && k < |run| && w in run[k].workers && run[k].workers[w].Leaving? && run[k].inside == 1
    ensures run[k].done && (forall v | v in run[k].workers :: !run[k].workers[v].Working?)
    ensures !run[k].overflowed ==>
              forall u: Unit | IsUnit(run[k], u) :: multiset(run[k].log)[u] == 1
  {
    RunKeeps(run, k);
    var r := run[k];
    LastFindsDone(r, w);
    OnlyInsider(r, w);
    LogFits(r);
    forall u: Unit | IsUnit(r, u) && u in r.log
      ensures multiset(r.log)[u] == 1
    {
      OnceAtMost(r.log, u);
    }
  }

  /** Exactly how often the last-worker test is passed: once, and once more for every worker that
      entered after the flag was set and found nobody inside. */
  lemma PassesCounted(run: seq<Run>, k: nat)
    requires IsRun(run) && k < |run| && run[k].done && run[k].inside == 0
    ensures run[k].passes == 1 + run[k].reentries
  {
    RunKeeps(run, k);
  }

  /** No worker is counted in after the done flag was set. */
  ghost predicate NoLateEntry(run: seq<Run>) {
    forall j, k | 0 <= j < k < |run| && k == j + 1 && run[j].done :: run[k].inside <= run[j].inside
  }

  lemma {:induction false} NoReentries(run: seq<Run>, k: nat)
    requires IsRun(run) && NoLateEntry(run) && k < |run|
    ensures run[k].reentries == 0
  {
    hide Enabled, Init, Next;
    if k > 0 {
      NoReentries(run, k - 1);
      assert Runs.StepsAt(run, Steps, k);
      var a :| Enabled(run[k - 1], a) && run[k] == Next(run[k - 1], a);
      OnlyEntryReenters(run[k - 1], a);
    } else {
      StartsFresh(run[0]);
    }
  }

  lemma StartsFresh(r: Run)
    requires Init(r)
    ensures r.reentries == 0
  {
  }

  lemma OnlyEntryReenters(r: Run, a: Action)
    requires Enabled(r, a)
    ensures Next(r, a).reentries == r.reentries || (r.done && Next(r, a).inside > r.inside)
  {
  }

  /** If no worker enters after the flag is set, at most one ever passes the test, and exactly one
      once all have left. */
  lemma PublishedOnce(run: seq<Run>, k: nat)
    requires IsRun(run) && NoLateEntry(run) && k < |run|
    ensures run[k].passes <= 1
    ensures run[k].done && run[k].inside == 0 ==> run[k].passes == 1
  {
    RunKeeps(run, k);
    NoReentries(run, k);
  }

  /** A worker that saw the flag clear but enters only after the last one left passes the test again. */
  lemma LateWorkerPassesAgain(r: Run, w: nat)
    requires Inv(r) && r.done && r.inside == 0 && w in r.workers && r.workers[w].Entering?
    ensures var r1 := Next(r, Enter(w));
            Enabled(r1, Probe(w)) &&
            var r2 := Next(r1, Probe(w));
            Enabled(r2, Leave(w)) &&
            var r3 := Next(r2, Leave(w));
            r3.passes == r.passes + 1 && r3.workers[w] == Last && r.passes >= 1
  {
  }

  /** Exactly what becomes of those who pass the test. Without an overflow each publishes. After one, the
      first to get the mutex restarts, and those faulting are at most the late entries into the empty run. */
  lemma LastsCounted(run: seq<Run>, k: nat)
    requires IsRun(run) && k < |run| && run[k].done && run[k].inside == 0
    ensures var r := run[k];
            && 1 + r.reentries == |Lasts(r.workers)| + r.ended
            && (r.cleared <==> r.overflowed && r.ended > 0)
            && |Faults(r.workers)| <= r.reentries
            && (Faults(r.workers) != {} ==> r.overflowed && r.cleared)
  {
    RunKeeps(run, k);
    hide Counted, Drawn, Assigned, Progress, Flags;
    FaultsCard(run[k].workers);
  }

  function Faults(m: map<nat, Pc>): set<nat> { set w | w in m && m[w].Faulted? }

  lemma FaultsCard(m: map<nat, Pc>)
    ensures |Faults(m)| <= |Lasts(m)|
    ensures Faults(m) != {} ==> exists w :: w in m && m[w].Faulted?
  {
    assert Lasts(m) == Faults(m) + (Lasts(m) - Faults(m));
    assert (forall w | w in m :: !m[w].Faulted?) ==> Faults(m) == {};
  }

  /** No worker faults unless one enters after the flag is set. */
  lemma NobodyFaults(run: seq<Run>, k: nat, w: nat)
    requires IsRun(run) && NoLateEntry(run) && k < |run| && w in run[k].workers
    ensures !run[k].workers[w].Faulted?
  {
    RunKeeps(run, k);
    NoReentries(run, k);
    hide Counted, Drawn, Assigned, Progress, Flags;
    assert LateOk(run[k], run[k].workers[w]);
    if run[k].workers[w].Faulted? {
      PastIsCounted(run[k], w);
      assert false;
    }
  }

  /** And one that enters so late that the others have left and restarted does. */
  lemma LateWorkerFaults(r: Run, w: nat)
    requires Inv(r) && r.cleared && r.inside == 0 && w in r.workers && r.workers[w].Entering?
    ensures var r1 := Next(r, Enter(w));
            Enabled(r1, Probe(w)) &&
            var r2 := Next(r1, Probe(w));
            Enabled(r2, Leave(w)) &&
            var r3 := Next(r2, Leave(w));
            Enabled(r3, Peek(w)) && Next(r3, Peek(w)).workers[w] == Faulted
  {
    hide Counted, Assigned, Progress, Flags;
  }

  // ---- Nobody is stuck ----------------------------------------------------------------------------

  /** Every worker that has not faulted can make its next access. One that comes to a source draws a chunk of
      it exactly if the done flag is clear. */
  lemma WorkersGoOn(run: seq<Run>, k: nat, w: nat)
    requires IsRun(run) && k < |run| && w in run[k].workers
    ensures !run[k].workers[w].Faulted? ==> exists a: Action :: a.w == w && Enabled(run[k], a)
    ensures run[k].workers[w].AtSource? && run[k].workers[w].s < |run[k].chunks| ==>
              Enabled(run[k], Probe(w))
              && After(run[k], Probe(w)) == Some(if run[k].done then Leaving else Fetching(run[k].workers[w].s))
  {
    RunKeeps(run, k);
    WorkerGoesOn(run[k], w);
  }

  /** Once the flag is set nobody new comes: whoever enters then has tested it before. */
  lemma NobodyNewOnceDone(run: seq<Run>, i: nat, k: nat)
    requires IsRun(run) && i <= k < |run| && run[i].done
    ensures run[k].workers.Keys <= run[i].workers.Keys
  {
    hide Enabled, Next, Init;
    var known := run[i].workers.Keys;
    var kept := r => DoneWith(r, known);
    forall r, r' | kept(r) && Steps(r, r')
      ensures kept(r')
    {
      var a :| Enabled(r, a) && r' == Next(r, a);
      DoneStep(r, a, known);
    }
    Runs.Onward(run, i, k, Init, Steps, kept);
  }

  ghost predicate DoneWith(r: Run, known: set<nat>) { r.done && r.workers.Keys <= known }

  lemma DoneStep(r: Run, a: Action, known: set<nat>)
    requires DoneWith(r, known) && Enabled(r, a)
    ensures DoneWith(Next(r, a), known)
  {
  }

  lemma WorkerGoesOn(r: Run, w: nat)
    requires Inv(r) && w in r.workers
    ensures !r.workers[w].Faulted? ==> exists a: Action :: a.w == w && Enabled(r, a)
    ensures r.workers[w].AtSource? ==> Enabled(r, Probe(w))
  {
    assert PcOk(r, r.workers[w]) && |r.index| == |r.chunks|;
    assert r.workers[w].Restarting? ==> r.overflowed by { assert LateOk(r, r.workers[w]); }
    if r.workers[w].Leaving? {
      InsiderCounts(r, w);
    }
    hide Inv, ExhaustedTo;
    var a := match r.workers[w]
      case Entering => Enter(w)
      case AtSource(_) => Probe(w)
      case Fetching(_) => Fetch(w)
      case Working(_, _) => Succeed(w)
      case Overflowing => Record(w)
      case Counting(_) => Count(w)
      case Flagging => Flag(w)
      case Leaving => Leave(w)
      case Last => if r.overflowed then Peek(w) else Conclude(w)
      case Restarting => Conclude(w)
      case Faulted => Test(w);
    assert r.workers[w].AtSource? ==> r.workers[w].s <= |r.chunks|;
    assert !r.workers[w].Faulted? ==> a.w == w && Enabled(r, a);
  }

  // ---- Two runs with two workers ----------------------------------------------------------------

  ghost predicate Reachable(r: Run) {
    exists run :: IsRun(run) && run[|run| - 1] == r
  }

  lemma Goes(r: Run, a: Action, r': Run)
    requires Reachable(r) && Enabled(r, a) && Next(r, a) == r'
    ensures Reachable(r')
  {
    hide Enabled, Next, Init;
    var run :| IsRun(run) && run[|run| - 1] == r;
    Runs.Longer(run, r', Init, Steps);
    assert IsRun(run + [r']);
  }

  lemma RunTo(r: Run) returns (run: seq<Run>)
    requires Reachable(r)
    ensures IsRun(run) && |run| > 0 && run[|run| - 1] == r
  {
    hide Enabled, Next, Init, Steps;
    run :| IsRun(run) && run[|run| - 1] == r;
  }

  /** Two workers. */
  function Pair(r: Run, seven: Pc, eight: Pc): Run { r.(workers := map[7 := seven, 8 := eight]) }

  const STARTED := Run([1], [0], 1, 0, false, false, false, map[], [], map[], {}, None, 0, 0, 0)
  const INSIDE := STARTED.(inside := 1)
  const IN_CHUNK := INSIDE.(index := [1], busy := map[(0, 0) := 7])

  lemma BothCome()
    ensures Reachable(Pair(INSIDE, AtSource(0), Entering))
  {
    hide Reachable;
    assert Reachable(STARTED) by { Starts(); }
    Goes(STARTED, Test(7), STARTED.(workers := map[7 := Entering]));
    Goes(STARTED.(workers := map[7 := Entering]), Test(8), Pair(STARTED, Entering, Entering));
    Goes(Pair(STARTED, Entering, Entering), Enter(7), Pair(INSIDE, AtSource(0), Entering));
  }

  /** Worker 7 is in the chunk while worker 8 is held up between the test and the increment. */
  lemma InChunkHappens()
    ensures Reachable(Pair(IN_CHUNK, Working(0, 0), Entering))
  {
    hide Reachable;
    BothCome();
    Goes(Pair(INSIDE, AtSource(0), Entering), Probe(7), Pair(INSIDE, Fetching(0), Entering));
    Goes(Pair(INSIDE, Fetching(0), Entering), Fetch(7), Pair(IN_CHUNK, Working(0, 0), Entering));
  }

  lemma Starts()
    ensures Reachable(STARTED)
  {
    assert SumTo([1], 1) == SumTo([1], 0) + 1;
    assert Init(STARTED) && IsRun([STARTED]);
  }

  const COUNTED := INSIDE.(index := [1], remaining := 0, log := [(0, 0)], flagger := Some(7))
  const DONE := COUNTED.(done := true)

  lemma FlagHappens()
    ensures Reachable(Pair(DONE, Leaving, Entering))
  {
    hide Reachable;
    InChunkHappens();
    var moved := INSIDE.(index := [1], log := [(0, 0)]);
    assert IN_CHUNK.busy - {(0, 0)} == map[];
    Goes(Pair(IN_CHUNK, Working(0, 0), Entering), Succeed(7), Pair(moved, Counting(0), Entering));
    Goes(Pair(moved, Counting(0), Entering), Count(7), Pair(COUNTED, Flagging, Entering));
    Goes(Pair(COUNTED, Flagging, Entering), Flag(7), Pair(DONE, Leaving, Entering));
  }

  const PASSED_TWICE := DONE.(inside := 0, passes := 2, reentries := 1)

  lemma TwoLasts()
    ensures Reachable(Pair(PASSED_TWICE, Last, Last))
  {
    hide Reachable;
    FlagHappens();
    var left := DONE.(inside := 0, passes := 1);
    var back := DONE.(passes := 1, reentries := 1);
    Goes(Pair(DONE, Leaving, Entering), Leave(7), Pair(left, Last, Entering));
    Goes(Pair(left, Last, Entering), Enter(8), Pair(back, Last, AtSource(0)));
    Goes(Pair(back, Last, AtSource(0)), Probe(8), Pair(back, Last, Leaving));
    Goes(Pair(back, Last, Leaving), Leave(8), Pair(PASSED_TWICE, Last, Last));
  }

  /** Two workers take the last-worker branch of one migration, and the table is published twice. */
  lemma TwoCanBeLast() returns (run: seq<Run>)
    ensures IsRun(run)
    ensures var r := run[|run| - 1]; r.passes == 2 && r.workers == map[7 := Last, 8 := Last] && !r.overflowed
  {
    hide IsRun, Reachable;
    TwoLasts();
    run := RunTo(Pair(PASSED_TWICE, Last, Last));
  }

  const GIVEN_UP := INSIDE.(index := [1], done := true, overflowed := true, lost := {(0, 0)}, flagger := Some(7))
  const RESTARTED := GIVEN_UP.(inside := 0, cleared := true, passes := 1, ended := 1)

  lemma OverflowHappens()
    ensures Reachable(Pair(GIVEN_UP, Leaving, Entering))
  {
    hide Reachable;
    InChunkHappens();
    assert IN_CHUNK.busy - {(0, 0)} == map[];
    var lost := INSIDE.(index := [1], lost := {(0, 0)}, flagger := Some(7));
    Goes(Pair(IN_CHUNK, Working(0, 0), Entering), Fail(7), Pair(lost, Overflowing, Entering));
    Goes(Pair(lost, Overflowing, Entering), Record(7), Pair(lost.(overflowed := true), Flagging, Entering));
    Goes(Pair(lost.(overflowed := true), Flagging, Entering), Flag(7), Pair(GIVEN_UP, Leaving, Entering));
  }

  /** Worker 7 could not move its chunk, has left and restarted; worker 8 is still held up. */
  lemma RestartHappens()
    ensures Reachable(RESTARTED.(workers := map[8 := Entering]))
  {
    hide Reachable;
    OverflowHappens();
    var left := GIVEN_UP.(inside := 0, passes := 1);
    Goes(Pair(GIVEN_UP, Leaving, Entering), Leave(7), Pair(left, Last, Entering));
    Goes(Pair(left, Last, Entering), Peek(7), Pair(left, Restarting, Entering));
    assert map[7 := Restarting, 8 := Entering] - {7} == map[8 := Entering];
    Goes(Pair(left, Restarting, Entering), Conclude(7), RESTARTED.(workers := map[8 := Entering]));
  }

  const FAULTED := RESTARTED.(passes := 2, reentries := 1, workers := map[8 := Faulted])

  lemma FaultHappens()
    ensures Reachable(FAULTED)
  {
    hide Reachable;
    RestartHappens();
    var back := RESTARTED.(inside := 1, reentries := 1);
    Goes(RESTARTED.(workers := map[8 := Entering]), Enter(8), back.(workers := map[8 := AtSource(0)]));
    Goes(back.(workers := map[8 := AtSource(0)]), Probe(8), back.(workers := map[8 := Leaving]));
    Goes(back.(workers := map[8 := Leaving]), Leave(8), FAULTED.(workers := map[8 := Last]));
    Goes(FAULTED.(workers := map[8 := Last]), Peek(8), FAULTED);
  }

  /** After an overflow the late worker follows a null pointer. */
  lemma LateWorkerCanFault() returns (run: seq<Run>)
    ensures IsRun(run)
    ensures var r := run[|run| - 1]; r.workers == map[8 := Faulted] && r.overflowed && r.passes == 2 && r.ended == 1
  {
    hide IsRun, Reachable;
    FaultHappens();
    run := RunTo(FAULTED);
  }
}
