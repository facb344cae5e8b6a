/** One cell whose hash is allocated, and everybody who exchanges its value: puts, removes and the worker
    that migrates it, interleaved at single accesses. A put or remove reads the value, then exchanges it if
    it is still the same; a put whose exchange fails reports success all the same, with what it found. */
module ValueRaces {
  import opened Chains
  import Runs

  /** Where a put found the cell: on its walk, or behind the tail where it has just claimed it. */
  datatype Site = Known | Claimed

  /** A put of `v` or, when `v` is NO_VALUE, a remove. */
  datatype Op = Op(v: int, site: Site, pc: Pc)
  datatype Pc = Starting | Loaded(seen: int)

  datatype Result = Ok(was: int) | Help

  /** `carried` is what the worker has in hand or has moved on. From `written` on the fields are history:
      the values that entered the cell and those that left it, in order, each with the operation that
      did it, the results of the operations that are over, and what each one was asked to put. */
  datatype State = State(
    value: int, ops: map<nat, Op>, carried: int,
    written: seq<(nat, int)>, taken: seq<(nat, int)>, results: map<nat, Result>, asked: map<nat, int>)

  datatype Action =
    | Begin(p: nat, v: int, site: Site)
    | Load(p: nat)
    | Exchange(p: nat)
    | TakeAway              // the worker exchanges the value for Move
    | PutBack               // the new table is full

  /** The operation number of the value that was there from the beginning. */
  const NOBODY: nat := 0

  ghost predicate Init(s: State) {
    && s.value != MOVED && s.ops == map[] && s.results == map[] && s.asked == map[]
    && s.written == [(NOBODY, s.value)] && s.taken == []
  }

  predicate Enabled(s: State, a: Action) {
    match a
    case Begin(p, v, site) =>
      p != NOBODY && p !in s.ops && p !in s.results && v != MOVED && (v == NO_VALUE ==> site == Known)
    case Load(p) => p in s.ops && s.ops[p].pc.Starting?
    case Exchange(p) => p in s.ops && s.ops[p].pc.Loaded?
    case TakeAway => s.value != MOVED
    case PutBack => s.value == MOVED
  }

  /** What the operation reports when its exchange fails because the cell holds `found`. */
  function Failed(op: Op, found: int): Result {
    if op.v == NO_VALUE then Ok(NO_VALUE)
    else if op.site == Claimed && found == MOVED then Help
    else Ok(found)
  }

  function Next(s: State, a: Action): State
    requires Enabled(s, a)
  {
    match a
    case Begin(p, v, site) => s.(ops := s.ops[p := Op(v, site, Starting)], asked := s.asked[p := v])
    case Load(p) =>
      if s.value == MOVED then s.(ops := s.ops - {p}, results := s.results[p := Help])
      else s.(ops := s.ops[p := s.ops[p].(pc := Loaded(s.value))])
    case Exchange(p) =>
      var op := s.ops[p];
      if s.value == op.pc.seen then
        s.(value := op.v, ops := s.ops - {p}, results := s.results[p := Ok(op.pc.seen)],
           written := s.written + [(p, op.v)], taken := s.taken + [(p, s.value)])
      else s.(ops := s.ops - {p}, results := s.results[p := Failed(op, s.value)])
    case TakeAway => s.(value := MOVED, carried := s.value)
    case PutBack => s.(value := s.carried)
  }

  // ---- The invariant ------------------------------------------------------------------------------

  /** The value the cell stands for, in the cell or with the worker. */
  function Resident(s: State): int { if s.value == MOVED then s.carried else s.value }

  function Values(log: seq<(nat, int)>): (vs: seq<int>)
    ensures |vs| == |log| && forall j | 0 <= j < |log| :: vs[j] == log[j].1
  {
    seq(|log|, j requires 0 <= j < |log| => log[j].1)
  }

  ghost predicate Inv(s: State) {
    && Resident(s) != MOVED
    && (forall p | p in s.ops :: p != NOBODY && p !in s.results && s.ops[p].v != MOVED)
    && (forall p | p in s.ops && s.ops[p].pc.Loaded? :: s.ops[p].pc.seen != MOVED)
    // Every value enters the cell in place of the one before it.
    && Values(s.written) == Values(s.taken) + [Resident(s)]
    && s.written[0].0 == NOBODY && (forall j | 0 <= j < |s.taken| :: s.written[j + 1].0 == s.taken[j].0)
    && (forall j | 0 <= j < |s.taken| :: s.taken[j].0 in s.results && s.results[s.taken[j].0] == Ok(s.taken[j].1))
    && (forall i, j | 0 <= i < j < |s.taken| :: s.taken[i].0 != s.taken[j].0)
    && (forall j | 0 <= j < |s.taken| :: s.taken[j].1 != MOVED)
    && Told(s)
  }

  /** A remove reports what it has displaced, or that there is nothing or a migration. */
  ghost predicate Told(s: State) {
    && (forall p | p in s.ops :: p in s.asked && s.asked[p] == s.ops[p].v)
    && (forall p | p in s.results :: p in s.asked)
    && (forall p | p in s.results && s.asked[p] == NO_VALUE ::
          s.results[p] == Help || s.results[p].was == NO_VALUE || (p, s.results[p].was) in s.taken)
  }

  lemma InitInv(s: State)
    requires Init(s)
    ensures Inv(s)
  {
  }

  lemma StepKeeps(s: State, a: Action)
    requires Inv(s) && Enabled(s, a)
    ensures Inv(Next(s, a))
  {
    ToldKeeps(s, a);
    hide Told;
    if a.Exchange? && s.value == s.ops[a.p].pc.seen {
      ExchangeKeeps(s, a.p);
    } else if a.Begin? {
      hide Values;
    } else {
      RestKeeps(s, a);
    }
  }

  lemma RestKeeps(s: State, a: Action)
    requires Inv(s) && Enabled(s, a) && !a.Begin? && !(a.Exchange? && s.value == s.ops[a.p].pc.seen) && Told(Next(s, a))
    ensures Inv(Next(s, a))
  {
    hide Values, Told;
  }

  lemma ToldKeeps(s: State, a: Action)
    requires Inv(s) && Enabled(s, a)
    ensures Told(Next(s, a))
  {
    hide Values;
  }

  lemma ExchangeKeeps(s: State, p: nat)
    requires Inv(s) && Enabled(s, Exchange(p)) && s.value == s.ops[p].pc.seen
    ensures Inv(Next(s, Exchange(p)))
  {
    ToldKeeps(s, Exchange(p));
    ExchangeLogs(s, p);
    assert p in s.ops && p !in s.results && s.ops[p].v != MOVED && s.value != MOVED;
    hide Values, Told;
  }

  lemma ExchangeLogs(s: State, p: nat)
    requires Inv(s) && Enabled(s, Exchange(p)) && s.value == s.ops[p].pc.seen
    ensures var s' := Next(s, Exchange(p));
            Values(s'.written) == Values(s'.taken) + [Resident(s')] && Resident(s') == s.ops[p].v
  {
    OneMoreValue(s.taken, (p, s.value));
    OneMoreValue(s.written, (p, s.ops[p].v));
    hide Values;
  }

  lemma OneMoreValue(log: seq<(nat, int)>, entry: (nat, int))
    ensures Values(log + [entry]) == Values(log) + [entry.1]
  {
  }

  // ---- Runs ---------------------------------------------------------------------------------------

  ghost predicate Steps(s: State, s': State) {
    exists a :: Enabled(s, a) && s' == Next(s, a)
  }

  ghost predicate IsRun(run: seq<State>) { Runs.IsRun(run, Init, Steps) }

  lemma RunKeeps(run: seq<State>, k: nat)
    requires IsRun(run) && k < |run|
    ensures Inv(run[k])
  {
    hide Inv, Enabled, Next, Init;
    forall s | Init(s)
      ensures Inv(s)
    {
      InitInv(s);
    }
    forall s, s' | Inv(s) && Steps(s, s')
      ensures Inv(s')
    {
      var a :| Enabled(s, a) && s' == Next(s, a);
      StepKeeps(s, a);
    }
    Runs.Keeps(run, k, Init, Steps, Inv);
  }

  /** The values leave the cell in the order in which they entered it, each once and by the exchange that
      put the next one there; only the last one is still to be had, from the cell or from the worker. */
  lemma EachValueLeavesOnce(run: seq<State>, k: nat)
    requires IsRun(run) && k < |run|
    ensures var s := run[k];
            && |s.written| == |s.taken| + 1
            && (forall j | 0 <= j < |s.taken| :: s.taken[j].1 == s.written[j].1 && s.taken[j].0 == s.written[j + 1].0)
            && s.written[|s.taken|].1 == Resident(s)
  {
    RunKeeps(run, k);
    var s := run[k];
    forall j | 0 <= j < |s.taken|
      ensures s.taken[j].1 == s.written[j].1
    {
      assert Values(s.written)[j] == (Values(s.taken) + [Resident(s)])[j];
    }
    assert Values(s.written)[|s.taken|] == (Values(s.taken) + [Resident(s)])[|s.taken|];
  }

  /** The operation has displaced a value: it is in the log of those that left. */
  ghost predicate Displaced(s: State, p: nat) {
    exists j :: 0 <= j < |s.taken| && s.taken[j].0 == p
  }

  /** The exchange of an operation puts its value in place of the one it reports exactly when the cell
      still holds what the operation read. Otherwise nothing is written; a put then reports what is
      still there, and Move when the cell was given up after it had been found on the walk. A remove
      reports nothing then. */
  lemma TrueExactlyIfUnchanged(run: seq<State>, k: nat, p: nat)
    requires IsRun(run) && k < |run| && Enabled(run[k], Exchange(p))
    ensures var s, s', op := run[k], Next(run[k], Exchange(p)), run[k].ops[p];
            && (Displaced(s', p) <==> s.value == op.pc.seen)
            && (Displaced(s', p) ==> s'.results[p] == Ok(Resident(s)) && Resident(s') == op.v)
            && (!Displaced(s', p) ==> s' == s.(ops := s'.ops, results := s'.results))
            && (!Displaced(s', p) && op.v != NO_VALUE ==>
                  s'.results[p] == if s.value == MOVED && op.site == Claimed then Help else Ok(s.value))
            && (!Displaced(s', p) && op.v == NO_VALUE ==> s'.results[p] == Ok(NO_VALUE))
  {
    RunKeeps(run, k);
    var s, s' := run[k], Next(run[k], Exchange(p));
    if s.value == s.ops[p].pc.seen {
      assert s'.taken[|s.taken|].0 == p;
    }
  }

  /** What an operation has reported stays; and if it has displaced a value, it has reported that one. */
  lemma ReportedWhatItDisplaced(run: seq<State>, k: nat, p: nat)
    requires IsRun(run) && k < |run| && Displaced(run[k], p)
    ensures p in run[k].results && run[k].results[p].Ok? && run[k].results[p].was != MOVED
    ensures exists j :: 0 <= j < |run[k].taken| && run[k].taken[j] == (p, run[k].results[p].was)
  {
    RunKeeps(run, k);
    var s := run[k];
    var j :| 0 <= j < |s.taken| && s.taken[j].0 == p;
    assert s.taken[j] == (p, s.results[p].was);
  }

  /** A remove that reports a value has displaced just that one; one that displaced nothing reports none. */
  lemma RemovesReportTruly(run: seq<State>, k: nat, p: nat)
    requires IsRun(run) && k < |run| && p in run[k].results && p in run[k].asked && run[k].asked[p] == NO_VALUE
    ensures var s := run[k];
            && (forall v | v != NO_VALUE && s.results[p] == Ok(v) :: (p, v) in s.taken)
            && (!Displaced(s, p) ==> s.results[p] == Help || s.results[p] == Ok(NO_VALUE))
  {
    RunKeeps(run, k);
    var s := run[k];
    if s.results[p].Ok? && (p, s.results[p].was) in s.taken {
      var j :| 0 <= j < |s.taken| && s.taken[j] == (p, s.results[p].was);
    }
  }

  /** An operation asks for help exactly if it reads Move; otherwise it goes on with what it has read. And
      every operation in flight can go on. */
  lemma HelpExactlyIfMoved(run: seq<State>, k: nat, p: nat)
    requires IsRun(run) && k < |run| && p in run[k].ops
    ensures Enabled(run[k], Load(p)) || Enabled(run[k], Exchange(p))
    ensures Enabled(run[k], Load(p)) ==>
              var s, s' := run[k], Next(run[k], Load(p));
              && s' == s.(ops := s'.ops, results := s'.results)
              && if s.value == MOVED then p !in s'.ops && s'.results == s.results[p := Help]
                 else p in s'.ops && s'.ops[p].pc == Loaded(s.value) && s'.results == s.results
  {
  }

  // ---- Reports that are not true --------------------------------------------------------------------

  lemma Extended(run: seq<State>, a: Action) returns (longer: seq<State>)
    requires IsRun(run) && Enabled(run[|run| - 1], a)
    ensures IsRun(longer) && longer[|longer| - 1] == Next(run[|run| - 1], a)
  {
    hide Enabled, Next, Init;
    longer := run + [Next(run[|run| - 1], a)];
    Runs.Longer(run, Next(run[|run| - 1], a), Init, Steps);
  }

  /** Two puts of one key: the slower one reports the value of the faster, which is still in the map. */
  lemma PutCanReportLiveValue() returns (run: seq<State>)
    ensures IsRun(run)
    ensures var s := run[|run| - 1]; s.value == 6 && 1 in s.results && s.results[1] == Ok(6) && !Displaced(s, 1)
  {
    run := [State(4, map[], 0, [(NOBODY, 4)], [], map[], map[])];
    assert Init(run[0]);
    run := Extended(run, Begin(1, 5, Known));
    run := Extended(run, Begin(2, 6, Known));
    run := Extended(run, Load(1));
    run := Extended(run, Load(2));
    run := Extended(run, Exchange(2));
    run := Extended(run, Exchange(1));
  }

  /** A put and a migration: the put succeeds, its value is nowhere, and it reports the marker Move. */
  lemma PutCanReportMove() returns (run: seq<State>)
    ensures IsRun(run)
    ensures var s := run[|run| - 1];
            1 in s.results && s.results[1] == Ok(MOVED) && !Displaced(s, 1) && s.carried == 4 && s.written == [(NOBODY, 4)]
  {
    run := [State(4, map[], 0, [(NOBODY, 4)], [], map[], map[])];
    assert Init(run[0]);
    run := Extended(run, Begin(1, 5, Known));
    run := Extended(run, Load(1));
    run := Extended(run, TakeAway);
    run := Extended(run, Exchange(1));
  }
}
