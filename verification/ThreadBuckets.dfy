/** Who holds a reference to a thread's bucket, from the map through the samples in the ring to the
    consumer. Each thread works on its own map cell only, one operation at a time; threads and the
    consumer are interleaved at single accesses. Creating a bucket counts one reference, and whoever gives
    up the last one deletes it next. */
module ThreadBuckets {
  import Runs
  import opened Collections

  /** A place that answers for one reference. */
  datatype Site =
    | Cell(env: nat)        // the map
    | Fresh(env: nat)       // just created by put
    | Retired(env: nat)     // taken out of the map, about to be released
    | Sampled(env: nat)     // acquired by the signal handler, not queued yet
    | Slot(t: nat)          // an unread slot of the queue
    | Reading               // the slot the consumer is recording
    | Dropped(t: nat)       // the queue was full; nobody will release it

  datatype Pc = Idle | Loaded(b: nat) | Undoing(b: nat)

  /** `at` says which bucket each place refers to, `refs` is the counter of every bucket ever made.
      `facing` is what the slot the consumer works on points to. `dying` are the buckets whose counter has
      come down to 0 and that are to be deleted. `tickets` and `deleted` are history. */
  datatype State = State(
    at: map<Site, nat>, refs: map<nat, int>, pcs: map<nat, Pc>, facing: nat, dying: set<nat>,
    tickets: nat, deleted: seq<nat>)

  const NULL: nat := 0

  datatype Action =
    | New(env: nat, b: nat)     // put: a bucket is created
    | Insert(env: nat)          //   and exchanged with the one in the map
    | Remove(env: nat)          // remove: the cell is emptied
    | Release(env: nat)         // put and remove: the old bucket is given up
    | Load(env: nat)            // get: reads the cell
    | AddRef(env: nat)          //   counts one reference up
    | Undo(env: nat)            //   which was dead, so counts down again
    | Push(env: nat)            // the sample is queued
    | Drop(env: nat)            // the queue is full
    | Take(t: nat)              // the consumer starts to record a slot
    | Consume                   //   gives up its reference
    | Clear                     //   and clears the slot
    | Delete(b: nat)            // whoever gave up the last reference to b

  /** The owner is between two operations. */
  predicate Quiet(s: State, env: nat) {
    (env in s.pcs ==> s.pcs[env].Idle?) && Fresh(env) !in s.at && Retired(env) !in s.at && Sampled(env) !in s.at
  }

  predicate Enabled(s: State, a: Action) {
    match a
    case New(env, b) => Quiet(s, env) && b != NULL && b !in s.refs
    case Insert(env) => Fresh(env) in s.at
    case Remove(env) => Quiet(s, env) && Cell(env) in s.at
    case Release(env) => Retired(env) in s.at && Fresh(env) !in s.at && s.at[Retired(env)] in s.refs
    case Load(env) => Quiet(s, env) && Cell(env) in s.at
    case AddRef(env) => env in s.pcs && s.pcs[env].Loaded? && s.pcs[env].b in s.refs
    case Undo(env) => env in s.pcs && s.pcs[env].Undoing? && s.pcs[env].b in s.refs
    case Push(env) => Sampled(env) in s.at
    case Drop(env) => Sampled(env) in s.at
    case Take(t) => Slot(t) in s.at && Reading !in s.at && s.facing == NULL
    case Consume => Reading in s.at && s.at[Reading] in s.refs
    case Clear => Reading !in s.at && s.facing != NULL
    case Delete(b) => b in s.dying
  }

  function Moved(at: map<Site, nat>, p: Site, q: Site): map<Site, nat>
    requires p in at
  {
    (at - {p})[q := at[p]]
  }

  /** One reference to b is given up, and perhaps the last one. */
  function Released(s: State, p: Site, b: nat): State
    requires p in s.at && b in s.refs
  {
    s.(at := s.at - {p}, refs := s.refs[b := s.refs[b] - 1],
       dying := if s.refs[b] == 1 then s.dying + {b} else s.dying)
  }

  function Next(s: State, a: Action): State
    requires Enabled(s, a)
  {
    match a
    case New(env, b) => s.(at := s.at[Fresh(env) := b], refs := s.refs[b := 1])
    case Insert(env) =>
      var at := if Cell(env) in s.at then Moved(s.at, Cell(env), Retired(env)) else s.at;
      s.(at := Moved(at, Fresh(env), Cell(env)))
    case Remove(env) => s.(at := Moved(s.at, Cell(env), Retired(env)))
    case Release(env) => Released(s, Retired(env), s.at[Retired(env)])
    case Load(env) => s.(pcs := s.pcs[env := Loaded(s.at[Cell(env)])])
    case AddRef(env) =>
      var b := s.pcs[env].b;
      var counted := s.(refs := s.refs[b := s.refs[b] + 1]);
      if s.refs[b] > 0 then counted.(at := s.at[Sampled(env) := b], pcs := s.pcs[env := Idle])
      else counted.(pcs := s.pcs[env := Undoing(b)])
    case Undo(env) =>
      var b := s.pcs[env].b;
      s.(refs := s.refs[b := s.refs[b] - 1], pcs := s.pcs[env := Idle])
    case Push(env) => s.(at := Moved(s.at, Sampled(env), Slot(s.tickets)), tickets := s.tickets + 1)
    case Drop(env) => s.(at := Moved(s.at, Sampled(env), Dropped(s.tickets)), tickets := s.tickets + 1)
    case Take(t) => s.(at := Moved(s.at, Slot(t), Reading), facing := s.at[Slot(t)])
    case Consume => Released(s, Reading, s.at[Reading])
    case Clear => s.(facing := NULL)
    case Delete(b) => s.(dying := s.dying - {b}, deleted := s.deleted + [b])
  }

  ghost predicate Init(s: State) {
    s.at == map[] && s.refs == map[] && s.pcs == map[] && s.facing == NULL && s.dying == {} && s.tickets == 0 && s.deleted == []
  }

  // ---- The invariant --------------------------------------------------------------------------

  function Holders(at: map<Site, nat>, b: nat): set<Site> {
    set p | p in at && at[p] == b
  }

  ghost predicate Counts(s: State) {
    && (forall p | p in s.at :: s.at[p] in s.refs)
    && (forall b | b in s.refs :: s.refs[b] == |Holders(s.at, b)|)
  }

  predicate Gone(s: State, b: nat) { b in s.dying || b in s.deleted }

  /** A bucket is deleted, or about to be, exactly when no place refers to it, and then once. */
  ghost predicate Deletions(s: State) {
    && NoRepeats(s.deleted)
    && (forall b | b in s.dying :: b !in s.deleted)
    && (forall b | Gone(s, b) :: b in s.refs)
    && (forall b | b in s.refs :: s.refs[b] == 0 <==> Gone(s, b))
    && NULL !in s.refs
  }

  ghost predicate Owners(s: State) {
    && (forall env | env in s.pcs :: !s.pcs[env].Undoing?)
    && (forall env | env in s.pcs && s.pcs[env].Loaded? ::
          && Cell(env) in s.at && s.at[Cell(env)] == s.pcs[env].b
          && Fresh(env) !in s.at && Retired(env) !in s.at && Sampled(env) !in s.at)
    && (forall env | Fresh(env) in s.at :: Retired(env) !in s.at && Sampled(env) !in s.at)
    && (forall env | Sampled(env) in s.at :: Retired(env) !in s.at)
    && (forall t: nat | Slot(t) in s.at || Dropped(t) in s.at :: t < s.tickets)
    && (Reading in s.at ==> s.facing == s.at[Reading])
    && (s.facing != NULL ==> s.facing in s.refs)
  }

  ghost predicate Inv(s: State) {
    Counts(s) && Deletions(s) && Owners(s)
  }

  lemma InitInv(s: State)
    requires Init(s)
    ensures Inv(s)
  {
  }

  // ---- Every step keeps it --------------------------------------------------------------------

  lemma HoldersMove(at: map<Site, nat>, p: Site, q: Site, b: nat)
    requires p in at && q !in at
    ensures |Holders(Moved(at, p, q), b)| == |Holders(at, b)|
  {
    var was, now := Holders(at, b), Holders(Moved(at, p, q), b);
    assert forall x | x != p && x != q :: x in now <==> x in was;
    assert p !in now && q !in was && (p in was <==> q in now);
    hide Holders, Moved;
    OneForAnother(was, now, p, q);
  }

  lemma OneForAnother(was: set<Site>, now: set<Site>, p: Site, q: Site)
    requires p !in now && q !in was && (p in was <==> q in now)
    requires forall x | x != p && x != q :: x in now <==> x in was
    ensures |now| == |was|
  {
    CardMove(was, was - {p}, p);
    CardMove(was - {p}, now, q);
  }

  lemma HoldersAdd(at: map<Site, nat>, p: Site, c: nat, b: nat)
    requires p !in at
    ensures |Holders(at[p := c], b)| == |Holders(at, b)| + if b == c then 1 else 0
  {
    assert Holders(at[p := c], b) == Holders(at, b) + if b == c then {p} else {};
  }

  lemma HoldersDrop(at: map<Site, nat>, p: Site, b: nat)
    requires p in at
    ensures |Holders(at - {p}, b)| == |Holders(at, b)| - if b == at[p] then 1 else 0
  {
    assert Holders(at, b) == Holders(at - {p}, b) + if b == at[p] then {p} else {};
  }

  lemma MoveCounts(s: State, s': State, p: Site, q: Site)
    requires Counts(s) && p in s.at && q !in s.at && s'.at == Moved(s.at, p, q) && s'.refs == s.refs
    ensures Counts(s')
  {
    hide Holders;
    forall b | b in s.refs
      ensures s.refs[b] == |Holders(s'.at, b)|
    {
      HoldersMove(s.at, p, q, b);
    }
  }

  lemma AddCounts(s: State, s': State, p: Site, c: nat)
    requires Counts(s) && p !in s.at && s'.at == s.at[p := c]
    requires s'.refs == s.refs[c := (if c in s.refs then s.refs[c] else 0) + 1]
    ensures Counts(s')
  {
    forall b | b in s'.refs
      ensures s'.refs[b] == |Holders(s'.at, b)|
    {
      HoldersAdd(s.at, p, c, b);
      if b !in s.refs {
        assert Holders(s.at, b) == {};
      }
    }
  }

  lemma ReleaseKeeps(s: State, p: Site)
    requires Counts(s) && Deletions(s) && p in s.at
    ensures s.at[p] in s.refs && Counts(Released(s, p, s.at[p])) && Deletions(Released(s, p, s.at[p]))
  {
    var s' := Released(s, p, s.at[p]);
    forall b | b in s'.refs
      ensures s'.refs[b] == |Holders(s'.at, b)|
    {
      HoldersDrop(s.at, p, b);
    }
    assert p in Holders(s.at, s.at[p]);
    assert s.refs[s.at[p]] != 0;
  }

  lemma InsertCounts(s: State, env: nat)
    requires Counts(s) && Fresh(env) in s.at && Retired(env) !in s.at
    ensures Counts(Next(s, Insert(env)))
  {
    hide Counts;
    if Cell(env) in s.at {
      var mid := s.(at := Moved(s.at, Cell(env), Retired(env)));
      MoveCounts(s, mid, Cell(env), Retired(env));
      MoveCounts(mid, Next(s, Insert(env)), Fresh(env), Cell(env));
    } else {
      MoveCounts(s, Next(s, Insert(env)), Fresh(env), Cell(env));
    }
  }

  lemma InsertKeeps(s: State, env: nat)
    requires Inv(s) && Enabled(s, Insert(env))
    ensures Inv(Next(s, Insert(env)))
  {
    hide Counts;
    InsertCounts(s, env);
  }

  lemma MovesKeep(s: State, a: Action)
    requires Inv(s) && Enabled(s, a) && (a.Remove? || a.Push? || a.Drop? || a.Take?)
    ensures Inv(Next(s, a))
  {
    MovesCount(s, a);
    if a.Take? {
      CellIsAlive(s, Slot(a.t));
    }
    hide Holders, Counts;
    MovesOwners(s, a);
    hide Owners;
  }

  lemma MovesCount(s: State, a: Action)
    requires Counts(s) && Owners(s) && Enabled(s, a) && (a.Remove? || a.Push? || a.Drop? || a.Take?)
    ensures Counts(Next(s, a))
  {
    hide Holders, Counts, Moved;
    var s' := Next(s, a);
    match a
    case Remove(env) => MoveCounts(s, s', Cell(env), Retired(env));
    case Push(env) => MoveCounts(s, s', Sampled(env), Slot(s.tickets));
    case Drop(env) => MoveCounts(s, s', Sampled(env), Dropped(s.tickets));
    case Take(t) => MoveCounts(s, s', Slot(t), Reading);
  }

  lemma MovesOwners(s: State, a: Action)
    requires Owners(s) && Enabled(s, a) && (a.Remove? || a.Push? || a.Drop? || a.Take?)
    requires a.Take? ==> s.at[Slot(a.t)] in s.refs
    ensures Owners(Next(s, a))
  {
  }

  /** The acquisition in get never finds a dead bucket: the owner's cell still counts one. */
  lemma CellIsAlive(s: State, p: Site)
    requires Counts(s) && p in s.at
    ensures s.at[p] in s.refs && s.refs[s.at[p]] > 0
  {
    assert p in Holders(s.at, s.at[p]);
  }

  lemma AddRefKeeps(s: State, env: nat)
    requires Inv(s) && Enabled(s, AddRef(env))
    ensures Inv(Next(s, AddRef(env)))
  {
    CellIsAlive(s, Cell(env));
    hide Holders, Counts;
    AddCounts(s, Next(s, AddRef(env)), Sampled(env), s.pcs[env].b);
  }

  lemma NewKeeps(s: State, env: nat, b: nat)
    requires Inv(s) && Enabled(s, New(env, b))
    ensures Inv(Next(s, New(env, b)))
  {
    hide Holders, Counts;
    AddCounts(s, Next(s, New(env, b)), Fresh(env), b);
  }

  lemma LastKeeps(s: State, a: Action)
    requires Inv(s) && Enabled(s, a) && (a.Release? || a.Consume?)
    ensures Inv(Next(s, a))
  {
    hide Counts, Deletions, Owners;
    ReleaseKeeps(s, if a.Release? then Retired(a.env) else Reading);
    LastOwners(s, a);
  }

  lemma LastOwners(s: State, a: Action)
    requires Owners(s) && Enabled(s, a) && (a.Release? || a.Consume?)
    ensures Owners(Next(s, a))
  {
  }

  lemma PlainKeeps(s: State, a: Action)
    requires Inv(s) && Enabled(s, a) && (a.Load? || a.Undo? || a.Clear? || a.Delete?)
    ensures Inv(Next(s, a))
  {
    hide Holders;
  }

  lemma StepKeeps(s: State, a: Action)
    requires Inv(s) && Enabled(s, a)
    ensures Inv(Next(s, a))
  {
    hide Inv, Next, Enabled;
    match a
    case New(env, b) => NewKeeps(s, env, b);
    case Insert(env) => InsertKeeps(s, env);
    case Release(env) => LastKeeps(s, a);
    case AddRef(env) => AddRefKeeps(s, env);
    case Consume => LastKeeps(s, a);
    case Load(env) => PlainKeeps(s, a);
    case Undo(env) => PlainKeeps(s, a);
    case Clear => PlainKeeps(s, a);
    case Delete(b) => PlainKeeps(s, a);
    case _ => MovesKeep(s, a);
  }

  // ---- Runs -----------------------------------------------------------------------------------

  ghost predicate Steps(s: State, s': State) {
    exists a :: Enabled(s, a) && s' == Next(s, a)
  }

  ghost predicate IsRun(run: seq<State>) { Runs.IsRun(run, Init, Steps) }

  lemma RunKeeps(run: seq<State>, k: nat)
    requires IsRun(run) && k < |run|
    ensures Inv(run[k])
  {
    hide Inv, Enabled, Next, Init;
    forall s | Init(s)
      ensures Inv(s)
    {
      InitInv(s);
    }
    forall s, s' | Inv(s) && Steps(s, s')
      ensures Inv(s')
    {
      var a :| Enabled(s, a) && s' == Next(s, a);
      StepKeeps(s, a);
    }
    Runs.Keeps(run, k, Init, Steps, Inv);
  }

  /** A bucket's counter is the number of places that refer to it; it is deleted or about to be exactly
      when there is none, and deleted at most once. */
  lemma CountedAndDeleted(run: seq<State>, k: nat, b: nat)
    requires IsRun(run) && k < |run| && b in run[k].refs
    ensures run[k].refs[b] == |set p | p in run[k].at && run[k].at[p] == b|
    ensures b in run[k].dying || b in run[k].deleted <==> forall p | p in run[k].at :: run[k].at[p] != b
    ensures b in run[k].dying ==> b !in run[k].deleted
    ensures multiset(run[k].deleted)[b] <= 1
  {
    RunKeeps(run, k);
    var s := run[k];
    assert Holders(s.at, b) == set p | p in s.at && s.at[p] == b;
    AliveIffReferred(s, b);
    OnceAtMost(s.deleted, b);
  }

  /** The bucket whose fields or counter a step uses. */
  function Touched(s: State, a: Action): nat
    requires Enabled(s, a)
  {
    match a
    case Insert(env) => s.at[Fresh(env)]
    case Remove(env) => s.at[Cell(env)]
    case Release(env) => s.at[Retired(env)]
    case AddRef(env) => s.pcs[env].b
    case Undo(env) => s.pcs[env].b
    case Push(env) => s.at[Sampled(env)]
    case Drop(env) => s.at[Sampled(env)]
    case Take(t) => s.at[Slot(t)]
    case Consume => s.at[Reading]
    case Delete(b) => b
    case _ => NULL
  }

  /** No step of any thread or of the consumer uses a deleted bucket, nor one about to be deleted except to
      delete it. */
  lemma NoUseAfterDelete(run: seq<State>, k: nat, a: Action)
    requires IsRun(run) && k < |run| && Enabled(run[k], a)
    ensures Touched(run[k], a) !in run[k].deleted
    ensures !a.Delete? ==> Touched(run[k], a) !in run[k].dying
  {
    RunKeeps(run, k);
    var s := run[k];
    match a
    case Insert(env) => CellIsAlive(s, Fresh(env));
    case Remove(env) => CellIsAlive(s, Cell(env));
    case Release(env) => CellIsAlive(s, Retired(env));
    case AddRef(env) => CellIsAlive(s, Cell(env));
    case Undo(env) =>
    case Push(env) => CellIsAlive(s, Sampled(env));
    case Drop(env) => CellIsAlive(s, Sampled(env));
    case Take(t) => CellIsAlive(s, Slot(t));
    case Consume => CellIsAlive(s, Reading);
    case _ =>
  }

  /** A get that finds a bucket always acquires it. */
  lemma GetAcquires(run: seq<State>, k: nat, env: nat)
    requires IsRun(run) && k < |run| && Enabled(run[k], AddRef(env))
    ensures var s' := Next(run[k], AddRef(env));
            Sampled(env) in s'.at && s'.at[Sampled(env)] == run[k].pcs[env].b && s'.pcs[env] == Idle
  {
    RunKeeps(run, k);
    CellIsAlive(run[k], Cell(env));
  }

  ghost predicate DroppedOn(s: State, t: nat, b: nat) { Dropped(t) in s.at && s.at[Dropped(t)] == b }

  lemma DroppedStays(s: State, a: Action, t: nat, b: nat)
    requires Inv(s) && Enabled(s, a) && DroppedOn(s, t, b)
    ensures DroppedOn(Next(s, a), t, b)
  {
  }

  lemma DroppedThroughout(run: seq<State>, i: nat, k: nat, t: nat, b: nat)
    requires IsRun(run) && i <= k < |run| && DroppedOn(run[i], t, b)
    ensures DroppedOn(run[k], t, b)
  {
    hide Enabled, Next, Init, Inv, DroppedOn;
    var kept := s => Inv(s) && DroppedOn(s, t, b);
    forall s, s' | kept(s) && Steps(s, s')
      ensures kept(s')
    {
      var a :| Enabled(s, a) && s' == Next(s, a);
      StepKeeps(s, a);
      DroppedStays(s, a, t, b);
    }
    RunKeeps(run, i);
    Runs.Onward(run, i, k, Init, Steps, kept);
  }

  /** A sample that a full queue turned away keeps its thread's bucket for good. */
  lemma DroppedIsNeverDeleted(run: seq<State>, i: nat, k: nat, t: nat)
    requires IsRun(run) && i <= k < |run| && Dropped(t) in run[i].at
    ensures !Gone(run[k], run[i].at[Dropped(t)])
  {
    hide IsRun, Inv;
    DroppedThroughout(run, i, k, t, run[i].at[Dropped(t)]);
    RunKeeps(run, k);
    ReferredIsAlive(run[k], Dropped(t));
  }

  lemma ReferredIsAlive(s: State, p: Site)
    requires Inv(s) && p in s.at
    ensures !Gone(s, s.at[p])
  {
    CellIsAlive(s, p);
  }

  // ---- Nobody is stuck ----------------------------------------------------------------------------

  /** An owner between two operations may begin any that its cell allows; in the middle of one it can make its
      next access. The consumer can go on with the slot it has taken, or take any other. A bucket that is to be
      deleted can be. */
  lemma EveryoneGoesOn(run: seq<State>, k: nat, env: nat, b: nat, t: nat)
    requires IsRun(run) && k < |run|
    ensures var s := run[k];
            && (Quiet(s, env) && b != NULL && b !in s.refs ==> Enabled(s, New(env, b)))
            && (Quiet(s, env) && Cell(env) in s.at ==> Enabled(s, Remove(env)) && Enabled(s, Load(env)))
            && (Fresh(env) in s.at ==> Enabled(s, Insert(env)))
            && (Retired(env) in s.at ==> Enabled(s, Release(env)))
            && (env in s.pcs && s.pcs[env].Loaded? ==> Enabled(s, AddRef(env)))
            && (Sampled(env) in s.at ==> Enabled(s, Push(env)) && Enabled(s, Drop(env)))
            && (Quiet(s, env) || Fresh(env) in s.at || Retired(env) in s.at || Sampled(env) in s.at
                || (env in s.pcs && s.pcs[env].Loaded?))
            && (Reading in s.at ==> Enabled(s, Consume))
            && (Reading !in s.at && s.facing != NULL ==> Enabled(s, Clear))
            && (s.facing == NULL && Slot(t) in s.at ==> Enabled(s, Take(t)))
            && (b in s.dying ==> Enabled(s, Delete(b)))
  {
    RunKeeps(run, k);
    hide Holders;
    if Reading in run[k].at {
      CellIsAlive(run[k], Reading);
    }
    if Retired(env) in run[k].at {
      CellIsAlive(run[k], Retired(env));
    }
  }

  // ---- The one pointer that may dangle ----------------------------------------------------------

  /** The slot being popped still points to its bucket after the record has given up the reference:
      it points to one that is deleted or about to be exactly when no other place refers to that, and
      until it is cleared. */
  lemma SlotDanglesOnlyWhilePopped(run: seq<State>, k: nat)
    requires IsRun(run) && k < |run|
    ensures forall t | Slot(t) in run[k].at :: !Gone(run[k], run[k].at[Slot(t)])
    ensures forall env | Cell(env) in run[k].at :: !Gone(run[k], run[k].at[Cell(env)])
    ensures Gone(run[k], run[k].facing) <==>
              run[k].facing != NULL && forall p | p in run[k].at :: run[k].at[p] != run[k].facing
    ensures Gone(run[k], run[k].facing) ==> Enabled(run[k], Clear)
  {
    RunKeeps(run, k);
    var s := run[k];
    forall t | Slot(t) in s.at
      ensures !Gone(s, s.at[Slot(t)])
    {
      CellIsAlive(s, Slot(t));
    }
    forall env | Cell(env) in s.at
      ensures !Gone(s, s.at[Cell(env)])
    {
      CellIsAlive(s, Cell(env));
    }
    if Reading in s.at {
      CellIsAlive(s, Reading);
    }
    if s.facing != NULL {
      AliveIffReferred(s, s.facing);
    }
  }

  lemma AliveIffReferred(s: State, b: nat)
    requires Inv(s) && b in s.refs
    ensures Gone(s, b) <==> forall p | p in s.at :: s.at[p] != b
  {
    assert !Gone(s, b) ==> Holders(s.at, b) != {};
    assert forall p | p in s.at && s.at[p] == b :: p in Holders(s.at, b);
  }

  lemma Extended(run: seq<State>, a: Action) returns (longer: seq<State>)
    requires IsRun(run) && Enabled(run[|run| - 1], a)
    ensures IsRun(longer) && longer[|longer| - 1] == Next(run[|run| - 1], a)
  {
    hide Enabled, Next, Init;
    longer := run + [Next(run[|run| - 1], a)];
    Runs.Longer(run, Next(run[|run| - 1], a), Init, Steps);
  }

  /** A thread is sampled. */
  const SAMPLED := State(map[Cell(1) := 7, Slot(0) := 7], map[7 := 2], map[1 := Idle], NULL, {}, 1, [])

  lemma SampleHappens() returns (run: seq<State>)
    ensures IsRun(run) && run[|run| - 1] == SAMPLED
  {
    run := [State(map[], map[], map[], NULL, {}, 0, [])];
    assert Init(run[0]);
    run := Extended(run, New(1, 7));
    run := Extended(run, Insert(1));
    run := Extended(run, Load(1));
    run := Extended(run, AddRef(1));
    run := Extended(run, Push(1));
    assert run[|run| - 1].at == map[Cell(1) := 7, Slot(0) := 7];
  }

  /** It does happen: a thread is sampled and ends, and the consumer has just recorded its sample. */
  lemma SlotCanDangle() returns (run: seq<State>)
    ensures IsRun(run) && run[|run| - 1].facing in run[|run| - 1].deleted
  {
    run := SampleHappens();
    run := Extended(run, Take(0));
    run := Extended(run, Remove(1));
    run := Extended(run, Release(1));
    run := Extended(run, Consume);
    run := Extended(run, Delete(7));
  }
}
