/** The epoch collector that frees the tables of finished migrations: its object, with the locked
    operations and the unlocked safepoint of the signal handler, and any number of threads that use
    it in any order. A new epoch is begun in its single writes, and the unlocked safepoint may come
    between them. A table is a number; deleting it appends it to `freed`. */
module EpochGC {
  import opened Collections

  // ---- The collector's state, and what its operations do to it --------------------------------

  datatype Gc = Gc(total: int, global: int, remaining: int, recent: seq<nat>, aged: seq<nat>, freed: seq<nat>)

  function Reversed(xs: seq<nat>): seq<nat> {
    if xs == [] then [] else Reversed(xs[1..]) + [xs[0]]
  }

  function NewEpoch(g: Gc): Gc {
    Gc(g.total, g.global + 1, g.total, [], g.recent, g.freed + Reversed(g.aged))
  }

  function Bumped(g: Gc): Gc {
    if g.remaining == 0 then NewEpoch(g) else g
  }

  function Attached(g: Gc): Gc {
    g.(total := g.total + 1, remaining := g.remaining + 1)
  }

  /** A thread with local epoch `local` has seen the global one. */
  function Passed(g: Gc, local: int): Gc {
    if local < g.global then g.(remaining := g.remaining - 1) else g
  }

  function Detached(g: Gc, local: int): Gc {
    Bumped(Passed(g.(total := g.total - 1), local))
  }

  lemma {:induction false} ReversedElements(xs: seq<nat>)
    ensures |Reversed(xs)| == |xs|
    ensures forall x :: x in Reversed(xs) <==> x in xs
    ensures multiset(Reversed(xs)) == multiset(xs)
  {
    if xs != [] {
      ReversedElements(xs[1..]);
      assert xs == [xs[0]] + xs[1..];
    }
  }

  class GC {
    const EPOCH_INITIAL: int := 0xFFFF_FFFF

    var totalThreads: int
    var globalEpoch: int
    var remaining: int
    var recentGarbage: seq<nat>
    var oldGarbage: seq<nat>
    ghost var deleted: seq<nat>

    ghost function Now(): Gc
      reads this
    {
      Gc(totalThreads, globalEpoch, remaining, recentGarbage, oldGarbage, deleted)
    }

    constructor ()
      ensures Now() == Gc(0, 1, 0, [], [], [])
    {
      totalThreads, globalEpoch, remaining := 0, 1, 0;
      recentGarbage, oldGarbage, deleted := [], [], [];
    }

    /** The old garbage is deleted from the back; the recent garbage becomes the old. */
    method StartEpoch()
      modifies this
      ensures Now() == NewEpoch(old(Now()))
    {
      while oldGarbage != []
        invariant oldGarbage <= old(oldGarbage)
        invariant deleted + Reversed(oldGarbage) == old(deleted) + Reversed(old(oldGarbage))
        invariant unchanged(`totalThreads, `globalEpoch, `remaining, `recentGarbage)
      {
        PopReversed(oldGarbage);
        deleted := deleted + [oldGarbage[|oldGarbage| - 1]];
        oldGarbage := oldGarbage[..|oldGarbage| - 1];
      }
      globalEpoch := globalEpoch + 1;
      remaining := totalThreads;
      oldGarbage := recentGarbage;
      recentGarbage := [];
    }

    method AttachThread() returns (localEpoch: int)
      modifies this
      ensures Now() == Attached(old(Now())) && localEpoch == old(globalEpoch) - 1
    {
      totalThreads := totalThreads + 1;
      remaining := remaining + 1;
      localEpoch := globalEpoch - 1;
    }

    method DetachThread(localEpoch: int) returns (localEpoch': int)
      modifies this
      ensures Now() == Detached(old(Now()), localEpoch) && localEpoch' == EPOCH_INITIAL
    {
      totalThreads := totalThreads - 1;
      if localEpoch < globalEpoch {
        remaining := remaining - 1;
      }
      if remaining == 0 {
        StartEpoch();
      }
      localEpoch' := EPOCH_INITIAL;
    }

    method Safepoint(localEpoch: int) returns (localEpoch': int)
      modifies this
      ensures Now() == Bumped(Passed(old(Now()), localEpoch))
      ensures localEpoch' == if localEpoch < old(globalEpoch) then old(globalEpoch) else localEpoch
    {
      localEpoch' := localEpoch;
      if localEpoch < globalEpoch {
        localEpoch' := globalEpoch;
        remaining := remaining - 1;
      }
      if remaining == 0 {
        StartEpoch();
      }
    }

    /** The signal handler's safepoint, when nothing runs in between. */
    method SignalSafepoint(localEpoch: int) returns (localEpoch': int)
      modifies this
      ensures Now() == Passed(old(Now()), localEpoch)
      ensures localEpoch' == if localEpoch < globalEpoch then globalEpoch else localEpoch
    {
      var global := globalEpoch;
      localEpoch' := localEpoch;
      if localEpoch < global {
        remaining := remaining - 1;
        localEpoch' := global;
      }
    }

    method ScheduleDelete(table: nat)
      modifies this
      ensures Now() == old(Now()).(recent := old(recentGarbage) + [table])
    {
      recentGarbage := recentGarbage + [table];
    }

    /** The destructor leaves no garbage behind. */
    method Destroy()
      modifies this
      ensures Now().recent == [] && Now().aged == []
      ensures multiset(deleted) == multiset(old(deleted)) + multiset(old(oldGarbage)) + multiset(old(recentGarbage))
    {
      ReversedElements(oldGarbage + recentGarbage);
      oldGarbage := oldGarbage + recentGarbage;
      recentGarbage := [];
      StartEpoch();
    }
  }

  lemma {:induction false} PopReversed(xs: seq<nat>)
    requires xs != []
    ensures Reversed(xs) == [xs[|xs| - 1]] + Reversed(xs[..|xs| - 1])
  {
    if |xs| > 1 {
      PopReversed(xs[1..]);
      assert xs[1..][..|xs| - 2] == xs[..|xs| - 1][1..];
    }
  }

  // ---- Threads --------------------------------------------------------------------------------

  /** Where a thread is in the unlocked safepoint. */
  datatype Pc = Idle | Loaded(g: int) | Storing(g: int)

  /** `held` are the tables the thread has looked up since its last safepoint, as positions in `published`. */
  datatype Thread = Thread(local: int, pc: Pc, held: set<nat>)

  /** A worker that publishes table x has read `was` as the current one. It stores x next, or has done so
      as replacement number n and schedules `was` for deletion. */
  datatype Publication = Publication(x: nat, was: nat, stage: Stage)
  datatype Stage = Replacing | Scheduling(n: nat)

  /** The collector's mutex. Its holder may be about to begin an epoch, first deleting the old garbage,
      or has moved the global epoch and not set the counter yet. Operations that begin no epoch are
      over before anyone else could tell. */
  datatype Lock = Free | Due(holder: nat) | Moved(holder: nat)

  /** The garbage of `gc` is given by the numbers of the replacements that made it garbage. The rest is
      history: `published` are the tables that were ever stored as current, in order, `gone` those that
      were given up, by number of replacement; `pending` has for each number that is scheduled the threads
      attached then that have not passed a safepoint, `lost` counts the decrements between the two writes
      that begin an epoch. */
  datatype State = State(
    gc: Gc, lock: Lock, threads: map<nat, Thread>,
    current: nat, publishing: map<nat, Publication>,
    published: seq<nat>, gone: seq<nat>,
    pending: map<nat, set<nat>>, lost: nat)

  datatype Action =
    | Attach(t: nat)
    | Detach(t: nat)
    | Safepoint(t: nat)
    | DeleteOne             // new epoch: one table of the old garbage
    | Increment             //   the global epoch moves
    | Reset                 //   the counter is set, the recent garbage becomes the old
    | Load(t: nat)          // unlocked safepoint: reads the global epoch
    | Decrement(t: nat)     //   counts the thread off
    | Store(t: nat)         //   writes the local epoch
    | Acquire(t: nat)       // reads `current`
    | Publish(p: nat, x: nat)   // a migration is finished: reads `current`, which x is to replace
    | StoreRoot(p: nat)         //   stores x as `current`
    | Schedule(p: nat)          //   schedules the table it has read

  ghost predicate Init(s: State) {
    && s.gc == Gc(0, 1, 0, [], [], []) && s.lock == Free && s.threads == map[]
    && s.publishing == map[] && s.published == [s.current] && s.gone == [] && s.pending == map[] && s.lost == 0
  }

  /** A thread that begins an epoch does nothing else; its profiling signal is masked. */
  predicate Runs(s: State, t: nat) {
    t in s.threads && (s.lock.Free? || s.lock.holder != t)
  }

  predicate Enabled(s: State, a: Action) {
    match a
    case Attach(t) => s.lock.Free? && t !in s.threads
    case Detach(t) => s.lock.Free? && t in s.threads && s.threads[t].pc.Idle?
    case Safepoint(t) => s.lock.Free? && t in s.threads && s.threads[t].pc.Idle?
    case DeleteOne => s.lock.Due? && s.gc.aged != []
    case Increment => s.lock.Due? && s.gc.aged == []
    case Reset => s.lock.Moved?
    case Load(t) => Runs(s, t) && s.threads[t].pc.Idle?
    case Decrement(t) => Runs(s, t) && s.threads[t].pc.Loaded?
    case Store(t) => Runs(s, t) && s.threads[t].pc.Storing?
    case Acquire(t) => Runs(s, t) && s.threads[t].pc.Idle? && s.published != []
    case Publish(p, x) => p !in s.publishing
    case StoreRoot(p) => p in s.publishing && s.publishing[p].stage.Replacing?
    case Schedule(p) => s.lock.Free? && p in s.publishing && s.publishing[p].stage.Scheduling?
  }

  function Without(pending: map<nat, set<nat>>, t: nat): map<nat, set<nat>> {
    map x | x in pending :: pending[x] - {t}
  }

  /** Thread t is counted off, if it was still counted, and forgets the tables it has looked up. */
  function PassWith(s: State, t: nat, after: Thread): State
    requires t in s.threads
  {
    s.(gc := Passed(s.gc, s.threads[t].local), threads := s.threads[t := after],
       pending := if s.threads[t].local < s.gc.global then Without(s.pending, t) else s.pending)
  }

  function Leave(s: State, t: nat): State
    requires t in s.threads
  {
    s.(gc := Passed(s.gc.(total := s.gc.total - 1), s.threads[t].local), threads := s.threads - {t},
       pending := Without(s.pending, t))
  }

  /** Thread t has read the counter, and begins an epoch if nobody is left. */
  function Checked(s: State, t: nat): State {
    s.(lock := if s.gc.remaining == 0 then Due(t) else Free)
  }

  function Raised(s: State, t: nat): Thread
    requires t in s.threads
  {
    Thread(if s.threads[t].local < s.gc.global then s.gc.global else s.threads[t].local, Idle, {})
  }

  function Next(s: State, a: Action): State
    requires Enabled(s, a)
  {
    match a
    case Attach(t) =>
      s.(gc := Attached(s.gc), threads := s.threads[t := Thread(s.gc.global - 1, Idle, {})])
    case Detach(t) => Checked(Leave(s, t), t)
    case Safepoint(t) => Checked(PassWith(s, t, Raised(s, t)), t)
    case DeleteOne =>
      var n := |s.gc.aged| - 1;
      s.(gc := s.gc.(aged := s.gc.aged[..n], freed := s.gc.freed + [s.gc.aged[n]]))
    case Increment => s.(gc := s.gc.(global := s.gc.global + 1), lock := Moved(s.lock.holder))
    case Reset => s.(gc := s.gc.(remaining := s.gc.total, aged := s.gc.recent, recent := []), lock := Free)
    case Load(t) =>
      var th := s.threads[t];
      s.(threads := s.threads[t := Thread(th.local, if th.local < s.gc.global then Loaded(s.gc.global) else Idle, {})])
    case Decrement(t) =>
      var th := s.threads[t];
      s.(gc := s.gc.(remaining := s.gc.remaining - 1), threads := s.threads[t := th.(pc := Storing(th.pc.g))],
         pending := Without(s.pending, t), lost := s.lost + if s.lock.Moved? then 1 else 0)
    case Store(t) =>
      var th := s.threads[t];
      s.(threads := s.threads[t := Thread(th.pc.g, Idle, th.held)])
    case Acquire(t) =>
      s.(threads := s.threads[t := s.threads[t].(held := s.threads[t].held + {|s.published| - 1})])
    case Publish(p, x) => s.(publishing := s.publishing[p := Publication(x, s.current, Replacing)])
    case StoreRoot(p) =>
      var pub := s.publishing[p];
      s.(current := pub.x, publishing := s.publishing[p := pub.(stage := Scheduling(|s.gone|))],
         published := s.published + [pub.x], gone := s.gone + [pub.was])
    case Schedule(p) =>
      var n := s.publishing[p].stage.n;
      s.(gc := s.gc.(recent := s.gc.recent + [n]), publishing := s.publishing - {p},
         pending := s.pending[n := s.threads.Keys])
  }

  // ---- The invariant --------------------------------------------------------------------------

  predicate Reached(th: Thread, global: int) {
    th.local == global || th.pc == Storing(global)
  }

  function Behind(threads: map<nat, Thread>, global: int): set<nat> {
    set t | t in threads && !Reached(threads[t], global)
  }

  /** The counter is what it should be, plus the decrements that were overwritten. */
  ghost predicate Counted(s: State) {
    && s.gc.total == |s.threads|
    && (if s.lock.Moved? then s.gc.total else s.gc.remaining) == |Behind(s.threads, s.gc.global)| + s.lost
    && (!s.lock.Free? ==> s.gc.remaining == if s.lock.Moved? then -(s.lost as int) else 0)
  }

  ghost predicate ThreadOk(th: Thread, global: int) {
    && th.local <= global
    && (th.pc.Loaded? ==> th.pc.g == global && th.local < global)
    && (th.pc.Storing? ==> th.local < th.pc.g <= global)
    && (!th.pc.Idle? ==> th.held == {})
  }

  ghost predicate Epochs(s: State) {
    forall t | t in s.threads :: ThreadOk(s.threads[t], s.gc.global)
  }

  /** A replacement is in one of the collector's lists at most, and there once. */
  ghost predicate Apart(s: State) {
    && NoRepeats(s.gc.recent) && NoRepeats(s.gc.aged) && NoRepeats(s.gc.freed)
    && (forall n | n in s.gc.recent :: n !in s.gc.aged && n !in s.gc.freed)
    && (forall n | n in s.gc.aged :: n !in s.gc.freed)
    && (s.lock.Moved? ==> s.gc.aged == [])
  }

  ghost predicate Graced(s: State) {
    && (forall n | n in s.pending :: s.pending[n] <= s.threads.Keys)
    && (forall n | n in s.gc.recent || n in s.gc.aged || n in s.gc.freed :: n in s.pending)
    && (forall n | n in s.gc.aged && n in s.pending :: s.pending[n] <= Behind(s.threads, s.gc.global))
    && (forall n | n in s.gc.freed && n in s.pending :: s.pending[n] == {})
    && (s.lock.Moved? ==> forall n | n in s.gc.recent && n in s.pending :: s.pending[n] <= Behind(s.threads, s.gc.global))
  }

  /** A table a thread still uses has not been scheduled since, or waits for that thread. */
  ghost predicate Safe(s: State) {
    forall t, i | t in s.threads && i in s.threads[t].held :: HeldOk(s, t, i)
  }

  predicate HeldOk(s: State, t: nat, i: nat) {
    i < |s.published| && (i in s.pending ==> t in s.pending[i])
  }

  /** Every replacement is about to be scheduled by the worker that made it, or scheduled. */
  ghost predicate Numbered(s: State) {
    && |s.published| == |s.gone| + 1 && s.current == s.published[|s.gone|]
    && (forall p | p in s.publishing :: PublicationOk(s, s.publishing[p]))
    && (forall p, q | p in s.publishing && q in s.publishing && p != q && s.publishing[p].stage.Scheduling? ::
          s.publishing[q].stage != s.publishing[p].stage)
    && (forall n | n in s.pending :: n < |s.gone| && (n in s.gc.recent || n in s.gc.aged || n in s.gc.freed))
    && (forall n: nat | n < |s.gone| && n !in s.pending ::
          exists p :: p in s.publishing && s.publishing[p].stage == Scheduling(n))
  }

  ghost predicate PublicationOk(s: State, pub: Publication) {
    match pub.stage
    case Replacing => pub.was in s.published
    case Scheduling(n) => n < |s.gone| && s.gone[n] == pub.was && n !in s.pending
  }

  /** Each table stored as current took the place of the one its worker had read. */
  predicate Orderly(s: State) { s.gone + [s.current] == s.published }

  /** If not, some table was given up twice. */
  ghost predicate Disorder(s: State) {
    !Orderly(s) ==> exists i, j :: 0 <= i < j < |s.gone| && s.gone[i] == s.gone[j]
  }

  ghost predicate Inv(s: State) {
    Counted(s) && Epochs(s) && Apart(s) && Graced(s) && Safe(s) && Numbered(s) && Disorder(s)
  }

  lemma InitInv(s: State)
    requires Init(s)
    ensures Inv(s)
  {
    assert Behind(s.threads, s.gc.global) == {};
  }

  // ---- Every step keeps it --------------------------------------------------------------------

  lemma CardWithout(a: set<nat>, t: nat)
    ensures |a - {t}| == |a| - if t in a then 1 else 0
    ensures |a - {t} + {t}| == |a| + if t in a then 0 else 1
  {
    if t in a {
      assert a == (a - {t}) + {t};
    } else {
      assert a - {t} == a;
    }
  }

  function BehindOne(th: Thread, global: int): int {
    if Reached(th, global) then 0 else 1
  }

  function BehindAt(threads: map<nat, Thread>, global: int, t: nat): int {
    if t in threads then BehindOne(threads[t], global) else 0
  }

  lemma BehindElements(threads: map<nat, Thread>, global: int, t: nat, th: Thread)
    ensures Behind(threads[t := th], global) - {t} == Behind(threads, global) - {t}
    ensures t in Behind(threads[t := th], global) <==> BehindOne(th, global) == 1
    ensures t in Behind(threads, global) <==> BehindAt(threads, global, t) == 1
  {
  }

  lemma BehindSet(threads: map<nat, Thread>, global: int, t: nat, th: Thread)
    ensures |Behind(threads[t := th], global)| ==
            |Behind(threads, global)| - BehindAt(threads, global, t) + BehindOne(th, global)
    ensures |threads[t := th]| == |threads| + if t in threads then 0 else 1
  {
    BehindElements(threads, global, t, th);
    hide Behind;
    CardWithout(Behind(threads, global), t);
    CardWithout(Behind(threads[t := th], global), t);
    CardWithout(threads.Keys, t);
    assert threads[t := th].Keys == threads.Keys - {t} + {t};
  }

  lemma BehindDrop(threads: map<nat, Thread>, global: int, t: nat)
    requires t in threads
    ensures Behind(threads - {t}, global) == Behind(threads, global) - {t}
    ensures |Behind(threads - {t}, global)| == |Behind(threads, global)| - BehindAt(threads, global, t)
    ensures |threads - {t}| == |threads| - 1 && (threads - {t}).Keys == threads.Keys - {t}
  {
    assert (threads - {t}).Keys == threads.Keys - {t};
    CardWithout(Behind(threads, global), t);
    CardWithout(threads.Keys, t);
    assert t in Behind(threads, global) <==> BehindAt(threads, global, t) == 1;
  }

  /** Whoever is about to begin an epoch has seen everybody reach the global one. */
  lemma DueReached(s: State)
    requires Counted(s) && s.lock.Due?
    ensures s.lost == 0 && Behind(s.threads, s.gc.global) == {}
    ensures forall t | t in s.threads :: Reached(s.threads[t], s.gc.global)
  {
    assert forall t | t in s.threads :: Reached(s.threads[t], s.gc.global) || t in Behind(s.threads, s.gc.global);
  }

  lemma CheckedKeeps(s: State, t: nat)
    requires Inv(s) && s.lock.Free?
    ensures Inv(Checked(s, t))
  {
    var s' := Checked(s, t);
    assert Counted(s') && Epochs(s') && Apart(s') && Graced(s') by {
      hide Behind, Numbered, Disorder, Safe;
    }
    hide Behind, Numbered, Disorder, Safe, Counted, Epochs, Apart, Graced;
    NumbersKept(s, s');
  }

  lemma DeleteKeeps(s: State)
    requires Inv(s) && Enabled(s, DeleteOne)
    ensures Inv(Next(s, DeleteOne))
  {
    DueReached(s);
    var s' := Next(s, DeleteOne);
    var n := |s.gc.aged| - 1;
    assert s.gc.aged == s.gc.aged[..n] + [s.gc.aged[n]];
    SameCounts(s, s');
    DeleteRest(s);
    hide Behind, Counted, Graced, Apart, Numbered, Disorder, Safe;
    NumbersKept(s, s');
  }

  lemma DeleteRest(s: State)
    requires Apart(s) && Graced(s) && Enabled(s, DeleteOne) && Behind(s.threads, s.gc.global) == {}
    ensures Apart(Next(s, DeleteOne)) && Graced(Next(s, DeleteOne))
  {
    hide Behind;
    var n := |s.gc.aged| - 1;
    assert s.gc.aged[n] in s.gc.aged && s.gc.aged[n] !in s.gc.aged[..n];
  }

  lemma SameCounts(s: State, s': State)
    requires Counted(s) && s'.threads == s.threads && s'.lock == s.lock && s'.lost == s.lost
    requires s'.gc.total == s.gc.total && s'.gc.remaining == s.gc.remaining && s'.gc.global == s.gc.global
    ensures Counted(s')
  {
  }

  lemma IncrementKeeps(s: State)
    requires Inv(s) && Enabled(s, Increment)
    ensures Inv(Next(s, Increment))
  {
    EverybodyBehind(s);
    var s' := Next(s, Increment);
    assert Counted(s') && Apart(s') && Graced(s') by {
      hide Behind, Numbered, Disorder, Safe, Epochs;
    }
    hide Behind, Numbered, Disorder, Safe, Counted, Apart, Graced;
    NumbersKept(s, s');
  }

  /** When the global epoch moves on, everybody is behind it. */
  lemma EverybodyBehind(s: State)
    requires Counted(s) && Epochs(s) && s.lock.Due?
    ensures s.lost == 0 && Behind(s.threads, s.gc.global + 1) == s.threads.Keys && |s.threads.Keys| == |s.threads|
    ensures forall t | t in s.threads :: ThreadOk(s.threads[t], s.gc.global + 1)
  {
    DueReached(s);
    forall t | t in s.threads
      ensures !Reached(s.threads[t], s.gc.global + 1) && ThreadOk(s.threads[t], s.gc.global + 1)
    {
      assert ThreadOk(s.threads[t], s.gc.global);
    }
  }

  lemma ResetKeeps(s: State)
    requires Inv(s) && Enabled(s, Reset)
    ensures Inv(Next(s, Reset))
  {
    var s' := Next(s, Reset);
    assert Counted(s') && Epochs(s') && Apart(s') && Graced(s') by {
      hide Behind, Numbered, Disorder, Safe;
    }
    assert s.gc.aged == [];
    hide Behind, Numbered, Disorder, Safe, Counted, Epochs, Apart, Graced;
    NumbersKept(s, s');
  }

  /** What changes when only thread t moves: its state, what it holds, and whom the garbage waits for. */
  lemma ThreadKeeps(s: State, s': State, t: nat, th: Thread)
    requires Inv(s) && s'.threads == s.threads[t := th]
    requires s'.gc == s.gc.(total := s'.gc.total, remaining := s'.gc.remaining)
    requires s'.gc.total == s.gc.total + if t in s.threads then 0 else 1
    requires s'.gc.remaining ==
             s.gc.remaining - BehindAt(s.threads, s.gc.global, t) + BehindOne(th, s.gc.global)
    requires s'.lock == s.lock && (t in s.threads || s.lock.Free?)
    requires s.lock.Due? ==> BehindAt(s.threads, s.gc.global, t) == BehindOne(th, s.gc.global)
    requires s'.lost == s.lost +
             if s.lock.Moved? then BehindAt(s.threads, s.gc.global, t) - BehindOne(th, s.gc.global) else 0
    requires ThreadOk(th, s.gc.global)
    requires s'.current == s.current && s'.publishing == s.publishing && s'.published == s.published && s'.gone == s.gone
    requires (s'.pending == Without(s.pending, t) && th.held == {})
             || (s'.pending == s.pending
                 && BehindAt(s.threads, s.gc.global, t) <= BehindOne(th, s.gc.global)
                 && (forall i | i in th.held :: i == |s.published| - 1 || (t in s.threads && i in s.threads[t].held)))
    ensures Inv(s')
  {
    hide Behind, Reached, ThreadOk, BehindAt, BehindOne, Numbered, Disorder;
    BehindSet(s.threads, s.gc.global, t, th);
    assert Counted(s') && Epochs(s') && Apart(s');
    ThreadGraced(s, s', t, th);
    LastNotPending(s);
    ThreadSafe(s, s', t, th);
    NumbersKept(s, s');
  }

  lemma LastNotPending(s: State)
    requires Numbered(s)
    ensures |s.published| > 0 && |s.published| - 1 !in s.pending
  {
  }

  /** Nothing happens to replacements, except that threads are no longer waited for. */
  lemma NumbersKept(s: State, s': State)
    requires Numbered(s) && Disorder(s)
    requires s'.current == s.current && s'.publishing == s.publishing && s'.published == s.published && s'.gone == s.gone
    requires s'.pending.Keys == s.pending.Keys
    requires forall n :: n in s.gc.recent || n in s.gc.aged || n in s.gc.freed ==>
               n in s'.gc.recent || n in s'.gc.aged || n in s'.gc.freed
    ensures Numbered(s') && Disorder(s')
    ensures s'.threads == s.threads && s'.pending == s.pending && Safe(s) ==> Safe(s')
  {
    forall p | p in s'.publishing
      ensures PublicationOk(s', s'.publishing[p])
    {
      assert PublicationOk(s, s.publishing[p]);
    }
  }

  lemma ThreadGraced(s: State, s': State, t: nat, th: Thread)
    requires Graced(s) && s'.threads == s.threads[t := th] && s'.lock == s.lock
    requires s'.gc == s.gc.(total := s'.gc.total, remaining := s'.gc.remaining)
    requires s'.pending == Without(s.pending, t)
             || (s'.pending == s.pending && BehindAt(s.threads, s.gc.global, t) <= BehindOne(th, s.gc.global))
    ensures Graced(s')
  {
    assert forall u | u != t && u in Behind(s.threads, s.gc.global) :: u in Behind(s'.threads, s.gc.global);
    assert forall x | x in s'.pending :: s'.pending[x] <= s.pending[x];
  }

  lemma ThreadSafe(s: State, s': State, t: nat, th: Thread)
    requires Safe(s) && s'.threads == s.threads[t := th] && s'.published == s.published
    requires |s.published| > 0 && |s.published| - 1 !in s.pending
    requires (s'.pending == Without(s.pending, t) && th.held == {})
             || (s'.pending == s.pending
                 && (forall i | i in th.held :: i == |s.published| - 1 || (t in s.threads && i in s.threads[t].held)))
    ensures Safe(s')
  {
    forall u, i | u in s'.threads && i in s'.threads[u].held
      ensures HeldOk(s', u, i)
    {
      assert u in s.threads && i in s.threads[u].held ==> HeldOk(s, u, i);
    }
  }

  lemma PassKeeps(s: State, t: nat)
    requires Inv(s) && t in s.threads && s.threads[t].pc.Idle? && s.lock.Free?
    ensures Inv(PassWith(s, t, Raised(s, t))) && PassWith(s, t, Raised(s, t)).lock.Free?
  {
    hide Counted, Apart, Graced, Safe, Numbered, Disorder;
    assert ThreadOk(s.threads[t], s.gc.global);
    ThreadKeeps(s, PassWith(s, t, Raised(s, t)), t, Raised(s, t));
  }

  lemma AttachKeeps(s: State, t: nat)
    requires Inv(s) && Enabled(s, Attach(t))
    ensures Inv(Next(s, Attach(t)))
  {
    hide Counted, Apart, Graced, Safe, Numbered, Disorder;
    ThreadKeeps(s, Next(s, Attach(t)), t, Thread(s.gc.global - 1, Idle, {}));
  }

  lemma SignalKeeps(s: State, a: Action)
    requires Inv(s) && Enabled(s, a) && (a.Load? || a.Decrement? || a.Store?)
    ensures Inv(Next(s, a))
  {
    if s.lock.Due? {
      DueReached(s);
    }
    hide Counted, Apart, Graced, Safe, Numbered, Disorder;
    assert ThreadOk(s.threads[a.t], s.gc.global);
    ThreadKeeps(s, Next(s, a), a.t, Next(s, a).threads[a.t]);
  }

  lemma AcquireKeeps(s: State, t: nat)
    requires Inv(s) && Enabled(s, Acquire(t))
    ensures Inv(Next(s, Acquire(t)))
  {
    hide Counted, Apart, Graced, Safe, Numbered, Disorder;
    assert ThreadOk(s.threads[t], s.gc.global);
    ThreadKeeps(s, Next(s, Acquire(t)), t, Next(s, Acquire(t)).threads[t]);
  }

  lemma LeaveKeeps(s: State, t: nat)
    requires Inv(s) && t in s.threads && s.threads[t].pc.Idle? && s.lock.Free?
    ensures Inv(Leave(s, t)) && Leave(s, t).lock.Free?
  {
    LeaveWaits(s, t);
    LeaveCounts(s, t);
    hide Behind, Graced, Safe, Numbered, Disorder, Counted;
    NumbersKept(s, Leave(s, t));
  }

  lemma LeaveCounts(s: State, t: nat)
    requires Counted(s) && t in s.threads && ThreadOk(s.threads[t], s.gc.global) && s.threads[t].pc.Idle? && s.lock.Free?
    ensures Counted(Leave(s, t))
  {
    hide Behind;
    BehindDrop(s.threads, s.gc.global, t);
  }

  lemma LeaveWaits(s: State, t: nat)
    requires Graced(s) && Safe(s) && t in s.threads && s.lock.Free?
    ensures Graced(Leave(s, t)) && Safe(Leave(s, t))
  {
    hide Behind;
    BehindDrop(s.threads, s.gc.global, t);
  }

  lemma PublishKeeps(s: State, p: nat, x: nat)
    requires Inv(s) && Enabled(s, Publish(p, x))
    ensures Inv(Next(s, Publish(p, x)))
  {
    hide Counted, Epochs, Apart, Graced, Safe;
    var s' := Next(s, Publish(p, x));
    SameRest(s, s');
    forall n: nat | n < |s.gone| && n !in s.pending
      ensures exists q :: q in s'.publishing && s'.publishing[q].stage == Scheduling(n)
    {
      var q :| q in s.publishing && s.publishing[q].stage == Scheduling(n);
      assert s'.publishing[q].stage == Scheduling(n);
    }
  }

  lemma SameRest(s: State, s': State)
    requires s'.gc == s.gc && s'.lock == s.lock && s'.threads == s.threads && s'.pending == s.pending && s'.lost == s.lost
    requires s.published <= s'.published
    ensures Counted(s) ==> Counted(s')
    ensures Epochs(s) ==> Epochs(s')
    ensures Apart(s) ==> Apart(s')
    ensures Graced(s) ==> Graced(s')
    ensures Safe(s) ==> Safe(s')
  {
  }

  lemma StoreRootKeeps(s: State, p: nat)
    requires Inv(s) && Enabled(s, StoreRoot(p))
    ensures Inv(Next(s, StoreRoot(p)))
  {
    StoreRootNumbers(s, p);
    StoreRootDisorder(s, p);
    hide Counted, Epochs, Apart, Graced, Safe, Disorder, Numbered;
    SameRest(s, Next(s, StoreRoot(p)));
  }

  lemma StoreRootNumbers(s: State, p: nat)
    requires Numbered(s) && Enabled(s, StoreRoot(p))
    ensures Numbered(Next(s, StoreRoot(p)))
  {
    var s' := Next(s, StoreRoot(p));
    assert PublicationOk(s, s.publishing[p]);
    forall q | q in s'.publishing
      ensures PublicationOk(s', s'.publishing[q])
    {
      assert PublicationOk(s, s.publishing[q]);
    }
    forall n: nat | n < |s'.gone| && n !in s'.pending
      ensures exists q :: q in s'.publishing && s'.publishing[q].stage == Scheduling(n)
    {
      if n == |s.gone| {
        assert s'.publishing[p].stage == Scheduling(n);
      } else {
        var q :| q in s.publishing && s.publishing[q].stage == Scheduling(n);
        assert s'.publishing[q].stage == Scheduling(n);
      }
    }
  }

  /** A store that replaces another table than the one read gives that one up a second time. */
  lemma StoreRootDisorder(s: State, p: nat)
    requires Disorder(s) && Numbered(s) && Enabled(s, StoreRoot(p))
    ensures Disorder(Next(s, StoreRoot(p)))
    ensures Orderly(s) ==> (Orderly(Next(s, StoreRoot(p))) <==> s.publishing[p].was == s.current)
    ensures !Orderly(s) ==> !Orderly(Next(s, StoreRoot(p)))
  {
    var s' := Next(s, StoreRoot(p));
    var was := s.publishing[p].was;
    assert PublicationOk(s, s.publishing[p]);
    if Orderly(s) {
      assert s.published == s.gone + [s.current];
      if was != s.current {
        assert was in s.gone;
        var i :| 0 <= i < |s.gone| && s.gone[i] == was;
        assert s'.gone[i] == s'.gone[|s.gone|];
        assert s'.published[|s.gone|] == s.current;
      }
    } else {
      var i, j :| 0 <= i < j < |s.gone| && s.gone[i] == s.gone[j];
      assert s'.gone[i] == s'.gone[j];
      assert s'.gone + [s'.current] == s'.published ==> s.gone + [s.current] == s.published by {
        assert (s'.gone + [s'.current])[..|s.gone|] == s.gone && s'.published[..|s.gone| + 1] == s.published;
        assert s.published == s.published[..|s.gone|] + [s.current];
      }
    }
  }

  lemma ScheduleKeeps(s: State, p: nat)
    requires Inv(s) && Enabled(s, Schedule(p))
    ensures Inv(Next(s, Schedule(p)))
  {
    ScheduleNumbers(s, p);
    ScheduleRest(s, p);
  }

  lemma ScheduleRest(s: State, p: nat)
    requires Inv(s) && Enabled(s, Schedule(p))
    ensures var s' := Next(s, Schedule(p)); Counted(s') && Epochs(s') && Apart(s') && Graced(s') && Safe(s')
  {
    assert PublicationOk(s, s.publishing[p]);
    var s' := Next(s, Schedule(p));
    SameCounts(s, s');
    assert Epochs(s');
    var n := s.publishing[p].stage.n;
    assert Apart(s) && Graced(s) && Safe(s) && n !in s.pending;
    hide Inv, Counted, Epochs, Numbered, Disorder, Behind;
    OneMoreGarbage(s, s', n);
  }

  lemma OneMoreGarbage(s: State, s': State, n: nat)
    requires Apart(s) && Graced(s) && Safe(s) && s.lock.Free? && n !in s.pending
    requires s' == s.(gc := s.gc.(recent := s.gc.recent + [n]), publishing := s'.publishing, pending := s.pending[n := s.threads.Keys])
    ensures Apart(s') && Graced(s') && Safe(s')
  {
    hide Behind;
    assert n !in s.gc.recent;
  }

  lemma ScheduleNumbers(s: State, p: nat)
    requires Numbered(s) && Disorder(s) && Enabled(s, Schedule(p))
    ensures Numbered(Next(s, Schedule(p))) && Disorder(Next(s, Schedule(p)))
  {
    var s' := Next(s, Schedule(p));
    assert PublicationOk(s, s.publishing[p]);
    forall q | q in s'.publishing
      ensures PublicationOk(s', s'.publishing[q])
    {
      assert PublicationOk(s, s.publishing[q]);
    }
    forall n: nat | n < |s'.gone| && n !in s'.pending
      ensures exists q :: q in s'.publishing && s'.publishing[q].stage == Scheduling(n)
    {
      var q :| q in s.publishing && s.publishing[q].stage == Scheduling(n);
      assert q != p && s'.publishing[q].stage == Scheduling(n);
    }
  }

  lemma StepKeeps(s: State, a: Action)
    requires Inv(s) && Enabled(s, a)
    ensures Inv(Next(s, a))
  {
    hide Inv, Checked, Leave, PassWith;
    match a
    case Attach(t) => AttachKeeps(s, t);
    case Detach(t) => LeaveKeeps(s, t); CheckedKeeps(Leave(s, t), t);
    case Safepoint(t) => PassKeeps(s, t); CheckedKeeps(PassWith(s, t, Raised(s, t)), t);
    case DeleteOne => DeleteKeeps(s);
    case Increment => IncrementKeeps(s);
    case Reset => ResetKeeps(s);
    case Acquire(t) => AcquireKeeps(s, t);
    case Publish(p, x) => PublishKeeps(s, p, x);
    case StoreRoot(p) => StoreRootKeeps(s, p);
    case Schedule(p) => ScheduleKeeps(s, p);
    case _ => SignalKeeps(s, a);
  }

  // ---- Runs -----------------------------------------------------------------------------------

  ghost predicate IsTrace(states: seq<State>, acts: seq<Action>) {
    && |states| == |acts| + 1 && Init(states[0])
    && forall k {:trigger acts[k]} | 0 <= k < |acts| :: Enabled(states[k], acts[k]) && states[k + 1] == Next(states[k], acts[k])
  }

  lemma {:induction false} TraceKeeps(states: seq<State>, acts: seq<Action>, k: nat)
    requires IsTrace(states, acts) && k < |states|
    ensures Inv(states[k])
  {
    hide Inv, Next, Enabled, Init;
    if k == 0 {
      InitInv(states[0]);
    } else {
      TraceKeeps(states, acts, k - 1);
      assert Enabled(states[k - 1], acts[k - 1]);
      StepKeeps(states[k - 1], acts[k - 1]);
    }
  }

  /** The attached threads that have not reached the global epoch. */
  function Late(s: State): set<nat> {
    set t | t in s.threads && s.threads[t].local != s.gc.global && s.threads[t].pc != Storing(s.gc.global)
  }

  /** Except between the two writes that begin an epoch, `remaining` is the number of late threads plus
      the decrements that ever fell between such writes, so it is never too small, and it is exact
      exactly when there was none. Between the writes it is minus that number. */
  lemma RemainingCounts(states: seq<State>, acts: seq<Action>, k: nat)
    requires IsTrace(states, acts) && k < |states|
    ensures var s := states[k];
            if s.lock.Moved? then s.gc.remaining == -(s.lost as int)
            else s.gc.remaining == |Late(s)| + s.lost && (s.gc.remaining == |Late(s)| <==> s.lost == 0)
  {
    TraceKeeps(states, acts, k);
    assert Behind(states[k].threads, states[k].gc.global) == Late(states[k]);
  }

  // ---- Publications ---------------------------------------------------------------------------

  /** The tables behind replacement numbers. */
  function Tables(s: State, ns: seq<nat>): (xs: seq<nat>)
    requires forall n | n in ns :: n < |s.gone|
    ensures |xs| == |ns| && forall j | 0 <= j < |ns| :: ns[j] in ns && xs[j] == s.gone[ns[j]]
  {
    seq(|ns|, j requires 0 <= j < |ns| => assert ns[j] in ns; s.gone[ns[j]])
  }

  lemma GarbageNumbers(s: State)
    requires Inv(s)
    ensures forall n | n in s.gc.recent || n in s.gc.aged || n in s.gc.freed :: n < |s.gone|
  {
    hide Counted, Epochs, Apart, Safe, Disorder;
  }

  /** Every publication so far stored its table in place of the one it had read, and no table was
      published twice. */
  ghost predicate WellPublished(s: State) { Orderly(s) && NoRepeats(s.published) }

  /** What a publication can check before it stores: the table it has read is still current, and the one
      it stores was never published. Exactly then it leaves the condition intact; and once broken, it
      stays so. */
  lemma WellPublishedStep(s: State, a: Action)
    requires Inv(s) && Enabled(s, a)
    ensures WellPublished(Next(s, a)) <==>
              WellPublished(s)
              && (a.StoreRoot? ==> s.publishing[a.p].was == s.current && s.publishing[a.p].x !in s.published)
  {
    hide Counted, Epochs, Apart, Graced, Safe, Orderly, NoRepeats, Disorder;
    var s' := Next(s, a);
    if a.StoreRoot? {
      StoreRootDisorder(s, a.p);
      OneMore(s.published, s.publishing[a.p].x);
    } else {
      SameOrder(s, s');
    }
  }

  lemma SameOrder(s: State, s': State)
    requires s'.published == s.published && s'.gone == s.gone && s'.current == s.current
    ensures Orderly(s') <==> Orderly(s)
  {
  }

  lemma OneMore(xs: seq<nat>, x: nat)
    ensures NoRepeats(xs + [x]) <==> NoRepeats(xs) && x !in xs
  {
    if NoRepeats(xs + [x]) {
      assert forall i | 0 <= i < |xs| :: (xs + [x])[i] == xs[i] && (xs + [x])[|xs|] == x;
    }
  }

  /** Nobody has read the current table and not stored yet. */
  predicate NobodyReplaces(s: State) {
    forall p | p in s.publishing :: !s.publishing[p].stage.Replacing?
  }

  ghost predicate InTurn(s: State) {
    && WellPublished(s)
    && forall p | p in s.publishing && s.publishing[p].stage.Replacing? ::
         s.publishing[p].was == s.current && s.publishing[p].x !in s.published
         && forall q | q in s.publishing && q != p :: !s.publishing[q].stage.Replacing?
  }

  lemma InTurnStep(s: State, a: Action)
    requires Inv(s) && Enabled(s, a) && InTurn(s)
    requires a.Publish? ==> NobodyReplaces(s) && a.x !in s.published
    ensures InTurn(Next(s, a))
  {
    WellPublishedStep(s, a);
    hide Inv, WellPublished;
  }

  /** It holds when publications come one after the other, each of a table that was never published: as when
      every migration is published once, since the next one starts from the table it has published. */
  lemma {:induction false} PublishedInTurn(states: seq<State>, acts: seq<Action>, k: nat)
    requires IsTrace(states, acts) && k < |states|
    requires forall j | 0 <= j < k && acts[j].Publish? :: NobodyReplaces(states[j]) && acts[j].x !in states[j].published
    ensures InTurn(states[k])
  {
    hide Inv, Next, Enabled, InTurn, NobodyReplaces, Init;
    if k > 0 {
      PublishedInTurn(states, acts, k - 1);
      TraceKeeps(states, acts, k - 1);
      assert Enabled(states[k - 1], acts[k - 1]);
      InTurnStep(states[k - 1], acts[k - 1]);
    } else {
      StartsInTurn(states[0]);
    }
  }

  lemma StartsInTurn(s: State)
    requires Init(s)
    ensures InTurn(s)
  {
  }

  /** The condition says the same as that no table is given up twice and the current one never is. */
  lemma WellPublishedMeans(states: seq<State>, acts: seq<Action>, k: nat)
    requires IsTrace(states, acts) && k < |states|
    ensures WellPublished(states[k]) <==> NoRepeats(states[k].gone + [states[k].current])
  {
    TraceKeeps(states, acts, k);
    WellPublishedIff(states[k]);
  }

  lemma WellPublishedIff(s: State)
    requires Disorder(s)
    ensures WellPublished(s) <==> NoRepeats(s.gone + [s.current])
  {
    if !Orderly(s) {
      var i, j :| 0 <= i < j < |s.gone| && s.gone[i] == s.gone[j];
      var all := s.gone + [s.current];
      assert all[i] == all[j];
    }
  }

  /** As long as it holds, no thread has a deleted table in its hands, nor can it get one. */
  lemma NothingInUseIsFreed(states: seq<State>, acts: seq<Action>, k: nat)
    requires IsTrace(states, acts) && k < |states| && WellPublished(states[k])
    ensures var s := states[k];
            && (forall n | n in s.gc.freed :: n < |s.gone| && s.gone[n] != s.current)
            && (forall t, i | t in s.threads && i in s.threads[t].held ::
                  i < |s.published| && forall n | n in s.gc.freed :: s.gone[n] != s.published[i])
  {
    TraceKeeps(states, acts, k);
    var s := states[k];
    GarbageNumbers(s);
    FreedAreOthers(s);
    assert Numbered(s) && Graced(s) && Safe(s);
    hide Inv, Orderly, NoRepeats, Numbered, Graced, Safe;
    forall t, i | t in s.threads && i in s.threads[t].held
      ensures i < |s.published| && forall n | n in s.gc.freed :: s.gone[n] != s.published[i]
    {
      HeldIsAlive(s, t, i);
    }
  }

  lemma FreedAreOthers(s: State)
    requires Numbered(s) && WellPublished(s) && forall n | n in s.gc.freed :: n < |s.gone|
    ensures forall n | n in s.gc.freed :: s.gone[n] != s.current
  {
    forall n | n in s.gc.freed
      ensures s.gone[n] != s.current
    {
      assert s.published[n] == (s.gone + [s.current])[n];
    }
  }

  lemma HeldIsAlive(s: State, t: nat, i: nat)
    requires Numbered(s) && Graced(s) && Safe(s) && WellPublished(s) && t in s.threads && i in s.threads[t].held
    ensures i < |s.published| && forall n | n in s.gc.freed :: n < |s.gone| && s.gone[n] != s.published[i]
  {
    assert HeldOk(s, t, i);
    forall n | n in s.gc.freed
      ensures n < |s.gone| && s.gone[n] != s.published[i]
    {
      assert n in s.pending && s.pending[n] == {} && n != i;
      assert s.published[n] == (s.gone + [s.current])[n];
    }
  }

  /** Every replacement is carried out at most once, and is in one list at most. So a table is deleted at
      most once as long as the condition holds. */
  lemma FreedOnce(states: seq<State>, acts: seq<Action>, k: nat)
    requires IsTrace(states, acts) && k < |states|
    ensures var s := states[k];
            var all := s.gc.recent + s.gc.aged + s.gc.freed;
            && NoRepeats(all) && (forall n | n in all :: n < |s.gone|)
            && (WellPublished(s) ==> NoRepeats(Tables(s, all)))
  {
    TraceKeeps(states, acts, k);
    var s := states[k];
    GarbageNumbers(s);
    AllApart(s);
    if WellPublished(s) {
      WellPublishedIff(s);
      TablesApart(s, s.gc.recent + s.gc.aged + s.gc.freed);
    }
  }

  lemma AllApart(s: State)
    requires Apart(s)
    ensures NoRepeats(s.gc.recent + s.gc.aged + s.gc.freed)
  {
    Joined(s.gc.recent, s.gc.aged);
    Joined(s.gc.recent + s.gc.aged, s.gc.freed);
  }

  lemma Joined(xs: seq<nat>, ys: seq<nat>)
    requires NoRepeats(xs) && NoRepeats(ys) && forall x | x in xs :: x !in ys
    ensures NoRepeats(xs + ys)
  {
    forall i, j | 0 <= i < j < |xs + ys|
      ensures (xs + ys)[i] != (xs + ys)[j]
    {
      assert i < |xs| <= j ==> xs[i] in xs && ys[j - |xs|] in ys;
    }
  }

  lemma TablesApart(s: State, ns: seq<nat>)
    requires NoRepeats(s.gone + [s.current]) && NoRepeats(ns) && forall n | n in ns :: n < |s.gone|
    ensures NoRepeats(Tables(s, ns)) && s.current !in Tables(s, ns)
  {
    var all := s.gone + [s.current];
    forall i, j | 0 <= i < j < |ns|
      ensures Tables(s, ns)[i] != Tables(s, ns)[j]
    {
      assert ns[i] in ns && ns[j] in ns && ns[i] != ns[j];
      assert all[ns[i]] == s.gone[ns[i]] && all[ns[j]] == s.gone[ns[j]];
    }
    forall i | 0 <= i < |ns|
      ensures Tables(s, ns)[i] != s.current
    {
      assert ns[i] in ns && all[ns[i]] == s.gone[ns[i]] && all[|s.gone|] == s.current;
    }
  }

  /** And not longer: once all garbage is deleted and no publication is under way, the current table is not
      deleted and no table was deleted twice exactly if it holds. */
  lemma SafeExactlyIfWellPublished(states: seq<State>, acts: seq<Action>, k: nat)
    requires IsTrace(states, acts) && k < |states|
    requires states[k].publishing == map[] && states[k].gc.recent == [] && states[k].gc.aged == []
    ensures var s := states[k];
            && (forall n | n in s.gc.freed :: n < |s.gone|)
            && (WellPublished(s) <==> NoRepeats(Tables(s, s.gc.freed)) && s.current !in Tables(s, s.gc.freed))
  {
    TraceKeeps(states, acts, k);
    var s := states[k];
    GarbageNumbers(s);
    AllFreed(s);
    WellPublishedIff(s);
    hide Inv;
    if WellPublished(s) {
      FreedApart(s, states, acts, k);
    } else {
      FreedTwice(s);
    }
  }

  lemma FreedApart(s: State, states: seq<State>, acts: seq<Action>, k: nat)
    requires IsTrace(states, acts) && k < |states| && s == states[k]
    requires NoRepeats(s.gone + [s.current]) && forall n | n in s.gc.freed :: n < |s.gone|
    ensures NoRepeats(Tables(s, s.gc.freed)) && s.current !in Tables(s, s.gc.freed)
  {
    TraceKeeps(states, acts, k);
    TablesApart(s, s.gc.freed);
  }

  lemma AllFreed(s: State)
    requires Inv(s) && s.publishing == map[] && s.gc.recent == [] && s.gc.aged == []
    ensures forall n: nat | n < |s.gone| :: n in s.gc.freed
  {
    hide Counted, Epochs, Apart, Graced, Safe, Disorder;
  }

  lemma FreedTwice(s: State)
    requires !NoRepeats(s.gone + [s.current])
    requires forall n | n in s.gc.freed :: n < |s.gone|
    requires forall n: nat | n < |s.gone| :: n in s.gc.freed
    ensures !NoRepeats(Tables(s, s.gc.freed)) || s.current in Tables(s, s.gc.freed)
  {
    var all, freed := s.gone + [s.current], Tables(s, s.gc.freed);
    var i, j :| 0 <= i < j < |all| && all[i] == all[j];
    assert i in s.gc.freed;
    var a :| 0 <= a < |s.gc.freed| && s.gc.freed[a] == i;
    assert freed[a] == all[i];
    if j < |s.gone| {
      assert j in s.gc.freed;
      var b :| 0 <= b < |s.gc.freed| && s.gc.freed[b] == j;
      assert freed[b] == all[j] && a != b;
    }
  }

  /** A worker that stores the table that is current already gives that table up as it is put in use. */
  lemma RepublishedIsGivenUp(s: State, p: nat)
    requires Inv(s) && Enabled(s, StoreRoot(p)) && s.publishing[p].x == s.publishing[p].was == s.current
    ensures var s' := Next(s, StoreRoot(p));
            s'.current == s.current && s'.gone[|s.gone|] == s.current && s'.publishing[p].stage == Scheduling(|s.gone|)
            && !WellPublished(s')
  {
    WellPublishedStep(s, StoreRoot(p));
    hide Inv;
    assert s.current in s.published by { CurrentIsLast(s); }
  }

  lemma CurrentIsLast(s: State)
    requires Inv(s)
    ensures s.current in s.published
  {
  }

  /** Thread t passes a safepoint, being counted off there, or detaches. */
  predicate Passes(s: State, a: Action, t: nat) {
    || a == Detach(t) || a == Decrement(t)
    || (a == Safepoint(t) && t in s.threads && s.threads[t].local < s.gc.global)
  }

  lemma StillWaiting(s: State, a: Action, t: nat, x: nat)
    requires Inv(s) && Enabled(s, a) && x in s.pending && t in s.pending[x] && !Passes(s, a, t)
    requires x in s.gc.recent || x in s.gc.aged
    ensures x in Next(s, a).pending && t in Next(s, a).pending[x]
  {
  }

  /** Garbage stays in its lists until it is deleted. */
  lemma StaysGarbage(s: State, a: Action, x: nat)
    requires Inv(s) && Enabled(s, a) && (x in s.gc.recent || x in s.gc.aged || x in s.gc.freed)
    ensures var g := Next(s, a).gc; x in g.recent || x in g.aged || x in g.freed
  {
    if a.DeleteOne? {
      var n := |s.gc.aged| - 1;
      assert s.gc.aged == s.gc.aged[..n] + [s.gc.aged[n]];
    }
  }

  /** The worker schedules replacement x. */
  predicate Schedules(s: State, a: Action, x: nat) {
    a.Schedule? && a.p in s.publishing && s.publishing[a.p].stage == Scheduling(x)
  }

  ghost predicate Waiting(s: State, t: nat, x: nat) {
    x in s.pending && t in s.pending[x] && (x in s.gc.recent || x in s.gc.aged)
  }

  lemma WaitsStep(s: State, a: Action, t: nat, x: nat)
    requires Inv(s) && Enabled(s, a) && Inv(Next(s, a)) && Waiting(s, t, x) && !Passes(s, a, t)
    ensures Waiting(Next(s, a), t, x)
  {
    StillWaiting(s, a, t, x);
    StaysGarbage(s, a, x);
    hide Next, Enabled;
    FreedIsGraced(Next(s, a), x);
  }

  lemma WaitsFirst(s: State, p: nat, t: nat, x: nat)
    requires Enabled(s, Schedule(p)) && t in s.threads && s.publishing[p].stage == Scheduling(x)
    ensures Waiting(Next(s, Schedule(p)), t, x)
  {
  }

  lemma {:induction false} WaitsFor(states: seq<State>, acts: seq<Action>, i: nat, k: nat, t: nat, x: nat)
    requires IsTrace(states, acts) && i < k < |states| && Schedules(states[i], acts[i], x) && t in states[i].threads
    requires forall j | i < j < k :: !Passes(states[j], acts[j], t)
    ensures Waiting(states[k], t, x)
  {
    hide Inv, Next, Enabled, Waiting, Passes, Init;
    assert Enabled(states[k - 1], acts[k - 1]) && states[k] == Next(states[k - 1], acts[k - 1]);
    if i + 1 < k {
      WaitsFor(states, acts, i, k - 1, t, x);
      TraceKeeps(states, acts, k - 1);
      TraceKeeps(states, acts, k);
      WaitsStep(states[k - 1], acts[k - 1], t, x);
    } else {
      WaitsFirst(states[i], acts[i].p, t, x);
    }
  }

  lemma FreedIsGraced(s: State, x: nat)
    requires Inv(s)
    ensures x in s.gc.freed ==> x in s.pending && s.pending[x] == {}
  {
  }

  /** A table is deleted only after every thread attached when it was scheduled has passed a safepoint
      since, or detached. This is so for every scheduling, also of a table scheduled before. */
  lemma GracePeriod(states: seq<State>, acts: seq<Action>, i: nat, k: nat, t: nat, x: nat)
    requires IsTrace(states, acts) && i < k < |states| && Schedules(states[i], acts[i], x)
    requires t in states[i].threads && x in states[k].gc.freed
    ensures exists j :: i < j < k && Passes(states[j], acts[j], t)
  {
    if forall j | i < j < k :: !Passes(states[j], acts[j], t) {
      WaitsFor(states, acts, i, k, t, x);
      TraceKeeps(states, acts, k);
      FreedIsGraced(states[k], x);
      assert false;
    }
  }

  /** How many tables have been scheduled so far. */
  function Scheduled(acts: seq<Action>): nat {
    if acts == [] then 0 else Scheduled(acts[..|acts| - 1]) + if acts[|acts| - 1].Schedule? then 1 else 0
  }

  function Garbage(g: Gc): nat { |g.recent| + |g.aged| + |g.freed| }

  lemma StepAccounts(s: State, a: Action)
    requires Inv(s) && Enabled(s, a)
    ensures Garbage(Next(s, a).gc) == Garbage(s.gc) + if a.Schedule? then 1 else 0
  {
    hide Counted, Epochs, Graced, Safe, Numbered, Disorder;
  }

  lemma {:induction false} GarbageAccounted(states: seq<State>, acts: seq<Action>, k: nat)
    requires IsTrace(states, acts) && k < |states|
    ensures Garbage(states[k].gc) == Scheduled(acts[..k])
  {
    hide Inv, Next, Enabled, Garbage;
    if k > 0 {
      GarbageAccounted(states, acts, k - 1);
      assert Enabled(states[k - 1], acts[k - 1]);
      TraceKeeps(states, acts, k - 1);
      StepAccounts(states[k - 1], acts[k - 1]);
      assert acts[..k][..k - 1] == acts[..k - 1];
    } else {
      assert Garbage(states[0].gc) == 0 by { NothingYet(states[0]); }
    }
  }

  lemma NothingYet(s: State)
    requires Init(s)
    ensures Garbage(s.gc) == 0
  {
  }

  /** The writes that begin an epoch. */
  predicate Begins(a: Action) { a.DeleteOne? || a.Increment? || a.Reset? }

  /** The state once the holder of the mutex is through with the epoch it begins, if nothing else happens. */
  function Settled(s: State): State {
    match s.lock
    case Free => s
    case Due(_) => s.(gc := NewEpoch(s.gc), lock := Free)
    case Moved(_) => s.(gc := s.gc.(remaining := s.gc.total, aged := s.gc.recent, recent := []), lock := Free)
  }

  lemma SettledStep(s: State, a: Action)
    requires Enabled(s, a) && Begins(a)
    ensures Settled(Next(s, a)) == Settled(s)
  {
    if a.DeleteOne? {
      PopReversed(s.gc.aged);
      var n := |s.gc.aged| - 1;
      assert s.gc.freed + [s.gc.aged[n]] + Reversed(s.gc.aged[..n]) == s.gc.freed + Reversed(s.gc.aged);
    }
  }

  lemma {:induction false} SettledRun(states: seq<State>, acts: seq<Action>, i: nat, k: nat)
    requires IsTrace(states, acts) && i <= k < |states| && forall j | i <= j < k :: Begins(acts[j])
    ensures Settled(states[k]) == Settled(states[i])
  {
    hide Next, Enabled, Settled, Init, Begins;
    if i < k {
      SettledRun(states, acts, i, k - 1);
      assert Enabled(states[k - 1], acts[k - 1]) && Begins(acts[k - 1]);
      SettledStep(states[k - 1], acts[k - 1]);
    }
  }

  /** When one thread is left, passes a safepoint and detaches, either no decrement was ever lost and
      nothing scheduled before stays undeleted, or one was and nothing is deleted. */
  lemma SoleThreadFreesAll(states: seq<State>, acts: seq<Action>, k: nat, m: nat, n: nat, t: nat)
    requires IsTrace(states, acts) && k < m < n < |states|
    requires states[k].threads.Keys == {t} && acts[k] == Safepoint(t) && acts[m] == Detach(t)
    requires forall j | k < j < m || m < j < n :: Begins(acts[j])
    requires states[n].lock.Free?
    ensures var g, h := states[k].gc, states[n].gc;
            if states[k].lost == 0 then
              h.recent == [] && h.aged == [] && |h.freed| == Scheduled(acts[..n])
              && forall x | x in g.recent || x in g.aged :: x in h.freed
            else h.recent == g.recent && h.aged == g.aged && h.freed == g.freed
  {
    hide Inv, Init, Next, Enabled, Settled, Begins;
    TraceKeeps(states, acts, k);
    GarbageAccounted(states, acts, n);
    SettledBetween(states, acts, k, m);
    SettledBetween(states, acts, m, n);
    FreeToDetach(states[m], t);
    SettledFree(states[m]);
    SettledFree(states[n]);
    SoleThread(states[k], t);
    EverythingFreed(states[n].gc);
  }

  lemma SettledBetween(states: seq<State>, acts: seq<Action>, i: nat, k: nat)
    requires IsTrace(states, acts) && i < k < |states| && forall j | i < j < k :: Begins(acts[j])
    ensures Enabled(states[i], acts[i]) && Settled(states[k]) == Settled(Next(states[i], acts[i]))
    ensures k < |acts| ==> Enabled(states[k], acts[k])
  {
    hide Next, Enabled, Settled, Init, Begins;
    SettledRun(states, acts, i + 1, k);
    assert Enabled(states[i], acts[i]) && states[i + 1] == Next(states[i], acts[i]);
    assert k < |acts| ==> Enabled(states[k], acts[k]);
  }

  lemma FreeToDetach(s: State, t: nat)
    requires Enabled(s, Detach(t))
    ensures s.lock.Free?
  {
  }

  lemma SettledFree(s: State)
    requires s.lock.Free?
    ensures Settled(s) == s
  {
  }

  lemma EverythingFreed(g: Gc)
    ensures g.recent == [] && g.aged == [] ==> |g.freed| == Garbage(g)
  {
  }

  lemma SoleThread(s: State, t: nat)
    requires Inv(s) && s.threads.Keys == {t} && Enabled(s, Safepoint(t))
    ensures var s1 := Settled(Next(s, Safepoint(t)));
            Enabled(s1, Detach(t)) &&
            var h := Settled(Next(s1, Detach(t))).gc;
            if s.lost == 0 then
              h.recent == [] && h.aged == [] && forall x | x in s.gc.recent || x in s.gc.aged :: x in h.freed
            else h.recent == s.gc.recent && h.aged == s.gc.aged && h.freed == s.gc.freed
  {
    SoleBehind(s, t);
    hide Inv;
    SoleEpochs(s.gc, s.threads[t].local, s.lost);
  }

  /** Two epochs begin: the first safepoint is the last one missing, and so is the detachment. */
  lemma SoleEpochs(g: Gc, local: int, lost: nat)
    requires g.total == 1 && local <= g.global && g.remaining == lost + (if local < g.global then 1 else 0)
    ensures var h := Detached(Bumped(Passed(g, local)), g.global);
            if lost == 0 then
              h.recent == [] && h.aged == [] && forall x | x in g.recent || x in g.aged :: x in h.freed
            else h.recent == g.recent && h.aged == g.aged && h.freed == g.freed
  {
    ReversedElements(g.aged);
    ReversedElements(g.recent);
    var p := Passed(g, local);
    assert p.remaining == lost;
    if lost == 0 {
      assert Bumped(p) == NewEpoch(p);
      var d := Passed(NewEpoch(p).(total := 0), g.global);
      assert d.remaining == 0 && Bumped(d) == NewEpoch(d);
    }
  }

  lemma SoleBehind(s: State, t: nat)
    requires Counted(s) && Epochs(s) && s.threads.Keys == {t} && s.threads[t].pc.Idle? && s.lock.Free?
    ensures s.gc.remaining == s.lost + (if s.threads[t].local < s.gc.global then 1 else 0)
    ensures s.threads[t].local <= s.gc.global && s.gc.total == 1
  {
    assert ThreadOk(s.threads[t], s.gc.global);
    assert Behind(s.threads, s.gc.global) == if s.threads[t].local < s.gc.global then {t} else {};
    assert |s.threads.Keys| == 1;
  }

  /** The methods of the object do what the machine does when nothing comes in between. */
  lemma MethodsAreSteps(s: State, t: nat)
    requires Inv(s) && s.lock.Free?
    ensures t !in s.threads ==>
              var s' := Next(s, Attach(t));
              s'.gc == Attached(s.gc) && s'.threads[t].local == s.gc.global - 1 && s'.lock.Free?
    ensures t in s.threads && s.threads[t].pc.Idle? ==>
              var local := s.threads[t].local;
              && Settled(Next(s, Safepoint(t))).gc == Bumped(Passed(s.gc, local))
              && Settled(Next(s, Detach(t))).gc == Detached(s.gc, local)
              && var s1 := Next(s, Load(t));
              if local < s.gc.global then
                Enabled(s1, Decrement(t)) && var s2 := Next(s1, Decrement(t));
                Enabled(s2, Store(t)) && var s3 := Next(s2, Store(t));
                s3.gc == Passed(s.gc, local) && s3.threads[t].local == s.gc.global
              else s1.gc == Passed(s.gc, local) && s1.threads[t].local == local
  {
    hide Counted, Epochs, Apart, Graced, Safe, Numbered, Disorder, NewEpoch;
  }

  // ---- Nobody is stuck ----------------------------------------------------------------------------

  /** Whoever has the mutex can go on with the epoch it begins. An attached thread that has not got it can make
      its next access, or pass a safepoint or detach once the mutex is free; and a publication can go on. */
  lemma EveryoneGoesOn(states: seq<State>, acts: seq<Action>, k: nat, t: nat, p: nat)
    requires IsTrace(states, acts) && k < |states|
    ensures var s := states[k];
            && (s.lock.Due? ==> Enabled(s, DeleteOne) || Enabled(s, Increment))
            && (s.lock.Moved? ==> Enabled(s, Reset))
            && (Runs(s, t) ==> if s.threads[t].pc.Idle? then Enabled(s, Load(t)) && Enabled(s, Acquire(t))
                               else Enabled(s, Decrement(t)) || Enabled(s, Store(t)))
            && (s.lock.Free? ==> if t !in s.threads then Enabled(s, Attach(t))
                                 else s.threads[t].pc.Idle? ==> Enabled(s, Safepoint(t)) && Enabled(s, Detach(t)))
            && (p in s.publishing && s.publishing[p].stage.Replacing? ==> Enabled(s, StoreRoot(p)))
            && (p in s.publishing && s.publishing[p].stage.Scheduling? && s.lock.Free? ==> Enabled(s, Schedule(p)))
            && (p !in s.publishing ==> forall x :: Enabled(s, Publish(p, x)))
  {
    TraceKeeps(states, acts, k);
    hide Inv;
    PublishedSome(states[k]);
  }

  lemma PublishedSome(s: State)
    requires Inv(s)
    ensures s.published != []
  {
    assert Numbered(s);
  }

  // ---- The decrement that is lost ---------------------------------------------------------------

  lemma LostStep(s: State, a: Action)
    requires Inv(s) && Enabled(s, a) && s.lost > 0
    ensures Next(s, a).lost > 0 && Next(s, a).gc.freed == s.gc.freed
  {
    hide Behind, Epochs, Apart, Graced, Safe, Numbered, Disorder;
    if s.lock.Due? {
      DueReached(s);
      assert false;
    }
  }

  /** Once a decrement has fallen between the two writes, no table is ever deleted again. */
  lemma {:induction false} NothingFreedAfterLoss(states: seq<State>, acts: seq<Action>, i: nat, k: nat)
    requires IsTrace(states, acts) && i <= k < |states| && states[i].lost > 0
    ensures states[k].lost > 0 && states[k].gc.freed == states[i].gc.freed
  {
    hide Inv, Next, Enabled, Init;
    if i < k {
      NothingFreedAfterLoss(states, acts, i, k - 1);
      TraceKeeps(states, acts, k - 1);
      assert Enabled(states[k - 1], acts[k - 1]);
      LostStep(states[k - 1], acts[k - 1]);
    }
  }

  lemma Extended(states: seq<State>, acts: seq<Action>, a: Action) returns (states': seq<State>, acts': seq<Action>)
    requires IsTrace(states, acts) && Enabled(states[|acts|], a)
    ensures IsTrace(states', acts') && |acts'| == |acts| + 1 && states'[|acts'|] == Next(states[|acts|], a)
  {
    hide Enabled, Next, Init;
    states', acts' := states + [Next(states[|acts|], a)], acts + [a];
  }

  const STARTED := State(Gc(0, 1, 0, [], [], []), Free, map[], 0, map[], [0], [], map[], 0)

  const AFTER_LOSS := State(Gc(2, 2, 2, [], [], []), Free,
                            map[1 := Thread(1, Idle, {}), 2 := Thread(2, Idle, {})], 0, map[], [0], [], map[], 1)

  lemma LossHappens() returns (states: seq<State>, acts: seq<Action>)
    ensures IsTrace(states, acts) && states[|acts|] == AFTER_LOSS
  {
    states, acts := [STARTED], [];
    assert Init(states[0]);
    states, acts := Extended(states, acts, Attach(1));
    states, acts := Extended(states, acts, Attach(2));
    states, acts := Extended(states, acts, Safepoint(2));
    states, acts := Extended(states, acts, Safepoint(1));
    assert states[|acts|] == State(Gc(2, 1, 0, [], [], []), Due(1),
                                   map[1 := Thread(1, Idle, {}), 2 := Thread(1, Idle, {})], 0, map[], [0], [], map[], 0);
    states, acts := Extended(states, acts, Increment);
    states, acts := Extended(states, acts, Load(2));
    states, acts := Extended(states, acts, Decrement(2));
    states, acts := Extended(states, acts, Store(2));
    states, acts := Extended(states, acts, Reset);
  }

  /** It happens with two threads: the second passes a safepoint in its signal handler while the first
      begins an epoch. When both are gone the counter is still 1, and the table that was replaced stays. */
  lemma DecrementCanBeLost() returns (states: seq<State>, acts: seq<Action>)
    ensures IsTrace(states, acts)
    ensures var s := states[|acts|];
            s.threads == map[] && s.lock.Free? && s.gc.remaining == 1
            && s.gone == [0] && s.gc.recent == [0] && s.gc.freed == []
  {
    states, acts := LossHappens();
    states, acts := Extended(states, acts, Publish(1, 5));
    states, acts := Extended(states, acts, StoreRoot(1));
    states, acts := Extended(states, acts, Schedule(1));
    states, acts := Extended(states, acts, Detach(2));
    states, acts := Extended(states, acts, Safepoint(1));
    states, acts := Extended(states, acts, Detach(1));
  }

  // ---- The table that is published twice --------------------------------------------------------

  /** Two workers have published table 5 one after the other; the second has given it up. */
  const AFTER_TWICE := State(Gc(1, 1, 1, [0, 1], [], []), Free, map[1 := Thread(0, Idle, {})], 5, map[],
                             [0, 5, 5], [0, 5], map[0 := {1}, 1 := {1}], 0)

  /** And an epoch has begun. */
  const TWICE := State(Gc(1, 2, 1, [], [0, 1], []), Free, map[1 := Thread(1, Idle, {})], 5, map[],
                       [0, 5, 5], [0, 5], map[0 := {}, 1 := {}], 0)

  /** The first of them. */
  const AFTER_ONCE := State(Gc(1, 1, 1, [0], [], []), Free, map[1 := Thread(0, Idle, {})], 5, map[],
                            [0, 5], [0], map[0 := {1}], 0)

  lemma OnceHappens() returns (states: seq<State>, acts: seq<Action>)
    ensures IsTrace(states, acts) && states[|acts|] == AFTER_ONCE
  {
    states, acts := [STARTED], [];
    assert Init(states[0]);
    states, acts := Extended(states, acts, Attach(1));
    states, acts := Extended(states, acts, Publish(1, 5));
    states, acts := Extended(states, acts, StoreRoot(1));
    var s := states[|acts|];
    assert s.publishing == map[1 := Publication(5, 0, Scheduling(0))] && s.threads.Keys == {1};
    states, acts := Extended(states, acts, Schedule(1));
    assert states[|acts|].publishing == map[] && states[|acts|].pending == map[0 := {1}];
  }

  lemma TwiceHappens() returns (states: seq<State>, acts: seq<Action>)
    ensures IsTrace(states, acts) && states[|acts|] == AFTER_TWICE
  {
    states, acts := OnceHappens();
    states, acts := Extended(states, acts, Publish(2, 5));
    states, acts := Extended(states, acts, StoreRoot(2));
    var s := states[|acts|];
    assert s.publishing == map[2 := Publication(5, 5, Scheduling(1))] && s.threads.Keys == {1};
    states, acts := Extended(states, acts, Schedule(2));
    assert states[|acts|].publishing == map[] && states[|acts|].pending == map[0 := {1}, 1 := {1}];
  }

  lemma TwiceSettled() returns (states: seq<State>, acts: seq<Action>)
    ensures IsTrace(states, acts) && states[|acts|] == TWICE
  {
    states, acts := TwiceHappens();
    assert Without(AFTER_TWICE.pending, 1) == map[0 := {}, 1 := {}] by {
      assert {1} - {1} == {};
    }
    states, acts := Extended(states, acts, Safepoint(1));
    var s := states[|acts|];
    assert s.pending == map[0 := {}, 1 := {}] && s.threads == map[1 := Thread(1, Idle, {})];
    states, acts := Extended(states, acts, Increment);
    states, acts := Extended(states, acts, Reset);
  }

  /** It is deleted while it is current, and a thread that looks it up then has it in its hands. */
  lemma RepublishedIsFreed() returns (states: seq<State>, acts: seq<Action>)
    ensures IsTrace(states, acts)
    ensures var s := states[|acts|];
            && s.current == 5 && s.gc.freed == [1, 0] && s.gone == [0, 5]
            && 1 in s.threads && s.threads[1].held == {2} && s.published == [0, 5, 5]
  {
    states, acts := TwiceSettled();
    states, acts := Extended(states, acts, Safepoint(1));
    states, acts := Extended(states, acts, DeleteOne);
    states, acts := Extended(states, acts, DeleteOne);
    states, acts := Extended(states, acts, Increment);
    states, acts := Extended(states, acts, Reset);
    states, acts := Extended(states, acts, Acquire(1));
  }

  /** If the second reads the current table before the first has stored, the old table is scheduled twice. */
  lemma ReadTogetherFreesTwice() returns (states: seq<State>, acts: seq<Action>)
    ensures IsTrace(states, acts)
    ensures var s := states[|acts|]; s.gc.recent == [0, 1] && s.gone == [0, 0] && s.current == 5
  {
    states, acts := [STARTED], [];
    assert Init(states[0]);
    states, acts := Extended(states, acts, Publish(1, 5));
    states, acts := Extended(states, acts, Publish(2, 5));
    states, acts := Extended(states, acts, StoreRoot(1));
    states, acts := Extended(states, acts, StoreRoot(2));
    states, acts := Extended(states, acts, Schedule(1));
    states, acts := Extended(states, acts, Schedule(2));
  }
}
