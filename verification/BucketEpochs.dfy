/** The buckets of the threads together with the epoch collector, which knows each bucket as one attached
    thread: creating a bucket attaches it, put and get pass safepoints with it, and remove detaches it. A
    bucket that put finds in the map is released and not detached. Steps are those of `ThreadBuckets`
    and `EpochGC`. */
module BucketEpochs {
  import Runs
  import opened Options
  import B = ThreadBuckets
  import G = EpochGC

  /** `removing` are the owners that have taken their bucket out of the map by remove and not detached it
      yet. `owner` and `displaced` are history: whose a bucket is, and which ones put found in the map. */
  datatype State = State(
    buckets: B.State, collector: G.State, removing: set<nat>, owner: map<nat, nat>, displaced: set<nat>)

  datatype Action =
    | Bucket(step: B.Action)            // New attaches the bucket it creates
    | Detach(env: nat)                  // remove: between Remove and Release
    | Safepoint(env: nat)               // put: with the new bucket
    | Signal(env: nat, access: G.Action)  // get: the accesses of the unlocked safepoint, once acquired
    | Collector(access: G.Action)       // the epochs, the lookups of tables and their publications

  predicate IdleAt(s: State, b: nat) { b in s.collector.threads ==> s.collector.threads[b].pc.Idle? }

  predicate Enabled(s: State, a: Action) {
    var at := s.buckets.at;
    match a
    case Bucket(c) =>
      B.Enabled(s.buckets, c)
      && (c.New? ==> G.Enabled(s.collector, G.Attach(c.b)))
      && (c.Release? ==> c.env !in s.removing)
      && (c.Push? || c.Drop? ==> IdleAt(s, at[B.Sampled(c.env)]))
    case Detach(env) =>
      env in s.removing && B.Retired(env) in at && G.Enabled(s.collector, G.Detach(at[B.Retired(env)]))
    case Safepoint(env) => B.Cell(env) in at && G.Enabled(s.collector, G.Safepoint(at[B.Cell(env)]))
    case Signal(env, c) =>
      B.Sampled(env) in at && (c.Load? || c.Decrement? || c.Store?) && c.t == at[B.Sampled(env)] && G.Enabled(s.collector, c)
    case Collector(c) =>
      (G.Begins(c) || c.Acquire? || c.Publish? || c.StoreRoot? || c.Schedule?) && G.Enabled(s.collector, c)
  }

  function Next(s: State, a: Action): State
    requires Enabled(s, a)
  {
    var at := s.buckets.at;
    match a
    case Bucket(c) =>
      var t := s.(buckets := B.Next(s.buckets, c));
      (match c
       case New(env, b) => t.(collector := G.Next(s.collector, G.Attach(b)), owner := s.owner[b := env])
       case Insert(env) => if B.Cell(env) in at then t.(displaced := s.displaced + {at[B.Cell(env)]}) else t
       case Remove(env) => t.(removing := s.removing + {env})
       case _ => t)
    case Detach(env) => s.(collector := G.Next(s.collector, G.Detach(at[B.Retired(env)])), removing := s.removing - {env})
    case Safepoint(env) => s.(collector := G.Next(s.collector, G.Safepoint(at[B.Cell(env)])))
    case Signal(env, c) => s.(collector := G.Next(s.collector, c))
    case Collector(c) => s.(collector := G.Next(s.collector, c))
  }

  ghost predicate Init(s: State) {
    B.Init(s.buckets) && G.Init(s.collector) && s.removing == {} && s.owner == map[] && s.displaced == {}
  }

  // ---- The invariant --------------------------------------------------------------------------------

  predicate Refers(s: State, p: B.Site, b: nat) { p in s.buckets.at && s.buckets.at[p] == b }

  /** The bucket at this place belongs to this owner. */
  predicate OwnedBy(s: State, p: B.Site, env: nat) {
    p in s.buckets.at ==> s.buckets.at[p] in s.owner && s.owner[s.buckets.at[p]] == env
  }

  /** The bucket at this place is attached, has not been displaced, and is in no safepoint unless `busy`. */
  predicate AttachedAt(s: State, p: B.Site, busy: bool) {
    p in s.buckets.at ==>
      var b := s.buckets.at[p];
      b in s.collector.threads && b !in s.displaced && (busy || s.collector.threads[b].pc.Idle?)
  }

  predicate ApartAt(s: State, p: B.Site, q: B.Site) {
    p in s.buckets.at && q in s.buckets.at ==> s.buckets.at[p] != s.buckets.at[q]
  }

  ghost predicate EnvOk(s: State, env: nat) {
    && OwnedBy(s, B.Cell(env), env) && OwnedBy(s, B.Fresh(env), env) && OwnedBy(s, B.Retired(env), env)
    && AttachedAt(s, B.Cell(env), B.Sampled(env) in s.buckets.at)
    && AttachedAt(s, B.Fresh(env), false)
    && (env in s.removing ==> B.Retired(env) in s.buckets.at && AttachedAt(s, B.Retired(env), false))
    && ApartAt(s, B.Cell(env), B.Fresh(env)) && ApartAt(s, B.Cell(env), B.Retired(env)) && ApartAt(s, B.Fresh(env), B.Retired(env))
    && (B.Sampled(env) in s.buckets.at ==> Refers(s, B.Cell(env), s.buckets.at[B.Sampled(env)]))
  }

  /** The owner can still detach the bucket: it is in the map, on the way there, or just taken out. */
  predicate Kept(s: State, env: nat, b: nat) {
    Refers(s, B.Cell(env), b) || Refers(s, B.Fresh(env), b) || (env in s.removing && Refers(s, B.Retired(env), b))
  }

  ghost predicate BucketOk(s: State, b: nat)
    requires b in s.collector.threads
  {
    b in s.owner && if b in s.displaced then s.collector.threads[b].pc.Idle? else Kept(s, s.owner[b], b)
  }

  ghost predicate Linked(s: State) {
    && (forall env: nat :: EnvOk(s, env))
    && (forall b | b in s.collector.threads :: BucketOk(s, b))
    && s.displaced <= s.collector.threads.Keys && s.owner.Keys <= s.buckets.refs.Keys
  }

  ghost predicate Inv(s: State) {
    B.Inv(s.buckets) && G.Inv(s.collector) && Linked(s)
  }

  lemma InitInv(s: State)
    requires Init(s)
    ensures Inv(s)
  {
    B.InitInv(s.buckets);
    G.InitInv(s.collector);
  }

  // ---- Every step keeps it --------------------------------------------------------------------------

  predicate SameAt(s: State, s': State, p: B.Site) {
    (p in s'.buckets.at <==> p in s.buckets.at) && (p in s.buckets.at ==> s'.buckets.at[p] == s.buckets.at[p])
  }

  predicate SameSites(s: State, s': State, env: nat) {
    && SameAt(s, s', B.Cell(env)) && SameAt(s, s', B.Fresh(env)) && SameAt(s, s', B.Retired(env))
    && SameAt(s, s', B.Sampled(env)) && (env in s'.removing <==> env in s.removing)
  }

  /** The bucket is as well attached as before. */
  predicate SameBucket(s: State, s': State, b: nat) {
    && (b in s.owner ==> b in s'.owner && s'.owner[b] == s.owner[b])
    && (b in s.collector.threads <==> b in s'.collector.threads)
    && (b in s.collector.threads && s.collector.threads[b].pc.Idle? ==> s'.collector.threads[b].pc.Idle?)
    && (b in s.displaced <==> b in s'.displaced)
  }

  /** An owner whose places and buckets are as before. */
  lemma OtherEnv(s: State, s': State, env: nat)
    requires EnvOk(s, env) && SameSites(s, s', env)
    requires forall b | b in s.owner && s.owner[b] == env :: SameBucket(s, s', b)
    ensures EnvOk(s', env)
  {
  }

  lemma OtherBucket(s: State, s': State, b: nat)
    requires b in s.collector.threads && BucketOk(s, b) && SameSites(s, s', s.owner[b]) && SameBucket(s, s', b)
    ensures BucketOk(s', b)
  {
  }

  /** A step of one owner, about one bucket of its own, new or not. */
  lemma OneOwner(s: State, s': State, env: nat, t: nat)
    requires Linked(s) && (t in s.owner ==> s.owner[t] == env)
    requires forall e: nat | e != env :: SameSites(s, s', e)
    requires forall b: nat | b != t :: SameBucket(s, s', b)
    requires EnvOk(s', env)
    requires forall b | b in s'.collector.threads && (b == t || (b in s.owner && s.owner[b] == env)) :: BucketOk(s', b)
    requires s'.displaced <= s'.collector.threads.Keys && s'.owner.Keys <= s'.buckets.refs.Keys
    ensures Linked(s')
  {
    hide EnvOk, BucketOk, SameSites, SameBucket;
    forall e: nat | e != env
      ensures EnvOk(s', e)
    {
      OtherEnv(s, s', e);
    }
    forall b | b in s'.collector.threads && b != t && !(b in s.owner && s.owner[b] == env)
      ensures BucketOk(s', b)
    {
      WasAttached(s, s', b);
      OtherBucket(s, s', b);
    }
  }

  lemma WasAttached(s: State, s': State, b: nat)
    requires SameBucket(s, s', b) && b in s'.collector.threads
    ensures b in s.collector.threads && (BucketOk(s, b) ==> b in s.owner)
  {
  }

  lemma NewLinked(s: State, env: nat, b: nat)
    requires Inv(s) && Enabled(s, Bucket(B.New(env, b)))
    ensures Linked(Next(s, Bucket(B.New(env, b))))
  {
    hide G.Inv, B.Inv;
    var s' := Next(s, Bucket(B.New(env, b)));
    assert EnvOk(s, env);
    OneOwner(s, s', env, b);
  }

  lemma InsertLinked(s: State, env: nat)
    requires Inv(s) && Enabled(s, Bucket(B.Insert(env)))
    ensures Linked(Next(s, Bucket(B.Insert(env))))
  {
    InsertState(s, env);
    hide Enabled, Next, B.Enabled, B.Next, B.Inv, G.Inv;
    var s' := Next(s, Bucket(B.Insert(env)));
    assert EnvOk(s, env);
    InsertEnv(s, s', env);
    assert Linked(s);
    var t := s.buckets.at[if B.Cell(env) in s.buckets.at then B.Cell(env) else B.Fresh(env)];
    assert t in s.owner ==> s.owner[t] == env;
    assert s'.owner.Keys <= s'.buckets.refs.Keys;
    hide EnvOk, BucketOk, Inv, Linked;
    InsertOthers(s, s', env, t);
    hide SameSites, SameBucket, InsertedSites;
    OneOwner(s, s', env, t);
  }

  lemma InsertOthers(s: State, s': State, env: nat, t: nat)
    requires InsertedSites(s.buckets.at, s'.buckets.at, env)
    requires s' == s.(buckets := s'.buckets, displaced := s'.displaced)
    requires s.displaced <= s'.displaced <= s.displaced + {t}
    ensures forall e: nat | e != env :: SameSites(s, s', e)
    ensures forall b: nat | b != t :: SameBucket(s, s', b)
  {
  }

  lemma InsertState(s: State, env: nat)
    requires B.Inv(s.buckets) && Enabled(s, Bucket(B.Insert(env)))
    ensures B.Fresh(env) in s.buckets.at && B.Retired(env) !in s.buckets.at && B.Sampled(env) !in s.buckets.at
    ensures var s' := Next(s, Bucket(B.Insert(env)));
            && s' == s.(buckets := s'.buckets, displaced := s'.displaced) && s'.buckets.refs == s.buckets.refs
            && s'.displaced == s.displaced + (if B.Cell(env) in s.buckets.at then {s.buckets.at[B.Cell(env)]} else {})
            && InsertedSites(s.buckets.at, s'.buckets.at, env)
  {
    assert B.Owners(s.buckets);
    hide B.Inv, B.Next;
    InsertSites(s.buckets, env);
    InsertRefs(s.buckets, env);
  }

  lemma InsertRefs(b: B.State, env: nat)
    requires B.Enabled(b, B.Insert(env))
    ensures B.Next(b, B.Insert(env)).refs == b.refs
  {
  }

  ghost predicate InsertedSites(was: map<B.Site, nat>, at: map<B.Site, nat>, env: nat) {
    && B.Fresh(env) in was && B.Cell(env) in at && at[B.Cell(env)] == was[B.Fresh(env)] && B.Fresh(env) !in at
    && (B.Retired(env) in at <==> B.Cell(env) in was)
    && (B.Cell(env) in was ==> at[B.Retired(env)] == was[B.Cell(env)])
    && forall p: B.Site | p != B.Cell(env) && p != B.Fresh(env) && p != B.Retired(env) ::
         (p in at <==> p in was) && (p in at ==> at[p] == was[p])
  }

  lemma InsertEnv(s: State, s': State, env: nat)
    requires EnvOk(s, env) && Linked(s) && B.Fresh(env) in s.buckets.at
    requires B.Retired(env) !in s.buckets.at && B.Sampled(env) !in s.buckets.at
    requires s' == s.(buckets := s'.buckets, displaced := s'.displaced)
    requires s'.displaced == s.displaced + if B.Cell(env) in s.buckets.at then {s.buckets.at[B.Cell(env)]} else {}
    requires InsertedSites(s.buckets.at, s'.buckets.at, env)
    ensures EnvOk(s', env)
    ensures forall b | b in s'.collector.threads && b in s.owner && s.owner[b] == env :: BucketOk(s', b)
    ensures s'.displaced <= s'.collector.threads.Keys
  {
    forall b | b in s'.collector.threads && b in s.owner && s.owner[b] == env
      ensures BucketOk(s', b)
    {
      assert BucketOk(s, b);
    }
  }

  /** Where the buckets are after the exchange. */
  lemma InsertSites(b: B.State, env: nat)
    requires B.Enabled(b, B.Insert(env)) && B.Retired(env) !in b.at
    ensures InsertedSites(b.at, B.Next(b, B.Insert(env)).at, env)
  {
  }

  lemma RemoveLinked(s: State, env: nat)
    requires Inv(s) && Enabled(s, Bucket(B.Remove(env)))
    ensures Linked(Next(s, Bucket(B.Remove(env))))
  {
    hide G.Inv, B.Inv;
    var s' := Next(s, Bucket(B.Remove(env)));
    assert EnvOk(s, env);
    OneOwner(s, s', env, s.buckets.at[B.Cell(env)]);
  }

  lemma ReleaseLinked(s: State, env: nat)
    requires Inv(s) && Enabled(s, Bucket(B.Release(env)))
    ensures Linked(Next(s, Bucket(B.Release(env))))
  {
    hide G.Inv, B.Inv;
    var s' := Next(s, Bucket(B.Release(env)));
    assert EnvOk(s, env);
    OneOwner(s, s', env, s.buckets.at[B.Retired(env)]);
  }

  lemma AddRefLinked(s: State, env: nat)
    requires Inv(s) && Enabled(s, Bucket(B.AddRef(env)))
    ensures Linked(Next(s, Bucket(B.AddRef(env))))
  {
    AddRefState(s, env);
    hide B.Inv, G.Inv, Enabled, Next, Linked;
    Acquired(s, Next(s, Bucket(B.AddRef(env))), env);
  }

  lemma AddRefState(s: State, env: nat)
    requires B.Inv(s.buckets) && Enabled(s, Bucket(B.AddRef(env)))
    ensures var s' := Next(s, Bucket(B.AddRef(env)));
            && B.Cell(env) in s.buckets.at && s' == s.(buckets := s'.buckets)
            && s'.buckets.at == s.buckets.at[B.Sampled(env) := s.buckets.at[B.Cell(env)]]
            && s'.buckets.refs.Keys == s.buckets.refs.Keys
  {
    assert B.Owners(s.buckets);
    B.CellIsAlive(s.buckets, B.Cell(env));
    hide B.Inv, B.Owners;
  }

  lemma Acquired(s: State, s': State, env: nat)
    requires Linked(s) && B.Cell(env) in s.buckets.at && s' == s.(buckets := s'.buckets)
    requires s'.buckets.at == s.buckets.at[B.Sampled(env) := s.buckets.at[B.Cell(env)]]
    requires s'.buckets.refs.Keys == s.buckets.refs.Keys
    ensures Linked(s')
  {
    forall e: nat
      ensures EnvOk(s', e)
    {
      assert EnvOk(s, e);
    }
    forall b | b in s'.collector.threads
      ensures BucketOk(s', b)
    {
      assert BucketOk(s, b);
    }
  }

  lemma QueueLinked(s: State, c: B.Action)
    requires Inv(s) && Enabled(s, Bucket(c)) && (c.Push? || c.Drop?)
    ensures Linked(Next(s, Bucket(c)))
  {
    hide G.Inv, B.Inv;
    var s' := Next(s, Bucket(c));
    assert EnvOk(s, c.env);
    OneOwner(s, s', c.env, s.buckets.at[B.Sampled(c.env)]);
  }

  lemma ReaderLinked(s: State, c: B.Action)
    requires Inv(s) && Enabled(s, Bucket(c)) && (c.Load? || c.Undo? || c.Take? || c.Consume? || c.Clear? || c.Delete?)
    ensures Linked(Next(s, Bucket(c)))
  {
    hide G.Inv, B.Inv;
    NobodyMoves(s, Next(s, Bucket(c)));
  }

  lemma NobodyMoves(s: State, s': State)
    requires Linked(s) && forall env: nat :: SameSites(s, s', env)
    requires s'.owner == s.owner && s'.displaced == s.displaced && s.buckets.refs.Keys <= s'.buckets.refs.Keys
    requires s'.collector.threads.Keys == s.collector.threads.Keys
    requires forall b | b in s.collector.threads :: s.collector.threads[b].pc.Idle? ==> s'.collector.threads[b].pc.Idle?
    ensures Linked(s')
  {
    assert forall b :: SameBucket(s, s', b);
    hide EnvOk, BucketOk, SameSites, SameBucket;
    forall env: nat
      ensures EnvOk(s', env)
    {
      OtherEnv(s, s', env);
    }
    forall b | b in s'.collector.threads
      ensures BucketOk(s', b)
    {
      WasAttached(s, s', b);
      OtherBucket(s, s', b);
    }
  }

  lemma DetachLinked(s: State, env: nat)
    requires Inv(s) && Enabled(s, Detach(env))
    ensures Linked(Next(s, Detach(env)))
  {
    hide G.Inv, B.Inv;
    var s' := Next(s, Detach(env));
    assert EnvOk(s, env);
    OneOwner(s, s', env, s.buckets.at[B.Retired(env)]);
  }

  lemma SafepointLinked(s: State, env: nat)
    requires Inv(s) && Enabled(s, Safepoint(env))
    ensures Linked(Next(s, Safepoint(env)))
  {
    hide G.Inv, B.Inv;
    NobodyMoves(s, Next(s, Safepoint(env)));
  }

  lemma SignalLinked(s: State, env: nat, c: G.Action)
    requires Inv(s) && Enabled(s, Signal(env, c))
    ensures Linked(Next(s, Signal(env, c)))
  {
    hide G.Inv, B.Inv;
    var s' := Next(s, Signal(env, c));
    assert EnvOk(s, env);
    OneOwner(s, s', env, c.t);
  }

  lemma CollectorLinked(s: State, c: G.Action)
    requires Inv(s) && Enabled(s, Collector(c))
    ensures Linked(Next(s, Collector(c)))
  {
    hide G.Inv, B.Inv;
    NobodyMoves(s, Next(s, Collector(c)));
  }

  lemma StepKeeps(s: State, a: Action)
    requires Inv(s) && Enabled(s, a)
    ensures Inv(Next(s, a))
  {
    PartsKeep(s, a);
    hide B.Inv, G.Inv, B.Enabled, G.Enabled, B.Next, G.Next, Next, Linked;
    match a
    case Detach(env) => DetachLinked(s, env);
    case Safepoint(env) => SafepointLinked(s, env);
    case Signal(env, c) => SignalLinked(s, env, c);
    case Collector(c) => CollectorLinked(s, c);
    case Bucket(c) =>
      match c
      case New(env, b) => NewLinked(s, env, b);
      case Insert(env) => InsertLinked(s, env);
      case Remove(env) => RemoveLinked(s, env);
      case Release(env) => ReleaseLinked(s, env);
      case AddRef(env) => AddRefLinked(s, env);
      case Push(env) => QueueLinked(s, c);
      case Drop(env) => QueueLinked(s, c);
      case _ => ReaderLinked(s, c);
  }

  /** What the step is for the collector, if anything. */
  function CollectorStep(s: State, a: Action): Option<G.Action>
    requires Enabled(s, a)
  {
    match a
    case Bucket(c) => if c.New? then Some(G.Attach(c.b)) else None
    case Detach(env) => Some(G.Detach(s.buckets.at[B.Retired(env)]))
    case Safepoint(env) => Some(G.Safepoint(s.buckets.at[B.Cell(env)]))
    case Signal(_, c) => Some(c)
    case Collector(c) => Some(c)
  }

  lemma PartsKeep(s: State, a: Action)
    requires Inv(s) && Enabled(s, a)
    ensures B.Inv(Next(s, a).buckets) && G.Inv(Next(s, a).collector)
    ensures var c := CollectorStep(s, a);
            if c == None then Next(s, a).collector == s.collector else G.Enabled(s.collector, c.value) && Next(s, a).collector == G.Next(s.collector, c.value)
  {
    hide B.Inv, G.Inv, B.Enabled, G.Enabled, B.Next, G.Next, Linked;
    if a.Bucket? {
      B.StepKeeps(s.buckets, a.step);
    }
    var c := CollectorStep(s, a);
    if c.Some? {
      G.StepKeeps(s.collector, c.value);
    }
  }

  // ---- Runs -----------------------------------------------------------------------------------------

  ghost predicate Steps(s: State, s': State) {
    exists a :: Enabled(s, a) && s' == Next(s, a)
  }

  ghost predicate IsRun(run: seq<State>) { Runs.IsRun(run, Init, Steps) }

  lemma RunKeeps(run: seq<State>, k: nat)
    requires IsRun(run) && k < |run|
    ensures Inv(run[k])
  {
    hide Inv, Enabled, Next, Init;
    forall s | Init(s)
      ensures Inv(s)
    {
      InitInv(s);
    }
    forall s, s' | Inv(s) && Steps(s, s')
      ensures Inv(s')
    {
      var a :| Enabled(s, a) && s' == Next(s, a);
      StepKeeps(s, a);
    }
    Runs.Keeps(run, k, Init, Steps, Inv);
  }

  /** The threads attached to the collector are those whose bucket some owner can still detach, and besides
      exactly the displaced buckets, which nobody can. */
  lemma AttachedExactly(run: seq<State>, k: nat, b: nat)
    requires IsRun(run) && k < |run|
    ensures var s := run[k];
            && (b in s.collector.threads <==> b in s.displaced || exists env :: Kept(s, env, b))
            && (b in s.displaced ==> forall env :: !Kept(s, env, b))
  {
    RunKeeps(run, k);
    var s := run[k];
    assert forall env: nat :: EnvOk(s, env);
    assert b in s.collector.threads ==> BucketOk(s, b);
    hide Inv, EnvOk;
    forall env: nat | Kept(s, env, b)
      ensures b in s.collector.threads && b !in s.displaced
    {
      KeptIsAttached(s, env, b);
    }
  }

  lemma KeptIsAttached(s: State, env: nat, b: nat)
    requires EnvOk(s, env) && Kept(s, env, b)
    ensures b in s.collector.threads && b !in s.displaced
  {
  }

  /** A bucket is displaced exactly by a put that finds one in the map. */
  lemma DisplacedStep(s: State, a: Action)
    requires Enabled(s, a)
    ensures Next(s, a).displaced == s.displaced + if a.Bucket? && a.step.Insert? && B.Cell(a.step.env) in s.buckets.at
                                                  then {s.buckets.at[B.Cell(a.step.env)]} else {}
  {
    hide B.Next, G.Next, B.Enabled, G.Enabled;
  }

  // ---- After a bucket was displaced -----------------------------------------------------------------

  /** The bucket is attached, and in no safepoint: none of its epochs will ever be counted. */
  lemma DisplacedRests(s: State, b: nat)
    requires Inv(s) && b in s.displaced
    ensures b in s.collector.threads && s.collector.threads[b].pc.Idle?
    ensures forall env: nat | B.Sampled(env) in s.buckets.at :: s.buckets.at[B.Sampled(env)] != b
    ensures forall env: nat | B.Cell(env) in s.buckets.at :: s.buckets.at[B.Cell(env)] != b
    ensures forall env | env in s.removing :: B.Retired(env) in s.buckets.at && s.buckets.at[B.Retired(env)] != b
    ensures b in s.buckets.refs
  {
    hide B.Inv, G.Inv;
    assert BucketOk(s, b);
    hide BucketOk;
    forall env: nat
      ensures B.Sampled(env) in s.buckets.at ==> s.buckets.at[B.Sampled(env)] != b
      ensures B.Cell(env) in s.buckets.at ==> s.buckets.at[B.Cell(env)] != b
      ensures env in s.removing ==> B.Retired(env) in s.buckets.at && s.buckets.at[B.Retired(env)] != b
    {
      assert EnvOk(s, env);
    }
  }

  /** The collector's step is about this thread. */
  predicate IsAbout(c: G.Action, b: nat) {
    (c.Detach? || c.Safepoint? || c.Load? || c.Decrement? || c.Store?) && c.t == b
  }

  lemma NotAbout(s: State, a: Action, b: nat)
    requires Inv(s) && Enabled(s, a) && b in s.displaced
    ensures CollectorStep(s, a).Some? ==> !IsAbout(CollectorStep(s, a).value, b)
  {
    DisplacedRests(s, b);
    hide Inv, B.Enabled, G.Enabled, G.Begins, B.Next, G.Next;
    if a.Collector? {
      OfNoThread(s, a);
    }
  }

  lemma OfNoThread(s: State, a: Action)
    requires Enabled(s, a) && a.Collector?
    ensures var c := a.access; !c.Detach? && !c.Safepoint? && !c.Load? && !c.Decrement? && !c.Store?
  {
    hide G.Enabled;
  }

  /** No step passes a safepoint for it, or detaches it. */
  lemma DisplacedStays(s: State, a: Action, b: nat)
    requires Inv(s) && Enabled(s, a) && b in s.displaced
    ensures var s' := Next(s, a);
            && b in s'.displaced && b in s'.collector.threads
            && s'.collector.threads[b].local == s.collector.threads[b].local
            && (CollectorStep(s, a).Some? ==> !G.Passes(s.collector, CollectorStep(s, a).value, b))
  {
    DisplacedRests(s, b);
    DisplacedStep(s, a);
    PartsKeep(s, a);
    NotAbout(s, a, b);
    hide Inv, Enabled, Next, CollectorStep, IsAbout, G.Enabled, G.Next, G.Passes;
    var c := CollectorStep(s, a);
    if c.Some? {
      OthersRest(s.collector, c.value, b);
    }
  }

  lemma OthersRest(g: G.State, c: G.Action, b: nat)
    requires G.Enabled(g, c) && b in g.threads && !IsAbout(c, b)
    ensures b in G.Next(g, c).threads && G.Next(g, c).threads[b].local == g.threads[b].local && !G.Passes(g, c, b)
  {
  }

  /** From some time on, when `known` were scheduled, everything scheduled waits for b. */
  ghost predicate Awaited(g: G.State, b: nat, known: set<nat>) {
    forall n | n in g.pending && n !in known :: b in g.pending[n]
  }

  ghost predicate WaitingFor(s: State, b: nat, known: set<nat>) {
    b in s.displaced && Awaited(s.collector, b, known)
  }

  lemma AwaitedStep(g: G.State, c: G.Action, b: nat, known: set<nat>)
    requires G.Enabled(g, c) && b in g.threads && !IsAbout(c, b) && Awaited(g, b, known)
    ensures Awaited(G.Next(g, c), b, known)
  {
  }

  lemma WaitingStep(s: State, a: Action, b: nat, known: set<nat>)
    requires Inv(s) && Enabled(s, a) && WaitingFor(s, b, known)
    ensures WaitingFor(Next(s, a), b, known)
  {
    DisplacedStays(s, a, b);
    DisplacedRests(s, b);
    PartsKeep(s, a);
    NotAbout(s, a, b);
    hide Inv, Enabled, Next, CollectorStep, IsAbout, G.Enabled, G.Next, Awaited;
    var c := CollectorStep(s, a);
    if c.Some? {
      AwaitedStep(s.collector, c.value, b, known);
    }
  }

  /** A table scheduled once a bucket is displaced is never deleted. */
  lemma NothingFreedAfterDisplacement(run: seq<State>, i: nat, k: nat, n: nat)
    requires IsRun(run) && i <= k < |run| && run[i].displaced != {} && n !in run[i].collector.pending
    ensures n !in run[k].collector.gc.freed
  {
    var b :| b in run[i].displaced;
    var known := run[i].collector.pending.Keys;
    var kept := s => Inv(s) && WaitingFor(s, b, known);
    RunKeeps(run, i);
    hide Inv, Enabled, Next, Init, WaitingFor;
    forall s, s' | kept(s) && Steps(s, s')
      ensures kept(s')
    {
      var a :| Enabled(s, a) && s' == Next(s, a);
      StepKeeps(s, a);
      WaitingStep(s, a, b, known);
    }
    assert WaitingFor(run[i], b, known) by { FirstWait(run[i], b); }
    Runs.Onward(run, i, k, Init, Steps, kept);
    NotFreed(run[k], b, known, n);
  }

  lemma FirstWait(s: State, b: nat)
    requires b in s.displaced
    ensures WaitingFor(s, b, s.collector.pending.Keys)
  {
  }

  lemma NotFreed(s: State, b: nat, known: set<nat>, n: nat)
    requires Inv(s) && WaitingFor(s, b, known) && n !in known
    ensures n !in s.collector.gc.freed
  {
    G.FreedIsGraced(s.collector, n);
  }

  /** Nobody's epoch can be counted any more once b is behind. */
  ghost predicate Stuck(s: State, b: nat, local: int, bound: int) {
    b in s.displaced && b in s.collector.threads && s.collector.threads[b].local == local && s.collector.gc.global <= bound
  }

  lemma StuckStep(s: State, a: Action, b: nat, local: int, bound: int)
    requires Inv(s) && Enabled(s, a) && Stuck(s, b, local, bound) && local < bound
    ensures Stuck(Next(s, a), b, local, bound)
  {
    DisplacedStays(s, a, b);
    DisplacedRests(s, b);
    PartsKeep(s, a);
    assert G.Inv(s.collector);
    hide Inv, Enabled, Next, CollectorStep, G.Enabled, G.Next, G.Inv;
    var c := CollectorStep(s, a);
    if c.Some? {
      GlobalStep(s.collector, c.value, b);
    }
  }

  /** The global epoch moves only when every idle thread has seen it. */
  lemma GlobalStep(g: G.State, c: G.Action, b: nat)
    requires G.Inv(g) && G.Enabled(g, c) && b in g.threads && g.threads[b].pc.Idle?
    ensures G.Next(g, c).gc.global == g.gc.global
            || (G.Next(g, c).gc.global == g.gc.global + 1 && g.threads[b].local == g.gc.global)
  {
    if c.Increment? {
      G.DueReached(g);
    }
    hide G.Inv;
  }

  /** At most one more epoch begins. */
  lemma EpochsStop(run: seq<State>, i: nat, k: nat)
    requires IsRun(run) && i <= k < |run| && run[i].displaced != {}
    ensures run[k].collector.gc.global <= run[i].collector.gc.global + 1
  {
    var b :| b in run[i].displaced;
    RunKeeps(run, i);
    DisplacedRests(run[i], b);
    var local, bound := run[i].collector.threads[b].local, run[i].collector.gc.global + 1;
    assert local < bound by { NotAhead(run[i].collector, b); }
    var kept := s => Inv(s) && Stuck(s, b, local, bound);
    hide Inv, Enabled, Next, Init;
    forall s, s' | kept(s) && Steps(s, s')
      ensures kept(s')
    {
      var a :| Enabled(s, a) && s' == Next(s, a);
      StepKeeps(s, a);
      StuckStep(s, a, b, local, bound);
    }
    Runs.Onward(run, i, k, Init, Steps, kept);
  }

  lemma NotAhead(g: G.State, b: nat)
    requires G.Inv(g) && b in g.threads
    ensures g.threads[b].local <= g.gc.global
  {
    assert G.ThreadOk(g.threads[b], g.gc.global);
  }

  // ---- A thread that is put twice -------------------------------------------------------------------

  ghost predicate Reachable(s: State) {
    exists run :: IsRun(run) && run[|run| - 1] == s
  }

  lemma Goes(s: State, a: Action, s': State)
    requires Reachable(s) && Enabled(s, a) && s' == Next(s, a)
    ensures Reachable(s')
  {
    hide Enabled, Next, Init;
    var run :| IsRun(run) && run[|run| - 1] == s;
    Runs.Longer(run, s', Init, Steps);
    assert IsRun(run + [s']);
  }

  lemma Starts()
    ensures Reachable(STARTED)
  {
    assert Init(STARTED) && IsRun([STARTED]);
  }

  function With(at: map<B.Site, nat>, refs: map<nat, int>, dying: set<nat>): B.State {
    B.State(at, refs, map[], B.NULL, dying, 0, [])
  }

  const STARTED := State(With(map[], map[], {}), G.STARTED, {}, map[], {})

  /** The collector with these threads, in its second epoch. */
  function Second(total: int, remaining: int, threads: map<nat, G.Thread>): G.State {
    G.STARTED.(gc := G.Gc(total, 2, remaining, [], [], []), threads := threads)
  }

  const ARRIVED := G.Thread(1, G.Idle, {})

  /** Owner 1 has put bucket 7. */
  const PUT := State(With(map[B.Cell(1) := 7], map[7 := 1], {}), Second(1, 1, map[7 := ARRIVED]), {}, map[7 := 1], {})

  lemma PutHappens()
    ensures Reachable(PUT)
  {
    hide Reachable;
    Starts();
    var attached := G.STARTED.(gc := G.Gc(1, 1, 1, [], [], []), threads := map[7 := G.Thread(0, G.Idle, {})]);
    var s1 := State(With(map[B.Fresh(1) := 7], map[7 := 1], {}), attached, {}, map[7 := 1], {});
    Goes(STARTED, Bucket(B.New(1, 7)), s1);
    var s2 := s1.(buckets := With(map[B.Cell(1) := 7], map[7 := 1], {}));
    Goes(s1, Bucket(B.Insert(1)), s2);
    var passed := attached.(gc := G.Gc(1, 1, 0, [], [], []), threads := map[7 := ARRIVED], lock := G.Due(7));
    Goes(s2, Safepoint(1), s2.(collector := passed));
    var moved := passed.(gc := G.Gc(1, 2, 0, [], [], []), lock := G.Moved(7));
    Goes(s2.(collector := passed), Collector(G.Increment), s2.(collector := moved));
    Goes(s2.(collector := moved), Collector(G.Reset), PUT);
  }

  /** And then bucket 8: bucket 7 is given up, and its thread is still attached. */
  const PUT_AGAIN := State(With(map[B.Cell(1) := 8], map[7 := 0, 8 := 1], {7}),
                           Second(2, 2, map[7 := ARRIVED, 8 := ARRIVED]), {}, map[7 := 1, 8 := 1], {7})

  lemma NewHappens(s: State)
    requires s == State(With(map[B.Cell(1) := 7, B.Fresh(1) := 8], map[7 := 1, 8 := 1], {}),
                        Second(2, 2, map[7 := ARRIVED, 8 := ARRIVED]), {}, map[7 := 1, 8 := 1], {})
    ensures Reachable(s)
  {
    hide Reachable;
    PutHappens();
    Goes(PUT, Bucket(B.New(1, 8)), s);
  }

  lemma PutAgainHappens()
    ensures Reachable(PUT_AGAIN)
  {
    hide Reachable;
    var s1 := State(With(map[B.Cell(1) := 7, B.Fresh(1) := 8], map[7 := 1, 8 := 1], {}),
                    Second(2, 2, map[7 := ARRIVED, 8 := ARRIVED]), {}, map[7 := 1, 8 := 1], {});
    NewHappens(s1);
    var s2 := s1.(buckets := With(map[B.Cell(1) := 8, B.Retired(1) := 7], map[7 := 1, 8 := 1], {}), displaced := {7});
    Goes(s1, Bucket(B.Insert(1)), s2);
    ReleaseHappens(s2);
  }

  lemma ReleaseHappens(s: State)
    requires Reachable(s)
    requires s == State(With(map[B.Cell(1) := 8, B.Retired(1) := 7], map[7 := 1, 8 := 1], {}),
                        Second(2, 2, map[7 := ARRIVED, 8 := ARRIVED]), {}, map[7 := 1, 8 := 1], {7})
    ensures Reachable(PUT_AGAIN)
  {
    hide Reachable;
    assert s.buckets.at - {B.Retired(1)} == map[B.Cell(1) := 8];
    Goes(s, Bucket(B.Release(1)), PUT_AGAIN);
  }

  /** Bucket 8 has passed a safepoint, and table 5 has replaced table 0. */
  const SCHEDULED := PUT_AGAIN.(collector :=
    Second(2, 1, map[7 := ARRIVED, 8 := G.Thread(2, G.Idle, {})]).(
      gc := G.Gc(2, 2, 1, [0], [], []), current := 5, published := [0, 5], gone := [0], pending := map[0 := {7, 8}]))

  const PASSED := Second(2, 1, map[7 := ARRIVED, 8 := G.Thread(2, G.Idle, {})])

  lemma PassedHappens()
    ensures Reachable(PUT_AGAIN.(collector := PASSED))
  {
    hide Reachable;
    PutAgainHappens();
    Goes(PUT_AGAIN, Safepoint(1), PUT_AGAIN.(collector := PASSED));
  }

  const STORED := PASSED.(current := 5, published := [0, 5], gone := [0],
                          publishing := map[1 := G.Publication(5, 0, G.Scheduling(0))])

  lemma StoredHappens()
    ensures Reachable(PUT_AGAIN.(collector := STORED))
  {
    hide Reachable;
    PassedHappens();
    var read := PASSED.(publishing := map[1 := G.Publication(5, 0, G.Replacing)]);
    Goes(PUT_AGAIN.(collector := PASSED), Collector(G.Publish(1, 5)), PUT_AGAIN.(collector := read));
    Goes(PUT_AGAIN.(collector := read), Collector(G.StoreRoot(1)), PUT_AGAIN.(collector := STORED));
  }

  lemma ScheduledHappens()
    ensures Reachable(SCHEDULED)
  {
    hide Reachable;
    StoredHappens();
    assert STORED.threads.Keys == {7, 8} && STORED.publishing - {1} == map[];
    Goes(PUT_AGAIN.(collector := STORED), Collector(G.Schedule(1)), SCHEDULED);
  }

  /** Owner 1 has removed its bucket: none is left, and one thread is still attached and awaited. */
  const LEFT_OVER := State(With(map[], map[7 := 0, 8 := 0], {7, 8}),
                           SCHEDULED.collector.(gc := G.Gc(1, 2, 1, [0], [], []), threads := map[7 := ARRIVED],
                                                pending := map[0 := {7}]),
                           {}, map[7 := 1, 8 := 1], {7})

  const REMOVED := SCHEDULED.(buckets := With(map[B.Retired(1) := 8], map[7 := 0, 8 := 1], {7}), removing := {1})
  const DETACHED := REMOVED.(collector := LEFT_OVER.collector, removing := {})

  lemma RemovedHappens()
    ensures Reachable(REMOVED)
  {
    hide Reachable;
    ScheduledHappens();
    assert map[B.Cell(1) := 8] - {B.Cell(1)} == map[];
    Goes(SCHEDULED, Bucket(B.Remove(1)), REMOVED);
  }

  lemma DetachedHappens()
    ensures Reachable(DETACHED)
  {
    hide Reachable;
    RemovedHappens();
    assert G.Without(SCHEDULED.collector.pending, 8) == map[0 := {7}] by {
      assert {7, 8} - {8} == {7};
    }
    assert SCHEDULED.collector.threads - {8} == map[7 := ARRIVED];
    Goes(REMOVED, Detach(1), DETACHED);
  }

  lemma LeftOverHappens()
    ensures Reachable(LEFT_OVER)
  {
    hide Reachable;
    DetachedHappens();
    assert DETACHED.buckets.at - {B.Retired(1)} == map[];
    Goes(DETACHED, Bucket(B.Release(1)), LEFT_OVER);
  }

  /** So a second put leaves a thread attached when there is no bucket any more, and the table that a
      migration gave up is never deleted. */
  lemma SecondPutKeepsGarbage() returns (run: seq<State>)
    ensures IsRun(run)
    ensures var s := run[|run| - 1];
            s.buckets.at == map[] && s.collector.threads.Keys == {7} && s.collector.gc.remaining == 1
            && s.collector.gc.recent == [0] && s.collector.gc.freed == []
  {
    hide IsRun, Reachable;
    LeftOverHappens();
    run := RunTo(LEFT_OVER);
  }

  lemma RunTo(s: State) returns (run: seq<State>)
    requires Reachable(s)
    ensures IsRun(run) && |run| > 0 && run[|run| - 1] == s
  {
    hide Enabled, Next, Init, Steps;
    run :| IsRun(run) && run[|run| - 1] == s;
  }
}
