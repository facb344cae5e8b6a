/** How the insertions of `ChainProtocol` end, and why: each one that gives up has met a full
    neighbourhood, a counter not above 0, or has used up its rounds on links and waits. */
module ChainOutcomes {
  import Runs
  import opened Chains
  import opened HashTables
  import opened Options
  import opened ChainProtocol

  // ---- What an insertion knows ------------------------------------------------------------------

  /** Bucket `b` is exactly `k` links behind bucket `i`. */
  ghost predicate Behind(t: seq<Cell>, i: nat, b: nat, k: nat)
    requires DeltasInRange(t) && i < |t|
    decreases k
  {
    if k == 0 then i == b else Linked(t, i) && Behind(t, Next(t, i), b, k - 1)
  }

  lemma {:induction false} BehindKept(t: seq<Cell>, u: seq<Cell>, i: nat, b: nat, k: nat)
    requires DeltasInRange(t) && DeltasInRange(u) && LinksKept(t, u) && i < |t| && Behind(t, i, b, k)
    ensures Behind(u, i, b, k)
    decreases k
  {
    if k > 0 {
      BehindKept(t, u, Next(t, i), b, k - 1);
    }
  }

  lemma {:induction false} BehindNext(t: seq<Cell>, i: nat, b: nat, k: nat)
    requires DeltasInRange(t) && i < |t| && b < |t| && Behind(t, i, b, k) && Linked(t, b)
    ensures Behind(t, i, Next(t, b), k + 1)
    decreases k
  {
    if k > 0 {
      BehindNext(t, Next(t, i), b, k - 1);
    }
  }

  /** A chain that goes on behind `k` links does not end within them. */
  lemma {:induction false} GoesOn(t: seq<Cell>, i: nat, b: nat, k: nat)
    requires DeltasInRange(t) && i < |t| && b < |t| && Behind(t, i, b, k) && Linked(t, b)
    ensures !Ends(t, i, k)
    decreases k
  {
    if k > 0 {
      GoesOn(t, Next(t, i), b, k - 1);
    }
  }

  /** The d nearest buckets behind tail `i` are allocated. */
  ghost predicate NearerTaken(t: seq<Cell>, i: nat, d: nat)
    requires i < |t| && |t| >= SIZE_MIN && d <= NEIGHBOURHOOD
  {
    forall c {:trigger Step(i, c, |t|)} | 0 <= c < d :: Allocated(t[Step(i, c, |t|)])
  }

  ghost predicate Reason(s: State, h: int, pc: Pc)
    requires DeltasInRange(s.cells) && pc.i < |s.cells|
  {
    match pc
    case Scan(i, _, d) => d <= NEIGHBOURHOOD && NearerTaken(s.cells, i, d)
    case Reserve(i, _, d) => d < NEIGHBOURHOOD && NearerTaken(s.cells, i, d)
    case Claim(i, _, d) => d < NEIGHBOURHOOD && NearerTaken(s.cells, i, d)
    case GiveBack(i, _, d) => d < NEIGHBOURHOOD && NearerTaken(s.cells, i, d + 1)
    case Link(i, _, d) => d < NEIGHBOURHOOD && NearerTaken(s.cells, i, d)
    case Unreserve(_, _) => h in s.refused
    case Unmark(i, _) => h in s.refused || NoRoomBehind(s.cells, i)
    case _ => true
  }

  ghost predicate Explains(s: State, h: int)
    requires DeltasInRange(s.cells) && h in s.inflight
  {
    var pc := s.inflight[h];
    && h in s.walked && pc.i < |s.cells| && pc.jumps == 1 + s.walked[h].links + s.walked[h].waits
    && Behind(s.cells, Home(h, |s.cells|), pc.i, s.walked[h].links)
    && Reason(s, h, pc)
  }

  ghost predicate Explained(s: State) {
    Inv(s) && forall h | h in s.inflight :: Explains(s, h)
  }

  lemma ReasonKept(s: State, s': State, h: int, g: int, pc: Pc)
    requires Grows(s, s', h) && pc.i < |s.cells| && Reason(s, g, pc) && (g in s.refused ==> g in s'.refused)
    ensures Reason(s', g, pc)
  {
  }

  lemma OtherExplained(s: State, s': State, h: int, g: int)
    requires Grows(s, s', h) && g in s.inflight && g in s'.inflight && s'.inflight[g] == s.inflight[g] && Explains(s, g)
    requires (g in s.refused ==> g in s'.refused) && g in s'.walked && (g in s.walked ==> s'.walked[g] == s.walked[g])
    ensures Explains(s', g)
  {
    hide Behind, Reason, Grows;
    GrowsFacts(s, s', h);
    BehindKept(s.cells, s'.cells, Home(g, |s.cells|), s.inflight[g].i, s.walked[g].links);
    ReasonKept(s, s', h, g, s.inflight[g]);
  }

  lemma GrowsFacts(s: State, s': State, h: int)
    requires Grows(s, s', h)
    ensures DeltasInRange(s.cells) && DeltasInRange(s'.cells) && LinksKept(s.cells, s'.cells) && |s'.cells| == |s.cells|
  {
  }

  /** The insertion that acts. */
  lemma ActorExplained(s: State, h: int)
    requires Explained(s) && Enabled(s, Advance(h)) && After(s, h).Some? && DeltasInRange(Do(s, h).cells)
    requires Grows(s, Do(s, h), h)
    ensures Explains(Do(s, h), h)
  {
    assert Explains(s, h) && InsertionOk(s, h);
    hide Inv, Explained;
    ActorWalked(s, h);
    ActorReason(s, h);
  }

  lemma ActorWalked(s: State, h: int)
    requires Enabled(s, Advance(h)) && After(s, h).Some? && DeltasInRange(s.cells)
    requires h in s.inflight && Explains(s, h) && Grows(s, Do(s, h), h)
    ensures var s', to := Do(s, h), After(s, h).value;
            h in s'.walked && to.i < |s'.cells| && to.jumps == 1 + s'.walked[h].links + s'.walked[h].waits
            && Behind(s'.cells, Home(h, |s'.cells|), to.i, s'.walked[h].links)
  {
    hide Reason, Behind, Grows;
    var s', pc, home := Do(s, h), s.inflight[h], Home(h, |s.cells|);
    GrowsFacts(s, s', h);
    BehindKept(s.cells, s'.cells, home, pc.i, s.walked[h].links);
    if pc.ReadDelta? && Linked(s.cells, pc.i) {
      BehindNext(s.cells, home, pc.i, s.walked[h].links);
      BehindKept(s.cells, s'.cells, home, Next(s.cells, pc.i), s.walked[h].links + 1);
    }
  }

  lemma ActorReason(s: State, h: int)
    requires Enabled(s, Advance(h)) && After(s, h).Some? && DeltasInRange(s.cells)
    requires h in s.inflight && Explains(s, h) && InsertionOk(s, h) && Grows(s, Do(s, h), h)
    ensures After(s, h).value.i < |Do(s, h).cells| && Reason(Do(s, h), h, After(s, h).value)
  {
    hide Behind, Reaches, WalkedOn, Grows;
    GrowsFacts(s, Do(s, h), h);
    HashesKept(s, Do(s, h), h);
  }

  lemma HashesKept(s: State, s': State, h: int)
    requires Grows(s, s', h)
    ensures |s'.cells| == |s.cells| && forall b | 0 <= b < |s.cells| && Allocated(s.cells[b]) :: Allocated(s'.cells[b])
  {
  }

  lemma StepExplains(s: State, a: Action)
    requires Explained(s) && Enabled(s, a)
    ensures Explained(Succ(s, a))
  {
    StepKeeps(s, a);
    hide Explained, Enabled, Inv;
    match a
    case Begin(h) => BeginExplained(s, h);
    case Advance(h) => AdvanceExplained(s, h);
    case _ => ReadExplained(s, a);
  }

  lemma ReadExplained(s: State, a: Action)
    requires Explained(s) && Enabled(s, a) && (a.BeginRead? || a.AdvanceRead?) && Inv(Succ(s, a))
    ensures Explained(Succ(s, a))
  {
    var s' := Succ(s, a);
    assert s' == s.(readers := s'.readers) && DeltasInRange(s.cells);
    hide Inv, Enabled, Succ;
    forall h | h in s'.inflight
      ensures Explains(s', h)
    {
      assert Explains(s, h);
    }
  }

  lemma BeginExplained(s: State, h: int)
    requires Explained(s) && Enabled(s, Begin(h)) && Inv(Succ(s, Begin(h)))
    ensures Explained(Succ(s, Begin(h)))
  {
    var s' := Succ(s, Begin(h));
    assert DeltasInRange(s.cells);
    hide Inv;
    forall g | g in s'.inflight
      ensures Explains(s', g)
    {
      if g != h {
        assert Explains(s, g);
      }
    }
  }

  lemma AdvanceExplained(s: State, h: int)
    requires Explained(s) && Enabled(s, Advance(h)) && Inv(Do(s, h))
    ensures Explained(Do(s, h))
  {
    var s' := Do(s, h);
    EffectGrows(s, h);
    GrowsOn(s, h);
    assert DeltasInRange(s.cells) && DeltasInRange(s'.cells);
    assert forall g | g in s.inflight :: Explains(s, g);
    if After(s, h).Some? {
      ActorExplained(s, h);
    }
    hide Inv, After, Effect, Explains;
    forall g | g in s'.inflight
      ensures Explains(s', g)
    {
      if g != h {
        assert g in s.walked by { Known(s, g); }
        OtherExplained(s, s', h, g);
      }
    }
  }

  lemma Known(s: State, g: int)
    requires DeltasInRange(s.cells) && g in s.inflight && Explains(s, g)
    ensures g in s.walked
  {
  }

  lemma GrowsOn(s: State, h: int)
    requires Enabled(s, Advance(h)) && Grows(s, Effect(s, h), h)
    ensures Grows(s, Do(s, h), h)
  {
  }

  // ---- Runs -------------------------------------------------------------------------------------

  lemma RunExplained(run: seq<State>, k: nat)
    requires IsRun(run) && k < |run|
    ensures Explained(run[k])
  {
    hide Inv, Enabled, Succ, Init, Explained;
    forall s | Init(s)
      ensures Explained(s)
    {
      StartsExplained(s);
    }
    forall s, s' | Explained(s) && Steps(s, s')
      ensures Explained(s')
    {
      var a :| Enabled(s, a) && s' == Succ(s, a);
      StepExplains(s, a);
    }
    Runs.Keeps(run, k, Init, Steps, Explained);
  }

  lemma StartsExplained(s: State)
    requires Init(s)
    ensures Explained(s)
  {
    InitInv(s);
  }

  /** How an insertion ends: at the bucket of its hash; with its hash published; behind a tail where all
      buckets near enough are allocated, or with a counter that was not above 0; or after nine rounds, each
      a link followed or a marker waited for. */
  lemma EndsForAReason(run: seq<State>, k: nat, h: int)
    requires IsRun(run) && k < |run| && Enabled(run[k], Advance(h)) && After(run[k], h) == None
    ensures var s, s', pc := run[k], Do(run[k], h), run[k].inflight[h];
            match pc
            case Look(i, _) => h in s.slot && i == s.slot[h] && Published(s, h)
            case Link(_, _, _) => Published(s', h)
            case Unmark(i, _) => h !in s.slot && i < |s.cells| && |s.cells| >= SIZE_MIN && (h in s.refused || NoRoomBehind(s.cells, i))
            case ReadDelta(_, _) => h in s'.walked && s'.walked[h].links + s'.walked[h].waits == MAX_JUMPS + 1
            case Wait(_, _) => h in s'.walked && s'.walked[h].links + s'.walked[h].waits == MAX_JUMPS + 1 && s'.walked[h].waits > 0
            case _ => false
  {
    RunExplained(run, k);
    var s := run[k];
    assert Explains(s, h) && InsertionOk(s, h);
    OwnHashUnseen(s, h);
  }

  /** If it waited for no marker, it has met a chain of more than nine buckets. */
  lemma OutOfRoundsMeansLong(run: seq<State>, k: nat, h: int)
    requires IsRun(run) && k < |run| && Enabled(run[k], Advance(h)) && After(run[k], h) == None
    requires run[k].inflight[h].ReadDelta? && h in run[k].walked && run[k].walked[h].waits == 0
    ensures DeltasInRange(run[k].cells) && !Ends(run[k].cells, Home(h, |run[k].cells|), MAX_JUMPS)
  {
    RunExplained(run, k);
    hide IsRun, Explained;
    LongChain(run[k], h);
  }

  lemma LongChain(s: State, h: int)
    requires Explained(s) && Enabled(s, Advance(h)) && After(s, h) == None
    requires s.inflight[h].ReadDelta? && h in s.walked && s.walked[h].waits == 0
    ensures DeltasInRange(s.cells) && !Ends(s.cells, Home(h, |s.cells|), MAX_JUMPS)
  {
    hide Behind, Ends, Reaches, Reason;
    assert Explains(s, h) && InsertionOk(s, h);
    hide Inv, Explained;
    GoesOn(s.cells, Home(h, |s.cells|), s.inflight[h].i, s.walked[h].links);
  }

  /** Every insertion in flight can make its next access. One that waits in vain waits for the marker of
      another, and that one is not waiting. */
  lemma InsertionsCanGoOn(run: seq<State>, k: nat, h: int)
    requires IsRun(run) && k < |run| && h in run[k].inflight
    ensures Enabled(run[k], Advance(h))
    ensures run[k].inflight[h].Wait? && After(run[k], h) == Some(run[k].inflight[h]) ==>
              exists g :: g in run[k].inflight && g != h && Holds(run[k].inflight[g]) && run[k].inflight[g].i == run[k].inflight[h].i
  {
    RunExplained(run, k);
    hide IsRun, Explained;
    InsertionGoesOn(run[k], h);
  }

  /** A lookup ends with the bucket it looks at, whose hash is its own, or at an unallocated bucket, or at one
      that leads nowhere yet. */
  lemma LookupEndsForAReason(run: seq<State>, k: nat, r: nat)
    requires IsRun(run) && k < |run| && Enabled(run[k], AdvanceRead(r))
    ensures var s, at, at' := run[k], run[k].readers[r].at, Succ(run[k], AdvanceRead(r)).readers[r].at;
            && (at'.Found? ==> at.AtHash? && at'.b == at.i && s.cells[at.i].hash == s.readers[r].h)
            && (at'.Missing? ==> if at.AtHash? then !Allocated(s.cells[at.i]) else !Linked(s.cells, at.i))
  {
  }

  /** And so can every lookup that is not over. */
  lemma LookupsCanGoOn(run: seq<State>, k: nat, r: nat)
    requires IsRun(run) && k < |run| && r in run[k].readers
    requires !run[k].readers[r].at.Found? && !run[k].readers[r].at.Missing?
    ensures Enabled(run[k], AdvanceRead(r))
  {
    RunExplained(run, k);
    hide IsRun, Explained;
    ReaderGoesOn(run[k], r);
  }

  lemma InsertionGoesOn(s: State, h: int)
    requires Explained(s) && h in s.inflight
    ensures Enabled(s, Advance(h))
    ensures s.inflight[h].Wait? && After(s, h) == Some(s.inflight[h]) ==>
              exists g :: g in s.inflight && g != h && Holds(s.inflight[g]) && s.inflight[g].i == s.inflight[h].i
  {
    assert Explains(s, h) && InsertionOk(s, h) && Markers(s) && DeltasInRange(s.cells);
    hide Behind, Reaches, Inv, Explained;
    var pc := s.inflight[h];
    if pc.Wait? && After(s, h) == Some(pc) {
      var g := s.owner[pc.i];
      assert g in s.inflight && Holds(s.inflight[g]);
    }
  }

  lemma ReaderGoesOn(s: State, r: nat)
    requires Explained(s) && r in s.readers && !s.readers[r].at.Found? && !s.readers[r].at.Missing?
    ensures Enabled(s, AdvanceRead(r))
  {
    assert ReaderOk(s, s.readers[r]) && DeltasInRange(s.cells) && |s.born| == |s.cells|;
    hide Reaches, Inv;
  }
}
