/** One insertion of `ChainProtocol` that nobody disturbs does what the sequential table does: it allocates a
    bucket exactly when that table accepts its hash, and the same one. */
module ChainSolo {
  import Runs
  import Pow2
  import opened Chains
  import opened HashTables
  import opened ChainProtocol
  import opened ChainOutcomes

  // ---- Undisturbed accesses ---------------------------------------------------------------------

  /** The next `n` accesses of the insertion of `h`, and no others in between, lead from `s` to `s'`. */
  ghost predicate Alone(s: State, h: int, n: nat, s': State)
    decreases n
  {
    if n == 0 then s' == s else Enabled(s, Advance(h)) && Alone(Do(s, h), h, n - 1, s')
  }

  ghost predicate Leads(s: State, h: int, s': State) {
    exists n: nat :: Alone(s, h, n, s')
  }

  lemma LeadsNowhere(s: State, h: int)
    ensures Leads(s, h, s)
  {
    assert Alone(s, h, 0, s);
  }

  lemma LeadsOn(s: State, h: int, s': State)
    requires Enabled(s, Advance(h)) && Leads(Do(s, h), h, s')
    ensures Leads(s, h, s')
  {
    var n: nat :| Alone(Do(s, h), h, n, s');
    assert Alone(s, h, n + 1, s');
  }

  // ---- The table --------------------------------------------------------------------------------

  function Table(s: State): Snapshot { Snapshot(s.cells, s.free, s.slot, s.born) }

  /** The size is a power of two, and no value is written, as is left out of the machine. */
  ghost predicate Plain(s: State) {
    Pow2.IsPow2(|s.cells|) && Valueless(s.cells)
  }

  ghost predicate Valueless(t: seq<Cell>) {
    forall b | 0 <= b < |t| :: t[b].value == NO_VALUE
  }

  /** And nobody holds a marker. */
  ghost predicate Unmarked(s: State) { Inv(s) && s.owner == map[] && Plain(s) }

  lemma UnmarkedIsSound(s: State)
    requires Unmarked(s)
    ensures Sound(Table(s)) && forall b | 0 <= b < |s.cells| :: s.cells[b].delta < NEIGHBOURHOOD
  {
    hide LinksGrow, OnePredecessor, BornBounded, SlotsExact, InsertionOk, ReaderOk, Reaches;
    assert forall h | h in s.inflight && Holds(s.inflight[h]) :: s.inflight[h].i in s.owner;
    assert forall h | h in s.inflight :: !Good(s.inflight[h]) && !s.inflight[h].Unreserve?;
    assert GoodOnes(s.inflight) == {} && BadOnes(s.inflight) == {};
    assert forall b | 0 <= b < |s.cells| :: s.cells[b].delta != DELTA_EXTEND;
    assert forall h | h in s.slot :: Published(s, h);
  }

  /** What the insertion is to leave: no trace of itself, and its bucket if the table accepts the hash. */
  ghost predicate Finished(s: State, s': State, h: int)
    requires Sound(Table(s))
  {
    && s'.inflight == s.inflight - {h} && s'.owner == s.owner && s'.readers == s.readers
    && Table(s') == if Accepts(Table(s), h) then Reserved(Table(s), h) else Table(s)
  }

  ghost predicate Finishes(s: State, from: State, h: int)
    requires Sound(Table(s))
  {
    exists s' :: Leads(from, h, s') && Finished(s, s', h)
  }

  lemma FinishesOn(s: State, from: State, h: int)
    requires Sound(Table(s)) && Enabled(from, Advance(h)) && Finishes(s, Do(from, h), h)
    ensures Finishes(s, from, h)
  {
    hide Finished, Enabled, Do;
    var s' :| Leads(Do(from, h), h, s') && Finished(s, s', h);
    LeadsOn(from, h, s');
  }

  lemma FinishesHere(s: State, s': State, h: int)
    requires Sound(Table(s)) && Finished(s, s', h)
    ensures Finishes(s, s', h)
  {
    LeadsNowhere(s', h);
  }

  // ---- Behind the tail --------------------------------------------------------------------------

  /** The state in which the insertion holds the marker of bucket `i`. */
  function Marked(s: State, h: int, i: nat, pc: Pc): State
    requires i < |s.cells|
  {
    SetDelta(s, i, DELTA_EXTEND).(owner := s.owner[i := h], inflight := s.inflight[h := pc])
  }

  lemma MarkedMoves(s: State, h: int, i: nat, pc: Pc, pc': Pc)
    requires i < |s.cells|
    ensures Marked(s, h, i, pc).inflight[h := pc'] == Marked(s, h, i, pc').inflight
    ensures Marked(s, h, i, pc).inflight - {h} == s.inflight - {h}
  {
  }

  ghost predicate AtItsTail(s: State, h: int, i: nat)
    requires Sound(Table(s))
  {
    && h in s.inflight && h != EMPTY_HASH && h !in s.slot && s.owner == map[]
    && i < |s.cells| && s.cells[i].delta == DELTA_EMPTY && |s.born| == |s.cells| >= SIZE_MIN
    && Ends(s.cells, Home(h, |s.cells|), MAX_JUMPS) && TailOf(s.cells, Home(h, |s.cells|), MAX_JUMPS) == i
  }

  lemma {:induction false} SoloScan(s: State, h: int, i: nat, jumps: nat, d: nat)
    requires Sound(Table(s)) && AtItsTail(s, h, i) && d <= NEIGHBOURHOOD && NearerTaken(s.cells, i, d)
    ensures Finishes(s, Marked(s, h, i, Scan(i, jumps, d)), h)
    decreases NEIGHBOURHOOD - d
  {
    hide Sound, Ends, TailOf, Finishes, Finished, Accepts, Reserved;
    var from := Marked(s, h, i, Scan(i, jumps, d));
    if d == NEIGHBOURHOOD {
      MarkedMoves(s, h, i, from.inflight[h], Unmark(i, jumps));
      assert Do(from, h) == Marked(s, h, i, Unmark(i, jumps));
      SoloUnmark(s, s, h, i, jumps);
    } else if !Allocated(s.cells[Step(i, d, |s.cells|)]) {
      MarkedMoves(s, h, i, from.inflight[h], Reserve(i, jumps, d));
      assert Do(from, h) == Marked(s, h, i, Reserve(i, jumps, d));
      SoloReserve(s, h, i, jumps, d);
    } else {
      NotThere(Table(s), h, Step(i, d, |s.cells|));
      MarkedMoves(s, h, i, from.inflight[h], Scan(i, jumps, d + 1));
      assert Do(from, h) == Marked(s, h, i, Scan(i, jumps, d + 1));
      SoloScan(s, h, i, jumps, d + 1);
    }
    FinishesOn(s, from, h);
  }

  lemma NotThere(s: Snapshot, h: int, b: nat)
    requires Sound(s) && h !in s.slot && b < |s.cells| && h != EMPTY_HASH
    ensures s.cells[b].hash != h
  {
    CellFacts(s, b);
  }

  lemma UnmarksIt(s: State, h: int, i: nat, jumps: nat)
    requires h in s.inflight && s.inflight[h] == Unmark(i, jumps)
    requires i < |s.cells| == |s.born| && |s.cells| >= SIZE_MIN && s.cells[i].delta == DELTA_EXTEND
    ensures Enabled(s, Advance(h))
    ensures Do(s, h) == s.(cells := s.cells[i := s.cells[i].(delta := DELTA_EMPTY)], owner := s.owner - {i}, inflight := s.inflight - {h})
  {
  }

  /** Giving up behind the tail; `r` is like `s` but for what it remembers. */
  lemma SoloUnmark(s: State, r: State, h: int, i: nat, jumps: nat)
    requires Sound(Table(s)) && AtItsTail(s, h, i) && r == s.(refused := r.refused)
    requires NoRoomBehind(s.cells, i) || s.free <= 0
    ensures Finishes(s, Marked(r, h, i, Unmark(i, jumps)), h)
  {
    hide Sound, Ends, TailOf, Accepts, Reserved;
    var from := Marked(r, h, i, Unmark(i, jumps));
    AcceptedBehind(Table(s), h, i);
    assert !Accepts(Table(s), h);
    hide NoRoomBehind, Target, FreeBehind, Gap, ReservedBehind;
    UnmarksIt(from, h, i, jumps);
    hide Enabled, Do;
    assert from.cells[i := from.cells[i].(delta := DELTA_EMPTY)] == s.cells;
    assert s.owner[i := h] - {i} == map[] && from.inflight - {h} == s.inflight - {h};
    FinishesHere(s, Do(from, h), h);
    FinishesOn(s, from, h);
  }

  lemma SoloReserve(s: State, h: int, i: nat, jumps: nat, d: nat)
    requires Sound(Table(s)) && AtItsTail(s, h, i) && d < NEIGHBOURHOOD && NearerTaken(s.cells, i, d)
    requires !Allocated(s.cells[Step(i, d, |s.cells|)])
    ensures Finishes(s, Marked(s, h, i, Reserve(i, jumps, d)), h)
  {
    hide Sound, Ends, TailOf, Finishes, Finished, Accepts, Reserved;
    var from := Marked(s, h, i, Reserve(i, jumps, d));
    if s.free <= 0 {
      var r := s.(refused := s.refused + {h});
      SoloUnmark(s, r, h, i, jumps);
      var back := Marked(r, h, i, Unreserve(i, jumps)).(free := s.free - 1);
      MarkedMoves(r, h, i, back.inflight[h], Unmark(i, jumps));
      assert Do(back, h) == Marked(r, h, i, Unmark(i, jumps));
      FinishesOn(s, back, h);
      MarkedMoves(s, h, i, from.inflight[h], Unreserve(i, jumps));
      assert Do(from, h) == back;
    } else {
      SoloClaim(s, h, i, jumps, d);
      MarkedMoves(s, h, i, from.inflight[h], Claim(i, jumps, d));
      assert Do(from, h) == Marked(s, h, i, Claim(i, jumps, d)).(free := s.free - 1);
    }
    FinishesOn(s, from, h);
  }

  lemma SoloClaim(s: State, h: int, i: nat, jumps: nat, d: nat)
    requires Sound(Table(s)) && AtItsTail(s, h, i) && d < NEIGHBOURHOOD && NearerTaken(s.cells, i, d)
    requires !Allocated(s.cells[Step(i, d, |s.cells|)]) && s.free > 0
    ensures Finishes(s, Marked(s, h, i, Claim(i, jumps, d)).(free := s.free - 1), h)
  {
    hide Sound, Ends, TailOf, Accepts, Reserved, Gap, NoRoomBehind, FreeBehind;
    var from := Marked(s, h, i, Claim(i, jumps, d)).(free := s.free - 1);
    NearestFree(s.cells, from.cells, i, d);
    AddedIs(Table(s), i, d, h, NO_VALUE);
    AcceptedBehind(Table(s), h, i);
    var done := ClaimAndLink(s, h, i, jumps, d);
    hide Marked, Leads;
    assert Finished(s, done, h);
  }

  /** The two accesses that allocate. */
  lemma ClaimAndLink(s: State, h: int, i: nat, jumps: nat, d: nat) returns (done: State)
    requires Sound(Table(s)) && AtItsTail(s, h, i) && d < NEIGHBOURHOOD && !Allocated(s.cells[Step(i, d, |s.cells|)])
    ensures Leads(Marked(s, h, i, Claim(i, jumps, d)).(free := s.free - 1), h, done)
    ensures done.inflight == s.inflight - {h} && done.owner == s.owner && done.readers == s.readers
    ensures Table(done) == Claimed(Table(s), i, d, h)
  {
    var from := Marked(s, h, i, Claim(i, jumps, d)).(free := s.free - 1);
    var linking := Linking(s, h, i, jumps, d);
    ClaimsIt(s, h, i, jumps, d);
    LinkingFacts(s, h, i, jumps, d);
    hide Sound, Ends, TailOf, Marked, Linking;
    LinksIt(linking, h, i, jumps, d);
    done := Do(linking, h);
    hide Do, Enabled, Leads, Extended;
    Gone(s.inflight, h, Link(i, jumps, d), i);
    LeadsNowhere(done, h);
    LeadsOn(linking, h, done);
    LeadsOn(from, h, done);
  }

  /** The state in which the bucket is claimed and not linked yet. */
  function Linking(s: State, h: int, i: nat, jumps: nat, d: nat): State
    requires i < |s.cells| == |s.born| && d < NEIGHBOURHOOD <= |s.cells|
  {
    var e := Step(i, d, |s.cells|);
    var m := Marked(s, h, i, Link(i, jumps, d));
    m.(cells := m.cells[e := m.cells[e].(hash := h)], slot := s.slot[h := e], born := s.born[e := |s.slot|], free := s.free - 1)
  }

  lemma LinkingFacts(s: State, h: int, i: nat, jumps: nat, d: nat)
    requires i < |s.cells| == |s.born| && d < NEIGHBOURHOOD && SIZE_MIN <= |s.cells| && s.owner == map[]
    ensures var l := Linking(s, h, i, jumps, d);
            && l.cells[i := l.cells[i].(delta := d)] == Extended(s.cells, i, d, h)
            && l.inflight == s.inflight[h := Link(i, jumps, d)] && l.owner == s.owner[i := h] && l.readers == s.readers
            && l.free == s.free - 1 && l.slot == s.slot[h := Step(i, d, |s.cells|)]
            && l.born == s.born[Step(i, d, |s.cells|) := |s.slot|]
            && |l.cells| == |s.cells| == |l.born| && l.cells[i].delta == DELTA_EXTEND
  {
    MarkedExtends(s.cells, i, d, h);
    hide Extended, Step;
  }

  /** The marker leaves no trace. */
  lemma MarkedExtends(t: seq<Cell>, i: nat, d: nat, h: int)
    requires i < |t| && d < NEIGHBOURHOOD <= |t|
    ensures var e, m := Step(i, d, |t|), t[i := t[i].(delta := DELTA_EXTEND)];
            var u := m[e := m[e].(hash := h)];
            u[i].delta == DELTA_EXTEND && u[i := u[i].(delta := d)] == Extended(t, i, d, h)
  {
  }

  lemma LinksIt(s: State, h: int, i: nat, jumps: nat, d: nat)
    requires h in s.inflight && s.inflight[h] == Link(i, jumps, d) && d < NEIGHBOURHOOD
    requires i < |s.cells| == |s.born| && |s.cells| >= SIZE_MIN && s.cells[i].delta == DELTA_EXTEND
    ensures Enabled(s, Advance(h))
    ensures Do(s, h) == s.(cells := s.cells[i := s.cells[i].(delta := d)], owner := s.owner - {i}, inflight := s.inflight - {h})
  {
  }

  lemma Gone(inflight: map<int, Pc>, h: int, pc: Pc, i: nat)
    ensures inflight[h := pc] - {h} == inflight - {h}
    ensures map[][i := h] - {i} == map[]
  {
  }

  lemma ClaimsIt(s: State, h: int, i: nat, jumps: nat, d: nat)
    requires Sound(Table(s)) && AtItsTail(s, h, i) && d < NEIGHBOURHOOD && !Allocated(s.cells[Step(i, d, |s.cells|)])
    ensures var from := Marked(s, h, i, Claim(i, jumps, d)).(free := s.free - 1);
            Enabled(from, Advance(h)) && Do(from, h) == Linking(s, h, i, jumps, d)
  {
    hide Sound, Ends, TailOf;
    var e := Step(i, d, |s.cells|);
    var from := Marked(s, h, i, Claim(i, jumps, d)).(free := s.free - 1);
    assert from.cells[e].hash == s.cells[e].hash;
    MarkedMoves(s, h, i, Claim(i, jumps, d), Link(i, jumps, d));
  }

  // ---- On the walk ------------------------------------------------------------------------------

  /** The state in which the insertion is there, and nothing else is changed but what it remembers. */
  function Walking(s: State, h: int, pc: Pc, walked: map<int, Walked>): State {
    s.(inflight := s.inflight[h := pc], walked := walked)
  }

  /** The walk is at bucket `i` in round `jumps`. */
  ghost predicate OnItsWay(s: State, h: int, i: nat, jumps: nat)
    requires Sound(Table(s))
  {
    && h in s.inflight && h != EMPTY_HASH && s.owner == map[] && i < |s.cells| && 1 <= jumps <= MAX_JUMPS + 1
    && (forall b | 0 <= b < |s.cells| :: s.cells[b].delta < NEIGHBOURHOOD)
    && OnRoute(Table(s), h, i, jumps - 1) && SameEnd(s.cells, Home(h, |s.cells|), i, jumps - 1)
  }

  lemma OnItsWayFacts(s: State, h: int, i: nat, jumps: nat)
    requires Sound(Table(s)) && OnItsWay(s, h, i, jumps)
    ensures h in s.inflight && h != EMPTY_HASH && s.owner == map[] && i < |s.cells| && 1 <= jumps <= MAX_JUMPS + 1
    ensures DeltasInRange(s.cells) && |s.born| == |s.cells| && s.cells[i].delta < NEIGHBOURHOOD
    ensures OnRoute(Table(s), h, i, jumps - 1) && SameEnd(s.cells, Home(h, |s.cells|), i, jumps - 1)
  {
    SizeFacts(Table(s));
  }

  lemma {:induction false} SoloWalk(s: State, h: int, i: nat, jumps: nat, walked: map<int, Walked>)
    requires Sound(Table(s)) && OnItsWay(s, h, i, jumps)
    ensures Finishes(s, Walking(s, h, Look(i, jumps), walked), h)
    decreases MAX_JUMPS + 1 - jumps
  {
    hide Sound, OnItsWay, OnRoute, SameEnd, Ends, TailOf, Finishes, Finished, Accepts, Reserved, AtItsTail, NearerTaken;
    OnItsWayFacts(s, h, i, jumps);
    RouteHere(Table(s), h, i, jumps - 1);
    var from, read := Walking(s, h, Look(i, jumps), walked), Walking(s, h, ReadDelta(i, jumps), walked);
    if s.cells[i].hash == h {
      SoloFound(s, h, i, jumps, walked);
    } else {
      if !Linked(s.cells, i) {
        SoloTail(s, h, i, jumps, walked);
      } else {
        SoloLink(s, h, i, jumps, walked);
        if jumps <= MAX_JUMPS {
          SoloWalk(s, h, Next(s.cells, i), jumps + 1, WalkedOn(read, h));
          assert Do(read, h) == Walking(s, h, Look(Next(s.cells, i), jumps + 1), WalkedOn(read, h));
          FinishesOn(s, read, h);
        }
      }
      assert Do(from, h) == read;
      FinishesOn(s, from, h);
    }
  }

  lemma SoloFound(s: State, h: int, i: nat, jumps: nat, walked: map<int, Walked>)
    requires Sound(Table(s)) && OnItsWay(s, h, i, jumps) && s.cells[i].hash == h
    ensures Finishes(s, Walking(s, h, Look(i, jumps), walked), h)
  {
    hide Sound, OnItsWay, OnRoute, SameEnd, Accepts, Reserved, Near;
    OnItsWayFacts(s, h, i, jumps);
    RouteHere(Table(s), h, i, jumps - 1);
    NearEnough(Table(s), h, i, jumps - 1);
    AcceptedThere(Table(s), h);
    var from := Walking(s, h, Look(i, jumps), walked);
    assert Do(from, h).inflight == s.inflight - {h};
    FinishesHere(s, Do(from, h), h);
    FinishesOn(s, from, h);
  }

  /** At the tail it takes the marker. */
  lemma SoloTail(s: State, h: int, i: nat, jumps: nat, walked: map<int, Walked>)
    requires Sound(Table(s)) && OnItsWay(s, h, i, jumps) && s.cells[i].hash != h && !Linked(s.cells, i)
    ensures Finishes(s, Walking(s, h, ReadDelta(i, jumps), walked), h)
  {
    hide Sound, OnItsWay, OnRoute, SameEnd, Ends, TailOf, Finishes, Accepts, Reserved;
    OnItsWayFacts(s, h, i, jumps);
    RouteHere(Table(s), h, i, jumps - 1);
    SameEndHere(s.cells, Home(h, |s.cells|), i, jumps - 1);
    TailHasNone(Table(s), h, i, jumps - 1);
    var r := s.(walked := walked);
    SoloScan(r, h, i, jumps, 0);
    FinishesAlike(s, r, Marked(r, h, i, Scan(i, jumps, 0)), h);
    hide AtItsTail, NearerTaken;
    var read, mark := Walking(s, h, ReadDelta(i, jumps), walked), Walking(s, h, TryMark(i, jumps), walked);
    assert Do(mark, h) == Marked(r, h, i, Scan(i, jumps, 0));
    FinishesOn(s, mark, h);
    assert Do(read, h) == mark;
    FinishesOn(s, read, h);
  }

  /** What it remembers does not matter. */
  lemma FinishesAlike(s: State, r: State, from: State, h: int)
    requires Sound(Table(s)) && r == s.(walked := r.walked) && Finishes(r, from, h)
    ensures Finishes(s, from, h)
  {
    hide Sound, Accepts, Reserved, Leads;
    var s' :| Leads(from, h, s') && Finished(r, s', h);
    assert Finished(s, s', h);
  }

  /** At a link it goes on, or ends after nine rounds. */
  lemma SoloLink(s: State, h: int, i: nat, jumps: nat, walked: map<int, Walked>)
    requires Sound(Table(s)) && OnItsWay(s, h, i, jumps) && s.cells[i].hash != h && Linked(s.cells, i)
    ensures DeltasInRange(s.cells) && (jumps <= MAX_JUMPS ==> OnItsWay(s, h, Next(s.cells, i), jumps + 1))
    ensures jumps > MAX_JUMPS ==> Finishes(s, Walking(s, h, ReadDelta(i, jumps), walked), h)
  {
    hide Sound, OnRoute, SameEnd, Ends, TailOf, Accepts, Reserved, Near;
    OnItsWayFacts(s, h, i, jumps);
    var home := Home(h, |s.cells|);
    RouteStep(Table(s), h, i, jumps - 1);
    SameEndStep(s.cells, home, i, jumps - 1);
    if jumps > MAX_JUMPS {
      RouteHere(Table(s), h, Next(s.cells, i), jumps);
      TooFarOut(s.cells, home, Next(s.cells, i), jumps);
      Refused(Table(s), h);
      var read := Walking(s, h, ReadDelta(i, jumps), walked);
      assert Do(read, h).inflight == s.inflight - {h};
      FinishesHere(s, Do(read, h), h);
      FinishesOn(s, read, h);
    }
  }

  // ---- Runs -------------------------------------------------------------------------------------

  lemma StepPlain(s: State, a: Action)
    requires Plain(s) && Enabled(s, a)
    ensures Plain(Succ(s, a))
  {
    if a.Advance? {
      EffectPlain(s, a.h);
    }
    hide Pow2.IsPow2, Effect, After, WalkedOn;
  }

  lemma EffectPlain(s: State, h: int)
    requires Plain(s) && Enabled(s, Advance(h))
    ensures Plain(Effect(s, h))
  {
    hide Pow2.IsPow2, After, WalkedOn, Next, Step;
    var t := s.cells;
    match s.inflight[h]
    case TryMark(i, _) => NoValues(t, i, t[i].(delta := DELTA_EXTEND));
    case Claim(i, _, d) =>
      var e := Step(i, d, |t|);
      NoValues(t, e, t[e].(hash := h));
    case Link(i, _, d) => NoValues(t, i, t[i].(delta := d));
    case Unmark(i, _) => NoValues(t, i, t[i].(delta := DELTA_EMPTY));
    case _ =>
  }

  lemma NoValues(t: seq<Cell>, i: nat, c: Cell)
    requires i < |t| && c.value == NO_VALUE && Valueless(t)
    ensures Valueless(t[i := c])
  {
  }

  lemma RunPlain(run: seq<State>, k: nat)
    requires IsRun(run) && k < |run|
    ensures Plain(run[k])
  {
    hide Enabled, Succ, Plain;
    forall s | Init(s)
      ensures Plain(s)
    {
      StartsPlain(s);
    }
    forall s, s' | Plain(s) && Steps(s, s')
      ensures Plain(s')
    {
      var a :| Enabled(s, a) && s' == Succ(s, a);
      StepPlain(s, a);
    }
    Runs.Keeps(run, k, Init, Steps, Plain);
  }

  lemma StartsPlain(s: State)
    requires Init(s)
    ensures Plain(s)
  {
  }

  /** From a state of a run in which nobody holds a marker, an insertion that runs alone comes to its end. It
      leaves the bucket that the sequential code gives the hash if that code accepts it, and nothing
      otherwise; and nobody else notices. */
  lemma AloneAsSequential(run: seq<State>, k: nat, h: int) returns (s': State)
    requires IsRun(run) && k < |run| && run[k].owner == map[] && h !in run[k].inflight && h != EMPTY_HASH
    ensures var s := run[k];
            && Enabled(s, Begin(h)) && Leads(Succ(s, Begin(h)), h, s')
            && s'.inflight == s.inflight && s'.owner == map[] && s'.readers == s.readers
            && Sound(Table(s)) && Table(s') == if Accepts(Table(s), h) then Reserved(Table(s), h) else Table(s)
  {
    RunKeeps(run, k);
    RunPlain(run, k);
    var s := run[k];
    hide IsRun;
    s' := AloneFrom(s, h);
  }

  lemma AloneFrom(s: State, h: int) returns (s': State)
    requires Unmarked(s) && h !in s.inflight && h != EMPTY_HASH
    ensures Enabled(s, Begin(h)) && Leads(Succ(s, Begin(h)), h, s')
    ensures s'.inflight == s.inflight && s'.owner == map[] && s'.readers == s.readers
    ensures Sound(Table(s)) && Table(s') == if Accepts(Table(s), h) then Reserved(Table(s), h) else Table(s)
  {
    UnmarkedIsSound(s);
    var r := Succ(s, Begin(h));
    assert s.owner == map[] && |s.born| == |s.cells| && |s.cells| >= SIZE_MIN;
    assert r.inflight - {h} == s.inflight && r.inflight[h := r.inflight[h]] == r.inflight;
    hide Sound, OnRoute, SameEnd, Accepts, Reserved, Unmarked, Ends, TailOf, Near;
    RouteStart(Table(r), h);
    SizeFacts(Table(r));
    SameEndAtHome(r.cells, Home(h, |r.cells|));
    assert OnItsWay(r, h, Home(h, |r.cells|), 1);
    hide OnItsWay, Leads;
    SoloWalk(r, h, Home(h, |r.cells|), 1, r.walked);
    assert Walking(r, h, Look(Home(h, |r.cells|), 1), r.walked) == r;
    s' :| Leads(r, h, s') && Finished(r, s', h);
  }
}
