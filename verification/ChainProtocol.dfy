/** Any number of threads inserting into one table at once, interleaved at single atomic accesses.
    At most one insertion per hash is in flight, so an insertion is named by its hash. */
module ChainProtocol {
  import Runs
  import opened Collections
  import opened Chains
  import opened HashTables
  import opened Options
  import Pow2

  /** Where an insertion is. `i` is the bucket it looks at, `jumps` how often it has gone round the
      walk, `d` the distance it has searched behind `i`. From Scan on it owns the marker of `i`. */
  datatype Pc =
    | Look(i: nat, jumps: nat)
    | ReadDelta(i: nat, jumps: nat)
    | TryMark(i: nat, jumps: nat)
    | Wait(i: nat, jumps: nat)
    | Scan(i: nat, jumps: nat, d: nat)
    | Reserve(i: nat, jumps: nat, d: nat)
    | Claim(i: nat, jumps: nat, d: nat)
    | GiveBack(i: nat, jumps: nat, d: nat)
    | Link(i: nat, jumps: nat, d: nat)
    | Unreserve(i: nat, jumps: nat)
    | Unmark(i: nat, jumps: nat)

  /** A lookup in progress; `promised` records that its key was published when it began. */
  datatype Reader = Reader(h: int, promised: bool, at: ReaderPc)
  datatype ReaderPc =
    | AtHash(i: nat, links: nat)
    | AtDelta(i: nat, links: nat)
    | Found(b: nat, links: nat)
    | Missing(links: nat)

  /** How many links an insertion has followed and how many markers of others it has waited for. */
  datatype Walked = Walked(links: nat, waits: nat)

  /** From `slot` on the fields are history: where and when each hash was allocated, which insertion
      holds each bucket's marker, how far each insertion has walked, and which ones have read a counter
      that was not above 0 at their reservation. */
  datatype State = State(
    cells: seq<Cell>,
    free: int,
    inflight: map<int, Pc>,
    readers: map<nat, Reader>,
    slot: map<int, nat>,
    born: seq<nat>,
    owner: map<nat, int>,
    walked: map<int, Walked>,
    refused: set<int>)

  datatype Action = Begin(h: int) | Advance(h: int) | BeginRead(r: nat, h: int) | AdvanceRead(r: nat)

  // ---- Steps --------------------------------------------------------------------------------

  predicate Enabled(s: State, a: Action) {
    |s.cells| >= SIZE_MIN && |s.born| == |s.cells| &&
    match a
    case Begin(h) => h != EMPTY_HASH && h !in s.inflight
    case Advance(h) => h in s.inflight && PcInRange(s, s.inflight[h])
    case BeginRead(r, h) => h != EMPTY_HASH && r !in s.readers
    case AdvanceRead(r) =>
      r in s.readers &&
      match s.readers[r].at
      case AtHash(i, _) => i < |s.cells|
      case AtDelta(i, _) => i < |s.cells| && (s.cells[i].delta < NEIGHBOURHOOD || s.cells[i].delta == DELTA_EXTEND)
      case _ => false
  }

  predicate PcInRange(s: State, pc: Pc) {
    && pc.i < |s.cells|
    && (s.cells[pc.i].delta < NEIGHBOURHOOD || s.cells[pc.i].delta == DELTA_EXTEND)
    && match pc
       case Scan(_, _, d) => d <= NEIGHBOURHOOD
       case Reserve(_, _, d) => d < NEIGHBOURHOOD
       case Claim(_, _, d) => d < NEIGHBOURHOOD
       case GiveBack(_, _, d) => d < NEIGHBOURHOOD
       case Link(_, _, d) => d < NEIGHBOURHOOD
       case _ => true
  }

  function SetDelta(s: State, i: nat, delta: nat): State
    requires i < |s.cells|
  {
    s.(cells := s.cells[i := s.cells[i].(delta := delta)])
  }

  /** Round the walk once more, unless it has gone round too often. */
  function Again(i: nat, jumps: nat): Option<Pc> {
    if jumps > MAX_JUMPS then None else Some(Look(i, jumps + 1))
  }

  /** Where the insertion of `h` stands after its next atomic access; None when it ends. Writing the
      value is left out: it ends the insertion and touches neither chains nor budget. */
  function After(s: State, h: int): Option<Pc>
    requires Enabled(s, Advance(h))
  {
    var n := |s.cells|;
    match s.inflight[h]
    case Look(i, jumps) =>
      if s.cells[i].hash == h then None else Some(ReadDelta(i, jumps))
    case ReadDelta(i, jumps) =>
      if s.cells[i].delta == DELTA_EMPTY || s.cells[i].delta == DELTA_EXTEND then Some(TryMark(i, jumps))
      else Again(Next(s.cells, i), jumps)
    case TryMark(i, jumps) =>
      if s.cells[i].delta == DELTA_EMPTY then Some(Scan(i, jumps, 0)) else Some(Wait(i, jumps))
    case Wait(i, jumps) =>
      if s.cells[i].delta == DELTA_EXTEND then Some(Wait(i, jumps)) else Again(i, jumps)
    case Scan(i, jumps, d) =>
      if d == NEIGHBOURHOOD then Some(Unmark(i, jumps))
      else if s.cells[Step(i, d, n)].hash == EMPTY_HASH then Some(Reserve(i, jumps, d))
      else if s.cells[Step(i, d, n)].hash == h then None
      else Some(Scan(i, jumps, d + 1))
    case Reserve(i, jumps, d) =>
      if s.free <= 0 then Some(Unreserve(i, jumps)) else Some(Claim(i, jumps, d))
    case Claim(i, jumps, d) =>
      if s.cells[Step(i, d, n)].hash == EMPTY_HASH then Some(Link(i, jumps, d)) else Some(GiveBack(i, jumps, d))
    case GiveBack(i, jumps, d) =>
      if s.cells[Step(i, d, n)].hash == h then None else Some(Scan(i, jumps, d + 1))
    case Link(i, jumps, d) => None
    case Unreserve(i, jumps) => Some(Unmark(i, jumps))
    case Unmark(i, jumps) => None
  }

  /** What that access does to the table and its counter. */
  function Effect(s: State, h: int): State
    requires Enabled(s, Advance(h))
  {
    match s.inflight[h]
    case TryMark(i, _) =>
      if s.cells[i].delta == DELTA_EMPTY then SetDelta(s, i, DELTA_EXTEND).(owner := s.owner[i := h]) else s
    case Reserve(_, _, _) => s.(free := s.free - 1)
    case Claim(i, _, d) =>
      var e := Step(i, d, |s.cells|);
      if s.cells[e].hash == EMPTY_HASH then
        s.(cells := s.cells[e := s.cells[e].(hash := h)], slot := s.slot[h := e], born := s.born[e := |s.slot|])
      else s
    case GiveBack(_, _, _) => s.(free := s.free + 1)
    case Link(i, _, d) => SetDelta(s, i, d).(owner := s.owner - {i})
    case Unreserve(_, _) => s.(free := s.free + 1)
    case Unmark(i, _) => SetDelta(s, i, DELTA_EMPTY).(owner := s.owner - {i})
    case _ => s
  }

  /** How far the insertion has walked after that access. */
  function WalkedOn(s: State, h: int): map<int, Walked>
    requires Enabled(s, Advance(h))
  {
    if h !in s.walked then s.walked
    else
      var w, delta := s.walked[h], s.cells[s.inflight[h].i].delta;
      match s.inflight[h]
      case ReadDelta(_, _) => if delta == DELTA_EMPTY || delta == DELTA_EXTEND then s.walked else s.walked[h := w.(links := w.links + 1)]
      case Wait(_, _) => if delta == DELTA_EXTEND then s.walked else s.walked[h := w.(waits := w.waits + 1)]
      case _ => s.walked
  }

  function Moved(m: map<int, Pc>, h: int, to: Option<Pc>): map<int, Pc> {
    if to.Some? then m[h := to.value] else m - {h}
  }

  function Do(s: State, h: int): State
    requires Enabled(s, Advance(h))
  {
    Effect(s, h).(
      inflight := Moved(s.inflight, h, After(s, h)), walked := WalkedOn(s, h),
      refused := if s.inflight[h].Reserve? && s.free <= 0 then s.refused + {h} else s.refused)
  }

  function DoRead(s: State, r: nat): State
    requires Enabled(s, AdvanceRead(r))
  {
    var reader := s.readers[r];
    var at :=
      match reader.at
      case AtHash(i, links) =>
        if s.cells[i].hash == EMPTY_HASH then Missing(links)
        else if s.cells[i].hash == reader.h then Found(i, links)
        else AtDelta(i, links)
      case AtDelta(i, links) =>
        if s.cells[i].delta == DELTA_EMPTY || s.cells[i].delta == DELTA_EXTEND then Missing(links)
        else AtHash(Next(s.cells, i), links + 1)
      case done => done;
    s.(readers := s.readers[r := reader.(at := at)])
  }

  predicate Published(s: State, h: int) {
    h in s.slot && !(h in s.inflight && s.inflight[h].Link?)
  }

  function Succ(s: State, a: Action): State
    requires Enabled(s, a)
  {
    match a
    case Begin(h) =>
      s.(inflight := s.inflight[h := Look(Home(h, |s.cells|), 1)],
         walked := s.walked[h := Walked(0, 0)], refused := s.refused - {h})
    case Advance(h) => Do(s, h)
    case BeginRead(r, h) => s.(readers := s.readers[r := Reader(h, Published(s, h), AtHash(Home(h, |s.cells|), 0))])
    case AdvanceRead(r) => DoRead(s, r)
  }

  /** A fresh table of a power-of-two size. */
  ghost predicate Init(s: State) {
    && |s.cells| >= SIZE_MIN && Pow2.IsPow2(|s.cells|) && (forall b | 0 <= b < |s.cells| :: s.cells[b] == FRESH_CELL)
    && s.free == Budget(|s.cells|)
    && s.inflight == map[] && s.readers == map[] && s.slot == map[] && s.owner == map[]
    && s.walked == map[] && s.refused == {}
    && |s.born| == |s.cells|
  }

  // ---- The invariant ------------------------------------------------------------------------

  predicate Holds(pc: Pc) {
    pc.Scan? || pc.Reserve? || pc.Claim? || pc.GiveBack? || pc.Link? || pc.Unreserve? || pc.Unmark?
  }

  /** Reservations taken from the counter: those that count against the budget, and those that are
      only about to be returned. */
  predicate Good(pc: Pc) { pc.Claim? || pc.GiveBack? }

  function GoodOnes(m: map<int, Pc>): set<int> { set h | h in m && Good(m[h]) }
  function BadOnes(m: map<int, Pc>): set<int> { set h | h in m && m[h].Unreserve? }

  ghost predicate Accounted(s: State) {
    && s.free + |s.slot| + |GoodOnes(s.inflight)| + |BadOnes(s.inflight)| == Budget(|s.cells|)
    && |s.slot| + |GoodOnes(s.inflight)| <= Budget(|s.cells|)
  }

  /** A marker is set exactly while one insertion owns it. */
  ghost predicate Markers(s: State) {
    && (forall b | 0 <= b < |s.cells| :: s.cells[b].delta == DELTA_EXTEND <==> b in s.owner)
    && (forall b | b in s.owner ::
          b < |s.cells| && s.owner[b] in s.inflight && Holds(s.inflight[s.owner[b]]) && s.inflight[s.owner[b]].i == b)
    && (forall h | h in s.inflight && Holds(s.inflight[h]) ::
          s.inflight[h].i in s.owner && s.owner[s.inflight[h].i] == h)
  }

  ghost predicate Reachable(s: State)
    requires DeltasInRange(s.cells)
  {
    forall h | h in s.slot && Published(s, h) :: Reaches(s.cells, Home(h, |s.cells|), s.slot[h], MAX_JUMPS + 1)
  }

  ghost predicate InsertionOk(s: State, h: int)
    requires DeltasInRange(s.cells) && |s.born| == |s.cells| && h in s.inflight
  {
    var pc := s.inflight[h];
    && h != EMPTY_HASH && pc.i < |s.cells| && 1 <= pc.jumps <= MAX_JUMPS + 1
    && Reaches(s.cells, Home(h, |s.cells|), pc.i, pc.jumps - 1)
    && match pc
       case Look(i, jumps) =>
         h in s.slot ==> Reaches(s.cells, i, s.slot[h], MAX_JUMPS + 2 - jumps)
       case ReadDelta(i, jumps) =>
         h in s.slot ==> i != s.slot[h] && Reaches(s.cells, i, s.slot[h], MAX_JUMPS + 2 - jumps)
       case Scan(i, _, d) => h !in s.slot && d <= NEIGHBOURHOOD && (d > 0 ==> Allocated(s.cells[i]))
       case Reserve(i, _, d) => h !in s.slot && d < NEIGHBOURHOOD && (d > 0 ==> Allocated(s.cells[i]))
       case Claim(i, _, d) => h !in s.slot && d < NEIGHBOURHOOD && (d > 0 ==> Allocated(s.cells[i]))
       case GiveBack(i, _, d) =>
         h !in s.slot && d < NEIGHBOURHOOD && Allocated(s.cells[Step(i, d, |s.cells|)])
         && (d > 0 ==> Allocated(s.cells[i]))
       case Link(i, _, d) =>
         && h in s.slot && d < NEIGHBOURHOOD && s.slot[h] == Step(i, d, |s.cells|)
         && (d > 0 ==> Allocated(s.cells[i]) && s.born[i] < s.born[s.slot[h]] && NoLinkTo(s.cells, s.slot[h]))
       case _ => h !in s.slot
  }

  ghost predicate NoLinkTo(t: seq<Cell>, e: nat)
    requires DeltasInRange(t)
  {
    forall b | 0 <= b < |t| && Linked(t, b) :: Next(t, b) != e
  }

  ghost predicate ReaderOk(s: State, r: Reader)
    requires DeltasInRange(s.cells) && |s.born| == |s.cells|
  {
    && r.h != EMPTY_HASH
    && (r.promised ==> r.h in s.slot)
    && match r.at
       case AtHash(i, links) =>
         i < |s.cells| && (links > 0 ==> Allocated(s.cells[i]) && links <= s.born[i])
         && (r.promised ==> links <= MAX_JUMPS + 1 && Reaches(s.cells, i, s.slot[r.h], MAX_JUMPS + 1 - links))
       case AtDelta(i, links) =>
         i < |s.cells| && Allocated(s.cells[i]) && s.cells[i].hash != r.h && links <= s.born[i]
         && (r.promised ==> links <= MAX_JUMPS + 1 && Reaches(s.cells, i, s.slot[r.h], MAX_JUMPS + 1 - links))
       case Found(b, links) =>
         b < |s.cells| && s.cells[b].hash == r.h && links <= |s.slot| && (r.promised ==> links <= MAX_JUMPS + 1)
       case Missing(links) => !r.promised && links <= |s.slot|
  }

  ghost predicate Inv(s: State) {
    && Shape(s.cells, s.born, s.slot)
    && Accounted(s)
    && Markers(s)
    && Reachable(s)
    && (forall h | h in s.inflight :: InsertionOk(s, h))
    && (forall r | r in s.readers :: ReaderOk(s, s.readers[r]))
  }

  lemma InitInv(s: State)
    requires Init(s)
    ensures Inv(s)
  {
  }

  // ---- Budget -------------------------------------------------------------------------------

  function GoodAt(to: Option<Pc>): nat { if to.Some? && Good(to.value) then 1 else 0 }
  function BadAt(to: Option<Pc>): nat { if to.Some? && to.value.Unreserve? then 1 else 0 }

  lemma CountMove(m: map<int, Pc>, h: int, to: Option<Pc>)
    requires h in m
    ensures |GoodOnes(Moved(m, h, to))| == |GoodOnes(m)| - GoodAt(Some(m[h])) + GoodAt(to)
    ensures |BadOnes(Moved(m, h, to))| == |BadOnes(m)| - BadAt(Some(m[h])) + BadAt(to)
  {
    CardMove(GoodOnes(m), GoodOnes(Moved(m, h, to)), h);
    CardMove(BadOnes(m), BadOnes(Moved(m, h, to)), h);
  }

  lemma GrowByOne(slot: map<int, nat>, h: int, e: nat)
    requires h !in slot
    ensures |slot[h := e]| == |slot| + 1
  {
    assert slot[h := e].Keys == slot.Keys + {h};
  }

  /** The counter, the allocated buckets and the outstanding reservations balance after each access;
      a reservation is granted only while it still fits the budget. */
  lemma AccountedStep(s: State, h: int)
    requires Enabled(s, Advance(h)) && Accounted(s)
    requires s.inflight[h].Claim? ==> h !in s.slot
    ensures Accounted(Do(s, h))
  {
    hide GoodOnes, BadOnes, Moved, WalkedOn;
    CountMove(s.inflight, h, After(s, h));
    if s.inflight[h].Claim? {
      GrowByOne(s.slot, h, Step(s.inflight[h].i, s.inflight[h].d, |s.cells|));
    }
  }

  // ---- Markers ------------------------------------------------------------------------------

  ghost predicate DeltasKeptBut(t: seq<Cell>, u: seq<Cell>, i: nat) {
    |t| == |u| && forall b {:trigger u[b]} | 0 <= b < |t| && b != i :: u[b].delta == t[b].delta
  }

  lemma MarkerKept(s: State, s': State, h: int, to: Option<Pc>)
    requires Markers(s) && h in s.inflight && s'.inflight == Moved(s.inflight, h, to)
    requires s'.owner == s.owner && |s'.cells| == |s.cells|
    requires forall b | 0 <= b < |s.cells| :: s'.cells[b].delta == s.cells[b].delta
    requires Holds(s.inflight[h]) <==> to.Some? && Holds(to.value)
    requires Holds(s.inflight[h]) ==> to.value.i == s.inflight[h].i
    ensures Markers(s')
  {
  }

  lemma MarkerTaken(s: State, s': State, h: int, to: Pc)
    requires Markers(s) && h in s.inflight && s'.inflight == Moved(s.inflight, h, Some(to))
    requires !Holds(s.inflight[h]) && Holds(to)
    requires to.i < |s.cells| && s.cells[to.i].delta != DELTA_EXTEND && s'.owner == s.owner[to.i := h]
    requires DeltasKeptBut(s.cells, s'.cells, to.i) && s'.cells[to.i].delta == DELTA_EXTEND
    ensures Markers(s')
  {
  }

  lemma MarkerReleased(s: State, s': State, h: int)
    requires Markers(s) && s'.inflight == s.inflight - {h} && h in s.inflight && Holds(s.inflight[h])
    requires var i := s.inflight[h].i;
             i < |s.cells| && s'.owner == s.owner - {i}
             && DeltasKeptBut(s.cells, s'.cells, i) && s'.cells[i].delta != DELTA_EXTEND
    ensures Markers(s')
  {
  }

  lemma MarkersStep(s: State, h: int)
    requires Inv(s) && Enabled(s, Advance(h))
    ensures Markers(Do(s, h))
  {
    hide Markers, Shape, Accounted, Reachable, ReaderOk, InsertionOk, Moved, Next, WalkedOn;
    var s' := Do(s, h);
    OwnHashUnseen(s, h);
    match s.inflight[h]
    case TryMark(i, jumps) =>
      if s.cells[i].delta == DELTA_EMPTY {
        MarkerTaken(s, s', h, Scan(i, jumps, 0));
      } else {
        MarkerKept(s, s', h, Some(Wait(i, jumps)));
      }
    case Claim(i, jumps, d) =>
      var e := Step(i, d, |s.cells|);
      assert s'.cells == s.cells[e := s.cells[e].(hash := h)] || s'.cells == s.cells;
      MarkerKept(s, s', h, After(s, h));
    case Link(_, _, _) => EndsHolding(s, h);
    case Unmark(_, _) => EndsHolding(s, h);
    case Scan(_, _, _) => MarkerKept(s, s', h, After(s, h));
    case Reserve(_, _, _) => MarkerKept(s, s', h, After(s, h));
    case GiveBack(_, _, _) => MarkerKept(s, s', h, After(s, h));
    case Unreserve(_, _) => MarkerKept(s, s', h, After(s, h));
    case _ =>
      assert s'.cells == s.cells && s'.owner == s.owner;
      MarkerKept(s, s', h, After(s, h));
  }

  lemma EndsHolding(s: State, h: int)
    requires Markers(s) && Enabled(s, Advance(h))
    requires s.inflight[h].Link? || s.inflight[h].Unmark?
    ensures Markers(Do(s, h))
  {
    MarkerReleased(s, Do(s, h), h);
  }

  /** An insertion never meets its own hash while it searches behind a tail: no one else can
      allocate it, so no marker is left behind. */
  lemma OwnHashUnseen(s: State, h: int)
    requires Inv(s) && Enabled(s, Advance(h))
    ensures var pc := s.inflight[h];
            (pc.Scan? && pc.d < NEIGHBOURHOOD) || pc.Claim? || pc.GiveBack? ==>
              s.cells[Step(pc.i, pc.d, |s.cells|)].hash != h
  {
    assert InsertionOk(s, h);
  }

  // ---- Shape --------------------------------------------------------------------------------

  /** Setting or clearing a marker. */
  lemma MarkShape(t: seq<Cell>, born: seq<nat>, slot: map<int, nat>, i: nat, delta: nat)
    requires Shape(t, born, slot) && i < |t| && !Linked(t, i)
    requires delta == DELTA_EMPTY || delta == DELTA_EXTEND
    ensures Shape(t[i := t[i].(delta := delta)], born, slot)
    ensures LinksKept(t, t[i := t[i].(delta := delta)])
  {
    var u := t[i := t[i].(delta := delta)];
    assert forall b | 0 <= b < |t| && Linked(u, b) :: b != i && Linked(t, b) && Next(u, b) == Next(t, b);
    assert forall b | 0 <= b < |t| :: u[b].hash == t[b].hash;
  }

  lemma ClaimShape(t: seq<Cell>, born: seq<nat>, slot: map<int, nat>, e: nat, h: int)
    requires Shape(t, born, slot) && e < |t| && !Allocated(t[e]) && h != EMPTY_HASH && h !in slot
    ensures var u := t[e := t[e].(hash := h)];
            Shape(u, born[e := |slot|], slot[h := e]) && LinksKept(t, u) && NoLinkTo(u, e)
  {
    var u := t[e := t[e].(hash := h)];
    assert !Linked(t, e);
    assert forall b | 0 <= b < |t| && Linked(u, b) :: b != e && Linked(t, b) && Next(u, b) == Next(t, b) != e;
    assert forall b | 0 <= b < |t| && b != e :: u[b].hash == t[b].hash;
    assert slot[h := e].Keys == slot.Keys + {h};
    assert |slot[h := e]| == |slot| + 1;
  }

  lemma LinkShape(t: seq<Cell>, born: seq<nat>, slot: map<int, nat>, i: nat, d: nat)
    requires Shape(t, born, slot) && i < |t| && 0 < d < NEIGHBOURHOOD && !Linked(t, i)
    requires Allocated(t[i]) && Allocated(t[Step(i, d, |t|)]) && born[i] < born[Step(i, d, |t|)]
    requires NoLinkTo(t, Step(i, d, |t|))
    ensures var u := t[i := t[i].(delta := d)];
            Shape(u, born, slot) && LinksKept(t, u) && Linked(u, i) && Next(u, i) == Step(i, d, |t|)
  {
    var u := t[i := t[i].(delta := d)];
    assert forall b | 0 <= b < |t| && b != i && Linked(u, b) :: Linked(t, b) && Next(u, b) == Next(t, b);
    assert forall b | 0 <= b < |t| :: u[b].hash == t[b].hash;
  }

  lemma ShapeStep(s: State, h: int)
    requires Inv(s) && Enabled(s, Advance(h))
    ensures Shape(Do(s, h).cells, Do(s, h).born, Do(s, h).slot)
    ensures LinksKept(s.cells, Do(s, h).cells)
  {
    EffectShape(s, h);
    hide Effect, After, WalkedOn, Shape, Inv;
  }

  lemma EffectShape(s: State, h: int)
    requires Inv(s) && Enabled(s, Advance(h))
    ensures Shape(Effect(s, h).cells, Effect(s, h).born, Effect(s, h).slot)
    ensures LinksKept(s.cells, Effect(s, h).cells)
  {
    assert InsertionOk(s, h) && Markers(s) && Shape(s.cells, s.born, s.slot);
    var pc := s.inflight[h];
    assert pc.i < |s.cells| && (Holds(pc) ==> !Linked(s.cells, pc.i));
    hide Inv, Accounted, Reachable, ReaderOk, LinksGrow, OnePredecessor, BornBounded, Reaches, SlotsExact, Markers;
    match pc
    case TryMark(i, _) =>
      if s.cells[i].delta == DELTA_EMPTY {
        MarkShape(s.cells, s.born, s.slot, i, DELTA_EXTEND);
      }
    case Claim(i, _, d) =>
      var e := Step(i, d, |s.cells|);
      if !Allocated(s.cells[e]) {
        ClaimShape(s.cells, s.born, s.slot, e, h);
      }
    case Link(_, _, _) => EffectLinks(s, h);
    case Unmark(i, _) =>
      MarkShape(s.cells, s.born, s.slot, i, DELTA_EMPTY);
    case _ =>
  }

  lemma EffectLinks(s: State, h: int)
    requires Shape(s.cells, s.born, s.slot) && Enabled(s, Advance(h)) && s.inflight[h].Link?
    requires InsertionOk(s, h) && !Linked(s.cells, s.inflight[h].i)
    ensures Shape(Effect(s, h).cells, Effect(s, h).born, Effect(s, h).slot)
    ensures LinksKept(s.cells, Effect(s, h).cells)
  {
    SlotInTable(s, h);
    hide LinksGrow, OnePredecessor, BornBounded, Reaches, SlotsExact;
    var Link(i, _, d) := s.inflight[h];
    if d > 0 {
      LinkShape(s.cells, s.born, s.slot, i, d);
    } else {
      MarkShape(s.cells, s.born, s.slot, i, DELTA_EMPTY);
    }
  }

  // ---- What one access leaves in place for everybody else ------------------------------------

  /** Allocations and links are only added; the hash `h` alone may be new, and a new link leads
      to its bucket. */
  ghost predicate Grows(s: State, s': State, h: int) {
    && DeltasInRange(s.cells) && DeltasInRange(s'.cells) && LinksKept(s.cells, s'.cells)
    && |s.born| == |s.cells| == |s'.born|
    && (forall b | 0 <= b < |s.cells| && Allocated(s.cells[b]) ::
          s'.cells[b].hash == s.cells[b].hash && s'.born[b] == s.born[b])
    && (forall g | g in s.slot :: g in s'.slot && s'.slot[g] == s.slot[g])
    && (forall g | g in s'.slot && g != h :: g in s.slot)
    && (forall b | 0 <= b < |s.cells| && Linked(s'.cells, b) && !Linked(s.cells, b) ::
          h in s'.slot && Next(s'.cells, b) == s'.slot[h])
    && |s.slot| <= |s'.slot|
  }

  lemma ClaimGrows(s: State, e: nat, h: int)
    requires DeltasInRange(s.cells) && |s.born| == |s.cells| && e < |s.cells|
    requires !Allocated(s.cells[e]) && h !in s.slot
    ensures Grows(s, s.(cells := s.cells[e := s.cells[e].(hash := h)], slot := s.slot[h := e], born := s.born[e := |s.slot|]), h)
  {
    var t, u := s.cells, s.cells[e := s.cells[e].(hash := h)];
    GrowByOne(s.slot, h, e);
    assert forall b | 0 <= b < |t| :: u[b].delta == t[b].delta;
  }

  lemma DeltaGrows(s: State, i: nat, delta: nat, h: int)
    requires DeltasInRange(s.cells) && |s.born| == |s.cells| && i < |s.cells| && !Linked(s.cells, i)
    requires delta < NEIGHBOURHOOD || delta == DELTA_EXTEND
    requires 0 < delta < NEIGHBOURHOOD ==> h in s.slot && Step(i, delta, |s.cells|) == s.slot[h]
    ensures Grows(s, SetDelta(s, i, delta), h)
  {
    var t, u := s.cells, SetDelta(s, i, delta).cells;
    assert forall b | 0 <= b < |t| && b != i :: u[b] == t[b];
    assert forall b | 0 <= b < |t| :: u[b].hash == t[b].hash;
  }

  lemma EffectGrows(s: State, h: int)
    requires Inv(s) && Enabled(s, Advance(h))
    ensures Grows(s, Effect(s, h), h)
  {
    hide Accounted, Reachable, ReaderOk, LinksGrow, OnePredecessor, BornBounded, Reaches;
    assert InsertionOk(s, h);
    var i := s.inflight[h].i;
    assert Holds(s.inflight[h]) ==> !Linked(s.cells, i);
    match s.inflight[h]
    case TryMark(_, _) =>
      if s.cells[i].delta == DELTA_EMPTY {
        DeltaGrows(s, i, DELTA_EXTEND, h);
      }
    case Claim(_, _, d) =>
      if !Allocated(s.cells[Step(i, d, |s.cells|)]) {
        ClaimGrows(s, Step(i, d, |s.cells|), h);
      }
    case Link(_, _, d) => DeltaGrows(s, i, d, h);
    case Unmark(_, _) => DeltaGrows(s, i, DELTA_EMPTY, h);
    case _ =>
  }

  lemma StillNoLink(s: State, s': State, h: int, g: int)
    requires Grows(s, s', h) && SlotsExact(s'.cells, s'.slot)
    requires g != h && g in s.slot && NoLinkTo(s.cells, s.slot[g])
    ensures NoLinkTo(s'.cells, s.slot[g])
  {
    forall b | 0 <= b < |s.cells| && Linked(s'.cells, b)
      ensures Next(s'.cells, b) != s.slot[g]
    {
      if Linked(s.cells, b) {
        assert Next(s'.cells, b) == Next(s.cells, b);
      } else {
        assert Next(s'.cells, b) == s'.slot[h];
      }
    }
  }

  lemma OtherInsertion(s: State, s': State, h: int, g: int)
    requires Grows(s, s', h) && SlotsExact(s.cells, s.slot) && SlotsExact(s'.cells, s'.slot)
    requires g != h && g in s.inflight && g in s'.inflight && s'.inflight[g] == s.inflight[g]
    requires InsertionOk(s, g)
    ensures InsertionOk(s', g)
  {
    hide Reaches, NoLinkTo, SlotsExact;
    var pc := s.inflight[g];
    ReachesKept(s.cells, s'.cells, Home(g, |s.cells|), pc.i, pc.jumps - 1);
    if pc.Look? || pc.ReadDelta? {
      if g in s.slot {
        SlotInTable(s, g);
        ReachesKept(s.cells, s'.cells, pc.i, s.slot[g], MAX_JUMPS + 2 - pc.jumps);
      }
    } else if pc.Link? {
      SlotInTable(s, g);
      if pc.d > 0 {
        StillNoLink(s, s', h, g);
      }
    }
  }

  lemma SlotInTable(s: State, g: int)
    requires SlotsExact(s.cells, s.slot) && g in s.slot
    ensures s.slot[g] < |s.cells| && Allocated(s.cells[s.slot[g]])
  {
  }

  lemma OtherReader(s: State, s': State, h: int, r: Reader)
    requires Grows(s, s', h) && ReaderOk(s, r)
    ensures ReaderOk(s', r)
  {
    match r.at
    case AtHash(i, links) =>
      if r.promised {
        ReachesKept(s.cells, s'.cells, i, s.slot[r.h], MAX_JUMPS + 1 - links);
      }
    case AtDelta(i, links) =>
      if r.promised {
        ReachesKept(s.cells, s'.cells, i, s.slot[r.h], MAX_JUMPS + 1 - links);
      }
    case _ =>
  }

  // ---- What the acting insertion knows afterwards ---------------------------------------------

  lemma ActsOnWalk(s: State, h: int)
    requires Inv(s) && Enabled(s, Advance(h)) && !Holds(s.inflight[h])
    requires After(s, h).Some?
    ensures h in Do(s, h).inflight && InsertionOk(Do(s, h), h)
  {
    hide Accounted, Reachable, ReaderOk, LinksGrow, OnePredecessor, BornBounded, Markers, SlotsExact, WalkedOn;
    assert InsertionOk(s, h);
    var home := Home(h, |s.cells|);
    match s.inflight[h]
    case Look(i, jumps) =>
      NotAtSlot(s, h, i);
    case ReadDelta(i, jumps) => ReadActs(s, h);
    case TryMark(i, jumps) => MarkActs(s, h);
    case Wait(i, jumps) =>
      ReachesLonger(s.cells, home, i, jumps - 1, jumps);
  }

  lemma ReadActs(s: State, h: int)
    requires Inv(s) && Enabled(s, Advance(h)) && s.inflight[h].ReadDelta? && After(s, h).Some?
    ensures h in Do(s, h).inflight && InsertionOk(Do(s, h), h)
  {
    hide Accounted, Reachable, ReaderOk, LinksGrow, OnePredecessor, BornBounded, Markers, SlotsExact, WalkedOn;
    assert InsertionOk(s, h);
    var ReadDelta(i, jumps) := s.inflight[h];
    if Linked(s.cells, i) {
      ReachesNext(s.cells, Home(h, |s.cells|), i, jumps - 1);
    }
  }

  lemma NotAtSlot(s: State, h: int, i: nat)
    requires SlotsExact(s.cells, s.slot) && i < |s.cells| && s.cells[i].hash != h
    ensures h in s.slot ==> s.slot[h] != i
  {
  }

  lemma MarkActs(s: State, h: int)
    requires Inv(s) && Enabled(s, Advance(h)) && s.inflight[h].TryMark?
    ensures h in Do(s, h).inflight && InsertionOk(Do(s, h), h)
  {
    hide Accounted, Reachable, ReaderOk, LinksGrow, OnePredecessor, BornBounded, Markers, Reaches, WalkedOn;
    assert InsertionOk(s, h);
    EffectGrows(s, h);
    ReachesKept(s.cells, Effect(s, h).cells, Home(h, |s.cells|), s.inflight[h].i, s.inflight[h].jumps - 1);
  }

  lemma ActsBehindTail(s: State, h: int)
    requires Inv(s) && Enabled(s, Advance(h)) && Holds(s.inflight[h])
    requires After(s, h).Some?
    ensures h in Do(s, h).inflight && InsertionOk(Do(s, h), h)
  {
    hide Accounted, Reachable, ReaderOk, LinksGrow, OnePredecessor, BornBounded, Markers, Reaches, NoLinkTo, WalkedOn;
    assert InsertionOk(s, h);
    var pc := s.inflight[h];
    assert Step(pc.i, 0, |s.cells|) == pc.i;
    if pc.Claim? && !Allocated(s.cells[Step(pc.i, pc.d, |s.cells|)]) {
      ClaimActs(s, h);
    }
  }

  lemma ClaimActs(s: State, h: int)
    requires Inv(s) && Enabled(s, Advance(h)) && s.inflight[h].Claim?
    requires !Allocated(s.cells[Step(s.inflight[h].i, s.inflight[h].d, |s.cells|)])
    ensures h in Do(s, h).inflight && InsertionOk(Do(s, h), h)
  {
    hide Accounted, Reachable, ReaderOk, LinksGrow, OnePredecessor, SlotsExact, Markers, Reaches, NoLinkTo, WalkedOn;
    assert InsertionOk(s, h);
    var pc := s.inflight[h];
    var e := Step(pc.i, pc.d, |s.cells|);
    ClaimShape(s.cells, s.born, s.slot, e, h);
    ReachesKept(s.cells, s.cells[e := s.cells[e].(hash := h)], Home(h, |s.cells|), pc.i, pc.jumps - 1);
  }

  lemma ReachableStep(s: State, h: int)
    requires Inv(s) && Enabled(s, Advance(h))
    ensures var s' := Do(s, h); DeltasInRange(s'.cells) && Reachable(s')
  {
    hide Accounted, ReaderOk, LinksGrow, OnePredecessor, BornBounded, Markers, Reaches, NoLinkTo, WalkedOn;
    assert InsertionOk(s, h);
    var s' := Do(s, h);
    var n := |s.cells|;
    EffectGrows(s, h);
    forall g | g in s'.slot && Published(s', g)
      ensures Reaches(s'.cells, Home(g, n), s'.slot[g], MAX_JUMPS + 1)
    {
      if g == h && s.inflight[h].Link? {
        LinkReaches(s, h);
      } else {
        assert Published(s, g);
        ReachesKept(s.cells, s'.cells, Home(g, n), s.slot[g], MAX_JUMPS + 1);
      }
    }
  }

  /** Storing the link publishes the new bucket within ten of its home. */
  lemma LinkReaches(s: State, h: int)
    requires Inv(s) && Enabled(s, Advance(h)) && s.inflight[h].Link?
    ensures var u := Effect(s, h).cells;
            DeltasInRange(u) && Reaches(u, Home(h, |u|), s.slot[h], MAX_JUMPS + 1)
  {
    hide Accounted, ReaderOk, LinksGrow, OnePredecessor, BornBounded, Markers, NoLinkTo;
    assert InsertionOk(s, h);
    EffectGrows(s, h);
    var pc := s.inflight[h];
    var u := Effect(s, h).cells;
    var home := Home(h, |u|);
    ReachesKept(s.cells, u, home, pc.i, pc.jumps - 1);
    ReachesLonger(u, home, pc.i, pc.jumps - 1, MAX_JUMPS);
    if pc.d > 0 {
      ReachesNext(u, home, pc.i, MAX_JUMPS);
    } else {
      ReachesLonger(u, home, pc.i, MAX_JUMPS, MAX_JUMPS + 1);
    }
  }

  // ---- Every step keeps the invariant ---------------------------------------------------------

  lemma AdvanceKeeps(s: State, h: int)
    requires Inv(s) && Enabled(s, Advance(h))
    ensures Inv(Do(s, h))
  {
    hide Accounted, Markers, Reachable, InsertionOk, ReaderOk, LinksGrow, OnePredecessor, BornBounded, DeltasInRange, WalkedOn;
    var s' := Do(s, h);
    ShapeStep(s, h);
    MarkersStep(s, h);
    ReachableStep(s, h);
    EffectGrows(s, h);
    ClaimIsNew(s, h);
    AccountedStep(s, h);
    forall g | g in s'.inflight
      ensures InsertionOk(s', g)
    {
      if g != h {
        OtherInsertion(s, s', h, g);
      } else if Holds(s.inflight[h]) {
        ActsBehindTail(s, h);
      } else {
        ActsOnWalk(s, h);
      }
    }
    forall r | r in s'.readers
      ensures ReaderOk(s', s'.readers[r])
    {
      OtherReader(s, s', h, s.readers[r]);
    }
  }

  lemma ClaimIsNew(s: State, h: int)
    requires Inv(s) && Enabled(s, Advance(h))
    ensures s.inflight[h].Claim? ==> h !in s.slot
  {
    assert InsertionOk(s, h);
  }

  lemma BeginKeeps(s: State, h: int)
    requires Inv(s) && Enabled(s, Begin(h))
    ensures Inv(Succ(s, Begin(h)))
  {
    hide LinksGrow, OnePredecessor, BornBounded, SlotsExact, ReaderOk, Reaches, Accounted, Markers, InsertionOk;
    var s' := Succ(s, Begin(h));
    BeginCounts(s, h);
    BeginMarkers(s, h);
    BeginOk(s, h);
    forall g | g in s'.inflight
      ensures InsertionOk(s', g)
    {
      if g != h {
        SameForInsertion(s, s', g);
      }
    }
    assert forall g | g in s.slot && Published(s', g) :: Published(s, g);
    forall r | r in s'.readers
      ensures ReaderOk(s', s'.readers[r])
    {
      SameForReader(s, s', s.readers[r]);
    }
  }

  lemma BeginCounts(s: State, h: int)
    requires Accounted(s) && Enabled(s, Begin(h))
    ensures Accounted(Succ(s, Begin(h)))
  {
    var s' := Succ(s, Begin(h));
    assert GoodOnes(s'.inflight) == GoodOnes(s.inflight);
    assert BadOnes(s'.inflight) == BadOnes(s.inflight);
  }

  lemma BeginMarkers(s: State, h: int)
    requires Markers(s) && Enabled(s, Begin(h))
    ensures Markers(Succ(s, Begin(h)))
  {
  }

  lemma BeginOk(s: State, h: int)
    requires Inv(s) && Enabled(s, Begin(h))
    ensures InsertionOk(Succ(s, Begin(h)), h)
  {
    hide Accounted, Markers, ReaderOk, LinksGrow, OnePredecessor, BornBounded, SlotsExact;
    if h in s.slot {
      assert Published(s, h);
    }
  }

  lemma SameForInsertion(s: State, s': State, g: int)
    requires DeltasInRange(s.cells) && |s.born| == |s.cells| && g in s.inflight && InsertionOk(s, g)
    requires s'.cells == s.cells && s'.born == s.born && s'.slot == s.slot
    requires g in s'.inflight && s'.inflight[g] == s.inflight[g]
    ensures InsertionOk(s', g)
  {
  }

  lemma SameForReader(s: State, s': State, r: Reader)
    requires DeltasInRange(s.cells) && |s.born| == |s.cells| && ReaderOk(s, r)
    requires s'.cells == s.cells && s'.born == s.born && s'.slot == s.slot
    ensures ReaderOk(s', r)
  {
  }

  lemma ReadKeeps(s: State, r: nat)
    requires Inv(s) && Enabled(s, AdvanceRead(r))
    ensures ReaderOk(s, DoRead(s, r).readers[r])
  {
    hide Accounted, Markers, Reachable, InsertionOk;
    assert ReaderOk(s, s.readers[r]);
  }

  lemma StepKeeps(s: State, a: Action)
    requires Inv(s) && Enabled(s, a)
    ensures Inv(Succ(s, a))
  {
    hide Accounted, Markers, Shape, Reachable, InsertionOk, ReaderOk;
    match a
    case Begin(h) => BeginKeeps(s, h);
    case Advance(h) => AdvanceKeeps(s, h);
    case BeginRead(r, h) =>
      ReadBegins(s, r, h);
      ReadersOnly(s, Succ(s, a), r);
    case AdvanceRead(r) =>
      ReadKeeps(s, r);
      ReadersOnly(s, Succ(s, a), r);
  }

  lemma ReadBegins(s: State, r: nat, h: int)
    requires Inv(s) && Enabled(s, BeginRead(r, h))
    ensures ReaderOk(s, Succ(s, BeginRead(r, h)).readers[r])
  {
  }

  lemma ReadersOnly(s: State, s': State, r: nat)
    requires Inv(s) && s' == s.(readers := s'.readers) && r in s'.readers
    requires forall q | q in s'.readers && q != r :: q in s.readers && s'.readers[q] == s.readers[q]
    requires ReaderOk(s, s'.readers[r])
    ensures Inv(s')
  {
    hide Accounted, Markers, LinksGrow, OnePredecessor, BornBounded, SlotsExact, Reaches, InsertionOk, ReaderOk;
    SameAccounts(s, s');
    forall h | h in s'.inflight
      ensures InsertionOk(s', h)
    {
      SameForInsertion(s, s', h);
    }
    forall q | q in s'.readers
      ensures ReaderOk(s', s'.readers[q])
    {
      SameForReader(s, s', s'.readers[q]);
    }
  }

  lemma SameAccounts(s: State, s': State)
    requires Accounted(s) && Markers(s) && s' == s.(readers := s'.readers)
    ensures Accounted(s') && Markers(s')
  {
  }

  // ---- Runs ---------------------------------------------------------------------------------

  ghost predicate Steps(s: State, s': State) {
    exists a :: Enabled(s, a) && s' == Succ(s, a)
  }

  /** Any interleaving: any number of insertions of distinct hashes and of lookups, one access at a time. */
  ghost predicate IsRun(run: seq<State>) { Runs.IsRun(run, Init, Steps) }

  lemma RunKeeps(run: seq<State>, k: nat)
    requires IsRun(run) && k < |run|
    ensures Inv(run[k])
  {
    hide Inv, Enabled, Succ, Init;
    forall s | Init(s)
      ensures Inv(s)
    {
      InitInv(s);
    }
    forall s, s' | Inv(s) && Steps(s, s')
      ensures Inv(s')
    {
      var a :| Enabled(s, a) && s' == Succ(s, a);
      StepKeeps(s, a);
    }
    Runs.Keeps(run, k, Init, Steps, Inv);
  }

  /** In every state of every run: no hash is allocated twice; every published hash is within ten
      buckets of its home; no bucket has two predecessors and links lead to later allocations;
      at most three quarters of the buckets are allocated, whatever the counter shows. */
  lemma ChainsStayWhole(run: seq<State>, k: nat)
    requires IsRun(run) && k < |run|
    ensures var s := run[k];
            Shape(s.cells, s.born, s.slot)
            && Reachable(s)
            && |s.slot| <= Budget(|s.cells|)
            && s.free + |s.slot| + |GoodOnes(s.inflight)| + |BadOnes(s.inflight)| == Budget(|s.cells|)
    ensures forall a, b | 0 <= a < b < |run[k].cells| && Allocated(run[k].cells[a]) :: run[k].cells[a].hash != run[k].cells[b].hash
  {
    RunKeeps(run, k);
  }

  /** An allocated hash that is not yet published is behind a marker that its own insertion holds. */
  lemma PendingIsOwned(run: seq<State>, k: nat, h: int)
    requires IsRun(run) && k < |run| && h in run[k].slot && !Published(run[k], h)
    ensures var s := run[k];
            h in s.inflight && s.inflight[h].i < |s.cells| && s.cells[s.inflight[h].i].delta == DELTA_EXTEND
            && forall g | g in s.inflight && Holds(s.inflight[g]) && s.inflight[g].i == s.inflight[h].i :: g == h
  {
    RunKeeps(run, k);
  }

  /** Once no insertion is in flight, no marker is left, every hash is published and the counter is
      exact: the table is again one that a single thread may work on. */
  lemma QuiescentIsWhole(run: seq<State>, k: nat)
    requires IsRun(run) && k < |run| && run[k].inflight == map[]
    ensures var s := run[k];
            Shape(s.cells, s.born, s.slot) && WithinTen(s.cells, s.slot)
            && (forall b | 0 <= b < |s.cells| :: s.cells[b].delta < NEIGHBOURHOOD)
            && s.free + |s.slot| == Budget(|s.cells|)
  {
    RunKeeps(run, k);
    var s := run[k];
    assert GoodOnes(s.inflight) == {} && BadOnes(s.inflight) == {};
    assert forall b | 0 <= b < |s.cells| :: s.cells[b].delta != DELTA_EXTEND;
    assert forall h | h in s.slot :: Published(s, h);
  }

  /** A lookup whose key was published when it began finds it, within ten buckets, whatever the
      inserting threads do meanwhile; and no lookup examines more buckets than were ever allocated
      plus one. */
  lemma LookupsFind(run: seq<State>, k: nat, r: nat)
    requires IsRun(run) && k < |run| && r in run[k].readers
    ensures var s, reader := run[k], run[k].readers[r];
            var at := reader.at;
            at.links <= Budget(|s.cells|)
            && (reader.promised ==> !at.Missing? && at.links <= MAX_JUMPS + 1)
            && (at.Found? ==> reader.h in s.slot && at.b == s.slot[reader.h])
  {
    RunKeeps(run, k);
    assert ReaderOk(run[k], run[k].readers[r]);
  }
}
