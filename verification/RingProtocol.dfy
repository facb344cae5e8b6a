/** The ring with any number of pushes and one consumer, interleaved at single accesses: a push reads the
    index, then looks whether the ring is full, then exchanges the index; so is every write to a slot a
    step. */
module RingProtocol {
  import Runs
  import opened Ring

  /** A push that has no slot yet. `seen` is how many slots had been claimed when it read the index. */
  datatype Attempt = Attempt(item: Item, at: Try)
  datatype Try = Starting | Loaded(index: nat, seen: nat) | Checked(index: nat, seen: nat)

  /** A push that has claimed its slot, and what it writes next. */
  datatype Stage = Frames(k: nat) | Info | Commit
  datatype Push = Push(slot: nat, item: Item, stage: Stage)

  /** The consumer, and what it does next. */
  datatype Pop = Idle | Waiting | Zeroing(k: nat, num: int) | Uncommitting | Advancing

  /** `trying` holds the pushes without a slot, `writing` those with one under their ticket. `claims`,
      `done`, `recorded` and `overrun` are history: all items ever claimed, how many slots have been given
      back, what was recorded, and whether a slot was ever claimed of a full ring. */
  datatype State = State(
    maxFrames: nat, input: nat, output: nat,
    slots: seq<Slot>, buffers: seq<seq<Frame>>,
    trying: map<nat, Attempt>, writing: map<nat, Push>, pop: Pop,
    claims: seq<Item>, done: nat, recorded: seq<Item>, overrun: bool)

  datatype Action =
    | Begin(p: nat, item: Item)
    | LoadInput(p: nat)
    | CheckFull(p: nat)         // reads the output index; if the ring looks full, push returns false
    | Exchange(p: nat)          // claims the slot if the index is still the same, or starts over
    | WriteFrame(t: nat)
    | Describe(t: nat)          // all frames are written; frame count and environment
    | WriteInfo(t: nat)
    | DoCommit(t: nat)
    | Look                      // pop finds the queue not empty
    | Record                    // the slot is committed
    | ZeroFrame
    | ClearInfo
    | Uncommit
    | Advanced

  predicate Shaped(s: State) {
    && |s.slots| == CAPACITY && |s.buffers| == CAPACITY && s.input < CAPACITY && s.output < CAPACITY
    && (forall i | 0 <= i < CAPACITY :: |s.buffers[i]| == s.maxFrames)
    && (forall t | t in s.writing :: s.writing[t].slot < CAPACITY && Fits(s.writing[t].item, s.maxFrames))
    && (forall p | p in s.trying :: Fits(s.trying[p].item, s.maxFrames))
  }

  predicate Enabled(s: State, a: Action) {
    Shaped(s) &&
    match a
    case Begin(p, item) => Fits(item, s.maxFrames) && p !in s.trying
    case LoadInput(p) => p in s.trying && s.trying[p].at.Starting?
    case CheckFull(p) => p in s.trying && s.trying[p].at.Loaded?
    case Exchange(p) => p in s.trying && s.trying[p].at.Checked?
    case WriteFrame(t) =>
      t in s.writing && s.writing[t].stage.Frames? && s.writing[t].stage.k < |s.writing[t].item.trace.frames|
    case Describe(t) =>
      t in s.writing && s.writing[t].stage.Frames? && s.writing[t].stage.k == |s.writing[t].item.trace.frames|
    case WriteInfo(t) => t in s.writing && s.writing[t].stage.Info?
    case DoCommit(t) => t in s.writing && s.writing[t].stage.Commit?
    case Look => s.pop.Idle? && s.output != s.input
    case Record => s.pop.Waiting? && s.slots[s.output].committed && FrameCount(s.slots[s.output].num) <= s.maxFrames
    case ZeroFrame => s.pop.Zeroing? && s.pop.k < s.pop.num && s.pop.k < s.maxFrames
    case ClearInfo => s.pop.Zeroing? && s.pop.k >= s.pop.num
    case Uncommit => s.pop.Uncommitting?
    case Advanced => s.pop.Advancing?
  }

  function SetSlot(s: State, i: nat, x: Slot): State
    requires i < |s.slots|
  {
    s.(slots := s.slots[i := x])
  }

  function SetFrame(s: State, i: nat, k: nat, f: Frame): State
    requires i < |s.buffers| && k < |s.buffers[i]|
  {
    s.(buffers := s.buffers[i := s.buffers[i][k := f]])
  }

  function At(s: State, t: nat, stage: Stage): State
    requires t in s.writing
  {
    s.(writing := s.writing[t := s.writing[t].(stage := stage)])
  }

  /** What the listener is shown: the contents of the slot as they are. */
  function Seen(s: State): Item
    requires Shaped(s) && FrameCount(s.slots[s.output].num) <= s.maxFrames
  {
    var x := s.slots[s.output];
    Item(Trace(x.env, x.num, s.buffers[s.output][..FrameCount(x.num)]), x.info)
  }

  function Claimed(s: State, item: Item): State {
    s.(input := Advance(s.input), claims := s.claims + [item],
       writing := s.writing[|s.claims| := Push(s.input, item, Frames(0))])
  }

  function Next(s: State, a: Action): State
    requires Enabled(s, a)
  {
    match a
    case Begin(p, item) => s.(trying := s.trying[p := Attempt(item, Starting)])
    case LoadInput(p) => s.(trying := s.trying[p := s.trying[p].(at := Loaded(s.input, |s.claims|))])
    case CheckFull(p) =>
      var at := s.trying[p].at;
      s.(trying := if Advance(at.index) == s.output then s.trying - {p}
                   else s.trying[p := s.trying[p].(at := Checked(at.index, at.seen))])
    case Exchange(p) =>
      var Attempt(item, at) := s.trying[p];
      if s.input == at.index then
        Claimed(s, item).(trying := s.trying - {p}, overrun := s.overrun || Advance(s.input) == s.output)
      else s.(trying := s.trying[p := Attempt(item, Starting)])
    case WriteFrame(t) =>
      var p := s.writing[t];
      At(SetFrame(s, p.slot, p.stage.k, p.item.trace.frames[p.stage.k]), t, Frames(p.stage.k + 1))
    case Describe(t) =>
      var p := s.writing[t];
      At(SetSlot(s, p.slot, s.slots[p.slot].(num := p.item.trace.num, env := p.item.trace.env)), t, Info)
    case WriteInfo(t) =>
      var p := s.writing[t];
      At(SetSlot(s, p.slot, s.slots[p.slot].(info := p.item.info)), t, Commit)
    case DoCommit(t) =>
      var p := s.writing[t];
      SetSlot(s, p.slot, s.slots[p.slot].(committed := true)).(writing := s.writing - {t})
    case Look => s.(pop := Waiting)
    case Record => s.(pop := Zeroing(0, s.slots[s.output].num), recorded := s.recorded + [Seen(s)])
    case ZeroFrame => SetFrame(s, s.output, s.pop.k, ZERO).(pop := Zeroing(s.pop.k + 1, s.pop.num))
    case ClearInfo => SetSlot(s, s.output, s.slots[s.output].(info := 0)).(pop := Uncommitting)
    case Uncommit => SetSlot(s, s.output, s.slots[s.output].(committed := false)).(pop := Advancing)
    case Advanced => s.(output := Advance(s.output), done := s.done + 1, pop := Idle)
  }

  ghost predicate Init(s: State) {
    && s.slots == seq(CAPACITY, _ => FREE) && s.buffers == seq(CAPACITY, _ => Zeros(s.maxFrames))
    && s.input == 0 && s.output == 0 && s.trying == map[] && s.writing == map[] && s.pop == Idle
    && s.claims == [] && s.done == 0 && s.recorded == [] && !s.overrun
  }

  // ---- The invariant --------------------------------------------------------------------------

  /** The slot of a push in flight: nothing it has not written itself. */
  predicate IsPartial(x: Slot, buffer: seq<Frame>, p: Push) {
    && |p.item.trace.frames| <= |buffer| && !x.committed
    && match p.stage
       case Frames(k) => k <= |p.item.trace.frames| && buffer == Padded(p.item.trace.frames, k, |buffer|)
       case Info => HasTrace(x, buffer, p.item)
       case Commit => HasTrace(x, buffer, p.item) && x.info == p.item.info
  }

  /** The slot the consumer works on. */
  predicate IsPopped(x: Slot, buffer: seq<Frame>, item: Item, pop: Pop) {
    match pop
    case Idle => IsFull(x, buffer, item)
    case Waiting => IsFull(x, buffer, item)
    case Zeroing(k, num) =>
      && x.committed && num == item.trace.num && (k <= num || k == 0)
      && |item.trace.frames| == FrameCount(num)
      && forall m | 0 <= m < |buffer| && (m < k || FrameCount(num) <= m) :: buffer[m] == ZERO
    case Uncommitting => x.committed && x.info == 0 && forall m | 0 <= m < |buffer| :: buffer[m] == ZERO
    case Advancing => IsFree(x, buffer)
  }

  /** The consumer has recorded the oldest item but not given its slot back. */
  predicate Finishing(pop: Pop) { !pop.Idle? && !pop.Waiting? }

  ghost predicate SlotOk(s: State, i: nat)
    requires i < CAPACITY == |s.slots| == |s.buffers|
  {
    var j := TicketAt(s.done, i);
    var x, buffer := s.slots[i], s.buffers[i];
    if j >= |s.claims| then IsFree(x, buffer)
    else if j in s.writing then
      !(j == s.done && Finishing(s.pop)) && s.writing[j].slot == i && s.writing[j].item == s.claims[j]
      && IsPartial(x, buffer, s.writing[j])
    else if j == s.done then IsPopped(x, buffer, s.claims[j], s.pop)
    else IsFull(x, buffer, s.claims[j])
  }

  ghost predicate Counted(s: State) {
    && s.done <= |s.claims| <= s.done + SIZE
    && s.input == |s.claims| % CAPACITY && s.output == s.done % CAPACITY
    && (forall t | t in s.writing :: s.done <= t < |s.claims|)
    && (forall j | 0 <= j < |s.claims| :: Fits(s.claims[j], s.maxFrames))
    && (!s.pop.Idle? ==> s.done < |s.claims|)
    && s.recorded == s.claims[..s.done + if Finishing(s.pop) then 1 else 0]
  }

  /** If nobody has claimed a slot since a push looked, the ring is not full now either. */
  predicate AttemptOk(s: State, at: Try) {
    !at.Starting? ==>
      && at.index == at.seen % CAPACITY && at.seen <= |s.claims|
      && (at.Checked? && at.seen == |s.claims| ==> |s.claims| - s.done < SIZE)
  }

  ghost predicate Attempts(s: State) {
    forall p | p in s.trying :: AttemptOk(s, s.trying[p].at)
  }

  ghost predicate Inv(s: State) {
    Shaped(s) && Counted(s) && Attempts(s) && forall i: nat | i < CAPACITY :: SlotOk(s, i)
  }

  lemma InitInv(s: State)
    requires Init(s)
    ensures Inv(s)
  {
  }

  // ---- Every step keeps it --------------------------------------------------------------------

  /** A step that works on slot i leaves what is known of the other slots. */
  lemma OthersKept(s: State, s': State, i: nat)
    requires Inv(s) && i < CAPACITY && |s'.slots| == CAPACITY == |s'.buffers| && s'.done == s.done
    requires forall m | 0 <= m < CAPACITY && m != i :: s'.slots[m] == s.slots[m] && s'.buffers[m] == s.buffers[m]
    requires s'.claims == s.claims || (|s'.claims| == |s.claims| + 1 && s'.claims[..|s.claims|] == s.claims && i == s.input)
    requires forall t: nat | t % CAPACITY != i :: (t in s'.writing <==> t in s.writing)
               && (t in s.writing ==> s'.writing[t] == s.writing[t])
    requires s'.pop == s.pop || i == s.output
    ensures forall m: nat | m < CAPACITY && m != i :: SlotOk(s', m)
  {
    forall m: nat | m < CAPACITY && m != i
      ensures SlotOk(s', m)
    {
      hide IsFree, IsPartial, IsFull, IsPopped, TicketAt;
      assert SlotOk(s, m);
      var j := TicketAt(s.done, m);
      assert j % CAPACITY == m;
      assert s'.claims[..|s.claims|] == s.claims;
      if s'.claims != s.claims {
        assert j != |s.claims|;
      }
      if j < |s.claims| {
        assert s'.claims[j] == s'.claims[..|s.claims|][j];
      }
    }
  }

  /** A claimed slot of a ring that is not full. */
  lemma ClaimKeeps(s: State, item: Item)
    requires Inv(s) && Fits(item, s.maxFrames) && Advance(s.input) != s.output
    ensures Inv(Claimed(s, item))
  {
    hide Padded, IsFull, IsPopped, TicketAt, Attempts;
    var s' := Claimed(s, item);
    var t := |s.claims|;
    FullAndEmpty(s.done, t);
    AdvanceIsNext(t);
    OthersKept(s, s', s.input);
    assert SlotOk(s, s.input);
    TicketIsOnly(s.done, t);
    NothingWritten(s.buffers[s.input], item.trace.frames, s.maxFrames);
    assert s'.claims[..s.done + if Finishing(s.pop) then 1 else 0] == s.recorded;
    AttemptsKept(s, s');
  }

  lemma AttemptsKept(s: State, s': State)
    requires Attempts(s) && |s.claims| <= |s'.claims| && s.done <= s'.done
    requires forall p | p in s'.trying :: p in s.trying && s'.trying[p] == s.trying[p]
    ensures Attempts(s')
  {
    forall p | p in s'.trying
      ensures AttemptOk(s', s'.trying[p].at)
    {
      assert AttemptOk(s, s.trying[p].at);
    }
  }

  /** Nothing but the attempts changes. */
  lemma SlotsKept(s: State, s': State)
    requires Inv(s) && s' == s.(trying := s'.trying, overrun := s'.overrun) && Attempts(s')
    requires forall p | p in s'.trying :: Fits(s'.trying[p].item, s.maxFrames)
    ensures Inv(s')
  {
    forall i: nat | i < CAPACITY
      ensures SlotOk(s', i)
    {
      assert SlotOk(s, i);
    }
  }

  lemma TryKeeps(s: State, a: Action)
    requires Inv(s) && Enabled(s, a) && (a.Begin? || a.LoadInput? || a.CheckFull?)
    ensures Inv(Next(s, a))
  {
    var s' := Next(s, a);
    FullAndEmpty(s.done, |s.claims|);
    assert Counted(s) && Attempts(s);
    hide Inv, SlotOk;
    forall p | p in s'.trying
      ensures AttemptOk(s', s'.trying[p].at) && Fits(s'.trying[p].item, s.maxFrames)
    {
      if p in s.trying {
        assert AttemptOk(s, s.trying[p].at);
      }
    }
    assert Inv(s') by { SlotsKept(s, s'); }
  }

  lemma ExchangeKeeps(s: State, p: nat)
    requires Inv(s) && Enabled(s, Exchange(p)) && !Next(s, Exchange(p)).overrun
    ensures Inv(Next(s, Exchange(p)))
  {
    var s' := Next(s, Exchange(p));
    if s.input == s.trying[p].at.index {
      var c := Claimed(s, s.trying[p].item);
      ClaimKeeps(s, s.trying[p].item);
      AttemptsKept(c, s');
      hide Attempts;
      SlotsKept(c, s');
    } else {
      forall q | q in s'.trying
        ensures AttemptOk(s', s'.trying[q].at)
      {
        assert q != p ==> AttemptOk(s, s.trying[q].at);
      }
      SlotsKept(s, s');
    }
  }

  lemma NothingWritten(buffer: seq<Frame>, frames: seq<Frame>, maxFrames: nat)
    requires |frames| <= maxFrames == |buffer| && forall k | 0 <= k < |buffer| :: buffer[k] == ZERO
    ensures buffer == Padded(frames, 0, maxFrames)
  {
  }

  lemma FrameWritten(frames: seq<Frame>, k: nat, maxFrames: nat)
    requires k < |frames| <= maxFrames
    ensures Padded(frames, k, maxFrames)[k := frames[k]] == Padded(frames, k + 1, maxFrames)
  {
  }

  /** What the invariant says about the slot of a push in flight. */
  lemma PushFacts(s: State, t: nat)
    requires Inv(s) && t in s.writing
    ensures s.writing[t].slot == t % CAPACITY && TicketAt(s.done, t % CAPACITY) == t
    ensures !(t == s.done && Finishing(s.pop)) && s.done <= t < |s.claims| && s.writing[t].item == s.claims[t]
    ensures IsPartial(s.slots[t % CAPACITY], s.buffers[t % CAPACITY], s.writing[t])
  {
    hide IsPartial, TicketAt, IsFree, IsFull, IsPopped;
    TicketIsOnly(s.done, t);
    assert SlotOk(s, t % CAPACITY);
  }

  lemma PushKeeps(s: State, a: Action)
    requires Inv(s) && Enabled(s, a) && (a.WriteFrame? || a.Describe? || a.WriteInfo?)
    ensures Inv(Next(s, a))
  {
    if a.WriteFrame? {
      FrameKeeps(s, a.t);
    } else {
      FieldsKeep(s, a);
    }
  }

  lemma FrameKeeps(s: State, t: nat)
    requires Inv(s) && Enabled(s, WriteFrame(t))
    ensures Inv(Next(s, WriteFrame(t)))
  {
    hide Padded, IsFull, IsPopped, IsFree, TicketAt, Attempts;
    var s', p := Next(s, WriteFrame(t)), s.writing[t];
    AttemptsKept(s, s');
    PushFacts(s, t);
    FrameWritten(p.item.trace.frames, p.stage.k, s.maxFrames);
    OthersKept(s, s', p.slot);
    assert SlotOk(s', p.slot);
  }

  lemma FieldsKeep(s: State, a: Action)
    requires Inv(s) && Enabled(s, a) && (a.Describe? || a.WriteInfo?)
    ensures Inv(Next(s, a))
  {
    hide Padded, IsFull, IsPopped, IsFree, TicketAt, Attempts;
    var s', i := Next(s, a), s.writing[a.t].slot;
    AttemptsKept(s, s');
    PushFacts(s, a.t);
    OthersKept(s, s', i);
    assert SlotOk(s', i);
  }

  lemma CommitKeeps(s: State, t: nat)
    requires Inv(s) && Enabled(s, DoCommit(t))
    ensures Inv(Next(s, DoCommit(t)))
  {
    hide Padded, IsFree, TicketAt;
    var s' := Next(s, DoCommit(t));
    var i := s.writing[t].slot;
    PushFacts(s, t);
    OthersKept(s, s', i);
    assert SlotOk(s', i);
  }

  /** What the invariant says about the slot of the oldest item. */
  lemma OldestFacts(s: State)
    requires Inv(s) && s.done < |s.claims|
    ensures s.output < CAPACITY && TicketAt(s.done, s.output) == s.done
    ensures s.done !in s.writing ==> IsPopped(s.slots[s.output], s.buffers[s.output], s.claims[s.done], s.pop)
    ensures s.done in s.writing ==> !s.slots[s.output].committed && !Finishing(s.pop)
  {
    hide IsPopped, TicketAt, IsFree, IsFull;
    TicketIsOnly(s.done, s.done);
    assert SlotOk(s, s.output);
  }

  lemma LookKeeps(s: State)
    requires Inv(s) && Enabled(s, Look)
    ensures Inv(Next(s, Look))
  {
    hide Padded, IsFree, IsPartial, IsFull, TicketAt;
    FullAndEmpty(s.done, |s.claims|);
    OldestFacts(s);
    OthersKept(s, Next(s, Look), s.output);
    assert SlotOk(s, s.output);
  }

  lemma RecordKeeps(s: State)
    requires Inv(s) && Enabled(s, Record)
    ensures Inv(Next(s, Record))
  {
    hide IsFree, IsPartial, TicketAt;
    OldestFacts(s);
    var s' := Next(s, Record);
    OthersKept(s, s', s.output);
    assert Fits(s.claims[s.done], s.maxFrames);
    SeenIsPushed(s);
    assert s.claims[..s.done + 1] == s.claims[..s.done] + [s.claims[s.done]];
  }

  lemma SeenIsPushed(s: State)
    requires Shaped(s) && s.done < |s.claims| && Fits(s.claims[s.done], s.maxFrames)
    requires IsFull(s.slots[s.output], s.buffers[s.output], s.claims[s.done])
    ensures Seen(s) == s.claims[s.done]
  {
    var frames := s.claims[s.done].trace.frames;
    assert s.buffers[s.output][..|frames|] == frames;
  }

  lemma PopKeeps(s: State, a: Action)
    requires Inv(s) && Enabled(s, a) && (a.ZeroFrame? || a.ClearInfo? || a.Uncommit?)
    ensures Inv(Next(s, a))
  {
    hide Padded, IsPartial, IsFull, TicketAt, Attempts;
    AttemptsKept(s, Next(s, a));
    OldestFacts(s);
    OthersKept(s, Next(s, a), s.output);
    assert SlotOk(Next(s, a), s.output);
  }

  lemma AdvancedKeeps(s: State)
    requires Inv(s) && Enabled(s, Advanced)
    ensures Inv(Next(s, Advanced))
  {
    hide Padded, IsPartial, IsFull, IsFree, TicketAt;
    OldestFacts(s);
    AdvanceIsNext(s.done);
    var s' := Next(s, Advanced);
    forall i: nat | i < CAPACITY
      ensures SlotOk(s', i)
    {
      TicketAfter(s.done, i);
      assert SlotOk(s, i);
      if i != s.output && TicketAt(s.done, i) == s.done + 1 {
        OldestIsFull(s, s', i);
      }
    }
  }

  /** The next oldest item is as its push left it. */
  lemma OldestIsFull(s: State, s': State, i: nat)
    requires i < CAPACITY == |s.slots| == |s.buffers| && TicketAt(s.done, i) == s.done + 1
    requires SlotOk(s, i) && TicketAt(s.done + 1, i) == s.done + 1
    requires s' == s.(output := s'.output, done := s.done + 1, pop := Idle)
    ensures SlotOk(s', i)
  {
    hide TicketAt;
  }

  /** Every step keeps it that does not claim a slot of a full ring. */
  lemma StepKeeps(s: State, a: Action)
    requires Inv(s) && Enabled(s, a) && !Next(s, a).overrun
    ensures Inv(Next(s, a))
  {
    hide Inv;
    match a
    case Begin(p, item) => TryKeeps(s, a);
    case LoadInput(p) => TryKeeps(s, a);
    case CheckFull(p) => TryKeeps(s, a);
    case Exchange(p) => ExchangeKeeps(s, p);
    case DoCommit(t) => CommitKeeps(s, t);
    case Look => LookKeeps(s);
    case Record => RecordKeeps(s);
    case ZeroFrame => PopKeeps(s, a);
    case ClearInfo => PopKeeps(s, a);
    case Uncommit => PopKeeps(s, a);
    case Advanced => AdvancedKeeps(s);
    case _ => PushKeeps(s, a);
  }

  // ---- Runs -----------------------------------------------------------------------------------

  ghost predicate Steps(s: State, s': State) {
    exists a :: Enabled(s, a) && s' == Next(s, a)
  }

  ghost predicate IsRun(run: seq<State>) { Runs.IsRun(run, Init, Steps) }

  ghost predicate Whole(s: State) { !s.overrun ==> Inv(s) }

  lemma RunKeeps(run: seq<State>, k: nat)
    requires IsRun(run) && k < |run|
    ensures Whole(run[k])
  {
    hide Inv, Enabled, Next, Init;
    forall s | Init(s)
      ensures Whole(s)
    {
      InitInv(s);
    }
    forall s, s' | Whole(s) && Steps(s, s')
      ensures Whole(s')
    {
      var a :| Enabled(s, a) && s' == Next(s, a);
      OverrunStays(s, a);
      if !s'.overrun {
        StepKeeps(s, a);
      }
    }
    Runs.Keeps(run, k, Init, Steps, Whole);
  }

  lemma OverrunStays(s: State, a: Action)
    requires Enabled(s, a)
    ensures s.overrun ==> Next(s, a).overrun
  {
  }

  /** The listener is shown the items in the order they were claimed, each once, with the contents
      that were pushed, and only after its push has committed. */
  lemma RecordedInOrder(run: seq<State>, k: nat)
    requires IsRun(run) && k < |run| && !run[k].overrun
    ensures var s := run[k];
            && |s.recorded| <= |s.claims| && s.recorded == s.claims[..|s.recorded|]
            && forall t | t in s.writing :: t >= |s.recorded|
  {
    RunKeeps(run, k);
    var s := run[k];
    forall t | t in s.writing
      ensures t >= |s.recorded|
    {
      PushFacts(s, t);
    }
  }

  /** At most SIZE items are unread, and the ring looks full exactly when SIZE slots are taken. */
  lemma FullExactly(run: seq<State>, k: nat)
    requires IsRun(run) && k < |run| && !run[k].overrun
    ensures var s := run[k];
            && |s.claims| - |s.recorded| <= |s.claims| - s.done <= SIZE
            && (Advance(s.input) == s.output <==> |s.claims| - s.done == SIZE)
            && (s.input == s.output <==> |s.claims| == s.done)
  {
    RunKeeps(run, k);
    FullAndEmpty(run[k].done, |run[k].claims|);
  }

  /** A push is refused when the ring is full, and also exactly when the consumer has come just one slot
      past the index that the push has read. */
  lemma RefusedExactly(run: seq<State>, k: nat, p: nat)
    requires IsRun(run) && k < |run| && !run[k].overrun && Enabled(run[k], CheckFull(p))
    ensures var s, seen := run[k], run[k].trying[p].at.seen;
            p !in Next(s, CheckFull(p)).trying <==>
            || (|s.claims| == seen && |s.claims| - s.done == SIZE)
            || (s.done > seen && (s.done - seen - 1) % CAPACITY == 0)
  {
    RunKeeps(run, k);
    var s, at := run[k], run[k].trying[p].at;
    assert AttemptOk(s, at) && Counted(s);
    hide Inv, Counted, Shaped;
    LooksFull(|s.claims|, s.done, at.seen);
  }

  /** An index read when `seen` slots were claimed is just behind the output index now. */
  lemma LooksFull(claimed: nat, done: nat, seen: nat)
    requires done <= claimed <= done + SIZE && seen <= claimed
    ensures Advance(seen % CAPACITY) == done % CAPACITY <==>
            (claimed == seen && claimed - done == SIZE) || (done > seen && (done - seen - 1) % CAPACITY == 0)
  {
    AdvanceIsNext(seen);
    if done > seen {
      SameIndex(seen + 1, done);
    } else {
      SameIndex(done, seen + 1);
    }
  }

  lemma SameIndex(i: nat, j: nat)
    requires i <= j
    ensures i % CAPACITY == j % CAPACITY <==> (j - i) % CAPACITY == 0
  {
    var p, q := i / CAPACITY, j / CAPACITY;
    assert i == CAPACITY * p + i % CAPACITY && j == CAPACITY * q + j % CAPACITY;
  }

  /** The slot of a full ring is claimed only by a push that was overtaken by a whole turn of the ring
      between its reading the index and its exchange. */
  lemma OverrunNeedsATurn(run: seq<State>, k: nat, p: nat)
    requires IsRun(run) && k < |run| && !run[k].overrun && Enabled(run[k], Exchange(p))
    ensures Next(run[k], Exchange(p)).overrun ==> |run[k].claims| >= run[k].trying[p].at.seen + CAPACITY
  {
    RunKeeps(run, k);
    var s, at := run[k], run[k].trying[p].at;
    assert AttemptOk(s, at);
    FullAndEmpty(s.done, |s.claims|);
    if Next(s, Exchange(p)).overrun {
      SameIndex(at.seen, |s.claims|);
    }
  }

  /** More items than there is room for were ever in the ring exactly if that has happened. */
  lemma OverfullExactly(run: seq<State>, k: nat)
    requires IsRun(run) && k < |run|
    ensures run[k].overrun <==> exists j :: 0 <= j <= k && |run[j].claims| - run[j].done > SIZE
  {
    hide Inv, Enabled, Next, Init;
    if run[k].overrun {
      FirstOverrun(run, k);
    }
    forall j | 0 <= j <= k && !run[k].overrun
      ensures |run[j].claims| - run[j].done <= SIZE
    {
      OverrunBefore(run, j, k);
      FullExactly(run, j);
    }
  }

  lemma {:induction false} OverrunBefore(run: seq<State>, j: nat, k: nat)
    requires IsRun(run) && j <= k < |run| && !run[k].overrun
    ensures !run[j].overrun
  {
    hide Enabled, Next, Init;
    if j < k {
      assert Runs.StepsAt(run, Steps, k);
      var a :| Enabled(run[k - 1], a) && run[k] == Next(run[k - 1], a);
      OverrunStays(run[k - 1], a);
      OverrunBefore(run, j, k - 1);
    }
  }

  lemma {:induction false} FirstOverrun(run: seq<State>, k: nat)
    requires IsRun(run) && k < |run| && run[k].overrun
    ensures exists j :: 0 <= j <= k && |run[j].claims| - run[j].done > SIZE
  {
    hide Enabled, Next, Inv;
    if k > 0 {
      if run[k - 1].overrun {
        FirstOverrun(run, k - 1);
      } else {
        assert Runs.StepsAt(run, Steps, k);
        var a :| Enabled(run[k - 1], a) && run[k] == Next(run[k - 1], a);
        RunKeeps(run, k - 1);
        OverrunOverfills(run[k - 1], a);
      }
    }
  }

  lemma OverrunOverfills(s: State, a: Action)
    requires Inv(s) && Enabled(s, a) && !s.overrun && Next(s, a).overrun
    ensures |Next(s, a).claims| - Next(s, a).done == SIZE + 1 && Next(s, a).input == Next(s, a).output
  {
    FullAndEmpty(s.done, |s.claims|);
  }

  /** A committed item that is not recorded yet stays in its slot just as it was pushed. */
  lemma UnreadIntact(run: seq<State>, k: nat, j: nat)
    requires IsRun(run) && k < |run| && !run[k].overrun && |run[k].recorded| <= j < |run[k].claims| && j !in run[k].writing
    ensures |run[k].slots| == |run[k].buffers| == CAPACITY
    ensures IsFull(run[k].slots[j % CAPACITY], run[k].buffers[j % CAPACITY], run[k].claims[j])
  {
    RunKeeps(run, k);
    TicketIsOnly(run[k].done, j);
    hide TicketAt, IsFree, IsPartial;
    assert SlotOk(run[k], j % CAPACITY);
  }

  /** Items in the ring never share a slot. */
  lemma SlotsApart(run: seq<State>, k: nat, i: nat, j: nat)
    requires IsRun(run) && k < |run| && !run[k].overrun && run[k].done <= i < j < |run[k].claims|
    ensures i % CAPACITY != j % CAPACITY
  {
    RunKeeps(run, k);
    TicketIsOnly(run[k].done, i);
    TicketIsOnly(run[k].done, j);
  }

  /** A slot without an item is uncommitted, belongs to no thread and has all-zero frames. */
  lemma FreeSlotsClean(run: seq<State>, k: nat, i: nat)
    requires IsRun(run) && k < |run| && !run[k].overrun && i < CAPACITY
    requires forall j | run[k].done <= j < |run[k].claims| :: j % CAPACITY != i
    ensures |run[k].slots| == |run[k].buffers| == CAPACITY && IsFree(run[k].slots[i], run[k].buffers[i])
  {
    RunKeeps(run, k);
    hide IsFree, TicketAt;
    assert SlotOk(run[k], i);
  }

  // ---- Nobody is stuck ---------------------------------------------------------------------------

  /** A push that has no slot yet can make its next access, and ends only by a refusal or by claiming a slot
      for its own item. */
  lemma AttemptsGoOn(run: seq<State>, k: nat, p: nat, a: Action)
    requires IsRun(run) && k < |run| && !run[k].overrun && p in run[k].trying
    ensures Enabled(run[k], LoadInput(p)) || Enabled(run[k], CheckFull(p)) || Enabled(run[k], Exchange(p))
    ensures Enabled(run[k], a) && p !in Next(run[k], a).trying ==>
              a == CheckFull(p) || (a == Exchange(p) && Next(run[k], a).claims == run[k].claims + [run[k].trying[p].item])
  {
    RunKeeps(run, k);
  }

  /** So can one that has a slot, until it has committed its item. */
  lemma PushesGoOn(run: seq<State>, k: nat, t: nat, a: Action)
    requires IsRun(run) && k < |run| && !run[k].overrun && t in run[k].writing
    ensures Enabled(run[k], WriteFrame(t)) || Enabled(run[k], Describe(t)) || Enabled(run[k], WriteInfo(t)) || Enabled(run[k], DoCommit(t))
    ensures Enabled(run[k], a) && t !in Next(run[k], a).writing ==> a == DoCommit(t)
  {
    RunKeeps(run, k);
    PushFacts(run[k], t);
  }

  /** The consumer goes on as soon as there is an item and its push has committed it. */
  lemma ConsumerGoesOn(run: seq<State>, k: nat)
    requires IsRun(run) && k < |run| && !run[k].overrun
    ensures var s := run[k];
            match s.pop
            case Idle => Enabled(s, Look) <==> s.done < |s.claims|
            case Waiting => s.done < |s.claims| && (Enabled(s, Record) <==> s.done !in s.writing)
            case Zeroing(_, _) => Enabled(s, ZeroFrame) || Enabled(s, ClearInfo)
            case Uncommitting => Enabled(s, Uncommit)
            case Advancing => Enabled(s, Advanced)
  {
    RunKeeps(run, k);
    var s := run[k];
    FullAndEmpty(s.done, |s.claims|);
    if s.done < |s.claims| {
      OldestFacts(s);
      OldestFits(s);
    }
  }

  lemma OldestFits(s: State)
    requires Inv(s) && s.done < |s.claims|
    ensures FrameCount(s.claims[s.done].trace.num) <= s.maxFrames
  {
    hide SlotOk, Attempts;
    assert Fits(s.claims[s.done], s.maxFrames);
  }

  // ---- A refusal by an empty ring, and a claim of a full one -----------------------------------------

  ghost predicate Reachable(s: State) {
    exists run :: IsRun(run) && run[|run| - 1] == s
  }

  lemma Goes(s: State, a: Action, s': State)
    requires Reachable(s) && Enabled(s, a) && s' == Next(s, a)
    ensures Reachable(s')
  {
    hide Enabled, Next, Init;
    var run :| IsRun(run) && run[|run| - 1] == s;
    Runs.Longer(run, s', Init, Steps);
    assert IsRun(run + [s']);
  }

  lemma RunTo(s: State) returns (run: seq<State>)
    requires Reachable(s)
    ensures IsRun(run) && |run| > 0 && run[|run| - 1] == s
  {
    hide Enabled, Next, Init, Steps;
    run :| IsRun(run) && run[|run| - 1] == s;
  }

  /** A trace without frames. */
  const EMPTY := Item(Trace(0, 0, []), 0)

  /** Of n pushes each has claimed its slot and written nothing; push 1 has read the index before. */
  function Pushing(n: nat, at: Try): State {
    State(0, n % CAPACITY, 0, seq(CAPACITY, _ => FREE), seq(CAPACITY, _ => Zeros(0)),
          map[1 := Attempt(EMPTY, at)], map t: nat | t < n :: Push(t % CAPACITY, EMPTY, Frames(0)), Idle,
          seq(n, _ => EMPTY), 0, [], false)
  }

  predicate Early(at: Try) { at == Loaded(0, 0) || at == Checked(0, 0) }

  lemma NobodyPushes(at: Try)
    requires Early(at)
    ensures Reachable(Pushing(0, at))
  {
    hide Reachable;
    var start := Pushing(0, Starting).(trying := map[]);
    assert Reachable(start) by { Starts(start); }
    var begun := start.(trying := map[1 := Attempt(EMPTY, Starting)]);
    Goes(start, Begin(1, EMPTY), begun);
    Goes(begun, LoadInput(1), Pushing(0, Loaded(0, 0)));
    if at.Checked? {
      Goes(Pushing(0, Loaded(0, 0)), CheckFull(1), Pushing(0, at));
    }
  }

  lemma Starts(s: State)
    requires s == Pushing(0, Starting).(trying := map[])
    ensures Reachable(s)
  {
    assert s.writing == map[] && s.claims == [];
    assert Init(s) && IsRun([s]);
  }

  /** Push number 2 takes a slot without being disturbed. */
  lemma Takes(s: State, seen: nat)
    requires Reachable(s) && Shaped(s) && 2 !in s.trying && !s.overrun && Advance(s.input) != s.output && seen == |s.claims|
    ensures Reachable(Claimed(s, EMPTY))
  {
    hide Reachable;
    var begun := s.(trying := s.trying[2 := Attempt(EMPTY, Starting)]);
    Goes(s, Begin(2, EMPTY), begun);
    var loaded := s.(trying := s.trying[2 := Attempt(EMPTY, Loaded(s.input, seen))]);
    Goes(begun, LoadInput(2), loaded);
    var checked := s.(trying := s.trying[2 := Attempt(EMPTY, Checked(s.input, seen))]);
    Goes(loaded, CheckFull(2), checked);
    assert checked.trying - {2} == s.trying;
    Goes(checked, Exchange(2), Claimed(s, EMPTY));
  }

  lemma {:induction false} ManyPush(n: nat, at: Try)
    requires n <= SIZE && Early(at)
    ensures Reachable(Pushing(n, at)) && Shaped(Pushing(n, at))
  {
    hide Reachable;
    if n == 0 {
      NobodyPushes(at);
    } else {
      ManyPush(n - 1, at);
      OneMorePushes(n - 1, at);
      Takes(Pushing(n - 1, at), n - 1);
    }
  }

  lemma OneMorePushes(n: nat, at: Try)
    requires n < SIZE
    ensures Advance(Pushing(n, at).input) != Pushing(n, at).output && Claimed(Pushing(n, at), EMPTY) == Pushing(n + 1, at)
  {
    var s, s' := Claimed(Pushing(n, at), EMPTY), Pushing(n + 1, at);
    assert s.writing == s'.writing;
    assert s.claims == s'.claims;
  }

  /** The first of them has written its item. */
  function Written(s: State): State {
    s.(writing := s.writing - {0}, slots := Frees()[0 := COMMITTED])
  }

  const COMMITTED := Slot(true, 0, 0, 0)

  function Frees(): seq<Slot> { seq(CAPACITY, _ => FREE) }

  lemma FirstIsWritten(s: State)
    requires Reachable(s) && Shaped(s) && s.maxFrames == 0 && s.slots == Frees()
    requires 0 in s.writing && s.writing[0] == Push(0, EMPTY, Frames(0))
    ensures Reachable(Written(s)) && Shaped(Written(s))
  {
    hide Reachable;
    assert Frees()[0 := FREE] == Frees();
    var described := s.(writing := s.writing[0 := Push(0, EMPTY, Info)]);
    Goes(s, Describe(0), described);
    var informed := s.(writing := s.writing[0 := Push(0, EMPTY, Commit)]);
    assert described.writing[0 := Push(0, EMPTY, Commit)] == informed.writing;
    Goes(described, WriteInfo(0), informed);
    assert informed.writing - {0} == s.writing - {0};
    Goes(informed, DoCommit(0), Written(s));
  }

  /** And the consumer has recorded it and given back its slot. */
  function Given(s: State): State {
    s.(slots := Frees(), output := 1, done := 1, recorded := [EMPTY])
  }

  lemma FirstIsGiven(s: State)
    requires Reachable(s) && Shaped(s) && s.maxFrames == 0 && s.slots == Frees()[0 := COMMITTED]
    requires s.pop.Idle? && s.output == 0 && s.input != 0 && s.done == 0 && s.recorded == []
    ensures Reachable(Given(s))
  {
    hide Reachable;
    FirstIsRecorded(s);
    var recorded := s.(pop := Zeroing(0, 0), recorded := [EMPTY]);
    assert s.slots[0 := s.slots[0].(info := 0)] == s.slots;
    Goes(recorded, ClearInfo, recorded.(pop := Uncommitting));
    assert s.slots[0 := FREE] == Frees();
    Goes(recorded.(pop := Uncommitting), Uncommit, recorded.(pop := Advancing, slots := Frees()));
    Goes(recorded.(pop := Advancing, slots := Frees()), Advanced, Given(s));
  }

  lemma FirstIsRecorded(s: State)
    requires Reachable(s) && Shaped(s) && s.maxFrames == 0 && s.slots == Frees()[0 := COMMITTED]
    requires s.pop.Idle? && s.output == 0 && s.input != 0 && s.recorded == []
    ensures Reachable(s.(pop := Zeroing(0, 0), recorded := [EMPTY]))
  {
    hide Reachable;
    Goes(s, Look, s.(pop := Waiting));
    assert s.buffers[0][..0] == [];
    Goes(s.(pop := Waiting), Record, s.(pop := Zeroing(0, 0), recorded := [EMPTY]));
  }

  /** The state after n pushes, of which the first is recorded and its slot given back. */
  function Popped(n: nat, at: Try): State { Given(Written(Pushing(n, at))) }

  lemma PoppedHappens(n: nat, at: Try)
    requires 1 <= n <= SIZE && Early(at)
    ensures Reachable(Popped(n, at)) && Shaped(Popped(n, at))
  {
    hide Reachable;
    ManyPush(n, at);
    FirstIsWritten(Pushing(n, at));
    FirstIsGiven(Written(Pushing(n, at)));
  }

  /** A push is refused although the ring is empty: it read index 0 before another push took that slot,
      which was recorded and given back before the first one looked. */
  lemma EmptyRingCanRefuse() returns (run: seq<State>)
    ensures IsRun(run)
    ensures var s := run[|run| - 1];
            && Enabled(s, CheckFull(1)) && 1 !in Next(s, CheckFull(1)).trying
            && s.input == s.output && |s.claims| == s.done == 1 && !s.overrun
  {
    PoppedHappens(1, Loaded(0, 0));
    LooksFullThen();
    hide IsRun, Reachable, Shaped, Popped, Enabled, Next;
    run := RunTo(Popped(1, Loaded(0, 0)));
  }

  lemma LooksFullThen()
    requires Shaped(Popped(1, Loaded(0, 0)))
    ensures var s := Popped(1, Loaded(0, 0));
            && Enabled(s, CheckFull(1)) && 1 !in Next(s, CheckFull(1)).trying
            && s.input == s.output && |s.claims| == s.done == 1 && !s.overrun
  {
    hide Shaped;
  }

  /** A push that was held up for a whole turn of the ring claims the slot of a full one: SIZE + 1 items
      are in it then, and to the consumer it looks empty. */
  lemma FullRingCanBeOverrun() returns (run: seq<State>)
    ensures IsRun(run)
    ensures var s := run[|run| - 1];
            s.overrun && |s.claims| - s.done == SIZE + 1 && s.recorded == [EMPTY] && !Enabled(s, Look)
  {
    FullHappens();
    hide IsRun, Reachable, Shaped;
    run := RunTo(Overrun());
  }

  /** Push 1 is still about to exchange index 0, and the ring is full. */
  function Full(): State { Claimed(Popped(SIZE, Checked(0, 0)), EMPTY) }

  function Overrun(): State { Claimed(Full(), EMPTY).(trying := map[], overrun := true) }

  lemma FullHappens()
    ensures Reachable(Overrun())
  {
    hide Reachable;
    PoppedHappens(SIZE, Checked(0, 0));
    Takes(Popped(SIZE, Checked(0, 0)), SIZE);
    assert Full().trying - {1} == map[];
    assert Shaped(Full()) by { ClaimedShaped(Popped(SIZE, Checked(0, 0)), EMPTY); }
    hide Shaped;
    Goes(Full(), Exchange(1), Overrun());
  }

  lemma ClaimedShaped(s: State, item: Item)
    requires Shaped(s) && Fits(item, s.maxFrames)
    ensures Shaped(Claimed(s, item))
  {
  }
}
