/** What the bounded ring of the recorder stores, and where: shared by the step model of its
    producers and consumer and by the queue object itself. */
module Ring {
  const SIZE: nat := 1024
  const CAPACITY: nat := SIZE + 1

  datatype Frame = Frame(lineno: int, methodId: int)
  const ZERO := Frame(0, 0)

  /** A stack trace. `num` is negative when the stack could not be walked; then there are no frames. */
  datatype Trace = Trace(env: int, num: int, frames: seq<Frame>)

  /** What is pushed: a trace and the thread it belongs to, 0 when unknown. */
  datatype Item = Item(trace: Trace, info: nat)

  /** A slot of the ring; its frames are in a buffer of their own. */
  datatype Slot = Slot(committed: bool, env: int, num: int, info: nat)
  const FREE := Slot(false, 0, 0, 0)

  function FrameCount(num: int): nat { if num < 0 then 0 else num }

  predicate Fits(item: Item, maxFrames: nat) {
    |item.trace.frames| == FrameCount(item.trace.num) <= maxFrames
  }

  function Zeros(n: nat): seq<Frame> { seq(n, _ => ZERO) }

  /** The first k frames of an item in a buffer that is otherwise zero. */
  function Padded(frames: seq<Frame>, k: nat, maxFrames: nat): (buffer: seq<Frame>)
    requires k <= |frames| <= maxFrames
    ensures |buffer| == maxFrames
  {
    frames[..k] + Zeros(maxFrames - k)
  }

  // ---- What a slot can be -----------------------------------------------------------------------

  predicate IsFree(x: Slot, buffer: seq<Frame>) {
    !x.committed && x.info == 0 && forall k | 0 <= k < |buffer| :: buffer[k] == ZERO
  }

  predicate HasTrace(x: Slot, buffer: seq<Frame>, item: Item) {
    && |item.trace.frames| <= |buffer|
    && x.num == item.trace.num && x.env == item.trace.env
    && buffer == Padded(item.trace.frames, |item.trace.frames|, |buffer|)
  }

  predicate IsFull(x: Slot, buffer: seq<Frame>, item: Item) {
    x.committed && HasTrace(x, buffer, item) && x.info == item.info
  }

  function Advance(i: nat): nat { (i + 1) % CAPACITY }

  // ---- Tickets: the claims are numbered, and ticket j uses slot j % CAPACITY -------------------

  /** The one ticket in [done, done + CAPACITY) that uses slot i. */
  function TicketAt(done: nat, i: nat): (j: nat)
    requires i < CAPACITY
    ensures done <= j < done + CAPACITY && j % CAPACITY == i
  {
    var d := done % CAPACITY;
    if i >= d then done + (i - d) else done + (CAPACITY + i - d)
  }

  lemma TicketIsOnly(done: nat, j: nat)
    requires done <= j < done + CAPACITY
    ensures TicketAt(done, j % CAPACITY) == j
  {
    var t := TicketAt(done, j % CAPACITY);
    var q, p := j / CAPACITY, t / CAPACITY;
    assert j == CAPACITY * q + j % CAPACITY && t == CAPACITY * p + j % CAPACITY;
  }

  lemma TicketAfter(done: nat, i: nat)
    requires i < CAPACITY
    ensures TicketAt(done + 1, i) == if i == done % CAPACITY then done + CAPACITY else TicketAt(done, i)
  {
    var t := TicketAt(done, i);
    if i == done % CAPACITY {
      TicketIsOnly(done, done);
      TicketIsOnly(done + 1, done + CAPACITY);
    } else {
      TicketIsOnly(done + 1, t);
    }
  }

  /** The index of the next ticket is the next index, and two live tickets never share one. */
  lemma AdvanceIsNext(j: nat)
    ensures Advance(j % CAPACITY) == (j + 1) % CAPACITY
  {
  }

  /** The queue looks full exactly when SIZE items are in it, and empty exactly when none is. */
  lemma FullAndEmpty(done: nat, claimed: nat)
    requires done <= claimed <= done + SIZE
    ensures Advance(claimed % CAPACITY) == done % CAPACITY <==> claimed - done == SIZE
    ensures claimed % CAPACITY == done % CAPACITY <==> claimed == done
  {
    AdvanceIsNext(claimed);
    TicketIsOnly(done, done);
    TicketIsOnly(done, claimed);
    if claimed - done < SIZE {
      TicketIsOnly(done, claimed + 1);
    }
  }
}
