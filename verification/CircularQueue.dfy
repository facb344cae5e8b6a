/** The queue object, used by one thread at a time: its indices, its slots and the frame buffers it
    overwrites and zeroes. */
module CircularQueues {
  import opened Ring

  /** How far slot i is from the oldest item. */
  function Position(output: nat, i: nat): nat
    requires i < CAPACITY
  {
    TicketAt(output, i) - output
  }

  ghost predicate SlotOk(x: Slot, row: seq<Frame>, items: seq<Item>, position: nat) {
    if position < |items| then IsFull(x, row, items[position]) else IsFree(x, row)
  }

  /** The slots from `output` to `input` hold the items, and all others are free. */
  ghost predicate Holding(slots: seq<Slot>, rows: seq<seq<Frame>>, maxFrames: nat, input: nat, output: nat, items: seq<Item>) {
    && |slots| == |rows| == CAPACITY && (forall i | 0 <= i < CAPACITY :: |rows[i]| == maxFrames)
    && output < CAPACITY && |items| <= SIZE && input == (output + |items|) % CAPACITY
    && (forall j | 0 <= j < |items| :: Fits(items[j], maxFrames))
    && forall i: nat | i < CAPACITY :: SlotOk(slots[i], rows[i], items, Position(output, i))
  }

  /** The queue refuses when it is full, and otherwise the next slot is a free one. */
  lemma Room(slots: seq<Slot>, rows: seq<seq<Frame>>, maxFrames: nat, input: nat, output: nat, items: seq<Item>)
    requires Holding(slots, rows, maxFrames, input, output, items)
    ensures input < CAPACITY && output < CAPACITY && |slots| == |rows| == CAPACITY && |items| <= SIZE
    ensures Advance(input) == output <==> |items| == SIZE
    ensures input == output <==> items == []
    ensures |items| < SIZE ==> IsFree(slots[input], rows[input])
    ensures items != [] ==> Fits(items[0], maxFrames) && IsFull(slots[output], rows[output], items[0])
  {
    hide IsFree, IsFull, TicketAt, Advance;
    FullAndEmpty(output, output + |items|);
    assert output % CAPACITY == output;
    TicketIsOnly(output, output);
    TicketIsOnly(output, output + |items|);
    assert Position(output, input) == |items| && Position(output, output) == 0;
    assert SlotOk(slots[input], rows[input], items, Position(output, input));
    assert SlotOk(slots[output], rows[output], items, Position(output, output));
  }

  lemma PushHolding(slots: seq<Slot>, rows: seq<seq<Frame>>, maxFrames: nat, input: nat, output: nat, items: seq<Item>,
                    item: Item, x: Slot, row: seq<Frame>)
    requires Holding(slots, rows, maxFrames, input, output, items) && |items| < SIZE
    requires Fits(item, maxFrames) && |row| == maxFrames && IsFull(x, row, item)
    ensures Holding(slots[input := x], rows[input := row], maxFrames, Advance(input), output, items + [item])
  {
    hide IsFree, IsFull, TicketAt;
    AdvanceIsNext(output + |items|);
    TicketIsOnly(output, output + |items|);
    forall i: nat | i < CAPACITY
      ensures SlotOk(slots[input := x][i], rows[input := row][i], items + [item], Position(output, i))
    {
      assert SlotOk(slots[i], rows[i], items, Position(output, i));
      assert i != input ==> Position(output, i) != |items|;
    }
  }

  lemma PopHolding(slots: seq<Slot>, rows: seq<seq<Frame>>, maxFrames: nat, input: nat, output: nat, items: seq<Item>,
                   x: Slot, row: seq<Frame>)
    requires Holding(slots, rows, maxFrames, input, output, items) && items != []
    requires |row| == maxFrames && IsFree(x, row)
    ensures Holding(slots[output := x], rows[output := row], maxFrames, input, Advance(output), items[1..])
  {
    hide IsFree, IsFull, Position;
    assert (Advance(output) + |items[1..]|) % CAPACITY == input;
    forall i: nat | i < CAPACITY
      ensures SlotOk(slots[output := x][i], rows[output := row][i], items[1..], Position(Advance(output), i))
    {
      assert SlotOk(slots[i], rows[i], items, Position(output, i));
      PositionAfterPop(output, i);
    }
  }

  /** Giving back the oldest slot moves every other one a place forward. */
  lemma PositionAfterPop(output: nat, i: nat)
    requires output < CAPACITY && i < CAPACITY
    ensures Position(Advance(output), i) == if i == output then SIZE else Position(output, i) - 1
    ensures i != output ==> Position(output, i) > 0
  {
    assert Position(output, i) == if i >= output then i - output else CAPACITY + i - output;
    var next := Advance(output);
    assert next == if output == SIZE then 0 else output + 1;
    assert Position(next, i) == if i >= next then i - next else CAPACITY + i - next;
  }

  class CircularQueue {
    const maxFrames: nat
    const buffer: array<Slot>
    const frames: array2<Frame>     // row i is the frame buffer of slot i
    var input: nat
    var output: nat
    ghost var items: seq<Item>      // what is in the queue, oldest first
    ghost var recorded: seq<Item>   // what the listener was shown

    predicate Shaped() {
      buffer.Length == CAPACITY == frames.Length0 && frames.Length1 == maxFrames
    }

    function Row(i: nat): (row: seq<Frame>)
      requires Shaped() && i < CAPACITY
      reads frames
    {
      seq(maxFrames, k requires 0 <= k < maxFrames reads frames => frames[i, k])
    }

    ghost function Rows(): (rows: seq<seq<Frame>>)
      requires Shaped()
      reads frames
    {
      seq(CAPACITY, i requires 0 <= i < CAPACITY reads frames => Row(i))
    }

    ghost predicate Valid()
      reads this, buffer, frames
    {
      Shaped() && Holding(buffer[..], Rows(), maxFrames, input, output, items)
    }

    constructor (maxFrames: nat)
      ensures Valid() && fresh(buffer) && fresh(frames)
      ensures this.maxFrames == maxFrames && items == [] && recorded == []
    {
      this.maxFrames := maxFrames;
      buffer := new Slot[CAPACITY](_ => FREE);
      frames := new Frame[CAPACITY, maxFrames]((_, _) => ZERO);
      input, output := 0, 0;
      items, recorded := [], [];
    }

    method Push(item: Item) returns (ok: bool)
      requires Valid() && Fits(item, maxFrames)
      modifies this`input, this`items, buffer, frames
      ensures Valid()
      ensures ok == (|old(items)| < SIZE)
      ensures items == old(items) + if ok then [item] else []
    {
      hide Holding;
      Room(buffer[..], Rows(), maxFrames, input, output, items);
      var currentInput := input;
      var nextInput := Advance(currentInput);
      if output == nextInput {
        return false;
      }
      input := nextInput;
      assert Rows()[currentInput] == Row(currentInput);
      Write(item, currentInput);
      buffer[currentInput] := buffer[currentInput].(info := item.info);
      buffer[currentInput] := buffer[currentInput].(committed := true);
      items := items + [item];
      PushHolding(old(buffer[..]), old(Rows()), maxFrames, old(input), output, old(items),
                  item, buffer[currentInput], Row(currentInput));
      assert buffer[..] == old(buffer[..])[currentInput := buffer[currentInput]];
      return true;
    }

    /** Fills the frames and the header of a slot whose frames are zero. */
    method Write(item: Item, slot: nat)
      requires Shaped() && slot < CAPACITY && Fits(item, maxFrames)
      requires forall k | 0 <= k < maxFrames :: Row(slot)[k] == ZERO
      modifies buffer, frames
      ensures HasTrace(buffer[slot], Row(slot), item)
      ensures buffer[..] == old(buffer[..])[slot := old(buffer[slot]).(num := item.trace.num, env := item.trace.env)]
      ensures Rows() == old(Rows())[slot := Row(slot)]
    {
      assert forall k | 0 <= k < maxFrames :: frames[slot, k] == Row(slot)[k];
      var frameNum: int := 0;
      while frameNum < item.trace.num
        invariant 0 <= frameNum <= FrameCount(item.trace.num)
        invariant forall k | 0 <= k < maxFrames ::
                    frames[slot, k] == if k < frameNum then item.trace.frames[k] else ZERO
        invariant forall i, k | 0 <= i < CAPACITY && i != slot && 0 <= k < maxFrames :: frames[i, k] == old(frames[i, k])
        modifies frames
      {
        frames[slot, frameNum] := item.trace.frames[frameNum];
        frameNum := frameNum + 1;
      }
      buffer[slot] := buffer[slot].(num := item.trace.num);
      buffer[slot] := buffer[slot].(env := item.trace.env);
      assert Row(slot) == Padded(item.trace.frames, |item.trace.frames|, maxFrames);
      RowsApart(slot);
    }

    twostate lemma RowsApart(slot: nat)
      requires Shaped() && slot < CAPACITY
      requires forall i, k | 0 <= i < CAPACITY && i != slot && 0 <= k < maxFrames :: frames[i, k] == old(frames[i, k])
      ensures Rows() == old(Rows())[slot := Row(slot)]
    {
      forall i: nat | i < CAPACITY && i != slot
        ensures Row(i) == old(Row(i))
      {
      }
    }

    /** The oldest item goes to the listener, and its slot is cleaned and given back. */
    method Pop() returns (some: bool)
      requires Valid()
      modifies this`output, this`items, this`recorded, buffer, frames
      ensures Valid()
      ensures some == (old(items) != [])
      ensures some ==> recorded == old(recorded) + [old(items)[0]] && items == old(items)[1..]
      ensures !some ==> recorded == old(recorded) && items == old(items)
    {
      hide Holding;
      Room(buffer[..], Rows(), maxFrames, input, output, items);
      var currentOutput := output;
      if currentOutput == input {
        return false;
      }
      assert Rows()[currentOutput] == Row(currentOutput);
      var x := buffer[currentOutput];
      assert Row(currentOutput)[..FrameCount(x.num)] == items[0].trace.frames;
      recorded := recorded + [Item(Trace(x.env, x.num, Row(currentOutput)[..FrameCount(x.num)]), x.info)];
      Clean(currentOutput);
      output := Advance(currentOutput);
      items := items[1..];
      PopHolding(old(buffer[..]), old(Rows()), maxFrames, input, old(output), old(items),
                 buffer[currentOutput], Row(currentOutput));
      return true;
    }

    /** Zeroes the frames of a slot up to its frame count, and frees it. */
    method Clean(slot: nat)
      requires Shaped() && slot < CAPACITY && FrameCount(buffer[slot].num) <= maxFrames
      requires forall k | FrameCount(buffer[slot].num) <= k < maxFrames :: Row(slot)[k] == ZERO
      modifies buffer, frames
      ensures IsFree(buffer[slot], Row(slot))
      ensures buffer[..] == old(buffer[..])[slot := buffer[slot]]
      ensures Rows() == old(Rows())[slot := Row(slot)]
    {
      assert forall k | 0 <= k < maxFrames :: frames[slot, k] == Row(slot)[k];
      var numFrames := buffer[slot].num;
      var frameNum: int := 0;
      while frameNum < numFrames
        invariant 0 <= frameNum <= FrameCount(numFrames)
        invariant forall k | 0 <= k < maxFrames && (k < frameNum || FrameCount(numFrames) <= k) :: frames[slot, k] == ZERO
        invariant forall i, k | 0 <= i < CAPACITY && i != slot && 0 <= k < maxFrames :: frames[i, k] == old(frames[i, k])
        modifies frames
      {
        frames[slot, frameNum] := ZERO;
        frameNum := frameNum + 1;
      }
      buffer[slot] := buffer[slot].(info := 0);
      buffer[slot] := buffer[slot].(committed := false);
      RowsApart(slot);
    }
  }
}
