/** The single-consumer channel of src/main.rs as a value-level state machine.

    Every operation of the channel reads and changes its state inside one
    critical section, so each is one atomic step here.  The state is the
    lock-protected `Inner` record (queue, sender count, active flag) together
    with the receiver's private `buffer`.  What the receiver will see, in
    order, is `buffer + queue`: `Pending` below.
 */
module ChannelSpec {

  /** The lock-protected part of the shared state (`Inner` in the source). */
  datatype InnerState<T> = InnerState(queue: seq<T>, sendersCount: nat, active: bool)

  /** The whole channel: the shared state plus the receiver's private buffer. */
  datatype ChannelState<T> = ChannelState(inner: InnerState<T>, buffer: seq<T>)

  /** The result of `Sender::send`: `Ok(())` or `Err(reason)`. */
  datatype SendResult = Ok | Err(reason: string)

  /** The result of one non-blocking pass of `Reciever::recv`.
      `WouldBlock` stands for the branch that waits on the condition variable. */
  datatype RecvOutcome<T> = Value(v: T) | EndOfStream | WouldBlock

  /** The error text `send` returns once the receiver is gone. */
  const ClosedReason: string := "Channel is closed"

  /** The items the receiver has yet to deliver, in delivery order. */
  function Pending<T>(c: ChannelState<T>): seq<T>
  {
    c.buffer + c.inner.queue
  }

  /** `channel()`: one sender, an active channel, nothing queued or buffered. */
  function Create<T>(): (c: ChannelState<T>)
    ensures Pending(c) == [] && c.buffer == [] && c.inner.queue == []
    ensures c.inner.sendersCount == 1 && c.inner.active
  {
    ChannelState(InnerState([], 1, true), [])
  }

  /** `Sender::clone`: one more live sender. */
  function CloneSender<T>(i: InnerState<T>): (r: InnerState<T>)
    ensures r.sendersCount == i.sendersCount + 1
    ensures r.queue == i.queue && r.active == i.active
  {
    i.(sendersCount := i.sendersCount + 1)
  }

  /** `Drop for Sender`: one sender fewer; the boolean says whether the
      condition variable is notified, which happens exactly when the last
      sender goes.  The source's `usize` subtraction panics below zero, hence
      the precondition. */
  function DropSender<T>(i: InnerState<T>): (r: (InnerState<T>, bool))
    requires i.sendersCount >= 1
    ensures r.0.sendersCount + 1 == i.sendersCount
    ensures r.0.queue == i.queue && r.0.active == i.active
    ensures r.1 <==> i.sendersCount == 1
  {
    var after := i.(sendersCount := i.sendersCount - 1);
    (after, after.sendersCount == 0)
  }

  /** `Sender::send`: refused on an inactive channel, otherwise the value
      joins the back of the queue. */
  function Send<T>(i: InnerState<T>, data: T): (r: (SendResult, InnerState<T>))
    ensures r.0 == Ok <==> i.active
    ensures r.0 != Ok ==> r.0 == Err(ClosedReason) && r.1 == i
    ensures r.0 == Ok ==> r.1.queue == i.queue + [data]
    ensures r.1.sendersCount == i.sendersCount && r.1.active == i.active
  {
    if !i.active then (Err(ClosedReason), i)
    else (Ok, i.(queue := i.queue + [data]))
  }

  /** `Reciever::recv`, one pass: serve the buffer first; otherwise pop the
      queue and, when more items remain, swap the rest of the queue with the
      (empty) buffer; otherwise report end of stream when no sender is left,
      or that the call would wait. */
  function Recv<T>(c: ChannelState<T>): (r: (RecvOutcome<T>, ChannelState<T>))
    // buffer transparency: the value is the head of buffer + queue and the rest is kept in order
    ensures r.0.Value? <==> Pending(c) != []
    ensures r.0.Value? ==> r.0.v == Pending(c)[0] && Pending(r.1) == Pending(c)[1..]
    ensures r.0 == EndOfStream <==> Pending(c) == [] && c.inner.sendersCount == 0
    ensures !r.0.Value? ==> r.1 == c
    // the fast path leaves the shared state alone
    ensures c.buffer != [] ==> r.1.inner == c.inner && r.1.buffer == c.buffer[1..]
    // the slow path moves everything after the popped item into the buffer
    ensures c.buffer == [] && c.inner.queue != [] ==>
              r.1.inner.queue == [] && r.1.buffer == c.inner.queue[1..]
    ensures r.1.inner.sendersCount == c.inner.sendersCount && r.1.inner.active == c.inner.active
  {
    if c.buffer != [] then
      (Value(c.buffer[0]), c.(buffer := c.buffer[1..]))
    else if c.inner.queue != [] then
      var val, rest := c.inner.queue[0], c.inner.queue[1..];
      if rest != [] then
        // std::mem::swap(&mut queue, &mut buffer)
        (Value(val), ChannelState(c.inner.(queue := c.buffer), rest))
      else
        (Value(val), c.(inner := c.inner.(queue := rest)))
    else if c.inner.sendersCount == 0 then
      (EndOfStream, c)
    else
      (WouldBlock, c)
  }

  /** `Drop for Reciever`: the channel becomes inactive; nothing queued or
      buffered is inspected or discarded. */
  function DropReceiver<T>(i: InnerState<T>): (r: InnerState<T>)
    ensures !r.active
    ensures r.queue == i.queue && r.sendersCount == i.sendersCount
  {
    i.(active := false)
  }

  /** Cloning a sender and dropping one restores the shared state, and the
      drop notifies only if there were no senders before the clone. */
  lemma CloneThenDropRestores<T>(i: InnerState<T>)
    ensures DropSender(CloneSender(i)) == (i, i.sendersCount == 0)
  {
  }
}
