/** Runs of the channel: sequences of operations applied one atomic step at a
    time, and what they deliver.  The properties the channel promises across
    many calls (FIFO delivery, buffer transparency, closing, exhaustion,
    sender counting) are lemmas about `Execute`.
 */
module ChannelTraces {
  import opened ChannelSpec

  /** One call on a handle of the channel. */
  datatype Op<T> = SendOp(data: T) | RecvOp | CloneOp | DropSenderOp | DropReceiverOp

  /** What a run leaves behind: the final state, the values `send` accepted
      (in call order) and the outcome of every `recv` (in call order). */
  datatype Run<T> = Run(final: ChannelState<T>, accepted: seq<T>, outcomes: seq<RecvOutcome<T>>)

  /** Whether a handle that can make the call exists.  Sender calls need a
      live sender (the count is at least one); receiver calls need the
      receiver, which is alive exactly while the channel is active, since
      only its drop clears the flag. */
  predicate Enabled<T>(c: ChannelState<T>, op: Op<T>)
  {
    match op
    case SendOp(_) => c.inner.sendersCount >= 1
    case CloneOp => c.inner.sendersCount >= 1
    case DropSenderOp => c.inner.sendersCount >= 1
    case RecvOp => c.inner.active
    case DropReceiverOp => c.inner.active
  }

  /** One operation as one atomic step. */
  function Step<T>(c: ChannelState<T>, op: Op<T>): Run<T>
    requires Enabled(c, op)
  {
    match op
    case SendOp(data) =>
      var (res, inner) := Send(c.inner, data);
      Run(c.(inner := inner), if res == Ok then [data] else [], [])
    case RecvOp =>
      var (outcome, next) := Recv(c);
      Run(next, [], [outcome])
    case CloneOp => Run(c.(inner := CloneSender(c.inner)), [], [])
    case DropSenderOp => Run(c.(inner := DropSender(c.inner).0), [], [])
    case DropReceiverOp => Run(c.(inner := DropReceiver(c.inner)), [], [])
  }

  /** Every operation of `ops`, in turn, is enabled. */
  predicate Usable<T>(c: ChannelState<T>, ops: seq<Op<T>>)
    decreases |ops|
  {
    ops == [] || (Enabled(c, ops[0]) && Usable(Step(c, ops[0]).final, ops[1..]))
  }

  /** Applies `ops` to `c` in order. */
  function Execute<T>(c: ChannelState<T>, ops: seq<Op<T>>): Run<T>
    requires Usable(c, ops)
    decreases |ops|
  {
    if ops == [] then Run(c, [], [])
    else
      var first := Step(c, ops[0]);
      var rest := Execute(first.final, ops[1..]);
      Run(rest.final, first.accepted + rest.accepted, first.outcomes + rest.outcomes)
  }

  /** The values among a sequence of `recv` outcomes. */
  function Delivered<T>(outcomes: seq<RecvOutcome<T>>): seq<T>
  {
    if outcomes == [] then []
    else (if outcomes[0].Value? then [outcomes[0].v] else []) + Delivered(outcomes[1..])
  }

  /** How many `CloneOp`s `ops` holds. */
  function Clones<T>(ops: seq<Op<T>>): nat
  {
    if ops == [] then 0 else (if ops[0].CloneOp? then 1 else 0) + Clones(ops[1..])
  }

  /** How many `DropSenderOp`s `ops` holds. */
  function SenderDrops<T>(ops: seq<Op<T>>): nat
  {
    if ops == [] then 0 else (if ops[0].DropSenderOp? then 1 else 0) + SenderDrops(ops[1..])
  }

  lemma {:induction false} DeliveredAppend<T>(a: seq<RecvOutcome<T>>, b: seq<RecvOutcome<T>>)
    ensures Delivered(a + b) == Delivered(a) + Delivered(b)
  {
    if a != [] {
      assert (a + b)[0] == a[0] && (a + b)[1..] == a[1..] + b;
      DeliveredAppend(a[1..], b);
    } else {
      assert a + b == b;
    }
  }

  /** One step loses and invents nothing: what it delivers, followed by what
      is still pending, is what was pending followed by what it accepted. */
  lemma StepConservesItems<T>(c: ChannelState<T>, op: Op<T>)
    requires Enabled(c, op)
    ensures Delivered(Step(c, op).outcomes) + Pending(Step(c, op).final)
            == Pending(c) + Step(c, op).accepted
  {
    match op
    case SendOp(data) =>
      if c.inner.active {
        assert Pending(Step(c, op).final) == c.buffer + (c.inner.queue + [data]);
      }
    case RecvOp =>
      var (outcome, next) := Recv(c);
      assert Delivered([outcome]) == if outcome.Value? then [outcome.v] else [];
      if outcome.Value? {
        assert Pending(c) == [outcome.v] + Pending(next);
      }
    case CloneOp =>
    case DropSenderOp =>
    case DropReceiverOp =>
  }

  /** Chaining two conservation equations end to end. */
  lemma Regroup<T>(d1: seq<T>, d2: seq<T>, p0: seq<T>, p1: seq<T>, p2: seq<T>, a1: seq<T>, a2: seq<T>)
    requires d1 + p1 == p0 + a1
    requires d2 + p2 == p1 + a2
    ensures (d1 + d2) + p2 == p0 + (a1 + a2)
  {
    calc {
      (d1 + d2) + p2;
      d1 + (d2 + p2);
      d1 + (p1 + a2);
      (d1 + p1) + a2;
      (p0 + a1) + a2;
    }
  }

  /** Items conservation over a whole run: the values delivered, followed by
      the values still pending, are the values pending at the start followed
      by the values accepted by `send`, in call order. */
  lemma {:induction false} ItemsConserved<T>(c: ChannelState<T>, ops: seq<Op<T>>)
    requires Usable(c, ops)
    ensures Delivered(Execute(c, ops).outcomes) + Pending(Execute(c, ops).final)
            == Pending(c) + Execute(c, ops).accepted
    decreases |ops|
  {
    if ops != [] {
      var first := Step(c, ops[0]);
      var rest := Execute(first.final, ops[1..]);
      StepConservesItems(c, ops[0]);
      ItemsConserved(first.final, ops[1..]);
      DeliveredAppend(first.outcomes, rest.outcomes);
      var run := Execute(c, ops);
      assert run == Run(rest.final, first.accepted + rest.accepted, first.outcomes + rest.outcomes);
      Regroup(Delivered(first.outcomes), Delivered(rest.outcomes), Pending(c), Pending(first.final),
              Pending(rest.final), first.accepted, rest.accepted);
    }
  }

  /** FIFO order: on a fresh channel, the values `recv` yields are a prefix
      of the values `send` accepted, in send order. */
  lemma DeliveredInSendOrder<T>(ops: seq<Op<T>>)
    requires Usable(Create(), ops)
    ensures Delivered(Execute(Create(), ops).outcomes) <= Execute(Create(), ops).accepted
  {
    var c: ChannelState<T> := Create();
    ItemsConserved(c, ops);
    var run := Execute(c, ops);
    assert Delivered(run.outcomes) + Pending(run.final) == run.accepted;
  }

  /** Buffer transparency: two states that differ only in how the pending
      items are split between the buffer and the queue cannot be told apart
      by any run: the same calls are possible, every `send` and `recv`
      answers the same, and the same items remain pending. */
  lemma {:induction false} BufferTransparency<T>(c1: ChannelState<T>, c2: ChannelState<T>, ops: seq<Op<T>>)
    requires Pending(c1) == Pending(c2)
    requires c1.inner.sendersCount == c2.inner.sendersCount && c1.inner.active == c2.inner.active
    requires Usable(c1, ops)
    ensures Usable(c2, ops)
    ensures Execute(c1, ops).outcomes == Execute(c2, ops).outcomes
    ensures Execute(c1, ops).accepted == Execute(c2, ops).accepted
    ensures Pending(Execute(c1, ops).final) == Pending(Execute(c2, ops).final)
    decreases |ops|
  {
    if ops != [] {
      var s1, s2 := Step(c1, ops[0]), Step(c2, ops[0]);
      match ops[0] {
        case SendOp(data) =>
          if c1.inner.active {
            assert Pending(s1.final) == Pending(c1) + [data];
            assert Pending(s2.final) == Pending(c2) + [data];
          }
        case RecvOp =>
        case CloneOp =>
        case DropSenderOp =>
        case DropReceiverOp =>
      }
      assert s1.outcomes == s2.outcomes && s1.accepted == s2.accepted;
      BufferTransparency(s1.final, s2.final, ops[1..]);
    }
  }

  /** Closing: once the receiver is gone, no later `send` is accepted and
      the channel never becomes active again. */
  lemma {:induction false} ClosedStaysClosed<T>(c: ChannelState<T>, ops: seq<Op<T>>)
    requires !c.inner.active
    requires Usable(c, ops)
    ensures Execute(c, ops).accepted == []
    ensures !Execute(c, ops).final.inner.active
    decreases |ops|
  {
    if ops != [] {
      ClosedStaysClosed(Step(c, ops[0]).final, ops[1..]);
    }
  }

  /** Exhaustion: with nothing pending and no sender left, every later
      `recv` reports end of stream and nothing ever becomes pending again. */
  lemma {:induction false} ExhaustedStaysExhausted<T>(c: ChannelState<T>, ops: seq<Op<T>>)
    requires c.inner.sendersCount == 0 && Pending(c) == []
    requires Usable(c, ops)
    ensures forall k :: 0 <= k < |Execute(c, ops).outcomes| ==> Execute(c, ops).outcomes[k] == EndOfStream
    ensures Execute(c, ops).final.inner.sendersCount == 0 && Pending(Execute(c, ops).final) == []
    ensures Execute(c, ops).accepted == []
    decreases |ops|
  {
    if ops != [] {
      ExhaustedStaysExhausted(Step(c, ops[0]).final, ops[1..]);
    }
  }

  /** The sender count tracks the live senders: it rises by one per clone
      and falls by one per drop. */
  lemma {:induction false} SendersCounted<T>(c: ChannelState<T>, ops: seq<Op<T>>)
    requires Usable(c, ops)
    ensures Execute(c, ops).final.inner.sendersCount + SenderDrops(ops)
            == c.inner.sendersCount + Clones(ops)
    decreases |ops|
  {
    if ops != [] {
      SendersCounted(Step(c, ops[0]).final, ops[1..]);
    }
  }
}
