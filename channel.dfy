/** The handles of the channel in src/main.rs as objects whose fields change
    in place.  `Inner` is the lock-protected record every handle shares;
    `Sender` and `Receiver` hold a reference to it, and the receiver also
    owns its private buffer.  Each method is one critical section, and its
    postcondition says that the new state is the `ChannelSpec` step applied
    to the old one.
 */
module Channel {
  import opened ChannelSpec

  /** The shared state behind the lock: the queue, the number of live
      senders, and whether the receiver is still alive. */
  class Inner<T> {
    var queue: seq<T>
    var sendersCount: nat
    var isChannelStillActive: bool

    /** The value this object currently holds. */
    function State(): InnerState<T>
      reads this
    {
      InnerState(queue, sendersCount, isChannelStillActive)
    }

    constructor ()
      ensures State() == Create<T>().inner
    {
      queue := [];
      sendersCount := 1;
      isChannelStillActive := true;
    }
  }

  class Sender<T> {
    const shared: Inner<T>

    constructor (shared: Inner<T>)
      ensures this.shared == shared
    {
      this.shared := shared;
    }

    /** `Sender::clone`: a new handle on the same shared state, counted. */
    method Clone() returns (s: Sender<T>)
      modifies shared
      ensures fresh(s) && s.shared == shared
      ensures shared.State() == CloneSender(old(shared.State()))
    {
      shared.sendersCount := shared.sendersCount + 1;
      s := new Sender(shared);
    }

    /** `Drop for Sender`: uncounts this handle and reports whether the
        receiver is notified, which happens when no sender is left. */
    method Drop() returns (notify: bool)
      requires shared.sendersCount >= 1
      modifies shared
      ensures (shared.State(), notify) == DropSender(old(shared.State()))
    {
      shared.sendersCount := shared.sendersCount - 1;
      notify := shared.sendersCount == 0;
    }

    /** `Sender::send`: refused once the receiver is gone, otherwise queued
        at the back. */
    method Send(data: T) returns (r: SendResult)
      modifies shared
      ensures (r, shared.State()) == ChannelSpec.Send(old(shared.State()), data)
    {
      if !shared.isChannelStillActive {
        return Err(ClosedReason);
      }
      shared.queue := shared.queue + [data];
      r := Ok;
    }
  }

  class Receiver<T> {
    const shared: Inner<T>
    var buffer: seq<T>

    /** The whole channel as this receiver sees it. */
    function State(): ChannelState<T>
      reads this, shared
    {
      ChannelState(shared.State(), buffer)
    }

    constructor (shared: Inner<T>)
      ensures this.shared == shared && buffer == []
    {
      this.shared := shared;
      buffer := [];
    }

    /** `Reciever::recv`, one pass: the buffer is served without touching
        the shared state; otherwise the front of the queue is taken and the
        rest of the queue swapped into the buffer. */
    method Recv() returns (r: RecvOutcome<T>)
      modifies this, shared
      ensures (r, State()) == ChannelSpec.Recv(old(State()))
    {
      if buffer != [] {
        r := Value(buffer[0]);
        buffer := buffer[1..];
        return;
      }
      if shared.queue != [] {
        var val := shared.queue[0];
        shared.queue := shared.queue[1..];
        if shared.queue != [] {
          shared.queue, buffer := buffer, shared.queue;
        }
        return Value(val);
      }
      if shared.sendersCount == 0 {
        return EndOfStream;
      }
      r := WouldBlock;
    }

    /** `Iterator::next`: the same as `Recv`. */
    method Next() returns (r: RecvOutcome<T>)
      modifies this, shared
      ensures (r, State()) == ChannelSpec.Recv(old(State()))
    {
      r := Recv();
    }

    /** `Drop for Reciever`: marks the channel inactive; the buffer and the
        queue are left as they are. */
    method Drop()
      modifies shared
      ensures shared.State() == DropReceiver(old(shared.State()))
    {
      shared.isChannelStillActive := false;
    }
  }

  /** `channel()`: one sender and one receiver on fresh shared state. */
  method NewChannel<T>() returns (s: Sender<T>, r: Receiver<T>)
    ensures fresh(s) && fresh(r) && fresh(s.shared)
    ensures s.shared == r.shared
    ensures r.State() == Create()
  {
    var shared := new Inner();
    s := new Sender(shared);
    r := new Receiver(shared);
  }
}
