# A verified model of a mutex-and-condvar MPSC channel

This project models the single-consumer channel of `src/main.rs`. Many
`Sender` handles push values into a shared queue. One receiver pops them in
FIFO order. The shared part of the state is the `Inner` record, which the
source keeps behind a `Mutex`: the `queue`, `senders_count` and
`is_channel_still_active`. The receiver also keeps a private `buffer`. When
`recv` takes an item from the queue and more items remain, it swaps the rest
of the queue into this buffer with `std::mem::swap`. Later calls are then
served from the buffer without taking the lock.

Every operation reads and changes the state inside one critical section, so
the model treats each operation as one atomic step. The project has three
layers:

- `ChannelSpec` (`channel_spec.dfy`) holds the state as values. `InnerState`
  is the shared record and `ChannelState` adds the receiver's buffer. There is
  one step function per operation. `Pending(c) = buffer + queue` lists the
  items the receiver has yet to deliver, in order. The contract of `Recv` is
  stated against `Pending`: a delivered value is the head of
  `buffer + queue`, and the new `buffer + queue` is exactly the tail. That is
  buffer transparency.
- `ChannelTraces` (`channel_traces.dfy`) runs sequences of calls through
  `Execute` and proves what holds across many calls. Delivery is FIFO. The
  split of pending items between buffer and queue cannot be observed. A
  closed channel refuses every later send. An exhausted channel keeps
  answering end of stream. The sender count tracks clones and drops.
- `Channel` (`channel.dfy`) holds the handles as classes whose fields change
  in place: `Inner`, `Sender` (holding a reference to the shared `Inner`) and
  `Receiver` (holding that reference plus `buffer`). Each method's
  postcondition says that the new state is the `ChannelSpec` step applied to
  the old state. `Scenarios` (`scenarios.dfy`) replays the demos from the
  commented-out `main` against these contracts.

The blocking branch of `recv` (the `wait` on the condition variable) cannot
be resolved in a sequential model. One pass of `recv` returns a three-way
outcome instead: `Value(v)`, `EndOfStream`, or `WouldBlock`. `WouldBlock`
means that the buffer and the queue are empty while some sender is still
alive. It leaves the state unchanged. The caller re-issuing `recv` plays the
part of the source's re-check after a wake-up. The notification made by
`Drop for Sender` is returned as a boolean.

`Execute` only runs a call when a handle that can make it exists (`Enabled`).
Sender calls need `sendersCount >= 1`. Receiver calls need the channel to be
active, because only the receiver's own drop clears the flag. In the source
these are guarantees of Rust's ownership rules, not run-time checks.

Dropping the receiver does not look at unread items in the buffer or the
queue. Later sends fail even while earlier values are still unread. The model
keeps this closing policy as written.

## Model

| member | source | states |
|---|---|---|
| ChannelSpec.Create | src/main.rs:110-132 | a new channel has nothing pending (empty queue and buffer), one sender, and is active |
| ChannelSpec.CloneSender | src/main.rs:12-20 | cloning a sender raises the sender count by exactly one; the queue and the active flag are unchanged |
| ChannelSpec.DropSender | src/main.rs:23-31 | dropping a sender (count at least one, since `usize` would underflow) lowers the count by exactly one, changes nothing else, and notifies exactly when the count reaches zero |
| ChannelSpec.CloneThenDropRestores | src/main.rs:12-31 | a clone followed by a drop restores the shared state; that drop notifies only if the count was zero before the clone |
| ChannelSpec.Send | src/main.rs:34-46 | `send` succeeds exactly when the channel is active; on success the value is appended at the back of the queue; otherwise it returns `Err("Channel is closed")` and the state is unchanged; the sender count and the flag never change |
| ChannelSpec.Recv | src/main.rs:71-95 | a value is returned exactly when `buffer + queue` is non-empty, and it is the head of `buffer + queue`, with the new `buffer + queue` being exactly the tail; end of stream exactly when nothing is pending and no sender is left; otherwise the call would block; without a value the state is unchanged; the buffer path leaves the shared state untouched; the queue path leaves the queue empty and the buffer holding the rest of the old queue in order |
| ChannelSpec.DropReceiver | src/main.rs:56-61 | dropping the receiver clears the active flag and keeps the queue and the sender count |
| ChannelTraces.StepConservesItems | src/main.rs:34-95 | one call loses and invents no item: what it delivers, followed by what is still pending, is what was pending followed by what it accepted |
| ChannelTraces.ItemsConserved | src/main.rs:34-95 | over any run, the delivered values followed by the still-pending ones are the initially pending ones followed by every value `send` accepted, in call order |
| ChannelTraces.DeliveredInSendOrder | src/main.rs:73-85 | on a fresh channel, the values `recv` yields are a prefix of the values `send` accepted, in send order (FIFO) |
| ChannelTraces.BufferTransparency | src/main.rs:80-85 | two states that differ only in how the pending items are split between buffer and queue give the same `send` and `recv` answers for every run, and leave the same items pending |
| ChannelTraces.ClosedStaysClosed | src/main.rs:38-40 | once the receiver is dropped, no later `send` is accepted and the channel never becomes active again |
| ChannelTraces.ExhaustedStaysExhausted | src/main.rs:88 | with nothing pending and no sender left, every later `recv` returns end of stream and nothing becomes pending again |
| ChannelTraces.SendersCounted | src/main.rs:12-31 | over any run, the final sender count plus the number of drops equals the initial count plus the number of clones |
| Channel.Inner.constructor | src/main.rs:111-115 | the shared record starts with an empty queue, one sender and the channel active |
| Channel.Sender.Clone | src/main.rs:12-20 | returns a fresh handle on the same shared state; the shared state becomes the `CloneSender` step of the old one |
| Channel.Sender.Drop | src/main.rs:23-31 | the shared state and the notify flag are the `DropSender` step of the old state |
| Channel.Sender.Send | src/main.rs:34-46 | the result and the new shared state are the `Send` step of the old state |
| Channel.Receiver.Recv | src/main.rs:71-95 | the outcome and the new state (shared record plus buffer) are the `Recv` step of the old state |
| Channel.Receiver.Next | src/main.rs:63-69 | `next` behaves exactly as `recv` |
| Channel.Receiver.Drop | src/main.rs:56-61 | the shared state becomes the `DropReceiver` step of the old one; the buffer is left as it is |
| Channel.NewChannel | src/main.rs:110-132 | returns a fresh sender and receiver sharing one fresh `Inner`, in the state `Create` describes |

## Left out

- `Mutex`, `Condvar` and `Arc` are not modelled. Each operation is one atomic step, and the shared `Inner` is an object that both handles reference.
- Thread interleavings are not modelled. Neither is the order in which `send` releases the lock before notifying (src/main.rs:43-44).
- Channel.Receiver.Recv: models one pass of the `loop` at src/main.rs:79-94. The wait on the condition variable becomes the `WouldBlock` outcome with the state unchanged. The model does not capture suspension, spurious wake-ups or the re-check after a wake-up, because these need other threads. Re-issuing the call stands in for them.
- Channel.Sender.Drop: the notification is only a returned boolean. Waking the receiver is not modelled.
- Channel.Sender.Clone: the sender count is an unbounded `nat`. The `usize` overflow of `senders_count += 1` (src/main.rs:15) is not modelled, because it would take more than 2^64 live senders.
- Lock poisoning is not modelled. Every `.unwrap()` on `lock()` or `wait()` would panic on a poisoned lock, which is a fatal path and not channel logic.
- The `println!("Cached")` diagnostic (src/main.rs:74) is console output and is left out.
- The `main` function (src/main.rs:134-183) holds only commented-out demos. They appear as the client methods in `Scenarios`.
- Rust's ownership rules are not modelled in the handles: nothing stops a Dafny client from calling a dropped handle again. The rules appear only as the `Enabled` condition on runs.
