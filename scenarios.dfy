/** The usage scenarios sketched in the commented-out `main` of src/main.rs,
    replayed against the contracts of the `Channel` handles.  Every assertion
    follows from the method postconditions alone.
 */
module Scenarios {
  import opened ChannelSpec
  import opened Channel

  /** Two senders, one of them a clone, each send once; the receiver gets
      both values in send order. */
  method MultipleSenders()
  {
    var tx, rx := NewChannel<int>();
    var sent := tx.Send(5);
    assert sent == Ok;
    var tx2 := tx.Clone();
    sent := tx2.Send(10);
    assert sent == Ok && tx.shared.sendersCount == 2;
    var got := rx.Recv();
    assert got == Value(5);
    got := rx.Recv();
    assert got == Value(10);
  }

  /** Dropping the only sender notifies the receiver, whose next call
      reports end of stream, again and again. */
  method AllSendersGone()
  {
    var tx, rx := NewChannel<int>();
    var notify := tx.Drop();
    assert notify;
    var got := rx.Recv();
    assert got == EndOfStream;
    got := rx.Recv();
    assert got == EndOfStream;
  }

  /** Once the receiver is dropped, a send is refused. */
  method ReceiverGone()
  {
    var tx, rx := NewChannel<int>();
    rx.Drop();
    var sent := tx.Send(5);
    assert sent == Err("Channel is closed");
  }

  /** A burst of three sends is received in order; only the first call
      takes items from the shared queue, the other two are served from the
      buffer and leave the shared state untouched. */
  method IteratorAndBufferCache()
  {
    var tx, rx := NewChannel<int>();
    var sent := tx.Send(5);
    sent := tx.Send(10);
    sent := tx.Send(15);
    assert rx.shared.queue == [5, 10, 15];
    var got := rx.Next();
    assert got == Value(5) && rx.buffer == [10, 15] && rx.shared.queue == [];
    var before := rx.shared.State();
    got := rx.Next();
    assert got == Value(10) && rx.shared.State() == before;
    got := rx.Next();
    assert got == Value(15) && rx.shared.State() == before;
  }
}
