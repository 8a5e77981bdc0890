/**
 The `std::sync::mpsc` channel that carries notifications from the handler
 to the application, seen as a sequential state machine: whether the sending
 and the receiving end are still alive, and the events sent but not yet
 received, oldest first. Capacity is unbounded, so a send never blocks.
 */
module Mpsc {
  import opened Notifications

  datatype Channel = Channel(senderAlive: bool, receiverAlive: bool, queue: seq<Notification>)

  /** `Result<(), SendError<T>>`: a failed send hands the event back. */
  datatype SendResult = Sent | SendError(value: Notification)

  /** `Result<T, TryRecvError>`. */
  datatype TryRecvResult = Received(value: Notification) | Empty | Disconnected

  /** `channel()`: both ends alive, nothing buffered. */
  function Open(): (ch: Channel)
    ensures ch.senderAlive && ch.receiverAlive && ch.queue == []
  {
    Channel(true, true, [])
  }

  /** What one send does to the channel: with a receiver, the event is
      queued behind everything sent before it; without one, nothing changes. */
  predicate Forwarded(before: Channel, after: Channel, n: Notification) {
    if before.receiverAlive then after == before.(queue := before.queue + [n])
    else after == before
  }

  /** `Sender::send`: succeeds exactly when the receiver is alive. */
  function Send(ch: Channel, n: Notification): (r: (Channel, SendResult))
    ensures Forwarded(ch, r.0, n)
    ensures r.1.Sent? <==> ch.receiverAlive
    ensures r.1.SendError? ==> r.1.value == n
  {
    if ch.receiverAlive then (ch.(queue := ch.queue + [n]), Sent)
    else (ch, SendError(n))
  }

  /** `Receiver::try_recv`: the oldest event, or why there is none. */
  function TryRecv(ch: Channel): (r: (Channel, TryRecvResult))
    ensures |ch.queue| > 0 ==> r.1 == Received(ch.queue[0]) && r.0 == ch.(queue := ch.queue[1..])
    ensures |ch.queue| == 0 ==> r.0 == ch
    ensures |ch.queue| == 0 ==> (r.1 == Empty <==> ch.senderAlive)
    ensures |ch.queue| == 0 ==> (r.1 == Disconnected <==> !ch.senderAlive)
  {
    if |ch.queue| > 0 then (ch.(queue := ch.queue[1..]), Received(ch.queue[0]))
    else if ch.senderAlive then (ch, Empty)
    else (ch, Disconnected)
  }

  /** Dropping the `Receiver` discards whatever is still buffered. */
  function DropReceiver(ch: Channel): (after: Channel)
    ensures !after.receiverAlive && after.queue == []
    ensures after.senderAlive == ch.senderAlive
  {
    ch.(receiverAlive := false, queue := [])
  }

  /** Dropping the `Sender` (with the client that owns the handler) keeps
      the buffered events readable. */
  function DropSender(ch: Channel): (after: Channel)
    ensures !after.senderAlive
    ensures after.receiverAlive == ch.receiverAlive && after.queue == ch.queue
  {
    ch.(senderAlive := false)
  }

  /** Once the receiver is gone, every send fails and changes nothing. */
  lemma SendAfterReceiverDropped(ch: Channel, n: Notification)
    ensures Send(DropReceiver(ch), n) == (DropReceiver(ch), SendError(n))
  {
  }

  /** The consumer loop `while let Ok(n) = receiver.try_recv() { ... }`:
      takes events until the channel reports that none is left. */
  method DrainAll(ch: Channel) returns (events: seq<Notification>, rest: Channel, last: TryRecvResult)
    ensures events == ch.queue
    ensures rest == ch.(queue := [])
    ensures last == (if ch.senderAlive then Empty else Disconnected)
  {
    events := [];
    rest := ch;
    var r := TryRecv(rest);
    while r.1.Received?
      invariant events + rest.queue == ch.queue
      invariant rest == ch.(queue := rest.queue)
      invariant r == TryRecv(rest)
      decreases |rest.queue|
    {
      events := events + [r.1.value];
      rest := r.0;
      r := TryRecv(rest);
    }
    last := r.1;
  }

  /** After the sender is dropped, the consumer still reads everything that
      was buffered, in order, and then learns that no more will come. */
  method DrainAfterSenderDropped(ch: Channel) returns (events: seq<Notification>, last: TryRecvResult)
    ensures events == ch.queue
    ensures last == Disconnected
  {
    var rest;
    events, rest, last := DrainAll(DropSender(ch));
  }
}
