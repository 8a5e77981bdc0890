/**
 `SimpleNotificationHandler`: each of the ten jack notification callbacks
 builds the matching `Notification` and sends it down the channel without
 blocking. The four callbacks that answer with a `Control` ask jack to go on
 when the send worked and to quit when nobody listens any more; the other
 six drop the send result. The handler's only state is its `Sender`, so each
 callback is a transition of the channel.
 */
module Handler {
  import opened Wrappers
  import opened Jack
  import N = Notifications
  import opened Mpsc

  /** `match send(..) { Ok(()) => Continue, Err(_) => Quit }`. */
  function ControlOf(r: SendResult): (c: Control)
    ensures c == Continue <==> r.Sent?
  {
    match r
    case Sent => Continue
    case SendError(_) => Quit
  }

  function ThreadInit(ch: Channel): (after: Channel)
    ensures Forwarded(ch, after, N.ThreadInit)
  {
    Send(ch, N.ThreadInit).0
  }

  function Shutdown(ch: Channel, status: ClientStatus, reason: string): (after: Channel)
    ensures Forwarded(ch, after, N.Shutdown(status, reason))
  {
    Send(ch, N.Shutdown(status, reason)).0
  }

  function Freewheel(ch: Channel, isEnabled: bool): (after: Channel)
    ensures Forwarded(ch, after, N.Freewheel(isEnabled))
  {
    Send(ch, N.Freewheel(isEnabled)).0
  }

  function SampleRate(ch: Channel, srate: Frames): (r: (Channel, Control))
    ensures Forwarded(ch, r.0, N.SampleRate(srate))
    ensures r.1 == Continue <==> ch.receiverAlive
  {
    var (after, sent) := Send(ch, N.SampleRate(srate));
    (after, ControlOf(sent))
  }

  function ClientRegistration(ch: Channel, name: string, isReg: bool): (after: Channel)
    ensures Forwarded(ch, after, N.ClientRegistration(name, isReg))
  {
    Send(ch, N.ClientRegistration(name, isReg)).0
  }

  function PortRegistration(ch: Channel, portId: PortId, isReg: bool): (after: Channel)
    ensures Forwarded(ch, after, N.PortRegistration(portId, isReg))
  {
    Send(ch, N.PortRegistration(portId, isReg)).0
  }

  function PortRename(ch: Channel, portId: PortId, oldName: string, newName: string): (r: (Channel, Control))
    ensures Forwarded(ch, r.0, N.PortRename(portId, oldName, newName))
    ensures r.1 == Continue <==> ch.receiverAlive
  {
    var (after, sent) := Send(ch, N.PortRename(portId, oldName, newName));
    (after, ControlOf(sent))
  }

  function PortsConnected(ch: Channel, portIdA: PortId, portIdB: PortId, areConnected: bool): (after: Channel)
    ensures Forwarded(ch, after, N.PortsConnected(portIdA, portIdB, areConnected))
  {
    Send(ch, N.PortsConnected(portIdA, portIdB, areConnected)).0
  }

  function GraphReorder(ch: Channel): (r: (Channel, Control))
    ensures Forwarded(ch, r.0, N.GraphReorder)
    ensures r.1 == Continue <==> ch.receiverAlive
  {
    var (after, sent) := Send(ch, N.GraphReorder);
    (after, ControlOf(sent))
  }

  function XRun(ch: Channel): (r: (Channel, Control))
    ensures Forwarded(ch, r.0, N.XRun)
    ensures r.1 == Continue <==> ch.receiverAlive
  {
    var (after, sent) := Send(ch, N.XRun);
    (after, ControlOf(sent))
  }

  /** One invocation of the handler by the jack server, with its arguments
      (the `&Client` argument every callback gets is not used). */
  datatype Callback =
    | OnThreadInit
    | OnShutdown(status: ClientStatus, reason: string)
    | OnFreewheel(isEnabled: bool)
    | OnSampleRate(srate: Frames)
    | OnClientRegistration(name: string, isReg: bool)
    | OnPortRegistration(portId: PortId, isReg: bool)
    | OnPortRename(portId: PortId, oldName: string, newName: string)
    | OnPortsConnected(portIdA: PortId, portIdB: PortId, areConnected: bool)
    | OnGraphReorder
    | OnXRun

  /** The event a callback should forward: the variant of the same name,
      carrying the callback's arguments field for field. */
  function EventOf(c: Callback): N.Notification {
    match c
    case OnThreadInit => N.ThreadInit
    case OnShutdown(status, reason) => N.Shutdown(status, reason)
    case OnFreewheel(isEnabled) => N.Freewheel(isEnabled)
    case OnSampleRate(srate) => N.SampleRate(srate)
    case OnClientRegistration(name, isReg) => N.ClientRegistration(name, isReg)
    case OnPortRegistration(portId, isReg) => N.PortRegistration(portId, isReg)
    case OnPortRename(portId, oldName, newName) => N.PortRename(portId, oldName, newName)
    case OnPortsConnected(portIdA, portIdB, areConnected) => N.PortsConnected(portIdA, portIdB, areConnected)
    case OnGraphReorder => N.GraphReorder
    case OnXRun => N.XRun
  }

  /** The callbacks whose signature returns a `jack::Control`. */
  predicate AnswersControl(c: Callback) {
    c.OnSampleRate? || c.OnPortRename? || c.OnGraphReorder? || c.OnXRun?
  }

  /** Runs the callback `c` names; the `Control` it returns, if it returns one.
      The handler owns the `Sender`, so while it can be called the sender lives. */
  function Invoke(ch: Channel, c: Callback): (r: (Channel, Option<Control>))
    requires ch.senderAlive
    ensures Forwarded(ch, r.0, EventOf(c))
    ensures r.1.Some? <==> AnswersControl(c)
    ensures r.1.Some? ==> (r.1.value == Continue <==> ch.receiverAlive)
  {
    match c
    case OnThreadInit => (ThreadInit(ch), None)
    case OnShutdown(status, reason) => (Shutdown(ch, status, reason), None)
    case OnFreewheel(isEnabled) => (Freewheel(ch, isEnabled), None)
    case OnSampleRate(srate) => var (after, k) := SampleRate(ch, srate); (after, Some(k))
    case OnClientRegistration(name, isReg) => (ClientRegistration(ch, name, isReg), None)
    case OnPortRegistration(portId, isReg) => (PortRegistration(ch, portId, isReg), None)
    case OnPortRename(portId, oldName, newName) =>
      var (after, k) := PortRename(ch, portId, oldName, newName); (after, Some(k))
    case OnPortsConnected(portIdA, portIdB, areConnected) =>
      (PortsConnected(ch, portIdA, portIdB, areConnected), None)
    case OnGraphReorder => var (after, k) := GraphReorder(ch); (after, Some(k))
    case OnXRun => var (after, k) := XRun(ch); (after, Some(k))
  }

  /** The events a run of callbacks should forward, in invocation order. */
  function Events(cs: seq<Callback>): (events: seq<N.Notification>)
    ensures |events| == |cs|
  {
    seq(|cs|, i requires 0 <= i < |cs| => EventOf(cs[i]))
  }

  /** The channel after the server has invoked `cs`, one after the other. */
  function RunAll(ch: Channel, cs: seq<Callback>): Channel
    requires ch.senderAlive
    decreases |cs|
  {
    if |cs| == 0 then ch else RunAll(Invoke(ch, cs[0]).0, cs[1..])
  }

  /** With a receiver, a run of callbacks queues exactly their events, in
      order, behind what was already there; without one it changes nothing. */
  lemma {:induction false} RunAllForwards(ch: Channel, cs: seq<Callback>)
    requires ch.senderAlive
    ensures ch.receiverAlive ==> RunAll(ch, cs) == ch.(queue := ch.queue + Events(cs))
    ensures !ch.receiverAlive ==> RunAll(ch, cs) == ch
    decreases |cs|
  {
    if |cs| > 0 {
      var next := Invoke(ch, cs[0]).0;
      RunAllForwards(next, cs[1..]);
      assert Events(cs) == [EventOf(cs[0])] + Events(cs[1..]);
      assert ch.queue + Events(cs) == ch.queue + [EventOf(cs[0])] + Events(cs[1..]);
    }
  }

  /** A fresh channel, a run of callbacks, then the consumer drains the
      channel: it reads exactly the forwarded events, in invocation order. */
  method DeliverAndDrain(cs: seq<Callback>) returns (events: seq<N.Notification>)
    ensures events == Events(cs)
  {
    var ch := Open();
    var after := RunAll(ch, cs);
    RunAllForwards(ch, cs);
    var rest, last;
    events, rest, last := DrainAll(after);
  }
}

/**
 `DummyProcessHandler`: the process handler jack requires next to the
 notification handler. It does no audio work and never asks jack to stop.
 */
module DummyProcessHandler {
  import opened Jack

  /** `process`, for any `ProcessScope` (left abstract as `Scope`). */
  function Process<Scope>(scope: Scope): (c: Control)
    ensures c == Continue
  {
    Continue
  }

  /** `buffer_size`, for any new buffer size. */
  function BufferSize(size: Frames): (c: Control)
    ensures c == Continue
  {
    Continue
  }
}
