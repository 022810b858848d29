/** The IOPub channel: a subscriber socket with a list of listeners; the
    first subscription starts the channel and its poller, and every polled
    message is routed to the listeners in the order they subscribed. */
module IoPubs {
  import opened Wire
  import opened MessageTypes
  import opened Json
  import opened Transport
  import opened Messages
  import opened Sessions
  import Codec

  /** A listener is handed either the whole message or its content
      converted to the broadcast class of its type; handling may fault. */
  datatype Listener =
    | MessageListener(onMessage: Envelope -> Outcome<string>)
    | BroadcastListener(onBroadcast: Broadcast -> Outcome<string>)

  /** A listener invoked, by its position in the list, with what it got. */
  datatype Delivery =
    | MessageDelivered(listener: nat, message: Envelope)
    | BroadcastDelivered(listener: nat, broadcast: Broadcast)

  datatype RouteError =
    | ListenerFailed(failed: nat, reason: string)
    | NotConvertible(unconverted: nat)
    | PollFailed(error: ReceiveError)

  /** `route` of message `e` to listener `l` at position `i`: the delivery
      made, if any, and whether it faulted. A broadcast listener gets the
      content converted to the class its message type names (the generic
      broadcast class when the type is unknown); when the conversion fails
      the listener is not invoked. */
  function Route(json: JsonCodec, e: Envelope, l: Listener, i: nat): (Option<Delivery>, Outcome<RouteError>) {
    match l
    case MessageListener(f) =>
      (Some(MessageDelivered(i, e)), match f(e) case Pass => Pass case Fail(why) => Fail(ListenerFailed(i, why)))
    case BroadcastListener(f) =>
      match json.objectToBroadcast(ClassFromValue(e.header.msgType), e.content)
      case None => (None, Fail(NotConvertible(i)))
      case Some(b) =>
        (Some(BroadcastDelivered(i, b)), match f(b) case Pass => Pass case Fail(why) => Fail(ListenerFailed(i, why)))
  }

  function Deliveries(d: Option<Delivery>): seq<Delivery> {
    if d.Some? then [d.value] else []
  }

  /** The `for` loop of `pollAndRoute` over the listeners: each in turn,
      until the first fault, which ends the loop. */
  function Routed(json: JsonCodec, e: Envelope, ls: seq<Listener>): (r: (seq<Delivery>, Outcome<RouteError>))
    ensures |r.0| <= |ls|
  {
    if ls == [] then ([], Pass)
    else
      var before := Routed(json, e, ls[..|ls| - 1]);
      if before.1.Fail? then before
      else
        var last := Route(json, e, ls[|ls| - 1], |ls| - 1);
        (before.0 + Deliveries(last.0), last.1)
  }

  /** One more listener, after a prefix that did not fault. */
  lemma RoutedStep(json: JsonCodec, e: Envelope, ls: seq<Listener>, i: nat)
    requires i < |ls| && Routed(json, e, ls[..i]).1 == Pass
    ensures Routed(json, e, ls[..i + 1])
            == (Routed(json, e, ls[..i]).0 + Deliveries(Route(json, e, ls[i], i).0), Route(json, e, ls[i], i).1)
  {
    assert ls[..i + 1][..i] == ls[..i];
    assert ls[..i + 1][i] == ls[i];
  }

  function Listened(d: Delivery): nat {
    match d
    case MessageDelivered(i, _) => i
    case BroadcastDelivered(i, _) => i
  }

  /** A fault at one listener ends the routing of that message: the
      listeners after it get nothing, and the fault is the outcome. */
  lemma {:induction false} FaultEndsRouting(json: JsonCodec, e: Envelope, ls: seq<Listener>, n: nat)
    requires n <= |ls|
    requires Routed(json, e, ls[..n]).1.Fail?
    ensures Routed(json, e, ls) == Routed(json, e, ls[..n])
    decreases |ls|
  {
    if n < |ls| {
      assert ls[..|ls| - 1][..n] == ls[..n];
      FaultEndsRouting(json, e, ls[..|ls| - 1], n);
    } else {
      assert ls[..n] == ls;
    }
  }

  /** Deliveries go out in listener order: each names a listener after
      the one before. */
  lemma {:induction false} RoutedInOrder(json: JsonCodec, e: Envelope, ls: seq<Listener>)
    ensures forall k :: 0 <= k < |Routed(json, e, ls).0| ==> Listened(Routed(json, e, ls).0[k]) < |ls|
    ensures forall j, k :: 0 <= j < k < |Routed(json, e, ls).0| ==>
              Listened(Routed(json, e, ls).0[j]) < Listened(Routed(json, e, ls).0[k])
  {
    if ls != [] {
      RoutedInOrder(json, e, ls[..|ls| - 1]);
    }
  }

  /** When no listener faults, every listener gets the message, in order:
      a message listener the message itself, a broadcast listener the
      converted content. */
  lemma {:induction false} QuietRoutingReachesAll(json: JsonCodec, e: Envelope, ls: seq<Listener>)
    requires forall i :: 0 <= i < |ls| ==> Route(json, e, ls[i], i).1 == Pass
    ensures Routed(json, e, ls).1 == Pass
    ensures |Routed(json, e, ls).0| == |ls|
    ensures forall i :: 0 <= i < |ls| && ls[i].MessageListener? ==> Routed(json, e, ls).0[i] == MessageDelivered(i, e)
    ensures forall i :: 0 <= i < |ls| && ls[i].BroadcastListener? ==>
              && json.objectToBroadcast(ClassFromValue(e.header.msgType), e.content).Some?
              && Routed(json, e, ls).0[i]
                 == BroadcastDelivered(i, json.objectToBroadcast(ClassFromValue(e.header.msgType), e.content).value)
  {
    if ls != [] {
      var front := ls[..|ls| - 1];
      forall i | 0 <= i < |front|
        ensures Route(json, e, front[i], i).1 == Pass
      {
        assert front[i] == ls[i];
      }
      QuietRoutingReachesAll(json, e, front);
      var last := Route(json, e, ls[|ls| - 1], |ls| - 1);
      assert last.1 == Pass;
      assert last.0.Some?;
      forall i | 0 <= i < |front|
        ensures ls[i] == front[i]
      {
      }
    }
  }

  /** What `rounds` turns of the poller do to `inbox` for listeners `ls`:
      the deliveries made, in order, and the entries left. A fault ends the
      routing of one message but not the polling. */
  function Polled(p: Codec.Protocol, ls: seq<Listener>, inbox: seq<Option<Part>>, rounds: nat)
    : (r: (seq<Delivery>, seq<Option<Part>>))
    ensures |r.1| <= |inbox|
  {
    if rounds == 0 then ([], inbox)
    else
      var now := PollOnce(p, ls, inbox);
      var later := Polled(p, ls, now.1, rounds - 1);
      (now.0 + later.0, later.1)
  }

  /** One turn of the poller: the deliveries of one poll and the entries
      left after it. */
  function PollOnce(p: Codec.Protocol, ls: seq<Listener>, inbox: seq<Option<Part>>)
    : (r: (seq<Delivery>, seq<Option<Part>>))
    ensures |r.1| <= |inbox|
  {
    var deliveries := match Received(p, inbox, false)
      case Ok(Some(m)) => Routed(p.json, m, ls).0
      case _ => [];
    (deliveries, inbox[Gather(inbox, true).1..])
  }

  class IoPub {
    const channel: Channel
    var listeners: seq<Listener>
    /** The deliveries made so far, in order. */
    var delivered: seq<Delivery>

    constructor (channel: Channel)
      ensures this.channel == channel && listeners == [] && delivered == []
    {
      this.channel := channel;
      listeners := [];
      delivered := [];
    }

    /** `new IoPub(address, session)`: not running, no listeners, and the
        socket subscribed to every message (the empty prefix). */
    static method Open(session: Session, address: string, destroyFails: bool) returns (r: Result<IoPub, ChannelError>)
      modifies session`channels
      ensures r.Err? <==> IsBlank(Some(address))
      ensures r.Err? ==> session.channels == old(session.channels)
      ensures r.Ok? ==> && fresh(r.value) && fresh(r.value.channel) && fresh(r.value.channel.socket)
                        && r.value.channel.session == session && r.value.channel.kind == IoPubChannel
                        && r.value.channel.address == address
                        && session.channels == old(session.channels) + [r.value.channel]
                        && !r.value.channel.running && r.value.listeners == [] && r.value.delivered == []
                        && r.value.channel.socket.subscriptions == [[]]
                        && r.value.channel.socket.inbox == [] && r.value.channel.socket.outbox == []
    {
      var c := session.Connect(address, IoPubChannel, false, destroyFails);
      if c.Err? {
        return Err(c.error);
      }
      var io := new IoPub(c.value);
      c.value.socket.Subscribe([]);
      return Ok(io);
    }

    /** `subscribe`/`doSubscribe`: the listener goes at the end of the
        list; a subscription made while the channel is not running starts it
        and hands one poller to the executor, one made while it runs starts
        nothing. */
    method Subscribe(l: Listener)
      requires channel.kind == IoPubChannel
      modifies this`listeners, channel`running, channel.session`executed
      ensures listeners == old(listeners) + [l]
      ensures channel.running
      ensures channel.session.executed == old(channel.session.executed) + if old(channel.running) then [] else [IoPubPoller(channel)]
    {
      listeners := listeners + [l];
      if channel.running {
        return;
      }
      channel.Start();
      channel.session.Execute(IoPubPoller(channel));
    }

    /** The loop of `pollAndRoute`: message `e` is routed to the
        listeners in order until one faults. */
    method RouteToListeners(json: JsonCodec, e: Envelope) returns (r: Outcome<RouteError>)
      modifies this`delivered
      ensures delivered == old(delivered) + Routed(json, e, listeners).0
      ensures r == Routed(json, e, listeners).1
    {
      ghost var before := delivered;
      for i := 0 to |listeners|
        invariant delivered == before + Routed(json, e, listeners[..i]).0
        invariant Routed(json, e, listeners[..i]).1 == Pass
      {
        RoutedStep(json, e, listeners, i);
        var route := Route(json, e, listeners[i], i);
        delivered := delivered + Deliveries(route.0);
        if route.1.Fail? {
          FaultEndsRouting(json, e, listeners, i + 1);
          return route.1;
        }
      }
      assert listeners[..|listeners|] == listeners;
      return Pass;
    }

    /** `pollAndRoute`: a poll that yields nothing routes nothing; a polled
        message is routed to the listeners in order until one faults. */
    method PollAndRoute() returns (r: Outcome<RouteError>)
      modifies this`delivered, channel.socket`inbox, channel.socket`rcvMore
      ensures channel.socket.inbox == old(channel.socket.inbox)[Gather(old(channel.socket.inbox), true).1..]
      ensures var got := Received(channel.session.protocol, old(channel.socket.inbox), false);
              match got
              case Err(e) => r == Fail(PollFailed(e)) && delivered == old(delivered)
              case Ok(None) => r == Pass && delivered == old(delivered)
              case Ok(Some(m)) =>
                var routed := Routed(channel.session.protocol.json, m, listeners);
                r == routed.1 && delivered == old(delivered) + routed.0
      ensures delivered == old(delivered) + PollOnce(channel.session.protocol, listeners, old(channel.socket.inbox)).0
      ensures channel.socket.inbox == PollOnce(channel.session.protocol, listeners, old(channel.socket.inbox)).1
    {
      var polled := channel.session.Poll(channel.socket);
      if polled.Err? || polled.value.None? {
        assert PollOnce(channel.session.protocol, listeners, old(channel.socket.inbox)).0 == [];
        return if polled.Err? then Fail(PollFailed(polled.error)) else Pass;
      }
      r := RouteToListeners(channel.session.protocol.json, polled.value.value.Value());
    }

    /** One turn of the poller, seen as the first of `turns` turns: what is
        delivered and left after it and the `turns - 1` turns that follow
        is what the `turns` turns deliver and leave. */
    method PollTurn(ghost turns: nat)
      requires turns > 0
      modifies this`delivered, channel.socket`inbox, channel.socket`rcvMore
      ensures delivered + Polled(channel.session.protocol, listeners, channel.socket.inbox, turns - 1).0
              == old(delivered) + Polled(channel.session.protocol, listeners, old(channel.socket.inbox), turns).0
      ensures Polled(channel.session.protocol, listeners, channel.socket.inbox, turns - 1).1
              == Polled(channel.session.protocol, listeners, old(channel.socket.inbox), turns).1
    {
      ghost var once := PollOnce(channel.session.protocol, listeners, channel.socket.inbox);
      ghost var later := Polled(channel.session.protocol, listeners, once.1, turns - 1);
      PollOnceStep();
      assert delivered + later.0 == old(delivered) + (once.0 + later.0);
    }

    /** One poll and route whose fault is swallowed, seen through what it
        delivers and leaves. */
    method PollOnceStep()
      modifies this`delivered, channel.socket`inbox, channel.socket`rcvMore
      ensures delivered == old(delivered) + PollOnce(channel.session.protocol, listeners, old(channel.socket.inbox)).0
      ensures channel.socket.inbox == PollOnce(channel.session.protocol, listeners, old(channel.socket.inbox)).1
    {
      var _ := PollAndRoute();
    }

    /** `IoPubPoller.run`, for `rounds` turns: while the channel runs, poll
        and route, swallowing faults. */
    method RunPoller(rounds: nat)
      modifies this`delivered, channel.socket`inbox, channel.socket`rcvMore
      ensures !channel.running ==> delivered == old(delivered) && channel.socket.inbox == old(channel.socket.inbox)
      ensures channel.running ==>
                var polled := Polled(channel.session.protocol, listeners, old(channel.socket.inbox), rounds);
                delivered == old(delivered) + polled.0 && channel.socket.inbox == polled.1
    {
      if !channel.running {
        return;
      }
      ghost var p := channel.session.protocol;
      ghost var total := Polled(p, listeners, old(channel.socket.inbox), rounds);
      for k := 0 to rounds
        invariant old(delivered) + total.0 == delivered + Polled(p, listeners, channel.socket.inbox, rounds - k).0
        invariant total.1 == Polled(p, listeners, channel.socket.inbox, rounds - k).1
      {
        PollTurn(rounds - k);
      }
    }
  }
}
