/** The stdin channel: running from the start, it polls for the kernel's
    requests and answers each with a reply built by a handler, linked to the
    request through the parent header. */
module Stdins {
  import opened Wire
  import opened MessageTypes
  import opened Json
  import opened Transport
  import opened Messages
  import opened Codec
  import opened Sessions

  /** What a handler throws instead of answering. */
  datatype HandlerError = Unsupported(request: Request) | Refused(reason: string)

  /** A prompt: what the user types for a prompt text, or what it throws. */
  type Prompt = (Option<string>, bool) -> Result<Option<string>, HandlerError>

  /** The handler: `prompt` reads what the user types for a prompt text
      (`None` for null), telling whether it is a password, or throws;
      `other` answers any other request, or throws. */
  datatype StdinHandler = StdinHandler(
    prompt: Prompt,
    other: Request -> Result<Reply, HandlerError>)

  /** `AbstractStdinHandler`: prompts as given, throws on every other
      request. */
  function AbstractHandler(prompt: Prompt): StdinHandler {
    StdinHandler(prompt, (r: Request) => Err(Unsupported(r)))
  }

  /** `buildContent`: an input request is answered with what the user types,
      a null password flag counting as no password, unless the prompt throws;
      any other request goes to the handler's `other`. */
  function BuildContent(h: StdinHandler, request: Request): Result<Reply, HandlerError> {
    match request
    case InputRequestPayload(prompt, password) =>
      (match h.prompt(prompt, password == Some(true))
       case Err(failure) => Err(failure)
       case Ok(value) => Ok(InputReplyPayload(value)))
    case RequestPayload(_, _) => h.other(request)
  }

  /** Why no reply went out for a polled message. */
  datatype StdinError =
    | NoPayloadClass(requestType: RequestMessageType)
    | NotConvertible(unconverted: RequestClass)
    | HandlerFailed(failure: HandlerError)
    | ReplyNotSent(sendError: SendError)
    | PollFailed(pollError: ReceiveError)

  /** The reply `reply` sends for the request `e`, before the session stamps
      it: the request type comes from the message type, with `*` for unknown
      ones; a type without a payload class, content that does not convert,
      and a handler that throws each give no reply. */
  function ReplyFor(json: JsonCodec, h: StdinHandler, e: Envelope, uuid: string): (r: Result<Envelope, StdinError>)
    ensures r.Ok? ==>
              var t := FromValue(e.header.msgType);
              && r.value.parentHeader == e.header
              && r.value.header == TypedHeader(ReplyValue(ReplyMessageTypeOf(t)), uuid)
              && r.value.identities == [] && r.value.signature == []
              && r.value.metadata == map[] && r.value.extraData == []
    ensures RequestContentClass(FromValue(e.header.msgType)).None? ==>
              r == Err(NoPayloadClass(FromValue(e.header.msgType)))
  {
    var t := FromValue(e.header.msgType);
    match RequestContentClass(t)
    case None => Err(NoPayloadClass(t))
    case Some(cls) =>
      match json.objectToRequest(cls, e.content)
      case None => Err(NotConvertible(cls))
      case Some(request) =>
        match BuildContent(h, request)
        case Err(failure) => Err(HandlerFailed(failure))
        case Ok(content) => Ok(ReplyTo(e, t, uuid).(content := json.replyToObject(content)))
  }

  /** An input request is answered with an input reply to it whose value is
      what the handler's prompt returns, a null password counting as false;
      when the prompt throws, there is no reply. */
  lemma InputRequestAnswered(json: JsonCodec, h: StdinHandler, e: Envelope, uuid: string,
                             prompt: Option<string>, password: Option<bool>)
    requires e.header.msgType == Some(RequestValue(InputRequest))
    requires json.objectToRequest(InputRequestClass, e.content) == Some(InputRequestPayload(prompt, password))
    ensures ReplyFor(json, h, e, uuid).Ok? <==> h.prompt(prompt, password == Some(true)).Ok?
    ensures h.prompt(prompt, password == Some(true)).Err? ==>
              ReplyFor(json, h, e, uuid) == Err(HandlerFailed(h.prompt(prompt, password == Some(true)).error))
    ensures h.prompt(prompt, password == Some(true)).Ok? ==>
              && ReplyFor(json, h, e, uuid).value.header.msgType == Some("input_reply")
              && ReplyFor(json, h, e, uuid).value.parentHeader == e.header
              && ReplyFor(json, h, e, uuid).value.content
                 == json.replyToObject(InputReplyPayload(h.prompt(prompt, password == Some(true)).value))
    ensures password == None && h.prompt(prompt, false).Ok? ==>
              ReplyFor(json, h, e, uuid).value.content == json.replyToObject(InputReplyPayload(h.prompt(prompt, false).value))
  {
    FromValueOfValue(InputRequest);
  }

  /** A request that is not an input request is answered with whatever the
      handler's `other` answers, and not at all when it throws. */
  lemma OtherRequestsGoToHandler(json: JsonCodec, h: StdinHandler, e: Envelope, uuid: string, request: Request)
    requires RequestContentClass(FromValue(e.header.msgType)).Some?
    requires json.objectToRequest(RequestContentClass(FromValue(e.header.msgType)).value, e.content) == Some(request)
    requires !request.InputRequestPayload?
    ensures h.other(request).Err? ==> ReplyFor(json, h, e, uuid) == Err(HandlerFailed(h.other(request).error))
    ensures h.other(request).Ok? ==>
              && ReplyFor(json, h, e, uuid).Ok?
              && ReplyFor(json, h, e, uuid).value.content == json.replyToObject(h.other(request).value)
  {
  }

  /** The abstract handler answers no request but input requests. */
  lemma AbstractHandlerRefuses(json: JsonCodec, prompt: Prompt,
                               e: Envelope, uuid: string, request: Request)
    requires RequestContentClass(FromValue(e.header.msgType)).Some?
    requires json.objectToRequest(RequestContentClass(FromValue(e.header.msgType)).value, e.content) == Some(request)
    requires !request.InputRequestPayload?
    ensures ReplyFor(json, AbstractHandler(prompt), e, uuid) == Err(HandlerFailed(Unsupported(request)))
  {
    OtherRequestsGoToHandler(json, AbstractHandler(prompt), e, uuid, request);
  }

  /** Connect and kernel-info requests have no payload class, so a stdin
      channel never answers them; an unknown message type is answered as a
      `*` request with a `*` reply. */
  lemma ReplyTypes(json: JsonCodec, h: StdinHandler, e: Envelope, uuid: string)
    ensures e.header.msgType == Some(RequestValue(ConnectRequest)) ==>
              ReplyFor(json, h, e, uuid) == Err(NoPayloadClass(ConnectRequest))
    ensures e.header.msgType == Some(RequestValue(KernelInfoRequest)) ==>
              ReplyFor(json, h, e, uuid) == Err(NoPayloadClass(KernelInfoRequest))
    ensures (forall t :: e.header.msgType != Some(RequestValue(t))) && ReplyFor(json, h, e, uuid).Ok? ==>
              ReplyFor(json, h, e, uuid).value.header.msgType == Some("*")
  {
    FromValueOfValue(ConnectRequest);
    FromValueOfValue(KernelInfoRequest);
    if forall t :: e.header.msgType != Some(RequestValue(t)) {
      FromValueFallback(e.header.msgType);
    }
  }

  // ---- The socket as the poller sees it ----

  /** What sending the reply `e` does to the socket, and whether every
      frame went out. */
  function Transmitted(p: Protocol, id: string, userName: Option<string>, e: Envelope, v: PeerView)
    : (r: (PeerView, Outcome<StdinError>))
    ensures r.0.inbox == v.inbox && v.sent <= r.0.sent
    ensures r.1.Fail? <==> |Encode(p, Stamped(e, id, userName))| > v.budget
    ensures r.1.Fail? ==> r.1.error == ReplyNotSent(FrameNotSent(v.budget))
    ensures r.1 == Pass ==> r.0.sent == v.sent + Flagged(Encode(p, Stamped(e, id, userName)))
  {
    var sent := Sending(p, id, userName, e, v);
    (sent.0, if sent.1.Fail? then Fail(ReplyNotSent(sent.1.error)) else Pass)
  }

  /** One `pollAndReply` with `uuid` as the reply's id: the multipart
      message is taken off the socket; a timed-out poll sends nothing, a
      request that cannot be answered sends nothing, and an answerable one
      sends its reply. */
  function Answered(p: Protocol, id: string, userName: Option<string>, h: StdinHandler, v: PeerView, uuid: string)
    : (r: (PeerView, Outcome<StdinError>))
    ensures |r.0.inbox| <= |v.inbox| && r.0.budget <= v.budget
    ensures r.0.inbox == v.inbox[Gather(v.inbox, true).1..]
    ensures v.sent <= r.0.sent
    ensures Received(p, v.inbox, false) == Ok(None) ==> r == (v.(inbox := r.0.inbox), Pass)
  {
    var rest := v.inbox[Gather(v.inbox, true).1..];
    match Received(p, v.inbox, false)
    case Err(error) => (v.(inbox := rest), Fail(PollFailed(error)))
    case Ok(None) => (v.(inbox := rest), Pass)
    case Ok(Some(e)) =>
      match ReplyFor(p.json, h, e, uuid)
      case Err(error) => (v.(inbox := rest), Fail(error))
      case Ok(reply) => Transmitted(p, id, userName, reply, v.(inbox := rest))
  }

  /** The poller's turns, one per reply id, faults swallowed. */
  function Answers(p: Protocol, id: string, userName: Option<string>, h: StdinHandler, v: PeerView, uuids: seq<string>)
    : (r: PeerView)
    ensures |r.inbox| <= |v.inbox| && r.budget <= v.budget
    decreases |uuids|
  {
    if uuids == [] then v
    else Answers(p, id, userName, h, Answered(p, id, userName, h, v, uuids[0]).0, uuids[1..])
  }

  class Stdin {
    const channel: Channel
    const handler: StdinHandler

    constructor (channel: Channel, handler: StdinHandler)
      requires channel.kind == StdinChannel
      modifies channel.session`executed
      ensures this.channel == channel && this.handler == handler
      ensures channel.session.executed == old(channel.session.executed) + [StdinPoller(channel)]
    {
      this.channel := channel;
      this.handler := handler;
      new;
      channel.session.Execute(StdinPoller(channel));
    }

    /** `new Stdin(address, session, handler)`: a running channel whose
        poller is launched at once. */
    static method Open(session: Session, address: string, handler: StdinHandler, destroyFails: bool)
      returns (r: Result<Stdin, ChannelError>)
      modifies session`channels, session`executed
      ensures r.Err? <==> IsBlank(Some(address))
      ensures r.Err? ==> session.channels == old(session.channels) && session.executed == old(session.executed)
      ensures r.Ok? ==> && fresh(r.value) && fresh(r.value.channel)
                        && r.value.handler == handler
                        && r.value.channel.session == session && r.value.channel.kind == StdinChannel
                        && r.value.channel.address == address && r.value.channel.running
                        && session.channels == old(session.channels) + [r.value.channel]
                        && session.executed == old(session.executed) + [StdinPoller(r.value.channel)]
    {
      var c := session.Connect(address, StdinChannel, true, destroyFails);
      if c.Err? {
        return Err(c.error);
      }
      var s := new Stdin(c.value, handler);
      return Ok(s);
    }

    /** `reply`: builds the reply to `m` and sends it through the session;
        `m` itself is left as it was. */
    method Reply(m: Message, uuid: string) returns (r: Outcome<StdinError>)
      modifies channel.socket`budget, channel.socket`outbox
      ensures var spec := ReplyFor(channel.session.protocol.json, handler, m.Value(), uuid);
              && (spec.Err? ==> r == Fail(spec.error) && ViewOf(channel.socket) == old(ViewOf(channel.socket)))
              && (spec.Ok? ==>
                    var sent := Transmitted(channel.session.protocol, channel.session.id, channel.session.userName,
                                            spec.value, old(ViewOf(channel.socket)));
                    ViewOf(channel.socket) == sent.0 && r == sent.1)
    {
      var json := channel.session.protocol.json;
      var t := FromValue(m.header.msgType);
      var cls := RequestContentClass(t);
      if cls.None? {
        return Fail(NoPayloadClass(t));
      }
      var request := json.objectToRequest(cls.value, m.content);
      if request.None? {
        return Fail(NotConvertible(cls.value));
      }
      var content := BuildContent(handler, request.value);
      if content.Err? {
        return Fail(HandlerFailed(content.error));
      }
      var reply := m.CreateReply(t, uuid);
      reply.WithReplyContent(json, content.value);
      var sent := channel.session.Send(reply, channel.socket);
      r := if sent.Fail? then Fail(ReplyNotSent(sent.error)) else Pass;
    }

    /** `pollAndReply`: a timed-out poll sends nothing; a polled request is
        replied to. */
    method PollAndReply(uuid: string) returns (r: Outcome<StdinError>)
      modifies channel.socket`inbox, channel.socket`rcvMore, channel.socket`budget, channel.socket`outbox
      ensures var spec := Answered(channel.session.protocol, channel.session.id, channel.session.userName,
                                   handler, old(ViewOf(channel.socket)), uuid);
              ViewOf(channel.socket) == spec.0 && r == spec.1
    {
      var polled := channel.session.Poll(channel.socket);
      if polled.Err? {
        return Fail(PollFailed(polled.error));
      }
      if polled.value.None? {
        return Pass;
      }
      r := Reply(polled.value.value, uuid);
    }

    /** One turn of the poller, seen as the first of the turns with reply
        ids `uuids`. */
    method PollTurn(uuids: seq<string>)
      requires uuids != []
      modifies channel.socket`inbox, channel.socket`rcvMore, channel.socket`budget, channel.socket`outbox
      ensures Answers(channel.session.protocol, channel.session.id, channel.session.userName, handler, ViewOf(channel.socket), uuids[1..])
              == Answers(channel.session.protocol, channel.session.id, channel.session.userName, handler, old(ViewOf(channel.socket)), uuids)
    {
      var _ := PollAndReply(uuids[0]);
    }

    /** `StdinPoller.run`, one turn per reply id in `uuids`: while the
        channel runs, poll and reply, swallowing faults. */
    method RunPoller(uuids: seq<string>)
      modifies channel.socket`inbox, channel.socket`rcvMore, channel.socket`budget, channel.socket`outbox
      ensures !channel.running ==> ViewOf(channel.socket) == old(ViewOf(channel.socket))
      ensures channel.running ==>
                ViewOf(channel.socket) == Answers(channel.session.protocol, channel.session.id, channel.session.userName,
                                  handler, old(ViewOf(channel.socket)), uuids)
    {
      if !channel.running {
        return;
      }
      ghost var total := Answers(channel.session.protocol, channel.session.id, channel.session.userName,
                                 handler, old(ViewOf(channel.socket)), uuids);
      for k := 0 to |uuids|
        invariant Answers(channel.session.protocol, channel.session.id, channel.session.userName,
                          handler, ViewOf(channel.socket), uuids[k..]) == total
      {
        PollTurn(uuids[k..]);
        assert uuids[k..][1..] == uuids[k + 1..];
      }
    }
  }
}
