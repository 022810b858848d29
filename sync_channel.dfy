/** The synchronous channels (shell and control): each request is one send
    followed by one blocking receive on the same socket, and the reply's
    content is read as the payload class the request type expects. */
module SyncChannels {
  import opened Wire
  import opened MessageTypes
  import opened Json
  import opened Transport
  import opened Messages
  import opened Codec
  import opened Sessions
  import CodecProperties

  /** Why a request got no reply. */
  datatype SyncError =
    | RequestNotSent(sendError: SendError)
    | NoReply(receiveError: ReceiveError)
    | ReplyNotConvertible(expected: ReplyClass)

  /** `send(message)`: the message goes out; only when every frame went out
      is the reply read, with a blocking receive. */
  function Exchanged(p: Protocol, id: string, userName: Option<string>, e: Envelope, v: PeerView)
    : (r: (PeerView, Result<Envelope, SyncError>))
    ensures var sending := Sending(p, id, userName, e, v);
            && r.0.sent == sending.0.sent && r.0.budget == sending.0.budget
            && (sending.1.Fail? ==> r == (sending.0, Err(RequestNotSent(sending.1.error))))
            && (sending.1.Pass? ==> r.0.inbox == v.inbox[Gather(v.inbox, true).1..])
    ensures r.1.Ok? ==> Received(p, v.inbox, true) == Ok(Some(r.1.value))
  {
    var sending := Sending(p, id, userName, e, v);
    if sending.1.Fail? then (sending.0, Err(RequestNotSent(sending.1.error)))
    else
      var after := sending.0.(inbox := v.inbox[Gather(v.inbox, true).1..]);
      match Received(p, v.inbox, true)
      case Err(error) => (after, Err(NoReply(error)))
      case Ok(None) => (after, Err(NoReply(NullFirstFrame)))
      case Ok(Some(reply)) => (after, Ok(reply))
  }

  /** The request `send(type, content)` builds: `new Message(type)`, with
      the content set only when there is one. */
  function RequestOf(json: JsonCodec, t: RequestMessageType, content: Option<Request>, uuid: string): (r: Envelope)
    ensures r.header.msgType == Some(RequestValue(t)) && r.header.msgId == Some(RandomId(uuid))
    ensures content.None? ==> r.content == map[]
    ensures content.Some? ==> r.content == json.requestToObject(content.value)
    ensures r.(content := map[]) == EmptyEnvelope.(header := TypedHeader(RequestValue(t), uuid))
  {
    var m := EmptyEnvelope.(header := TypedHeader(RequestValue(t), uuid));
    if content.Some? then m.(content := json.requestToObject(content.value)) else m
  }

  /** `send(type, content)`: the request's reply, read as the payload
      class the type expects. */
  function Requested(p: Protocol, id: string, userName: Option<string>, t: RequestMessageType,
                     content: Option<Request>, uuid: string, v: PeerView)
    : (PeerView, Result<Reply, SyncError>)
  {
    var exchanged := Exchanged(p, id, userName, RequestOf(p.json, t, content, uuid), v);
    match exchanged.1
    case Err(error) => (exchanged.0, Err(error))
    case Ok(reply) =>
      match p.json.objectToReply(ReplyContentClass(t), reply.content)
      case None => (exchanged.0, Err(ReplyNotConvertible(ReplyContentClass(t))))
      case Some(value) => (exchanged.0, Ok(value))
  }

  /** A request whose frames all go out, answered by a reply that the
      kernel's session stamped and relayed intact, yields that reply with
      its computed signature, and leaves whatever followed it unread. */
  lemma ReplyArrives(p: Protocol, id: string, userName: Option<string>, e: Envelope, v: PeerView,
                     reply: Envelope, kernelId: string, kernelUser: Option<string>, rest: seq<Option<Part>>)
    requires Json.Faithful(p.json)
    requires |Encode(p, Stamped(e, id, userName))| <= v.budget
    requires forall i :: 0 <= i < |reply.identities| ==> reply.identities[i] != Delimiter
    requires v.inbox == Relayed(Flagged(Encode(p, Stamped(reply, kernelId, kernelUser)))) + rest
    ensures var s := Stamp(Stamped(reply, kernelId, kernelUser));
            Exchanged(p, id, userName, e, v).1 == Ok(s.(signature := Signature(p, JsonFrames(p.json, s))))
    ensures Exchanged(p, id, userName, e, v).0.inbox == rest
    ensures Exchanged(p, id, userName, e, v).0.sent
            == v.sent + Flagged(Encode(p, Stamped(e, id, userName)))
  {
    var frames := Encode(p, Stamped(reply, kernelId, kernelUser));
    SentIsReceived(p, reply, kernelId, kernelUser, rest, true);
    EncodeLayout(p, Stamped(reply, kernelId, kernelUser));
    GatherRelayed(frames, rest);
    assert v.inbox[|frames|..] == rest;
  }

  /** The typed form of the same exchange: the value returned is the
      kernel's reply content read as the reply class of the request type. */
  lemma TypedReplyArrives(p: Protocol, id: string, userName: Option<string>, t: RequestMessageType,
                          content: Option<Request>, uuid: string, v: PeerView,
                          reply: Envelope, kernelId: string, kernelUser: Option<string>, rest: seq<Option<Part>>)
    requires Json.Faithful(p.json)
    requires |Encode(p, Stamped(RequestOf(p.json, t, content, uuid), id, userName))| <= v.budget
    requires forall i :: 0 <= i < |reply.identities| ==> reply.identities[i] != Delimiter
    requires v.inbox == Relayed(Flagged(Encode(p, Stamped(reply, kernelId, kernelUser)))) + rest
    ensures Requested(p, id, userName, t, content, uuid, v).1
            == match p.json.objectToReply(ReplyContentClass(t), reply.content)
               case None => Err(ReplyNotConvertible(ReplyContentClass(t)))
               case Some(value) => Ok(value)
    ensures Requested(p, id, userName, t, content, uuid, v).0.inbox == rest
  {
    ReplyArrives(p, id, userName, RequestOf(p.json, t, content, uuid), v, reply, kernelId, kernelUser, rest);
  }

  /** The request type `send(content)` chooses: input requests go out as
      such, a payload class that no request type declares goes out as `*`,
      and it is never a connect or kernel-info request. */
  lemma ContentTypeResolved(content: Request)
    ensures content.InputRequestPayload? ==> FromRequestContentClass(ClassOf(content)) == InputRequest
    ensures content.RequestPayload? && content.cls.UnlistedRequestClass? ==>
              FromRequestContentClass(ClassOf(content)) == OtherRequest
    ensures FromRequestContentClass(ClassOf(content)) != ConnectRequest
    ensures FromRequestContentClass(ClassOf(content)) != KernelInfoRequest
  {
    FromRequestContentClassFallback(ClassOf(content));
    if content.InputRequestPayload? {
      FromRequestContentClassOfClass(InputRequest);
    }
  }

  class SynchronousChannel {
    const channel: Channel

    constructor (channel: Channel)
      ensures this.channel == channel
    {
      this.channel := channel;
    }

    /** `new Shell(address, session)` and `new Control(address, session)`:
        a channel that runs no background task. */
    static method Open(session: Session, address: string, kind: ChannelKind, destroyFails: bool)
      returns (r: Result<SynchronousChannel, ChannelError>)
      requires kind == ShellChannel || kind == ControlChannel
      modifies session`channels
      ensures r.Err? <==> IsBlank(Some(address))
      ensures r.Err? ==> session.channels == old(session.channels)
      ensures r.Ok? ==> && fresh(r.value) && fresh(r.value.channel)
                        && r.value.channel.session == session && r.value.channel.kind == kind
                        && r.value.channel.address == address && !r.value.channel.running
                        && session.channels == old(session.channels) + [r.value.channel]
    {
      var c := session.Connect(address, kind, false, destroyFails);
      if c.Err? {
        return Err(c.error);
      }
      var s := new SynchronousChannel(c.value);
      return Ok(s);
    }

    /** `send(message)`: one session send, then, when it went out whole,
        one blocking receive on the same socket. */
    method Send(m: Message) returns (r: Result<Message, SyncError>)
      modifies m, channel.socket`budget, channel.socket`outbox, channel.socket`inbox, channel.socket`rcvMore
      ensures m.Value() == Stamp(Stamped(old(m.Value()), channel.session.id, channel.session.userName))
      ensures var spec := Exchanged(channel.session.protocol, channel.session.id, channel.session.userName,
                                    old(m.Value()), old(ViewOf(channel.socket)));
              && ViewOf(channel.socket) == spec.0
              && (r.Err? <==> spec.1.Err?)
              && (r.Err? ==> r.error == spec.1.error)
              && (r.Ok? ==> fresh(r.value) && r.value.Value() == spec.1.value)
    {
      var sent := channel.session.Send(m, channel.socket);
      if sent.Fail? {
        return Err(RequestNotSent(sent.error));
      }
      var got := channel.session.Receive(channel.socket);
      if got.Err? {
        return Err(NoReply(got.error));
      }
      return Ok(got.value);
    }

    /** The message `send(type, content)` builds. */
    static method NewRequest(json: JsonCodec, t: RequestMessageType, content: Option<Request>, uuid: string)
      returns (m: Message)
      ensures fresh(m) && m.Value() == RequestOf(json, t, content, uuid)
    {
      m := new Message.OfType(t, uuid);
      if content.Some? {
        m.WithRequestContent(json, content.value);
      }
    }

    /** `send(type, content)`: a new message of the type, with the content
        when there is one; the reply's content read as the type's reply
        class. */
    method SendTyped(t: RequestMessageType, content: Option<Request>, uuid: string) returns (r: Result<Reply, SyncError>)
      modifies channel.socket`budget, channel.socket`outbox, channel.socket`inbox, channel.socket`rcvMore
      ensures var spec := Requested(channel.session.protocol, channel.session.id, channel.session.userName,
                                    t, content, uuid, old(ViewOf(channel.socket)));
              ViewOf(channel.socket) == spec.0 && r == spec.1
    {
      var json := channel.session.protocol.json;
      var request := NewRequest(json, t, content, uuid);
      var reply := Send(request);
      if reply.Err? {
        return Err(reply.error);
      }
      var value := json.objectToReply(ReplyContentClass(t), reply.value.content);
      if value.None? {
        return Err(ReplyNotConvertible(ReplyContentClass(t)));
      }
      return Ok(value.value);
    }

    /** `send(type)`: a request without content. */
    method SendType(t: RequestMessageType, uuid: string) returns (r: Result<Reply, SyncError>)
      modifies channel.socket`budget, channel.socket`outbox, channel.socket`inbox, channel.socket`rcvMore
      ensures var spec := Requested(channel.session.protocol, channel.session.id, channel.session.userName,
                                    t, None, uuid, old(ViewOf(channel.socket)));
              ViewOf(channel.socket) == spec.0 && r == spec.1
    {
      r := SendTyped(t, None, uuid);
    }

    /** `send(content)`: the type is the one whose payload class is the
        content's class, falling back to `*`. */
    method SendContent(content: Request, uuid: string) returns (r: Result<Reply, SyncError>)
      modifies channel.socket`budget, channel.socket`outbox, channel.socket`inbox, channel.socket`rcvMore
      ensures var spec := Requested(channel.session.protocol, channel.session.id, channel.session.userName,
                                    FromRequestContentClass(ClassOf(content)), Some(content), uuid, old(ViewOf(channel.socket)));
              ViewOf(channel.socket) == spec.0 && r == spec.1
    {
      r := SendTyped(FromRequestContentClass(ClassOf(content)), Some(content), uuid);
    }
  }
}
