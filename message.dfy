/** The message envelope: a mutable builder over seven fields (routing
    identities, signature, header, parent header, metadata, content and extra
    data buffers) with fixed defaults. */
module Messages {
  import opened Wire
  import opened MessageTypes
  import opened Json

  /** The value of a message: its seven fields. */
  datatype Envelope = Envelope(
    identities: seq<Frame>,
    signature: Frame,
    header: Header,
    parentHeader: Header,
    metadata: JsonObject,
    content: JsonObject,
    extraData: seq<Frame>)

  /** What `new Message()` holds: no identities, an empty signature, two
      all-null headers, two empty maps and no extra data. */
  const EmptyEnvelope: Envelope := Envelope([], [], EmptyHeader, EmptyHeader, map[], map[], [])

  /** A message id: the lower-cased client name, a dot, and a UUID (the UUID
      is drawn by the caller). */
  function RandomId(uuid: string): string {
    "japyter." + uuid
  }

  /** The header of a new message of type `t` with id `RandomId(uuid)`. */
  function TypedHeader(msgType: string, uuid: string): Header {
    EmptyHeader.(msgType := Some(msgType), msgId := Some(RandomId(uuid)))
  }

  /** The reply `createReply` builds for `request`: an empty message whose
      parent header is the request's header and whose header carries the
      reply type of `t` and a new id. */
  function ReplyTo(request: Envelope, t: RequestMessageType, uuid: string): Envelope {
    EmptyEnvelope.(
      parentHeader := request.header,
      header := TypedHeader(ReplyValue(ReplyMessageTypeOf(t)), uuid))
  }

  /** The reply keeps nothing of the request but its header, which becomes
      the parent header: the reply's own id and type are the fresh ones, and
      the request's identities, metadata, content and extra data are not
      carried over. */
  lemma ReplyLinksRequest(request: Envelope, t: RequestMessageType, uuid: string)
    ensures ReplyTo(request, t, uuid).parentHeader.msgId == request.header.msgId
    ensures ReplyTo(request, t, uuid).header.msgId != request.header.msgId
            <== request.header.msgId != Some(RandomId(uuid))
    ensures ReplyTo(request, t, uuid) == ReplyTo(EmptyEnvelope.(header := request.header), t, uuid)
  {
  }

  class Message {
    var identities: seq<Frame>
    var signature: Frame
    var header: Header
    var parentHeader: Header
    var metadata: JsonObject
    var content: JsonObject
    var extraData: seq<Frame>

    /** The message's current value. */
    function Value(): Envelope
      reads this
    {
      Envelope(identities, signature, header, parentHeader, metadata, content, extraData)
    }

    /** `new Message()`. */
    constructor ()
      ensures Value() == EmptyEnvelope
    {
      identities := [];
      signature := [];
      header := EmptyHeader;
      parentHeader := EmptyHeader;
      metadata := map[];
      content := map[];
      extraData := [];
    }

    /** `new Message(type)`: an empty message whose header names the type
        and carries a new id. */
    constructor OfType(t: RequestMessageType, uuid: string)
      ensures Value() == EmptyEnvelope.(header := TypedHeader(RequestValue(t), uuid))
    {
      identities := [];
      signature := [];
      header := TypedHeader(RequestValue(t), uuid);
      parentHeader := EmptyHeader;
      metadata := map[];
      content := map[];
      extraData := [];
    }

    /** `createReply(type)`: a new message, linked to this one by its parent
        header; this message is left as it was. */
    method CreateReply(t: RequestMessageType, uuid: string) returns (reply: Message)
      ensures fresh(reply)
      ensures reply.Value() == ReplyTo(Value(), t, uuid)
    {
      reply := new Message();
      reply.WithParentHeader(header);
      reply.WithHeader(reply.header.(msgType := Some(ReplyValue(ReplyMessageTypeOf(t))), msgId := Some(RandomId(uuid))));
    }

    /** Appends a routing identity; nothing else changes. */
    method WithIdentity(identity: Frame)
      modifies this
      ensures Value() == old(Value()).(identities := old(identities) + [identity])
    {
      identities := identities + [identity];
    }

    /** Replaces the signature; nothing else changes. */
    method WithSignature(s: Frame)
      modifies this
      ensures Value() == old(Value()).(signature := s)
    {
      signature := s;
    }

    /** Replaces the header; nothing else changes. */
    method WithHeader(h: Header)
      modifies this
      ensures Value() == old(Value()).(header := h)
    {
      header := h;
    }

    /** Replaces the parent header; nothing else changes. */
    method WithParentHeader(h: Header)
      modifies this
      ensures Value() == old(Value()).(parentHeader := h)
    {
      parentHeader := h;
    }

    /** Replaces the metadata; nothing else changes. */
    method WithMetadata(o: JsonObject)
      modifies this
      ensures Value() == old(Value()).(metadata := o)
    {
      metadata := o;
    }

    /** Replaces the content by a map; nothing else changes. */
    method WithContent(o: JsonObject)
      modifies this
      ensures Value() == old(Value()).(content := o)
    {
      content := o;
    }

    /** Replaces the content by a request payload converted to a map. */
    method WithRequestContent(json: JsonCodec, r: Request)
      modifies this
      ensures Value() == old(Value()).(content := json.requestToObject(r))
    {
      content := json.requestToObject(r);
    }

    /** Replaces the content by a reply payload converted to a map. */
    method WithReplyContent(json: JsonCodec, r: Reply)
      modifies this
      ensures Value() == old(Value()).(content := json.replyToObject(r))
    {
      content := json.replyToObject(r);
    }

    /** Appends an extra data buffer; nothing else changes. */
    method WithExtraDatum(datum: Frame)
      modifies this
      ensures Value() == old(Value()).(extraData := old(extraData) + [datum])
    {
      extraData := extraData + [datum];
    }

    /** Field-by-field equality: two messages are equal exactly when all
        seven fields are. */
    predicate Equals(other: Message)
      reads this, other
      ensures Equals(other) <==> Value() == other.Value()
    {
      && identities == other.identities
      && signature == other.signature
      && header == other.header
      && parentHeader == other.parentHeader
      && metadata == other.metadata
      && content == other.content
      && extraData == other.extraData
    }
  }
}
