/** The wire codec of version 5.0 of the Jupyter messaging protocol ("The
    Wire Protocol"): a message travels as its routing identities, the
    delimiter `<IDS|MSG>`, the signature, the four JSON frames (header,
    parent header, metadata, content) and its extra data buffers. */
module Codec {
  import opened Wire
  import opened MessageTypes
  import opened Json
  import opened Signing
  import opened Messages

  /** The protocol version stamped into every outgoing header. */
  const Version: string := "5.0"

  /** `<IDS|MSG>` in UTF-8. */
  const Delimiter: Frame := [60, 73, 68, 83, 124, 77, 83, 71, 62]

  /** A codec: the HMAC key and algorithm (either may be absent), the JSON
      mapper and the HMAC function. */
  datatype Protocol = Protocol(
    key: Option<seq<Byte>>,
    algorithm: Option<HmacAlgorithm>,
    json: JsonCodec,
    mac: Mac)

  /** Messages are signed exactly when both a key and an algorithm are set. */
  predicate IsSigning(p: Protocol) {
    p.key.Some? && p.algorithm.Some?
  }

  /** `new Protocol(key, signatureScheme)`: a blank key is no key, a blank
      scheme no algorithm, and an unknown scheme is refused. */
  function NewProtocol(key: Option<string>, scheme: Option<string>, encode: string -> seq<Byte>,
                       json: JsonCodec, mac: Mac): Result<Protocol, ConfigError>
  {
    match ResolveScheme(scheme)
    case Err(e) => Err(e)
    case Ok(algorithm) => Ok(Protocol(KeyBytes(key, encode), algorithm, json, mac))
  }

  /** A protocol built from the connection file signs exactly when both the
      key and the scheme are non-blank; it is refused only for a scheme that
      names no algorithm. */
  lemma NewProtocolSigning(key: Option<string>, scheme: Option<string>, encode: string -> seq<Byte>,
                           json: JsonCodec, mac: Mac)
    ensures NewProtocol(key, scheme, encode, json, mac).Ok? ==>
              (IsSigning(NewProtocol(key, scheme, encode, json, mac).value) <==> !IsBlank(key) && !IsBlank(scheme))
    ensures NewProtocol(key, scheme, encode, json, mac).Err? <==>
              !IsBlank(scheme) && forall b :: !EqualsIgnoreCase(Name(b), RemoveChar(scheme.value, '-'))
  {
    SchemeResolution(scheme, HmacMD5);
    if ResolveScheme(scheme).Ok? && ResolveScheme(scheme).value.Some? {
      SchemeResolution(scheme, ResolveScheme(scheme).value.value);
    }
  }

  // ---- Encoding ----

  /** The bytes fed to the MAC: the frames one after the other. */
  function Concat(frames: seq<Frame>): seq<Byte> {
    if frames == [] then [] else Concat(frames[..|frames| - 1]) + frames[|frames| - 1]
  }

  /** The signature of the four JSON frames: empty when not signing,
      otherwise the lowercase hex HMAC of their concatenation. */
  function Signature(p: Protocol, jsonFrames: seq<Frame>): Frame {
    if !IsSigning(p) then [] else Hex(p.mac(p.key.value, p.algorithm.value, Concat(jsonFrames)))
  }

  /** What `toFrames` leaves in the message: the header's version set. */
  function Stamp(e: Envelope): Envelope {
    e.(header := e.header.(version := Some(Version)))
  }

  /** The four JSON frames of a message, in wire order. */
  function JsonFrames(json: JsonCodec, e: Envelope): seq<Frame> {
    [json.writeHeader(e.header), json.writeHeader(e.parentHeader),
     json.writeObject(e.metadata), json.writeObject(e.content)]
  }

  /** The frames `toFrames` produces for a message. */
  function Encode(p: Protocol, e: Envelope): seq<Frame> {
    var s := Stamp(e);
    var js := JsonFrames(p.json, s);
    s.identities + [Delimiter, Signature(p, js)] + js + s.extraData
  }

  /** A message is laid out as its identities, the delimiter, the signature
      of its JSON frames, the four JSON frames and its extra data: six frames
      more than it has identities and extra data. */
  lemma EncodeLayout(p: Protocol, e: Envelope)
    ensures |Encode(p, e)| == |e.identities| + 6 + |e.extraData|
    ensures Encode(p, e)[..|e.identities|] == e.identities
    ensures Encode(p, e)[|e.identities|] == Delimiter
    ensures Encode(p, e)[|e.identities| + 1] == Signature(p, JsonFrames(p.json, Stamp(e)))
    ensures Encode(p, e)[|e.identities| + 2..|e.identities| + 6] == JsonFrames(p.json, Stamp(e))
    ensures Encode(p, e)[|e.identities| + 6..] == e.extraData
  {
  }

  /** When signing is off the signature frame is empty; when it is on, with
      an HMAC that yields digests of the algorithm's size, it is the
      non-empty lowercase hex spelling of the HMAC of the JSON frames. */
  lemma SignatureShape(p: Protocol, jsonFrames: seq<Frame>)
    requires WellFormedMac(p.mac)
    ensures !IsSigning(p) ==> Signature(p, jsonFrames) == []
    ensures IsSigning(p) ==>
              && |Signature(p, jsonFrames)| == 2 * DigestLength(p.algorithm.value) > 0
              && (forall i :: 0 <= i < |Signature(p, jsonFrames)| ==> IsLowerHexDigit(Signature(p, jsonFrames)[i]))
              && Unhex(Signature(p, jsonFrames)) == p.mac(p.key.value, p.algorithm.value, Concat(jsonFrames))
  {
    if IsSigning(p) {
      HexRoundTrip(p.mac(p.key.value, p.algorithm.value, Concat(jsonFrames)));
    }
  }

  /** `maybeSignature`: the MAC is fed the JSON frames one at a time. */
  method MaybeSignature(p: Protocol, jsonFrames: seq<Frame>) returns (s: Frame)
    ensures s == Signature(p, jsonFrames)
  {
    if !IsSigning(p) {
      return [];
    }
    var fed: seq<Byte> := [];
    for i := 0 to |jsonFrames|
      invariant fed == Concat(jsonFrames[..i])
    {
      assert jsonFrames[..i + 1][..i] == jsonFrames[..i];
      fed := fed + jsonFrames[i];
    }
    assert jsonFrames[..|jsonFrames|] == jsonFrames;
    s := Hex(p.mac(p.key.value, p.algorithm.value, fed));
  }

  /** `toFrames`: stamps the version into the message's header, then lays
      the message out. */
  method ToFrames(p: Protocol, m: Message) returns (frames: seq<Frame>)
    modifies m
    ensures m.Value() == Stamp(old(m.Value()))
    ensures frames == Encode(p, old(m.Value()))
  {
    m.WithHeader(m.header.(version := Some(Version)));
    var jsonFrames := [p.json.writeHeader(m.header), p.json.writeHeader(m.parentHeader),
                       p.json.writeObject(m.metadata), p.json.writeObject(m.content)];
    var signature := MaybeSignature(p, jsonFrames);
    frames := m.identities + [Delimiter] + [signature] + jsonFrames + m.extraData;
  }

  // ---- Decoding: the frame-handler machine ----

  /** The frame handlers, in the order the decoder moves through them. */
  datatype FrameHandler =
    | ZmqId | HmacSignature | HeaderFrame | ParentHeaderFrame | MetadataFrame | ContentFrame | ExtraData

  /** The handler after `h`; the last one is never left. */
  function Next(h: FrameHandler): FrameHandler {
    match h
    case ZmqId => HmacSignature
    case HmacSignature => HeaderFrame
    case HeaderFrame => ParentHeaderFrame
    case ParentHeaderFrame => MetadataFrame
    case MetadataFrame => ContentFrame
    case ContentFrame => ExtraData
    case ExtraData => ExtraData
  }

  datatype DecodeError =
    | NotEnoughFrames(last: FrameHandler)   // input ended before the extra data
    | MalformedJson(at: FrameHandler)       // a JSON frame could not be read
    | InvalidSignature                      // the signature does not match

  /** The decoder's state: the current handler, the JSON frames seen so far
      and the message built so far. */
  datatype Decoder = Decoder(handler: FrameHandler, jsonFrames: seq<Frame>, env: Envelope)

  const Initial: Decoder := Decoder(ZmqId, [], EmptyEnvelope)

  /** One frame handled: identities until the delimiter, then one frame each
      for the signature and the four JSON parts, then extra data. */
  function Handle(json: JsonCodec, d: Decoder, frame: Frame): Result<Decoder, DecodeError> {
    var e := d.env;
    match d.handler
    case ZmqId =>
      if frame == Delimiter then Ok(d.(handler := Next(ZmqId)))
      else Ok(d.(env := e.(identities := e.identities + [frame])))
    case HmacSignature =>
      Ok(d.(handler := Next(HmacSignature), env := e.(signature := frame)))
    case HeaderFrame =>
      (match json.readHeader(frame)
       case None => Err(MalformedJson(HeaderFrame))
       case Some(h) => Ok(Decoder(Next(HeaderFrame), d.jsonFrames + [frame], e.(header := h))))
    case ParentHeaderFrame =>
      (match json.readHeader(frame)
       case None => Err(MalformedJson(ParentHeaderFrame))
       case Some(h) => Ok(Decoder(Next(ParentHeaderFrame), d.jsonFrames + [frame], e.(parentHeader := h))))
    case MetadataFrame =>
      (match json.readObject(frame)
       case None => Err(MalformedJson(MetadataFrame))
       case Some(o) => Ok(Decoder(Next(MetadataFrame), d.jsonFrames + [frame], e.(metadata := o))))
    case ContentFrame =>
      (match json.readObject(frame)
       case None => Err(MalformedJson(ContentFrame))
       case Some(o) => Ok(Decoder(Next(ContentFrame), d.jsonFrames + [frame], e.(content := o))))
    case ExtraData =>
      Ok(d.(env := e.(extraData := e.extraData + [frame])))
  }

  /** The frames handled in order; the first failure ends the run. */
  function Run(json: JsonCodec, r: Result<Decoder, DecodeError>, frames: seq<Frame>): Result<Decoder, DecodeError>
    decreases |frames|
  {
    if frames == [] || r.Err? then r else Run(json, Handle(json, r.value, frames[0]), frames[1..])
  }

  /** The end checks of `fromFrames`: input must have reached the extra
      data, and the signature must match the one computed over the JSON
      frames received. */
  function Finish(p: Protocol, r: Result<Decoder, DecodeError>): Result<Envelope, DecodeError> {
    if r.Err? then Err(r.error)
    else if r.value.handler != ExtraData then Err(NotEnoughFrames(r.value.handler))
    else if r.value.env.signature != Signature(p, r.value.jsonFrames) then Err(InvalidSignature)
    else Ok(r.value.env)
  }

  /** `fromFrames` as a function of the frames. */
  function Decode(p: Protocol, frames: seq<Frame>): Result<Envelope, DecodeError> {
    Finish(p, Run(p.json, Ok(Initial), frames))
  }

  /** `fromFrames`: a new message filled in place, frame by frame. */
  method FromFrames(p: Protocol, frames: seq<Frame>) returns (r: Result<Message, DecodeError>)
    ensures r.Ok? <==> Decode(p, frames).Ok?
    ensures r.Ok? ==> fresh(r.value) && r.value.Value() == Decode(p, frames).value
    ensures r.Err? ==> r.error == Decode(p, frames).error
  {
    var message := new Message();
    var jsonFrames: seq<Frame> := [];
    var handler := ZmqId;
    for i := 0 to |frames|
      invariant Run(p.json, Ok(Decoder(handler, jsonFrames, message.Value())), frames[i..])
                == Run(p.json, Ok(Initial), frames)
    {
      var frame := frames[i];
      assert frames[i..][1..] == frames[i + 1..];
      match handler
      case ZmqId =>
        if frame == Delimiter {
          handler := Next(handler);
        } else {
          message.WithIdentity(frame);
        }
      case HmacSignature =>
        message.WithSignature(frame);
        handler := Next(handler);
      case HeaderFrame =>
        jsonFrames := jsonFrames + [frame];
        var h := p.json.readHeader(frame);
        if h.None? {
          return Err(MalformedJson(HeaderFrame));
        }
        message.WithHeader(h.value);
        handler := Next(handler);
      case ParentHeaderFrame =>
        jsonFrames := jsonFrames + [frame];
        var h := p.json.readHeader(frame);
        if h.None? {
          return Err(MalformedJson(ParentHeaderFrame));
        }
        message.WithParentHeader(h.value);
        handler := Next(handler);
      case MetadataFrame =>
        jsonFrames := jsonFrames + [frame];
        var o := p.json.readObject(frame);
        if o.None? {
          return Err(MalformedJson(MetadataFrame));
        }
        message.WithMetadata(o.value);
        handler := Next(handler);
      case ContentFrame =>
        jsonFrames := jsonFrames + [frame];
        var o := p.json.readObject(frame);
        if o.None? {
          return Err(MalformedJson(ContentFrame));
        }
        message.WithContent(o.value);
        handler := Next(handler);
      case ExtraData =>
        message.WithExtraDatum(frame);
    }
    if handler != ExtraData {
      return Err(NotEnoughFrames(handler));
    }
    var expected := MaybeSignature(p, jsonFrames);
    if message.signature != expected {
      return Err(InvalidSignature);
    }
    return Ok(message);
  }
}
