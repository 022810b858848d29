# japyter wire codec and channels, in Dafny

This project models the core of japyter, a Java client for Jupyter kernels.
That core has two parts:

- **The wire codec.** It implements version 5.0 of the Jupyter messaging protocol, section "The Wire Protocol".
- **The sequential state machines of the channels.** These are the session, heartbeat, IOPub, stdin and synchronous channels.

The project also proves properties of the model.

The modules follow the Java classes:

| module | file | models |
|---|---|---|
| `Wire` | wire.dfy | bytes, frames, `Option`/`Result`/`Outcome` (null and exceptions), the JSON value model, the header, `StringUtils.isBlank` |
| `MessageTypes` | message_types.dfy | `RequestMessageType`, `ReplyMessageType`, `BroadcastType`, `CustomMessageType`, their lookup tables and fallbacks |
| `Json` | json.dfy | the JSON object mapper, as a record of functions; `Faithful` says reading back what was written gives the value |
| `Messages` | message.dfy | `Message`: a class with seven fields and the `with*` builders; `Envelope` is its value |
| `Signing` | signing.dfy | `getHmacAlgorithm`, `getKeyBytes`, lowercase hex encoding; the HMAC itself is a function parameter |
| `Codec` | protocol.dfy | `Protocol`: `isSigning`, `maybeSignature`, `toFrames`, the frame-handler machine and `fromFrames` |
| `CodecProperties` | codec_properties.dfy | what the codec promises: layout, refusal of short input and bad signatures, round trip |
| `Transport` | transport.dfy | the ZeroMQ socket, as queues of frames seen by the peer |
| `Sessions` | session.dfy | `Session` (`send`, `receive`/`poll`, `connect`, `close`) and the channel base classes (`AbstractChannel`, `AbstractRunningChannel`) |
| `Heartbeats` | heartbeat.dfy | `Heartbeat` and its pinger |
| `IoPubs` | iopub.dfy | `IoPub`: subscription, routing and the poller |
| `Stdins` | stdin.dfy | `Stdin`: handler, reply construction and the poller |
| `SyncChannels` | sync_channel.dfy | `AbstractSynchronousChannel`: its four `send` forms |

How the model represents its environment:

- **Socket.** The socket is what its peer sees:
  - `inbox`: the entries the next receives return, where an entry with no frame is a receive that timed out;
  - `budget`: how many more frames the peer accepts, so that a write fails once it is zero;
  - `outbox`: the frames written so far, each with its "more" flag.
- **Ids.** UUIDs are parameters.
- **Executors.** `execute` and `scheduleWithFixedDelay` record the task they are handed.
- **Close.** `close` records its phases as a trace of events.
- **Background pollers.** A poller's `while (isRunning())` loop runs for a given number of turns.
- **Channels.** `Channel` (in `Sessions`) holds what `AbstractChannel` and `AbstractRunningChannel` hold. Each concrete channel class holds one `Channel`.

Where the behaviour rests on a function, the imperative methods are proved against it:

- `ToFrames` against `Encode`, and `FromFrames` against `Decode`;
- `Session.Send` against `Flagged`/`Stamped`, and `Receive`/`Poll` against `Received`;
- the pollers against `Polled` and `Answers`.

The listed properties are proved about those functions.

One property fails as the code is written. The round trip holds only when no routing identity equals the delimiter `<IDS|MSG>`. When one does, wherever it stands, the decoder takes the first such identity for the delimiter and keeps only the identities before it (`CodecProperties.DelimiterIdentityLost`). The protocol itself excludes such identities, so it is not a defect of the code; the round-trip lemmas require it.

## Model

| member | source | states |
|---|---|---|
| MessageTypes.RequestValueTableBuilt | src/main/java/eu/openanalytics/japyter/client/Protocol.java:100-114 | the string table maps every request type's wire string to that type, and holds no other key |
| MessageTypes.RequestClassTableBuilt | src/main/java/eu/openanalytics/japyter/client/Protocol.java:100-114 | the class table maps each declared payload class to its type and holds no other class; a type without a class is absent |
| MessageTypes.FromValueOfValue | src/main/java/eu/openanalytics/japyter/client/Protocol.java:154-158 | `fromValue` of a type's own string gives that type |
| MessageTypes.FromValueFallback | src/main/java/eu/openanalytics/japyter/client/Protocol.java:154-158 | an unknown string, or null, gives OTHER (`*`) |
| MessageTypes.FromValue | src/main/java/eu/openanalytics/japyter/client/Protocol.java:154-158 | defined by its body; properties in `MessageTypes.FromValueOfValue` and `MessageTypes.FromValueFallback` |
| MessageTypes.FromRequestContentClassOfClass | src/main/java/eu/openanalytics/japyter/client/Protocol.java:148-152 | a declared payload class gives the type that declares it |
| MessageTypes.FromRequestContentClassFallback | src/main/java/eu/openanalytics/japyter/client/Protocol.java:80-114 | an unknown class gives OTHER; the result is never CONNECT_REQUEST or KERNEL_INFO_REQUEST, which have no class |
| MessageTypes.FromRequestContentClass | src/main/java/eu/openanalytics/japyter/client/Protocol.java:148-152 | defined by its body; properties in `MessageTypes.FromRequestContentClassOfClass` and `MessageTypes.FromRequestContentClassFallback` |
| MessageTypes.BroadcastTableBuilt | src/main/java/eu/openanalytics/japyter/client/Protocol.java:192-200 | the broadcast table maps exactly the broadcast strings to their types |
| MessageTypes.ClassFromValueOfValue | src/main/java/eu/openanalytics/japyter/client/Protocol.java:219-225 | a broadcast type's own string selects that type's payload class |
| MessageTypes.ClassFromValueFallback | src/main/java/eu/openanalytics/japyter/client/Protocol.java:219-225 | unknown strings, and null, select the generic Broadcast class |
| MessageTypes.ClassFromValue | src/main/java/eu/openanalytics/japyter/client/Protocol.java:219-225 | defined by its body; properties in `MessageTypes.ClassFromValueOfValue` and `MessageTypes.ClassFromValueFallback` |
| MessageTypes.ReplyTypeMatchesRequestType | src/main/java/eu/openanalytics/japyter/client/Protocol.java:80-92 | a request type is answered by the fallback reply type exactly when it is the fallback request type |
| MessageTypes.ReplyTypeInjective | src/main/java/eu/openanalytics/japyter/client/Protocol.java:80-92 | distinct request types have distinct reply types |
| Json.FaithfulWritesInjective | src/main/java/eu/openanalytics/japyter/client/Protocol.java:327-332 | a mapper that reads back what it writes never writes two different headers, or two different maps, as the same bytes |
| Messages.ReplyLinksRequest | src/main/java/eu/openanalytics/japyter/model/Message.java:63-75 | a reply's parent id is the request's id and its own id is new; nothing of the request but its header is carried over |
| Messages.RandomId | src/main/java/eu/openanalytics/japyter/model/Message.java:72-75 | defined by its body; used by `Messages.Message.OfType` and `Messages.ReplyTo` |
| Messages.ReplyTo | src/main/java/eu/openanalytics/japyter/model/Message.java:63-70 | defined by its body; properties in `Messages.ReplyLinksRequest` and `Messages.Message.CreateReply` |
| Messages.Message.constructor | src/main/java/eu/openanalytics/japyter/model/Message.java:39-48 | a new message has no identities, an empty signature, two empty headers, two empty maps and no extra data |
| Messages.Message.OfType | src/main/java/eu/openanalytics/japyter/model/Message.java:53-58 | as the empty message, but the header carries the type's string and the id `japyter.<uuid>` |
| Messages.Message.CreateReply | src/main/java/eu/openanalytics/japyter/model/Message.java:63-70 | a fresh message whose parent header is this message's header and whose header carries the reply type and a new id; this message is unchanged |
| Messages.Message.WithIdentity | src/main/java/eu/openanalytics/japyter/model/Message.java:77-81 | appends the identity at the end; every other field is unchanged |
| Messages.Message.WithSignature | src/main/java/eu/openanalytics/japyter/model/Message.java:83-87 | replaces the signature only |
| Messages.Message.WithHeader | src/main/java/eu/openanalytics/japyter/model/Message.java:89-93 | replaces the header only |
| Messages.Message.WithParentHeader | src/main/java/eu/openanalytics/japyter/model/Message.java:95-99 | replaces the parent header only |
| Messages.Message.WithMetadata | src/main/java/eu/openanalytics/japyter/model/Message.java:101-105 | replaces the metadata only |
| Messages.Message.WithContent | src/main/java/eu/openanalytics/japyter/model/Message.java:107-111 | replaces the content only |
| Messages.Message.WithRequestContent | src/main/java/eu/openanalytics/japyter/model/Message.java:113-120 | replaces the content with the request converted to a map |
| Messages.Message.WithReplyContent | src/main/java/eu/openanalytics/japyter/model/Message.java:122-129 | replaces the content with the reply converted to a map |
| Messages.Message.WithExtraDatum | src/main/java/eu/openanalytics/japyter/model/Message.java:131-135 | appends the datum at the end; every other field is unchanged |
| Messages.Message.Equals | src/main/java/eu/openanalytics/japyter/model/Message.java:178-182 | two messages are equal exactly when all seven fields are |
| Signing.HexRoundTrip | src/main/java/eu/openanalytics/japyter/client/Protocol.java:356 | hex encoding doubles the length, uses lowercase digits only, and can be read back |
| Signing.Hex | src/main/java/eu/openanalytics/japyter/client/Protocol.java:356 | defined by its body; properties in `Signing.HexRoundTrip` |
| Signing.GetHmacAlgorithm | src/main/java/eu/openanalytics/japyter/client/Protocol.java:288-306 | the loop over the algorithms in declaration order returns what the scheme resolution defines |
| Signing.ResolveScheme | src/main/java/eu/openanalytics/japyter/client/Protocol.java:288-306 | defined by its body; properties in `Signing.SchemeResolution` and `Signing.GetHmacAlgorithm` |
| Signing.KeyBytes | src/main/java/eu/openanalytics/japyter/client/Protocol.java:283-286 | defined by its body: a blank key is no key, any other key is encoded with the platform charset; used by `Codec.NewProtocolSigning` |
| Signing.SchemeResolution | src/main/java/eu/openanalytics/japyter/client/Protocol.java:288-306 | a blank scheme selects no algorithm; otherwise the scheme without dashes selects exactly the algorithm whose name it matches ignoring case, and is refused when it matches none |
| Signing.EqualsIgnoreCase | src/main/java/eu/openanalytics/japyter/client/Protocol.java:297-300 | defined by its body; properties in `Signing.SchemeResolution` |
| Signing.FindAlgorithm | src/main/java/eu/openanalytics/japyter/client/Protocol.java:295-303 | defined by its body; properties in `Signing.SchemeResolution` and `Signing.GetHmacAlgorithm` |
| Signing.DashedScheme | src/main/java/eu/openanalytics/japyter/client/Protocol.java:295-303 | `<front>-<back>` resolves as `<front><back>` does |
| Signing.Sha256SchemeAccepted | src/test/java/eu/openanalytics/japyter/client/ProtocolTestCase.java:43-47 | `hmac-sha256` selects HMAC-SHA256 |
| Signing.Sha1024SchemeRefused | src/test/java/eu/openanalytics/japyter/client/ProtocolTestCase.java:49-53 | `hmac-sha1024` is refused as an unsupported scheme |
| Codec.NewProtocolSigning | src/main/java/eu/openanalytics/japyter/client/Protocol.java:278-311 | a protocol built from a key and a scheme signs exactly when both are non-blank, and is refused only for a scheme that names no algorithm |
| Codec.EncodeLayout | src/main/java/eu/openanalytics/japyter/client/Protocol.java:323-341 | the frames are the identities, the delimiter, the signature, the four JSON frames and the extra data: six more frames than identities plus extra data |
| Codec.SignatureShape | src/main/java/eu/openanalytics/japyter/client/Protocol.java:343-357 | without signing the signature is empty; with signing it is the non-empty lowercase hex of the HMAC over the JSON frames in order |
| Codec.MaybeSignature | src/main/java/eu/openanalytics/japyter/client/Protocol.java:343-357 | feeding the frames to the MAC one at a time computes the signature of their concatenation |
| Codec.ToFrames | src/main/java/eu/openanalytics/japyter/client/Protocol.java:323-341 | stamps version 5.0 into the message's header and returns the encoding of the message |
| Codec.FromFrames | src/main/java/eu/openanalytics/japyter/client/Protocol.java:445-477 | the frame-by-frame loop over the handlers returns exactly what `Decode` defines, error for error |
| Codec.IsSigning | src/main/java/eu/openanalytics/japyter/client/Protocol.java:308-311 | defined by its body; properties in `Codec.NewProtocolSigning` and `Codec.SignatureShape` |
| Codec.NewProtocol | src/main/java/eu/openanalytics/japyter/client/Protocol.java:278-281 | defined by its body; properties in `Codec.NewProtocolSigning` |
| Codec.Stamp | src/main/java/eu/openanalytics/japyter/client/Protocol.java:325 | defined by its body; properties in `Codec.ToFrames` and `CodecProperties.RoundTrip` |
| Codec.Signature | src/main/java/eu/openanalytics/japyter/client/Protocol.java:343-357 | defined by its body; properties in `Codec.SignatureShape` and `Codec.MaybeSignature` |
| Codec.Encode | src/main/java/eu/openanalytics/japyter/client/Protocol.java:323-341 | defined by its body; properties in `Codec.EncodeLayout`, `Codec.ToFrames` and `CodecProperties.RoundTrip` |
| Codec.Next | src/main/java/eu/openanalytics/japyter/client/Protocol.java:360-443 | defined by its body; properties in `CodecProperties.DecodeIsLayout` |
| Codec.Handle | src/main/java/eu/openanalytics/japyter/client/Protocol.java:360-443 | defined by its body; properties in `CodecProperties.DecodeIsLayout` |
| Codec.Run | src/main/java/eu/openanalytics/japyter/client/Protocol.java:453-464 | defined by its body; properties in `CodecProperties.DecodeIsLayout` and `Codec.FromFrames` |
| Codec.Finish | src/main/java/eu/openanalytics/japyter/client/Protocol.java:466-476 | defined by its body; properties in `CodecProperties.ShortInputRefused` and `CodecProperties.DecodedIsAuthentic` |
| Codec.Decode | src/main/java/eu/openanalytics/japyter/client/Protocol.java:445-477 | defined by its body; properties in `CodecProperties.DecodedLayout`, `CodecProperties.RoundTrip` and `Codec.FromFrames` |
| CodecProperties.DecodeIsLayout | src/main/java/eu/openanalytics/japyter/client/Protocol.java:360-477 | the seven-state machine reads frames by their layout: identities up to the first delimiter, then the signature, the four JSON parts and the extra data |
| CodecProperties.LayoutOk | src/main/java/eu/openanalytics/japyter/client/Protocol.java:360-443 | a successful layout reading takes each field from its own frame |
| CodecProperties.DecodedLayout | src/main/java/eu/openanalytics/japyter/client/Protocol.java:445-477 | a decoded message has the frames before the first delimiter as identities, the next frame as its signature, the next four as its JSON parts, and all later frames, delimiters included, as extra data |
| CodecProperties.ShortInputRefused | src/main/java/eu/openanalytics/japyter/client/Protocol.java:466-469 | input with no delimiter, or fewer than five frames after it, is refused; exactly five frames after it leave no extra data |
| CodecProperties.UnsignedRefusesSignature | src/main/java/eu/openanalytics/japyter/client/Protocol.java:471-474 | a codec that does not sign refuses any non-empty signature frame |
| CodecProperties.DecodedIsAuthentic | src/main/java/eu/openanalytics/japyter/client/Protocol.java:471-474 | a decoded message's signature is the one computed over the JSON frames it arrived with |
| CodecProperties.RoundTrip | src/test/java/eu/openanalytics/japyter/client/ProtocolTestCase.java:55-158 | decoding the frames of a message gives the message as stamped, with the computed signature; without signing an unsigned message comes back exactly |
| CodecProperties.ReEncodeIdentical | src/test/java/eu/openanalytics/japyter/client/ProtocolTestCase.java:55-158 | re-encoding the decoded message gives frames identical to the ones first encoded |
| CodecProperties.DelimiterIdentityLost | src/main/java/eu/openanalytics/japyter/client/Protocol.java:360-443 | when identity k is the first one equal to the delimiter, a decoded message keeps only the identities before k, so the round trip fails |
| Sessions.CheckArguments | src/main/java/eu/openanalytics/japyter/client/Session.java:73-78 | the arguments pass exactly when the receive timeout is at least -1 and there is at least one I/O thread; the timeout is checked first |
| Sessions.Session.Open | src/main/java/eu/openanalytics/japyter/client/Session.java:63-86 | refused exactly when the checks fail; otherwise a fresh session with no channels, no tasks and an open context |
| Sessions.Session.Init | src/main/java/eu/openanalytics/japyter/client/Session.java:63-86 | the state after the argument checks: the id, user name, protocol and timeout as given, no channels, no tasks handed out, an empty close log and an open context |
| Sessions.Flagged | src/main/java/eu/openanalytics/japyter/client/Session.java:209-235 | the frames in order, each flagged "more" except the last |
| Sessions.Stamped | src/main/java/eu/openanalytics/japyter/client/Session.java:199-204 | the header's session is always the session id; its user name is set only when the session's is not blank; nothing else changes |
| Sessions.Sending | src/main/java/eu/openanalytics/japyter/client/Session.java:197-236 | the frames the peer accepts go out in order; all of them exactly when the peer accepts enough; otherwise the first refused frame is named |
| Sessions.Session.Send | src/main/java/eu/openanalytics/japyter/client/Session.java:197-236 | the message is stamped; the frames go out with their "more" flags until the first refused one, which is named, and no later frame is attempted |
| Sessions.Session.WriteFrames | src/main/java/eu/openanalytics/japyter/client/Session.java:209-235 | each frame is written in order, flagged "more" unless it is the last; the first refused frame ends the loop and is named in the error |
| Sessions.Gather | src/main/java/eu/openanalytics/japyter/client/Session.java:265-271 | the receive loop consumes no more entries than there are and yields at most one frame per entry |
| Sessions.GatherRelayed | src/main/java/eu/openanalytics/japyter/client/Session.java:265-271 | the loop reads back exactly the frames of a relayed multipart message, and nothing after it |
| Sessions.Received | src/main/java/eu/openanalytics/japyter/client/Session.java:248-274 | defined by its body; properties in `Sessions.SentIsReceived` and `Sessions.Session.ReceiveFrames` |
| Sessions.SentIsReceived | src/main/java/eu/openanalytics/japyter/client/Session.java:197-274 | what one session sends is what another session with the same protocol receives, as stamped and signed |
| Sessions.Session.ReceiveRest | src/main/java/eu/openanalytics/japyter/client/Session.java:265-271 | the do-while loop collects frames while more are flagged and no receive times out |
| Sessions.Session.ReceiveFrames | src/main/java/eu/openanalytics/japyter/client/Session.java:248-274 | a missing first frame is an error or nothing, as asked; otherwise the gathered frames are decoded |
| Sessions.Session.Receive | src/main/java/eu/openanalytics/japyter/client/Session.java:238-241 | a blocking receive: a missing first frame is an error |
| Sessions.Session.Poll | src/main/java/eu/openanalytics/japyter/client/Session.java:243-246 | a poll: a missing first frame gives nothing |
| Sessions.Session.Connect | src/main/java/eu/openanalytics/japyter/client/Session.java:103-114 | a blank address is refused; otherwise a fresh socket with the session's receive timeout is connected, and the channel joins the session's channels |
| Sessions.Session.Disconnect | src/main/java/eu/openanalytics/japyter/client/Session.java:116-119 | the channel's socket is destroyed, unless destroying it fails |
| Sessions.Session.Execute | src/main/java/eu/openanalytics/japyter/client/Session.java:121-124 | the task is handed to the thread pool |
| Sessions.Session.ScheduleWithFixedDelay | src/main/java/eu/openanalytics/japyter/client/Session.java:126-129 | the task is handed to the scheduler with its delay |
| Sessions.RunningOnes | src/main/java/eu/openanalytics/japyter/client/Session.java:155-171 | the channels with a running flag, taken from the given ones |
| Sessions.Session.StopRunningChannels | src/main/java/eu/openanalytics/japyter/client/Session.java:155-171 | every channel with a running flag is stopped, in channel order |
| Sessions.Session.CloseChannels | src/main/java/eu/openanalytics/japyter/client/Session.java:177-190 | every channel is closed in the same order; one that fails to close does not keep the others from closing |
| Sessions.Session.Close | src/main/java/eu/openanalytics/japyter/client/Session.java:152-195 | the phases run in order: stop the running channels, shut down the executor and then the scheduler with 3000 + receive timeout, close every channel, destroy the context |
| Sessions.Channel.constructor | src/main/java/eu/openanalytics/japyter/client/AbstractRunningChannel.java:18-23 | the running flag starts as given |
| Sessions.Channel.Start | src/main/java/eu/openanalytics/japyter/client/AbstractRunningChannel.java:46-49 | running afterwards, whatever it was; nothing else changes |
| Sessions.Channel.Stop | src/main/java/eu/openanalytics/japyter/client/AbstractRunningChannel.java:41-44 | not running afterwards, whatever it was; nothing else changes |
| Sessions.Channel.Close | src/main/java/eu/openanalytics/japyter/client/AbstractRunningChannel.java:25-34 | not running afterwards, and the socket is always destroyed, which may fail |
| Heartbeats.Verdict | src/main/java/eu/openanalytics/japyter/client/Heartbeat.java:87-102 | no echo: DOWN and a failure; an exact echo: UP and no failure; any other echo: UNKNOWN and a failure |
| Heartbeats.NextEcho | src/main/java/eu/openanalytics/japyter/client/Heartbeat.java:83 | defined by its body: the frame of the next socket entry, none on a timeout; used by `Heartbeats.Heartbeat.Ping` |
| Heartbeats.EveryStateReachable | src/main/java/eu/openanalytics/japyter/client/Heartbeat.java:87-102 | each of the three states follows from some echo, whatever the state before |
| Heartbeats.Heartbeat.constructor | src/main/java/eu/openanalytics/japyter/client/Heartbeat.java:51-66 | the state starts UNKNOWN; the pinger is scheduled with the period exactly when the channel runs |
| Heartbeats.Heartbeat.Open | src/main/java/eu/openanalytics/japyter/client/Heartbeat.java:53-66 | the channel runs, and the pinger is scheduled, exactly when the period is positive |
| Heartbeats.Heartbeat.Ping | src/main/java/eu/openanalytics/japyter/client/Heartbeat.java:79-103 | the payload is sent and one echo received; the new state and the outcome are the verdict on that echo alone |
| Heartbeats.Heartbeat.PingerRun | src/main/java/eu/openanalytics/japyter/client/Heartbeat.java:22-44 | does nothing when not running; otherwise one ping, whose failure is swallowed |
| IoPubs.Route | src/main/java/eu/openanalytics/japyter/client/IoPub.java:121-141 | defined by its body; properties in `IoPubs.QuietRoutingReachesAll` and `IoPubs.FaultEndsRouting` |
| IoPubs.Routed | src/main/java/eu/openanalytics/japyter/client/IoPub.java:115-118 | at most one delivery per listener |
| IoPubs.FaultEndsRouting | src/main/java/eu/openanalytics/japyter/client/IoPub.java:115-141 | a fault at one listener ends the routing of that message: later listeners get nothing |
| IoPubs.RoutedInOrder | src/main/java/eu/openanalytics/japyter/client/IoPub.java:115-118 | deliveries go to listeners in registration order |
| IoPubs.QuietRoutingReachesAll | src/main/java/eu/openanalytics/japyter/client/IoPub.java:115-141 | without faults every listener gets the message: a message listener gets it unchanged, a broadcast listener gets the content converted to `classFromValue(msg_type)` |
| IoPubs.Polled | src/main/java/eu/openanalytics/japyter/client/IoPub.java:26-48 | the poller's turns never consume more entries than there are |
| IoPubs.PollOnce | src/main/java/eu/openanalytics/japyter/client/IoPub.java:106-119 | one turn never consumes more entries than there are |
| IoPubs.IoPub.constructor | src/main/java/eu/openanalytics/japyter/client/IoPub.java:67-74 | no listeners and nothing delivered |
| IoPubs.IoPub.Open | src/main/java/eu/openanalytics/japyter/client/IoPub.java:67-74 | not running, no listeners, and the socket subscribed to the empty prefix |
| IoPubs.IoPub.Subscribe | src/main/java/eu/openanalytics/japyter/client/IoPub.java:82-104 | the listener goes at the end; running afterwards; exactly one poller launched when it was not running, none when it was |
| IoPubs.IoPub.RouteToListeners | src/main/java/eu/openanalytics/japyter/client/IoPub.java:115-118 | the for loop over the listeners delivers what `Routed` defines and ends with its outcome |
| IoPubs.IoPub.PollAndRoute | src/main/java/eu/openanalytics/japyter/client/IoPub.java:106-119 | a failed poll or an empty poll invokes no listener; a polled message is routed |
| IoPubs.IoPub.RunPoller | src/main/java/eu/openanalytics/japyter/client/IoPub.java:26-48 | nothing when not running; otherwise the turns' deliveries in order, each fault swallowed |
| Stdins.AbstractHandler | src/main/java/eu/openanalytics/japyter/client/Stdin.java:62-69 | defined by its body; property in `Stdins.AbstractHandlerRefuses` |
| Stdins.BuildContent | src/main/java/eu/openanalytics/japyter/client/Stdin.java:115-127 | defined by its body; properties in `Stdins.InputRequestAnswered` and `Stdins.OtherRequestsGoToHandler` |
| Stdins.ReplyFor | src/main/java/eu/openanalytics/japyter/client/Stdin.java:100-113 | a reply has the request's header as parent header, the reply type of `fromValue(msg_type)` and a new id, and nothing else but its content; a type without a payload class gets no reply |
| Stdins.InputRequestAnswered | src/main/java/eu/openanalytics/japyter/client/Stdin.java:115-122 | an input_request is answered exactly when the handler's `prompt` returns, with an input_reply whose value is `prompt(prompt, password == true)`, a null password counting as false; when `prompt` throws there is no reply and the failure is named |
| Stdins.OtherRequestsGoToHandler | src/main/java/eu/openanalytics/japyter/client/Stdin.java:123-126 | any other request is answered with what `other` returns, and not at all when it throws |
| Stdins.AbstractHandlerRefuses | src/main/java/eu/openanalytics/japyter/client/Stdin.java:62-69 | the abstract handler refuses every request but input requests as unsupported |
| Stdins.ReplyTypes | src/main/java/eu/openanalytics/japyter/client/Stdin.java:102-110 | connect and kernel-info requests get no reply; an unknown type is answered as `*` |
| Stdins.Transmitted | src/main/java/eu/openanalytics/japyter/client/Stdin.java:111-112 | the reply goes out whole exactly when the peer accepts all its frames, and is then appended to what was sent; otherwise the first refused frame is named |
| Stdins.Answered | src/main/java/eu/openanalytics/japyter/client/Stdin.java:88-98 | a turn consumes one multipart message, only ever adds frames, and an empty poll sends nothing and passes |
| Stdins.Answers | src/main/java/eu/openanalytics/japyter/client/Stdin.java:28-50 | the turns never consume more entries than there are |
| Stdins.Stdin.constructor | src/main/java/eu/openanalytics/japyter/client/Stdin.java:73-80 | the poller is launched at once |
| Stdins.Stdin.Open | src/main/java/eu/openanalytics/japyter/client/Stdin.java:73-80 | the channel is running from construction and its poller is handed to the executor |
| Stdins.Stdin.Reply | src/main/java/eu/openanalytics/japyter/client/Stdin.java:100-113 | no reply goes out when none can be built; otherwise the reply is sent through the session |
| Stdins.Stdin.PollAndReply | src/main/java/eu/openanalytics/japyter/client/Stdin.java:88-98 | what one turn defines: an empty poll sends nothing, a polled request is replied to |
| Stdins.Stdin.RunPoller | src/main/java/eu/openanalytics/japyter/client/Stdin.java:28-50 | nothing when not running; otherwise the turns in order, each fault swallowed |
| SyncChannels.Exchanged | src/main/java/eu/openanalytics/japyter/client/AbstractSynchronousChannel.java:27-34 | one send, then one blocking receive only if every frame went out; a reply is what the receive decodes |
| SyncChannels.Requested | src/main/java/eu/openanalytics/japyter/client/AbstractSynchronousChannel.java:37-51 | defined by its body; properties in `SyncChannels.TypedReplyArrives`, and `SendTyped`, `SendType` and `SendContent` are proved against it |
| SyncChannels.RequestOf | src/main/java/eu/openanalytics/japyter/client/AbstractSynchronousChannel.java:37-43 | the request has the type's string and a new id; its content is set only when given, and is empty otherwise |
| SyncChannels.ReplyArrives | src/main/java/eu/openanalytics/japyter/client/AbstractSynchronousChannel.java:27-34 | a request that goes out whole, answered by a relayed reply, returns that reply as stamped and signed and leaves what follows unread |
| SyncChannels.TypedReplyArrives | src/main/java/eu/openanalytics/japyter/client/AbstractSynchronousChannel.java:45-50 | the value returned is the reply's content read as the request type's reply class |
| SyncChannels.ContentTypeResolved | src/main/java/eu/openanalytics/japyter/client/AbstractSynchronousChannel.java:58-61 | an input request goes out as input_request, an unlisted class as `*`, and never as connect or kernel-info |
| SyncChannels.SynchronousChannel.constructor | src/main/java/eu/openanalytics/japyter/client/AbstractSynchronousChannel.java:22-25 | the channel kept |
| SyncChannels.SynchronousChannel.Open | src/main/java/eu/openanalytics/japyter/client/AbstractSynchronousChannel.java:22-25 | a connected channel without a running flag |
| SyncChannels.SynchronousChannel.NewRequest | src/main/java/eu/openanalytics/japyter/client/AbstractSynchronousChannel.java:39-43 | a fresh message holding the request |
| SyncChannels.SynchronousChannel.Send | src/main/java/eu/openanalytics/japyter/client/AbstractSynchronousChannel.java:27-34 | the message is stamped; one session send, then one blocking receive on the same socket when the send went out whole |
| SyncChannels.SynchronousChannel.SendTyped | src/main/java/eu/openanalytics/japyter/client/AbstractSynchronousChannel.java:37-51 | the request built, exchanged, and its reply read as the type's reply class |
| SyncChannels.SynchronousChannel.SendType | src/main/java/eu/openanalytics/japyter/client/AbstractSynchronousChannel.java:53-56 | the typed send with no content |
| SyncChannels.SynchronousChannel.SendContent | src/main/java/eu/openanalytics/japyter/client/AbstractSynchronousChannel.java:58-61 | the typed send with the type found by `fromRequestContentClass` of the content's class |

## Left out

- **Null arguments.** The model has no nulls. Each `notNull`/`Validate` check on an argument that is never null in the model is left out. This includes the checks of the `with*` setters, the protocol, the handler and `Message(type)`. A null that the code handles as a value is an `Option`: header fields, user name, key, scheme, prompt, password and the echo.
- **Builder chaining.** The `with*` methods return `this` in Java. In the model they return nothing.
- **JSON.** Jackson is a record of functions. A read, or a conversion from a map to a payload class, that throws is `None`. Only the properties that are stated (`Faithful`) are assumed of it. The JSON bytes themselves are not modelled.
- **JSON writes.** `writeHeader` and `writeObject` never fail. In the code, `writeValueAsBytes` in `toFrames` can throw, and `toFrames` and `send` pass that on. `Codec.ToFrames` and `Sessions.Session.Send` do not model a serialization failure.
- **Payload conversions.** `requestToObject` and `replyToObject` never fail. In the code, `withContent(Request)` and `withContent(Reply)` call `convertValue(…, Map.class)`, which can throw `IllegalArgumentException`. When it throws, `Stdin.reply` sends nothing and the typed `send` throws before sending. `Messages.Message.WithRequestContent`, `Messages.Message.WithReplyContent`, `Stdins.ReplyFor`, `Stdins.Stdin.Reply`, `SyncChannels.RequestOf` and `SyncChannels.SynchronousChannel.NewRequest` always produce content, so they do not model that failure.
- **JSON numbers.** `JNumber` holds an integer. Metadata or content with fractional numbers cannot be represented, because floating point is not modelled.
- **HMAC and the key charset.** The HMAC is a function parameter. `defaultCharset()` is a function parameter too (`KeyBytes`).
- **Concurrency.** The code's concurrency is not modelled. This covers threads, `synchronized`, `AtomicBoolean`/`AtomicReference` and `CopyOnWriteArrayList`. `shutdownExecutor` is one event each for the executor and the scheduler, carrying the timeout. Its `awaitTermination`/`shutdownNow` and interrupt handling are left out, because they depend on threads.
- **IoPubs.IoPub.RunPoller:** the `while (isRunning())` loop runs for a given number of turns. Nothing else can stop the channel in a sequential model, so an unbounded run is not modelled.
- **Stdins.Stdin.RunPoller:** the same bound applies, with one reply id per turn.
- **Receive timeouts.** A receive timeout of -1 (block forever) and a positive timeout are treated alike. When no entry is ready, the receive times out. Linger is left out.
- **Channel order.** The channels are a `HashSet`, whose iteration order is unspecified. The model takes that order to be connection order: `Connect` appends. The contracts of `Close`, `StopRunningChannels` and `CloseChannels` hold for whatever sequence `channels` is. `close` walks the same order twice.
- **Heartbeat payloads.** The payload is a random UUID string in the code. In the model it is a byte frame passed in, and `recvStr`/`equals` compare frame bytes.
- **Header fields.** The generated `Header` class is not part of this model. Its five fields used here are a datatype. The `date` field and any other generated field are left out.
- **Header aliasing.** `createReply` shares the request's header object as the reply's parent header. Messages are modelled as values, so a later change to one header is not seen in the other.
- **SHA-224.** The HMAC algorithm list has the five constants used here. If the library version in use also lists HMAC-SHA224, that constant is left out.
- **Equality.** `equals` uses reflection. On `byte[]` lists that compares element references, but the model compares frames by value.
- **Japyter builder and Shell/Control.** The `Japyter` builder, the connection-file loading, and the one-line `Shell`/`Control` wrappers over `send` are not part of this model. `Control` behaves like `Shell`.
- **Logging** is left out. So are `getZmqSocketType` and ZeroMQ context creation.
- **Listener faults are not isolated.** A fault at one IoPub listener ends delivery of that message to the later listeners (`IoPubs.FaultEndsRouting`).
- **Heartbeat transitions are unrestricted.** A heartbeat can move from any state to any state, because `Verdict` ignores the state before.
