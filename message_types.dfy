/** The message-type dispatch tables of the codec: the request, reply,
    broadcast and custom message types with their wire strings and payload
    shapes, the lookup tables built from them once, and the fallback entries
    that keep unknown types decodable. */
module MessageTypes {
  import opened Wire

  /** Request types, in declaration order; `OtherRequest` is the `*` fallback. */
  datatype RequestMessageType =
    | ExecuteRequest | InspectRequest | CompleteRequest | HistoryRequest
    | IsCompleteRequest | ConnectRequest | KernelInfoRequest | ShutdownRequest
    | InputRequest | OtherRequest

  /** Reply types; `OtherReply` is the `*` fallback. */
  datatype ReplyMessageType =
    | ExecuteReply | InspectReply | CompleteReply | HistoryReply
    | IsCompleteReply | ConnectReply | KernelInfoReply | ShutdownReply
    | InputReply | OtherReply

  /** Broadcast types published on the IOPub channel. */
  datatype BroadcastType =
    | Stream | DisplayData | DataPub | ExecuteInput | ExecuteResult
    | Error | Status | ClearOutput

  /** Custom (comm) message types. */
  datatype CustomMessageType = CommOpen | CommMsg | CommClose

  /** Request payload classes: the generated ones, the generic `Request`
      class, and any other subclass of `Request` (named by its class name). */
  datatype RequestClass =
    | ExecuteRequestClass | InspectRequestClass | CompleteRequestClass
    | HistoryRequestClass | IsCompleteRequestClass | ShutdownRequestClass
    | InputRequestClass | GenericRequestClass
    | UnlistedRequestClass(name: string)

  /** Reply payload classes and the generic `Reply` class. */
  datatype ReplyClass =
    | ExecuteReplyClass | InspectReplyClass | CompleteReplyClass
    | HistoryReplyClass | IsCompleteReplyClass | ConnectReplyClass
    | KernelInfoReplyClass | ShutdownReplyClass | InputReplyClass
    | GenericReplyClass

  /** Broadcast payload classes and the generic `Broadcast` class. */
  datatype BroadcastClass =
    | StreamClass | DisplayDataClass | DataPubClass | ExecuteInputClass
    | ExecuteResultClass | ErrorClass | StatusClass | ClearOutputClass
    | GenericBroadcastClass

  /** A request payload after conversion to its class: an input request with
      its two fields, or any other request carried as its JSON fields. */
  datatype Request =
    | InputRequestPayload(prompt: Option<string>, password: Option<bool>)
    | RequestPayload(cls: RequestClass, fields: JsonObject)

  /** A reply payload: an input reply with its value, or any other reply. */
  datatype Reply =
    | InputReplyPayload(value: Option<string>)
    | ReplyPayload(cls: ReplyClass, fields: JsonObject)

  /** A broadcast payload converted to its class. */
  datatype Broadcast = Broadcast(cls: BroadcastClass, fields: JsonObject)

  /** The runtime class of a request payload (what `getClass()` returns). */
  function ClassOf(r: Request): RequestClass {
    match r
    case InputRequestPayload(_, _) => InputRequestClass
    case RequestPayload(c, _) => c
  }

  // ---- The enumerations' constant data (declaration order) ----

  const AllRequestTypes: seq<RequestMessageType> :=
    [ExecuteRequest, InspectRequest, CompleteRequest, HistoryRequest,
     IsCompleteRequest, ConnectRequest, KernelInfoRequest, ShutdownRequest,
     InputRequest, OtherRequest]

  const AllBroadcastTypes: seq<BroadcastType> :=
    [Stream, DisplayData, DataPub, ExecuteInput, ExecuteResult, Error, Status, ClearOutput]

  /** The wire string of a request type (its `toString`). */
  function RequestValue(t: RequestMessageType): string {
    match t
    case ExecuteRequest => "execute_request"
    case InspectRequest => "inspect_request"
    case CompleteRequest => "complete_request"
    case HistoryRequest => "history_request"
    case IsCompleteRequest => "is_complete_request"
    case ConnectRequest => "connect_request"
    case KernelInfoRequest => "kernel_info_request"
    case ShutdownRequest => "shutdown_request"
    case InputRequest => "input_request"
    case OtherRequest => "*"
  }

  /** The request payload class of a type; connect and kernel-info requests
      carry no payload class (null in the source). */
  function RequestContentClass(t: RequestMessageType): Option<RequestClass> {
    match t
    case ExecuteRequest => Some(ExecuteRequestClass)
    case InspectRequest => Some(InspectRequestClass)
    case CompleteRequest => Some(CompleteRequestClass)
    case HistoryRequest => Some(HistoryRequestClass)
    case IsCompleteRequest => Some(IsCompleteRequestClass)
    case ConnectRequest => None
    case KernelInfoRequest => None
    case ShutdownRequest => Some(ShutdownRequestClass)
    case InputRequest => Some(InputRequestClass)
    case OtherRequest => Some(GenericRequestClass)
  }

  /** The reply payload class a request type expects. */
  function ReplyContentClass(t: RequestMessageType): ReplyClass {
    match t
    case ExecuteRequest => ExecuteReplyClass
    case InspectRequest => InspectReplyClass
    case CompleteRequest => CompleteReplyClass
    case HistoryRequest => HistoryReplyClass
    case IsCompleteRequest => IsCompleteReplyClass
    case ConnectRequest => ConnectReplyClass
    case KernelInfoRequest => KernelInfoReplyClass
    case ShutdownRequest => ShutdownReplyClass
    case InputRequest => InputReplyClass
    case OtherRequest => GenericReplyClass
  }

  /** The reply type a request type is answered with. */
  function ReplyMessageTypeOf(t: RequestMessageType): ReplyMessageType {
    match t
    case ExecuteRequest => ExecuteReply
    case InspectRequest => InspectReply
    case CompleteRequest => CompleteReply
    case HistoryRequest => HistoryReply
    case IsCompleteRequest => IsCompleteReply
    case ConnectRequest => ConnectReply
    case KernelInfoRequest => KernelInfoReply
    case ShutdownRequest => ShutdownReply
    case InputRequest => InputReply
    case OtherRequest => OtherReply
  }

  /** The wire string of a reply type. */
  function ReplyValue(t: ReplyMessageType): string {
    match t
    case ExecuteReply => "execute_reply"
    case InspectReply => "inspect_reply"
    case CompleteReply => "complete_reply"
    case HistoryReply => "history_reply"
    case IsCompleteReply => "is_complete_reply"
    case ConnectReply => "connect_reply"
    case KernelInfoReply => "kernel_info_reply"
    case ShutdownReply => "shutdown_reply"
    case InputReply => "input_reply"
    case OtherReply => "*"
  }

  /** The wire string of a broadcast type. */
  function BroadcastValue(b: BroadcastType): string {
    match b
    case Stream => "stream"
    case DisplayData => "display_data"
    case DataPub => "data_pub"
    case ExecuteInput => "execute_input"
    case ExecuteResult => "execute_result"
    case Error => "error"
    case Status => "status"
    case ClearOutput => "clear_output"
  }

  /** The payload class of a broadcast type. */
  function BroadcastClassOf(b: BroadcastType): BroadcastClass {
    match b
    case Stream => StreamClass
    case DisplayData => DisplayDataClass
    case DataPub => DataPubClass
    case ExecuteInput => ExecuteInputClass
    case ExecuteResult => ExecuteResultClass
    case Error => ErrorClass
    case Status => StatusClass
    case ClearOutput => ClearOutputClass
  }

  /** The wire string of a custom message type. */
  function CustomValue(t: CustomMessageType): string {
    match t
    case CommOpen => "comm_open"
    case CommMsg => "comm_msg"
    case CommClose => "comm_close"
  }

  // ---- The lookup tables, built once from the enumerations ----

  /** The static initializer's loop: visit the constants in order and put each
      one under its key, skipping those whose key is null. */
  function Index<K, V>(vs: seq<V>, key: V -> Option<K>): map<K, V> {
    if vs == [] then map[]
    else
      var m := Index(vs[..|vs| - 1], key);
      var v := vs[|vs| - 1];
      if key(v).Some? then m[key(v).value := v] else m
  }

  /** The keys of `vs` are pairwise distinct where present. */
  ghost predicate DistinctKeys<K, V>(vs: seq<V>, key: V -> Option<K>) {
    forall i, j :: 0 <= i < j < |vs| && key(vs[i]).Some? ==> key(vs[i]) != key(vs[j])
  }

  /** With distinct keys, the table holds exactly the present keys, each
      mapped to the constant that carries it. */
  lemma {:induction false} IndexLookup<K, V>(vs: seq<V>, key: V -> Option<K>)
    requires DistinctKeys(vs, key)
    ensures forall i :: 0 <= i < |vs| && key(vs[i]).Some? ==>
              key(vs[i]).value in Index(vs, key) && Index(vs, key)[key(vs[i]).value] == vs[i]
    ensures forall k :: k in Index(vs, key) ==> exists i :: 0 <= i < |vs| && key(vs[i]) == Some(k)
  {
    if vs != [] {
      var front := vs[..|vs| - 1];
      assert DistinctKeys(front, key) by {
        forall i, j | 0 <= i < j < |front| && key(front[i]).Some?
          ensures key(front[i]) != key(front[j])
        {
          assert front[i] == vs[i] && front[j] == vs[j];
        }
      }
      IndexLookup(front, key);
      forall k | k in Index(vs, key)
        ensures exists i :: 0 <= i < |vs| && key(vs[i]) == Some(k)
      {
        if k in Index(front, key) {
          var i :| 0 <= i < |front| && key(front[i]) == Some(k);
          assert vs[i] == front[i];
        } else {
          assert key(vs[|vs| - 1]) == Some(k);
        }
      }
    }
  }

  function RequestKey(t: RequestMessageType): Option<string> { Some(RequestValue(t)) }

  function BroadcastKey(b: BroadcastType): Option<string> { Some(BroadcastValue(b)) }

  /** `RequestMessageType.values`: wire string to request type. */
  const RequestValues: map<string, RequestMessageType> := Index(AllRequestTypes, RequestKey)

  /** `RequestMessageType.requestContentClasses`: payload class to request type. */
  const RequestContentClasses: map<RequestClass, RequestMessageType> :=
    Index(AllRequestTypes, RequestContentClass)

  /** `BroadcastType.values`: wire string to broadcast type. */
  const BroadcastValues: map<string, BroadcastType> := Index(AllBroadcastTypes, BroadcastKey)

  /** `RequestMessageType.fromValue`, with the `*` fallback. */
  function FromValue(value: Option<string>): RequestMessageType {
    if value.Some? && value.value in RequestValues then RequestValues[value.value] else OtherRequest
  }

  /** `RequestMessageType.fromRequestContentClass`, with the `*` fallback. */
  function FromRequestContentClass(c: RequestClass): RequestMessageType {
    if c in RequestContentClasses then RequestContentClasses[c] else OtherRequest
  }

  /** `BroadcastType.classFromValue`, falling back to the generic class. */
  function ClassFromValue(value: Option<string>): BroadcastClass {
    if value.Some? && value.value in BroadcastValues then BroadcastClassOf(BroadcastValues[value.value])
    else GenericBroadcastClass
  }

  // ---- What the tables promise ----

  /** Keys that come from an injective key function over distinct constants
      are distinct. */
  lemma DistinctFromInjective<K, V>(vs: seq<V>, key: V -> Option<K>)
    requires forall i, j :: 0 <= i < j < |vs| ==> vs[i] != vs[j]
    requires forall v, w :: key(v).Some? && key(v) == key(w) ==> v == w
    ensures DistinctKeys(vs, key)
  {
  }

  lemma RequestValueInjective()
    ensures forall t, u :: RequestKey(t) == RequestKey(u) ==> t == u
  {
  }

  /** The wire-string table holds every request type under its own string,
      and nothing else. */
  lemma RequestValueTableBuilt()
    ensures forall i :: 0 <= i < |AllRequestTypes| ==>
              RequestValue(AllRequestTypes[i]) in RequestValues
              && RequestValues[RequestValue(AllRequestTypes[i])] == AllRequestTypes[i]
    ensures forall s :: s in RequestValues ==> exists t :: RequestValue(t) == s
  {
    RequestValueInjective();
    DistinctFromInjective(AllRequestTypes, RequestKey);
    IndexLookup(AllRequestTypes, RequestKey);
  }

  /** The payload-class table holds every request type that declares a
      class under that class, and nothing else. */
  lemma RequestClassTableBuilt()
    ensures forall i :: 0 <= i < |AllRequestTypes| && RequestContentClass(AllRequestTypes[i]).Some? ==>
              RequestContentClass(AllRequestTypes[i]).value in RequestContentClasses
              && RequestContentClasses[RequestContentClass(AllRequestTypes[i]).value] == AllRequestTypes[i]
    ensures forall c :: c in RequestContentClasses ==> exists t :: RequestContentClass(t) == Some(c)
  {
    DistinctFromInjective(AllRequestTypes, RequestContentClass);
    IndexLookup(AllRequestTypes, RequestContentClass);
  }

  lemma EveryRequestTypeListed(t: RequestMessageType)
    ensures exists i :: 0 <= i < |AllRequestTypes| && AllRequestTypes[i] == t
  {
    match t
    case ExecuteRequest => assert AllRequestTypes[0] == t;
    case InspectRequest => assert AllRequestTypes[1] == t;
    case CompleteRequest => assert AllRequestTypes[2] == t;
    case HistoryRequest => assert AllRequestTypes[3] == t;
    case IsCompleteRequest => assert AllRequestTypes[4] == t;
    case ConnectRequest => assert AllRequestTypes[5] == t;
    case KernelInfoRequest => assert AllRequestTypes[6] == t;
    case ShutdownRequest => assert AllRequestTypes[7] == t;
    case InputRequest => assert AllRequestTypes[8] == t;
    case OtherRequest => assert AllRequestTypes[9] == t;
  }

  /** Looking up a type's own wire string finds that type. */
  lemma FromValueOfValue(t: RequestMessageType)
    ensures FromValue(Some(RequestValue(t))) == t
  {
    RequestValueTableBuilt();
    EveryRequestTypeListed(t);
  }

  /** Strings that are no request type's wire string, and null, fall back to `*`. */
  lemma FromValueFallback(value: Option<string>)
    requires forall t :: value != Some(RequestValue(t))
    ensures FromValue(value) == OtherRequest
  {
    RequestValueTableBuilt();
  }

  /** Each payload class that a request type declares finds that type. */
  lemma FromRequestContentClassOfClass(t: RequestMessageType)
    requires RequestContentClass(t).Some?
    ensures FromRequestContentClass(RequestContentClass(t).value) == t
  {
    RequestClassTableBuilt();
    EveryRequestTypeListed(t);
  }

  /** Unknown classes fall back to `*`, and the two request types without a
      payload class are never the answer. */
  lemma FromRequestContentClassFallback(c: RequestClass)
    ensures (forall t :: RequestContentClass(t) != Some(c)) ==> FromRequestContentClass(c) == OtherRequest
    ensures FromRequestContentClass(c) != ConnectRequest && FromRequestContentClass(c) != KernelInfoRequest
  {
    RequestClassTableBuilt();
    if c in RequestContentClasses {
      var t :| RequestContentClass(t) == Some(c);
      FromRequestContentClassOfClass(t);
    }
  }

  lemma BroadcastTableBuilt()
    ensures forall i :: 0 <= i < |AllBroadcastTypes| ==>
              BroadcastValue(AllBroadcastTypes[i]) in BroadcastValues
              && BroadcastValues[BroadcastValue(AllBroadcastTypes[i])] == AllBroadcastTypes[i]
    ensures forall s :: s in BroadcastValues ==> exists b :: BroadcastValue(b) == s
  {
    DistinctFromInjective(AllBroadcastTypes, BroadcastKey);
    IndexLookup(AllBroadcastTypes, BroadcastKey);
  }

  /** A broadcast's own type string selects its payload class. */
  lemma ClassFromValueOfValue(b: BroadcastType)
    ensures ClassFromValue(Some(BroadcastValue(b))) == BroadcastClassOf(b)
  {
    BroadcastTableBuilt();
    var i := match b
      case Stream => 0 case DisplayData => 1 case DataPub => 2 case ExecuteInput => 3
      case ExecuteResult => 4 case Error => 5 case Status => 6 case ClearOutput => 7;
    assert AllBroadcastTypes[i] == b;
  }

  /** Unknown broadcast types, and null, fall back to the generic class. */
  lemma ClassFromValueFallback(value: Option<string>)
    requires forall b :: value != Some(BroadcastValue(b))
    ensures ClassFromValue(value) == GenericBroadcastClass
  {
    BroadcastTableBuilt();
  }

  /** Only the fallback request type is answered by the fallback reply type. */
  lemma ReplyTypeMatchesRequestType(t: RequestMessageType)
    ensures t == OtherRequest <==> ReplyMessageTypeOf(t) == OtherReply
  {
  }

  /** Distinct request types are answered by distinct reply types. */
  lemma ReplyTypeInjective(t: RequestMessageType, u: RequestMessageType)
    requires ReplyMessageTypeOf(t) == ReplyMessageTypeOf(u)
    ensures t == u
  {
  }
}
