/** Values shared by the codec and the channels: bytes and frames, the
    failure-compatible wrappers used for the source's exceptions, the JSON
    values carried in metadata and content, the message header, and the
    string predicates of the Java helper library the core leans on. */
module Wire {

  /** One octet of a transport frame. */
  newtype Byte = b: int | 0 <= b < 256

  /** One transport frame: an opaque byte string. */
  type Frame = seq<Byte>

  /** A Java reference that may be null. */
  datatype Option<+T> = None | Some(value: T)

  /** A result or the exception that replaced it. */
  datatype Result<+T, +E> = Ok(value: T) | Err(error: E)

  /** A void call that either returned or threw. */
  datatype Outcome<+E> = Pass | Fail(error: E)

  /** A JSON value as the JSON library hands it out (numbers kept integral). */
  datatype JsonValue =
    | JNull
    | JBool(b: bool)
    | JNumber(n: int)
    | JString(s: string)
    | JArray(items: seq<JsonValue>)
    | JObject(fields: map<string, JsonValue>)

  /** The `Map<String, Object>` used for metadata and content. */
  type JsonObject = map<string, JsonValue>

  /** The message header. Every field is a `String` that may be null; a new
      header has all of them null and serializes as `{}`. */
  datatype Header = Header(
    msgId: Option<string>,
    username: Option<string>,
    session: Option<string>,
    msgType: Option<string>,
    version: Option<string>)

  const EmptyHeader: Header := Header(None, None, None, None, None)

  /** `Character.isWhitespace`: the space, line and paragraph separators other
      than the three no-break spaces, and the ASCII controls TAB..CR and FS..US. */
  predicate IsWhitespace(c: char) {
    || '\U{0009}' <= c <= '\U{000D}'
    || '\U{001C}' <= c <= '\U{0020}'
    || c == '\U{1680}'
    || '\U{2000}' <= c <= '\U{2006}'
    || '\U{2008}' <= c <= '\U{200A}'
    || c == '\U{2028}' || c == '\U{2029}' || c == '\U{205F}' || c == '\U{3000}'
  }

  /** `StringUtils.isBlank`: null, empty, or whitespace only. */
  predicate IsBlank(s: Option<string>) {
    s.None? || forall i :: 0 <= i < |s.value| ==> IsWhitespace(s.value[i])
  }
}
