/** The JSON object mapper, seen only through what the codec and the channels
    ask of it: headers and maps written to bytes and read back, and payload
    objects converted to and from the maps a message carries. Which bytes a
    value is written as is left open; the properties below are the ones the
    codec relies on. */
module Json {
  import opened Wire
  import opened MessageTypes

  /** The object mapper. A read answers `None` where the mapper throws
      (malformed input, or input that does not fit the target class).
      Writes and the conversions of a payload to a map are total. */
  datatype JsonCodec = JsonCodec(
    writeHeader: Header -> Frame,
    readHeader: Frame -> Option<Header>,
    writeObject: JsonObject -> Frame,
    readObject: Frame -> Option<JsonObject>,
    requestToObject: Request -> JsonObject,
    objectToRequest: (RequestClass, JsonObject) -> Option<Request>,
    replyToObject: Reply -> JsonObject,
    objectToReply: (ReplyClass, JsonObject) -> Option<Reply>,
    objectToBroadcast: (BroadcastClass, JsonObject) -> Option<Broadcast>)

  /** Reading back what was written gives the value that was written. */
  ghost predicate Faithful(c: JsonCodec) {
    && (forall h :: c.readHeader(c.writeHeader(h)) == Some(h))
    && (forall o :: c.readObject(c.writeObject(o)) == Some(o))
  }

  /** Writing is injective on faithful codecs: different headers, or
      different maps, are never written as the same bytes. */
  lemma FaithfulWritesInjective(c: JsonCodec, h1: Header, h2: Header, o1: JsonObject, o2: JsonObject)
    requires Faithful(c)
    ensures c.writeHeader(h1) == c.writeHeader(h2) ==> h1 == h2
    ensures c.writeObject(o1) == c.writeObject(o2) ==> o1 == o2
  {
    assert c.readHeader(c.writeHeader(h1)) == Some(h1);
    assert c.readHeader(c.writeHeader(h2)) == Some(h2);
    assert c.readObject(c.writeObject(o1)) == Some(o1);
    assert c.readObject(c.writeObject(o2)) == Some(o2);
  }
}
