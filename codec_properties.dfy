/** What the codec promises: the frame-handler machine reads a frame list
    by its layout (identities up to the first delimiter, then the signature,
    the four JSON frames and the extra data), short input and forged
    signatures are refused, and decoding undoes encoding. */
module CodecProperties {
  import opened Wire
  import opened Json
  import opened Signing
  import opened Messages
  import opened Codec

  // ---- The layout reading, a definition without the machine ----

  /** The position of the first delimiter frame. */
  function FirstDelimiter(frames: seq<Frame>): Option<nat> {
    if frames == [] then None
    else if frames[0] == Delimiter then Some(0)
    else match FirstDelimiter(frames[1..])
      case None => None
      case Some(k) => Some(k + 1)
  }

  /** After the first delimiter: the signature, the header, the parent
      header, the metadata and the content, in that order, then extra data.
      Input that ends early names the part that was missing; a JSON part
      that cannot be read names that part. */
  function AfterDelimiter(p: Protocol, ids: seq<Frame>, rest: seq<Frame>): Result<Envelope, DecodeError> {
    var json := p.json;
    if |rest| < 2 then Err(NotEnoughFrames(if |rest| == 0 then HmacSignature else HeaderFrame))
    else if json.readHeader(rest[1]).None? then Err(MalformedJson(HeaderFrame))
    else if |rest| < 3 then Err(NotEnoughFrames(ParentHeaderFrame))
    else if json.readHeader(rest[2]).None? then Err(MalformedJson(ParentHeaderFrame))
    else if |rest| < 4 then Err(NotEnoughFrames(MetadataFrame))
    else if json.readObject(rest[3]).None? then Err(MalformedJson(MetadataFrame))
    else if |rest| < 5 then Err(NotEnoughFrames(ContentFrame))
    else if json.readObject(rest[4]).None? then Err(MalformedJson(ContentFrame))
    else if rest[0] != Signature(p, rest[1..5]) then Err(InvalidSignature)
    else Ok(Envelope(ids, rest[0], json.readHeader(rest[1]).value, json.readHeader(rest[2]).value,
                     json.readObject(rest[3]).value, json.readObject(rest[4]).value, rest[5..]))
  }

  /** A frame list read by its layout. */
  function DecodeByLayout(p: Protocol, frames: seq<Frame>): Result<Envelope, DecodeError> {
    match FirstDelimiter(frames)
    case None => Err(NotEnoughFrames(ZmqId))
    case Some(k) => if k < |frames| then AfterDelimiter(p, frames[..k], frames[k + 1..]) else Err(NotEnoughFrames(ZmqId))
  }

  // ---- Facts about the machine ----

  lemma RunErr(json: JsonCodec, e: DecodeError, frames: seq<Frame>)
    ensures Run(json, Err(e), frames) == Err(e)
  {
  }

  /** Running over `a + b` is running over `a`, then over `b`. */
  lemma {:induction false} RunAppend(json: JsonCodec, r: Result<Decoder, DecodeError>, a: seq<Frame>, b: seq<Frame>)
    ensures Run(json, r, a + b) == Run(json, Run(json, r, a), b)
    decreases |a|
  {
    if a == [] {
      assert a + b == b;
    } else if r.Err? {
      RunErr(json, r.error, b);
    } else {
      assert (a + b)[0] == a[0];
      assert (a + b)[1..] == a[1..] + b;
      RunAppend(json, Handle(json, r.value, a[0]), a[1..], b);
    }
  }

  /** Before the delimiter every frame is kept as an identity, in order. */
  lemma {:induction false} RunIdentities(json: JsonCodec, js: seq<Frame>, e: Envelope, ids: seq<Frame>)
    requires forall i :: 0 <= i < |ids| ==> ids[i] != Delimiter
    ensures Run(json, Ok(Decoder(ZmqId, js, e)), ids) == Ok(Decoder(ZmqId, js, e.(identities := e.identities + ids)))
    decreases |ids|
  {
    if ids == [] {
      assert e.identities + ids == e.identities;
    } else {
      var e' := e.(identities := e.identities + [ids[0]]);
      RunIdentities(json, js, e', ids[1..]);
      assert e'.identities + ids[1..] == e.identities + ids;
    }
  }

  /** Once in the extra data every frame is kept as extra data, in order,
      including frames equal to the delimiter. */
  lemma {:induction false} RunExtraData(json: JsonCodec, js: seq<Frame>, e: Envelope, xs: seq<Frame>)
    ensures Run(json, Ok(Decoder(ExtraData, js, e)), xs) == Ok(Decoder(ExtraData, js, e.(extraData := e.extraData + xs)))
    decreases |xs|
  {
    if xs == [] {
      assert e.extraData + xs == e.extraData;
    } else {
      var e' := e.(extraData := e.extraData + [xs[0]]);
      RunExtraData(json, js, e', xs[1..]);
      assert e'.extraData + xs[1..] == e.extraData + xs;
    }
  }

  lemma {:induction false} FirstDelimiterFinds(frames: seq<Frame>)
    ensures FirstDelimiter(frames).None? ==> forall i :: 0 <= i < |frames| ==> frames[i] != Delimiter
    ensures FirstDelimiter(frames).Some? ==>
              && FirstDelimiter(frames).value < |frames|
              && frames[FirstDelimiter(frames).value] == Delimiter
              && forall i :: 0 <= i < FirstDelimiter(frames).value ==> frames[i] != Delimiter
  {
    if frames != [] && frames[0] != Delimiter {
      FirstDelimiterFinds(frames[1..]);
      assert forall i :: 1 <= i < |frames| ==> frames[i] == frames[1..][i - 1];
    }
  }

  /** The machine after the delimiter, frame by frame. */
  lemma AfterDelimiterRun(p: Protocol, ids: seq<Frame>, rest: seq<Frame>)
    ensures Finish(p, Run(p.json, Ok(Decoder(HmacSignature, [], EmptyEnvelope.(identities := ids))), rest))
            == AfterDelimiter(p, ids, rest)
  {
    var json := p.json;
    var e0 := EmptyEnvelope.(identities := ids);
    if |rest| >= 1 {
      var e1 := e0.(signature := rest[0]);
      var d2 := Decoder(HeaderFrame, [], e1);
      assert Run(json, Ok(Decoder(HmacSignature, [], e0)), rest) == Run(json, Ok(d2), rest[1..]);
      if |rest| >= 2 {
        var h := json.readHeader(rest[1]);
        assert rest[1..][0] == rest[1] && rest[1..][1..] == rest[2..];
        if h.None? {
          RunErr(json, MalformedJson(HeaderFrame), rest[2..]);
        } else {
          var d3 := Decoder(ParentHeaderFrame, [rest[1]], e1.(header := h.value));
          assert d2.jsonFrames + [rest[1]] == [rest[1]];
          assert Handle(json, d2, rest[1]) == Ok(d3);
          assert Run(json, Ok(d2), rest[1..]) == Run(json, Ok(d3), rest[2..]);
          AfterParentHeaderRun(p, rest, d3);
        }
      }
    }
  }

  lemma AfterParentHeaderRun(p: Protocol, rest: seq<Frame>, d3: Decoder)
    requires |rest| >= 2 && d3.handler == ParentHeaderFrame && d3.jsonFrames == [rest[1]]
    requires p.json.readHeader(rest[1]) == Some(d3.env.header)
    requires d3.env.signature == rest[0] && d3.env.extraData == []
    ensures Finish(p, Run(p.json, Ok(d3), rest[2..])) == AfterDelimiter(p, d3.env.identities, rest)
  {
    var json := p.json;
    if |rest| >= 3 {
      var ph := json.readHeader(rest[2]);
      assert rest[2..][0] == rest[2] && rest[2..][1..] == rest[3..];
      if ph.None? {
        RunErr(json, MalformedJson(ParentHeaderFrame), rest[3..]);
      } else {
        var d4 := Decoder(MetadataFrame, [rest[1], rest[2]], d3.env.(parentHeader := ph.value));
        assert d3.jsonFrames + [rest[2]] == [rest[1], rest[2]];
        assert Handle(json, d3, rest[2]) == Ok(d4);
        assert Run(json, Ok(d3), rest[2..]) == Run(json, Ok(d4), rest[3..]);
        if |rest| >= 4 {
          var md := json.readObject(rest[3]);
          assert rest[3..][0] == rest[3] && rest[3..][1..] == rest[4..];
          if md.None? {
            RunErr(json, MalformedJson(MetadataFrame), rest[4..]);
          } else {
            var d5 := Decoder(ContentFrame, [rest[1], rest[2], rest[3]], d4.env.(metadata := md.value));
            assert d4.jsonFrames + [rest[3]] == [rest[1], rest[2], rest[3]];
            assert Handle(json, d4, rest[3]) == Ok(d5);
            assert Run(json, Ok(d4), rest[3..]) == Run(json, Ok(d5), rest[4..]);
            AfterMetadataRun(p, rest, d5);
          }
        }
      }
    }
  }

  lemma AfterMetadataRun(p: Protocol, rest: seq<Frame>, d5: Decoder)
    requires |rest| >= 4 && d5.handler == ContentFrame && d5.jsonFrames == [rest[1], rest[2], rest[3]]
    requires p.json.readHeader(rest[1]) == Some(d5.env.header)
    requires p.json.readHeader(rest[2]) == Some(d5.env.parentHeader)
    requires p.json.readObject(rest[3]) == Some(d5.env.metadata)
    requires d5.env.signature == rest[0] && d5.env.extraData == []
    ensures Finish(p, Run(p.json, Ok(d5), rest[4..])) == AfterDelimiter(p, d5.env.identities, rest)
  {
    var json := p.json;
    if |rest| >= 5 {
      var c := json.readObject(rest[4]);
      assert rest[4..][0] == rest[4] && rest[4..][1..] == rest[5..];
      if c.None? {
        RunErr(json, MalformedJson(ContentFrame), rest[5..]);
      } else {
        var d6 := Decoder(ExtraData, [rest[1], rest[2], rest[3], rest[4]], d5.env.(content := c.value));
        assert d5.jsonFrames + [rest[4]] == [rest[1], rest[2], rest[3], rest[4]];
        assert Handle(json, d5, rest[4]) == Ok(d6);
        assert Run(json, Ok(d5), rest[4..]) == Run(json, Ok(d6), rest[5..]);
        RunExtraData(json, d6.jsonFrames, d6.env, rest[5..]);
        assert d6.jsonFrames == rest[1..5];
        assert d6.env.extraData + rest[5..] == rest[5..];
      }
    }
  }

  /** The frame-handler machine reads a frame list exactly by its layout. */
  lemma DecodeIsLayout(p: Protocol, frames: seq<Frame>)
    ensures Decode(p, frames) == DecodeByLayout(p, frames)
  {
    FirstDelimiterFinds(frames);
    match FirstDelimiter(frames)
    case None =>
      RunIdentities(p.json, [], EmptyEnvelope, frames);
    case Some(k) =>
      var ids, rest := frames[..k], frames[k + 1..];
      assert frames == ids + ([Delimiter] + rest);
      RunAppend(p.json, Ok(Initial), ids, [Delimiter] + rest);
      RunIdentities(p.json, [], EmptyEnvelope, ids);
      assert EmptyEnvelope.identities + ids == ids;
      assert ([Delimiter] + rest)[1..] == rest;
      AfterDelimiterRun(p, ids, rest);
  }

  // ---- The promises ----

  /** What a successful layout reading holds, part by part. */
  lemma AfterDelimiterOk(p: Protocol, ids: seq<Frame>, rest: seq<Frame>)
    requires AfterDelimiter(p, ids, rest).Ok?
    ensures var e := AfterDelimiter(p, ids, rest).value;
            && |rest| >= 5
            && e.identities == ids
            && e.signature == rest[0] == Signature(p, rest[1..5])
            && p.json.readHeader(rest[1]) == Some(e.header)
            && p.json.readHeader(rest[2]) == Some(e.parentHeader)
            && p.json.readObject(rest[3]) == Some(e.metadata)
            && p.json.readObject(rest[4]) == Some(e.content)
            && e.extraData == rest[5..]
  {
  }

  lemma LayoutOk(p: Protocol, frames: seq<Frame>)
    requires DecodeByLayout(p, frames).Ok?
    ensures FirstDelimiter(frames).Some? && FirstDelimiter(frames).value + 6 <= |frames|
    ensures var k := FirstDelimiter(frames).value;
            var e := DecodeByLayout(p, frames).value;
            && e.identities == frames[..k]
            && e.signature == frames[k + 1] == Signature(p, frames[k + 2..k + 6])
            && p.json.readHeader(frames[k + 2]) == Some(e.header)
            && p.json.readHeader(frames[k + 3]) == Some(e.parentHeader)
            && p.json.readObject(frames[k + 4]) == Some(e.metadata)
            && p.json.readObject(frames[k + 5]) == Some(e.content)
            && e.extraData == frames[k + 6..]
  {
    var k := FirstDelimiter(frames).value;
    AfterDelimiterOk(p, frames[..k], frames[k + 1..]);
    LayoutSlices(frames, k);
  }

  /** The parts after a delimiter at `k`, as positions in the whole list. */
  lemma LayoutSlices<T>(frames: seq<T>, k: nat)
    requires k + 6 <= |frames|
    ensures frames[k + 1..][0] == frames[k + 1] && frames[k + 1..][1] == frames[k + 2]
    ensures frames[k + 1..][2] == frames[k + 3] && frames[k + 1..][3] == frames[k + 4]
    ensures frames[k + 1..][4] == frames[k + 5]
    ensures frames[k + 1..][1..5] == frames[k + 2..k + 6]
    ensures frames[k + 1..][5..] == frames[k + 6..]
  {
  }

  /** A decoded message has, as identities, exactly the frames before the
      first delimiter; as signature the next frame, equal to the signature
      computed over the four JSON frames after it; the JSON parts read from
      those four frames; and as extra data everything after them. */
  lemma DecodedLayout(p: Protocol, frames: seq<Frame>)
    requires Decode(p, frames).Ok?
    ensures FirstDelimiter(frames).Some? && FirstDelimiter(frames).value + 6 <= |frames|
    ensures var k := FirstDelimiter(frames).value;
            var e := Decode(p, frames).value;
            && e.identities == frames[..k]
            && e.signature == frames[k + 1] == Signature(p, frames[k + 2..k + 6])
            && p.json.readHeader(frames[k + 2]) == Some(e.header)
            && p.json.readHeader(frames[k + 3]) == Some(e.parentHeader)
            && p.json.readObject(frames[k + 4]) == Some(e.metadata)
            && p.json.readObject(frames[k + 5]) == Some(e.content)
            && e.extraData == frames[k + 6..]
  {
    DecodeIsLayout(p, frames);
    LayoutOk(p, frames);
  }

  /** Input with no delimiter, or with fewer than five frames after the
      first one, is refused as too short, or as malformed JSON when a JSON
      frame that did arrive cannot be read; exactly five frames after the
      delimiter leave no extra data. */
  lemma ShortInputRefused(p: Protocol, frames: seq<Frame>)
    ensures FirstDelimiter(frames).None? ==> Decode(p, frames) == Err(NotEnoughFrames(ZmqId))
    ensures FirstDelimiter(frames).Some? && |frames| < FirstDelimiter(frames).value + 6 ==>
              && Decode(p, frames).Err?
              && (Decode(p, frames).error.NotEnoughFrames? || Decode(p, frames).error.MalformedJson?)
              && Decode(p, frames).error != NotEnoughFrames(ExtraData)
    ensures FirstDelimiter(frames).Some? && |frames| == FirstDelimiter(frames).value + 6 && Decode(p, frames).Ok? ==>
              Decode(p, frames).value.extraData == []
  {
    DecodeIsLayout(p, frames);
    FirstDelimiterFinds(frames);
  }

  /** A codec that does not sign accepts only an empty signature frame. */
  lemma UnsignedRefusesSignature(p: Protocol, frames: seq<Frame>)
    requires !IsSigning(p)
    requires FirstDelimiter(frames).Some? && FirstDelimiter(frames).value + 1 < |frames|
    requires frames[FirstDelimiter(frames).value + 1] != []
    ensures Decode(p, frames).Err?
  {
    if Decode(p, frames).Ok? {
      DecodedLayout(p, frames);
    }
  }

  /** A decoded message carries the signature the codec computes over the
      JSON frames it arrived with: a message whose JSON frames were altered
      after signing is refused unless its signature was recomputed. */
  lemma DecodedIsAuthentic(p: Protocol, frames: seq<Frame>)
    requires Decode(p, frames).Ok?
    ensures FirstDelimiter(frames).Some? && FirstDelimiter(frames).value + 6 <= |frames|
    ensures var k := FirstDelimiter(frames).value;
            Decode(p, frames).value.signature == Signature(p, frames[k + 2..k + 6])
  {
    DecodedLayout(p, frames);
  }

  lemma {:induction false} FirstDelimiterOfLayout(ids: seq<Frame>, rest: seq<Frame>)
    requires forall i :: 0 <= i < |ids| ==> ids[i] != Delimiter
    ensures FirstDelimiter(ids + ([Delimiter] + rest)) == Some(|ids|)
    decreases |ids|
  {
    if ids != [] {
      assert (ids + ([Delimiter] + rest))[1..] == ids[1..] + ([Delimiter] + rest);
      FirstDelimiterOfLayout(ids[1..], rest);
    }
  }

  /** Decoding undoes encoding: with a JSON mapper that reads back what it
      writes, and no identity equal to the delimiter, the frames of a
      message decode to that message as stamped, carrying the signature the
      codec computed. Without signing, a message with an empty signature
      comes back exactly as it was stamped. */
  lemma RoundTrip(p: Protocol, e: Envelope)
    requires Faithful(p.json)
    requires forall i :: 0 <= i < |e.identities| ==> e.identities[i] != Delimiter
    ensures Decode(p, Encode(p, e)) == Ok(Stamp(e).(signature := Signature(p, JsonFrames(p.json, Stamp(e)))))
    ensures !IsSigning(p) && e.signature == [] ==> Decode(p, Encode(p, e)) == Ok(Stamp(e))
  {
    var s := Stamp(e);
    var js := JsonFrames(p.json, s);
    var rest := [Signature(p, js)] + js + s.extraData;
    var frames := Encode(p, e);
    assert frames == s.identities + ([Delimiter] + rest);
    FirstDelimiterOfLayout(s.identities, rest);
    assert frames[..|s.identities|] == s.identities;
    assert frames[|s.identities| + 1..] == rest;
    assert rest[1..5] == js;
    assert rest[5..] == s.extraData;
    DecodeIsLayout(p, frames);
  }

  /** Re-encoding the decoded message gives the very frames that were
      sent: decoding loses nothing the encoding put on the wire. */
  lemma ReEncodeIdentical(p: Protocol, e: Envelope)
    requires Faithful(p.json)
    requires forall i :: 0 <= i < |e.identities| ==> e.identities[i] != Delimiter
    ensures Decode(p, Encode(p, e)).Ok?
    ensures Encode(p, Decode(p, Encode(p, e)).value) == Encode(p, e)
  {
    RoundTrip(p, e);
    var d := Decode(p, Encode(p, e)).value;
    assert Stamp(d) == Stamp(e).(signature := d.signature);
    assert JsonFrames(p.json, Stamp(d)) == JsonFrames(p.json, Stamp(e));
  }

  /** An identity equal to the delimiter does not survive the round trip,
      wherever it stands: the decoder takes the first such identity for the
      delimiter, so the decoded identities are only those before it. */
  lemma DelimiterIdentityLost(p: Protocol, e: Envelope, k: nat)
    requires k < |e.identities| && e.identities[k] == Delimiter
    requires forall i :: 0 <= i < k ==> e.identities[i] != Delimiter
    ensures Decode(p, Encode(p, e)).Ok? ==> Decode(p, Encode(p, e)).value.identities == e.identities[..k]
    ensures Decode(p, Encode(p, e)) != Ok(Stamp(e).(signature := Signature(p, JsonFrames(p.json, Stamp(e)))))
  {
    var frames := Encode(p, e);
    EncodeLayout(p, e);
    assert frames == e.identities[..k] + ([Delimiter] + frames[k + 1..]);
    FirstDelimiterOfLayout(e.identities[..k], frames[k + 1..]);
    if Decode(p, frames).Ok? {
      DecodedLayout(p, frames);
      assert |Decode(p, frames).value.identities| == k < |e.identities|;
    }
  }
}
