/** The socket a channel talks through, seen as two queues: the multipart
    frames the peer has sent and that are still to be read, and the frames
    this side has handed over. A receive that times out is an entry with no
    frame; the peer's readiness to take frames is a number of frames it will
    still accept. */
module Transport {
  import opened Wire

  /** One frame of a multipart message and whether more frames follow it. */
  datatype Part = Part(frame: Frame, more: bool)

  class Socket {
    /** What the next receives return, in order; `None` is a receive that
        times out. Once it is empty every receive times out. */
    var inbox: seq<Option<Part>>
    /** Whether the last frame received said more frames follow. */
    var rcvMore: bool
    /** How many more frames the peer accepts. */
    var budget: nat
    /** The frames handed over so far, with their "more" flags. */
    var outbox: seq<Part>
    /** The subscription prefixes set on the socket. */
    var subscriptions: seq<Frame>
    /** The address the socket is connected to. */
    const peer: string
    /** The receive timeout set on the socket, in milliseconds. */
    const receiveTimeout: int
    /** Whether destroying this socket (at close) fails. */
    const destroyFails: bool

    /** A socket connected to `peer`, with nothing received or sent yet. */
    constructor (peer: string, receiveTimeout: int, destroyFails: bool)
      ensures inbox == [] && !rcvMore && budget == 0 && outbox == [] && subscriptions == []
      ensures this.peer == peer && this.receiveTimeout == receiveTimeout && this.destroyFails == destroyFails
    {
      this.peer := peer;
      this.receiveTimeout := receiveTimeout;
      inbox := [];
      rcvMore := false;
      budget := 0;
      outbox := [];
      subscriptions := [];
      this.destroyFails := destroyFails;
    }

    /** `send`/`sendMore`: the frame is handed over when the peer accepts
        one more frame; the answer says whether it was. */
    method Send(frame: Frame, more: bool) returns (ok: bool)
      modifies this`budget, this`outbox
      ensures ok <==> old(budget) > 0
      ensures budget == if ok then old(budget) - 1 else old(budget)
      ensures outbox == if ok then old(outbox) + [Part(frame, more)] else old(outbox)
    {
      ok := budget > 0;
      if ok {
        budget := budget - 1;
        outbox := outbox + [Part(frame, more)];
      }
    }

    /** `recv`: the next frame, or `None` when the receive times out. */
    method Recv() returns (frame: Option<Frame>)
      modifies this`inbox, this`rcvMore
      ensures old(inbox) == [] ==> inbox == [] && frame == None && rcvMore == old(rcvMore)
      ensures old(inbox) != [] ==> inbox == old(inbox)[1..]
      ensures old(inbox) != [] && old(inbox)[0].None? ==> frame == None && rcvMore == old(rcvMore)
      ensures old(inbox) != [] && old(inbox)[0].Some? ==>
                frame == Some(old(inbox)[0].value.frame) && rcvMore == old(inbox)[0].value.more
    {
      if inbox == [] {
        return None;
      }
      var next := inbox[0];
      inbox := inbox[1..];
      if next.Some? {
        rcvMore := next.value.more;
        return Some(next.value.frame);
      }
      return None;
    }

    /** `subscribe(prefix)`. */
    method Subscribe(prefix: Frame)
      modifies this`subscriptions
      ensures subscriptions == old(subscriptions) + [prefix]
    {
      subscriptions := subscriptions + [prefix];
    }

    /** The peer sends: more entries for the receives to come. */
    method Deliver(parts: seq<Option<Part>>)
      modifies this`inbox
      ensures inbox == old(inbox) + parts
    {
      inbox := inbox + parts;
    }

    /** The peer gets ready to take `n` more frames. */
    method Accept(n: nat)
      modifies this`budget
      ensures budget == old(budget) + n
    {
      budget := budget + n;
    }
  }
}
