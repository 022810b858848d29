/** The session: it owns the protocol, the receive timeout and the set of
    connected channels, stamps outgoing messages with its id and user name,
    writes and reads multipart messages on a channel's socket, and closes
    everything in a fixed order. The channels live here too, because a
    channel and its session refer to each other. */
module Sessions {
  import opened Wire
  import opened Transport
  import opened Messages
  import opened Codec
  import Json
  import CodecProperties

  // ---- Construction ----

  datatype SessionError = InvalidReceiveTimeout | InvalidIoThreads

  /** The argument checks of the constructor, in the order they are made. */
  function CheckArguments(receiveTimeout: int, ioThreads: int): (r: Outcome<SessionError>)
    ensures r == Pass <==> receiveTimeout >= -1 && ioThreads >= 1
    ensures r == Fail(InvalidReceiveTimeout) <==> receiveTimeout < -1
  {
    if receiveTimeout < -1 then Fail(InvalidReceiveTimeout)
    else if ioThreads < 1 then Fail(InvalidIoThreads)
    else Pass
  }

  /** Added to the receive timeout to bound the wait for each executor at
      close. */
  const ShutdownTimeoutPadding: int := 3000

  // ---- Writing: the "more" flags ----

  /** The frames of a message with their "more" flags: set on every frame
      but the last. */
  function Flagged(frames: seq<Frame>): (parts: seq<Part>)
    ensures |parts| == |frames|
    ensures forall i :: 0 <= i < |parts| ==> parts[i].frame == frames[i]
    ensures forall i :: 0 <= i < |parts| ==> (parts[i].more <==> i < |frames| - 1)
  {
    seq(|frames|, i requires 0 <= i < |frames| => Part(frames[i], i != |frames| - 1))
  }

  /** How many of `n` frames a peer accepting `budget` more frames takes. */
  function Accepted(n: nat, budget: nat): nat {
    if n <= budget then n else budget
  }

  datatype SendError = FrameNotSent(index: nat)

  /** The outcome of writing `n` frames to a peer that accepts `budget`:
      the first frame refused is named. */
  function SendOutcome(n: nat, budget: nat): Outcome<SendError> {
    if n <= budget then Pass else Fail(FrameNotSent(budget))
  }

  /** The header changes `send` makes: the session id always, the user name
      only when it is not blank. */
  function Stamped(e: Envelope, id: string, userName: Option<string>): (r: Envelope)
    ensures r.header.session == Some(id)
    ensures r.header.username == if IsBlank(userName) then e.header.username else userName
    ensures r.header.(session := e.header.session, username := e.header.username) == e.header
    ensures r.(header := e.header) == e
  {
    var h := e.header.(session := Some(id));
    e.(header := if IsBlank(userName) then h else h.(username := userName))
  }

  /** A socket as the peer sees it: the entries still to be received, how
      many more frames the peer accepts, and the frames sent so far. */
  datatype PeerView = PeerView(inbox: seq<Option<Part>>, budget: nat, sent: seq<Part>)

  /** The socket `s` as its peer sees it. */
  function ViewOf(s: Socket): PeerView
    reads s
  {
    PeerView(s.inbox, s.budget, s.outbox)
  }

  /** What `send` of `e`, by a session with this id and user name, does to
      a socket the peer sees as `v`: the frames the peer accepts go out in
      order with their "more" flags, and the first one refused is named. */
  function Sending(p: Protocol, id: string, userName: Option<string>, e: Envelope, v: PeerView)
    : (r: (PeerView, Outcome<SendError>))
    ensures r.0.inbox == v.inbox
    ensures v.sent <= r.0.sent
    ensures r.1 == Pass <==> |Encode(p, Stamped(e, id, userName))| <= v.budget
    ensures r.1 == Pass ==> r.0.sent == v.sent + Flagged(Encode(p, Stamped(e, id, userName)))
                            && r.0.budget == v.budget - |Encode(p, Stamped(e, id, userName))|
    ensures r.1.Fail? ==> r.1 == Fail(FrameNotSent(v.budget)) && r.0.budget == 0
  {
    var frames := Encode(p, Stamped(e, id, userName));
    var n := Accepted(|frames|, v.budget);
    (v.(budget := v.budget - n, sent := v.sent + Flagged(frames)[..n]), SendOutcome(|frames|, v.budget))
  }

  // ---- Reading: gathering a multipart message ----

  /** What the receive loop reads from `inbox` when it goes on only while
      `more` holds: the frames, and how many receives that takes. The loop
      ends at the first frame without the "more" flag, or at a receive that
      times out (which is consumed but adds no frame). */
  function Gather(inbox: seq<Option<Part>>, more: bool): (r: (seq<Frame>, nat))
    ensures r.1 <= |inbox|
    ensures |r.0| <= r.1
    decreases |inbox|
  {
    if !more || inbox == [] then ([], 0)
    else match inbox[0]
      case None => ([], 1)
      case Some(part) =>
        var rest := Gather(inbox[1..], part.more);
        ([part.frame] + rest.0, rest.1 + 1)
  }

  /** The socket entries a peer produces when it relays a multipart message. */
  function Relayed(parts: seq<Part>): (r: seq<Option<Part>>)
    ensures |r| == |parts|
    ensures forall i :: 0 <= i < |parts| ==> r[i] == Some(parts[i])
  {
    seq(|parts|, i requires 0 <= i < |parts| => Some(parts[i]))
  }

  datatype ReceiveError = NullFirstFrame | Undecodable(error: DecodeError)

  /** What a receive returns for `inbox`: a missing first frame is an error
      for a blocking receive and nothing for a poll; otherwise the gathered
      frames are decoded. */
  function Received(p: Protocol, inbox: seq<Option<Part>>, failOnNull: bool): Result<Option<Envelope>, ReceiveError> {
    var frames := Gather(inbox, true).0;
    if frames == [] then
      if failOnNull then Err(NullFirstFrame) else Ok(None)
    else match Decode(p, frames)
      case Err(e) => Err(Undecodable(e))
      case Ok(e) => Ok(Some(e))
  }

  /** The receive loop reads back exactly the frames of a relayed multipart
      message, and nothing that follows it. */
  lemma {:induction false} GatherRelayed(frames: seq<Frame>, rest: seq<Option<Part>>)
    requires frames != []
    ensures Gather(Relayed(Flagged(frames)) + rest, true) == (frames, |frames|)
    decreases |frames|
  {
    var inbox := Relayed(Flagged(frames)) + rest;
    assert inbox[0] == Some(Part(frames[0], |frames| > 1));
    if |frames| == 1 {
      assert Gather(inbox[1..], false) == ([], 0);
      var g := Gather(inbox, true);
      assert g == ([frames[0]] + Gather(inbox[1..], false).0, Gather(inbox[1..], false).1 + 1);
      assert g.0 == [frames[0]] + [];
      assert g.1 == 1;
      assert [frames[0]] + [] == frames;
    } else {
      var tail := frames[1..];
      assert inbox[1..] == Relayed(Flagged(tail)) + rest by {
        assert |inbox[1..]| == |Relayed(Flagged(tail)) + rest|;
        forall i | 0 <= i < |inbox[1..]|
          ensures inbox[1..][i] == (Relayed(Flagged(tail)) + rest)[i]
        {
          if i < |tail| {
            assert inbox[1..][i] == Some(Part(frames[i + 1], i + 1 != |frames| - 1));
          }
        }
      }
      GatherRelayed(tail, rest);
      assert [frames[0]] + tail == frames;
    }
  }

  /** A message sent by one session and relayed intact arrives at a
      session with the same protocol as the message `send` stamped and laid
      out, with the computed signature in place; a poll returns the same. */
  lemma SentIsReceived(p: Protocol, e: Envelope, id: string, userName: Option<string>,
                       rest: seq<Option<Part>>, failOnNull: bool)
    requires Json.Faithful(p.json)
    requires forall i :: 0 <= i < |e.identities| ==> e.identities[i] != Delimiter
    ensures var s := Stamp(Stamped(e, id, userName));
            Received(p, Relayed(Flagged(Encode(p, Stamped(e, id, userName)))) + rest, failOnNull)
            == Ok(Some(s.(signature := Signature(p, JsonFrames(p.json, s)))))
  {
    var stamped := Stamped(e, id, userName);
    var frames := Encode(p, stamped);
    assert stamped.identities == e.identities;
    EncodeLayout(p, stamped);
    GatherRelayed(frames, rest);
    CodecProperties.RoundTrip(p, stamped);
  }

  // ---- Channels ----

  /** The channel kinds; the first three run a background task. */
  datatype ChannelKind = HeartbeatChannel | IoPubChannel | StdinChannel | ShellChannel | ControlChannel

  /** Whether a kind of channel has a running flag. */
  predicate IsRunningKind(k: ChannelKind) {
    k == HeartbeatChannel || k == IoPubChannel || k == StdinChannel
  }

  /** Background work handed to the session's executors. */
  datatype Task = HeartbeatPinger(pinged: Channel) | IoPubPoller(polled: Channel) | StdinPoller(read: Channel)

  datatype ChannelError = BlankAddress
  datatype CloseError = SocketNotDestroyed

  /** The steps of `close`, in the order they are taken. */
  datatype CloseEvent =
    | Stopped(stopped: Channel)
    | ExecutorShutdown(executorTimeout: int)
    | SchedulerShutdown(schedulerTimeout: int)
    | Closed(closed: Channel)
    | ContextDestroyed

  /** The channels with a running flag, in the order given. */
  function RunningOnes(cs: seq<Channel>): (r: seq<Channel>)
    ensures |r| <= |cs|
    ensures forall i :: 0 <= i < |r| ==> r[i] in cs && IsRunningKind(r[i].kind)
  {
    if cs == [] then []
    else RunningOnes(cs[..|cs| - 1]) + if IsRunningKind(cs[|cs| - 1].kind) then [cs[|cs| - 1]] else []
  }

  function StopEvents(stops: seq<Channel>): seq<CloseEvent> {
    seq(|stops|, i requires 0 <= i < |stops| => Stopped(stops[i]))
  }

  function CloseEvents(closes: seq<Channel>): seq<CloseEvent> {
    seq(|closes|, i requires 0 <= i < |closes| => Closed(closes[i]))
  }

  /** The close sequence for channels `cs`: the ones with a running flag
      stopped in order, the two executors shut down with `timeout`, all of
      them closed in the same order, and the context destroyed. */
  function CloseTrace(cs: seq<Channel>, timeout: int): seq<CloseEvent> {
    StopEvents(RunningOnes(cs)) + [ExecutorShutdown(timeout), SchedulerShutdown(timeout)] + CloseEvents(cs) + [ContextDestroyed]
  }

  lemma StopEventsAppend(s: seq<Channel>, c: Channel)
    ensures StopEvents(s + [c]) == StopEvents(s) + [Stopped(c)]
  {
  }

  lemma CloseEventsAppend(s: seq<Channel>, c: Channel)
    ensures CloseEvents(s + [c]) == CloseEvents(s) + [Closed(c)]
  {
  }

  class Channel {
    const address: string
    const session: Session
    const socket: Socket
    const kind: ChannelKind
    var running: bool
    /** Whether the socket is still part of the context (not destroyed). */
    var connected: bool

    /** A channel whose socket is connected to `address`; `running` starts
        as given (always false for a kind without a running flag). */
    constructor (address: string, session: Session, socket: Socket, kind: ChannelKind, initiallyRunning: bool)
      ensures this.address == address && this.session == session && this.socket == socket && this.kind == kind
      ensures running == (initiallyRunning && IsRunningKind(kind)) && connected
    {
      connected := true;
      this.address := address;
      this.session := session;
      this.socket := socket;
      this.kind := kind;
      running := initiallyRunning && IsRunningKind(kind);
    }

    predicate IsRunning()
      reads this
    {
      running
    }

    /** `start`: running from now on, whatever it was. */
    method Start()
      requires IsRunningKind(kind)
      modifies this`running
      ensures running
    {
      running := true;
    }

    /** `stop`: not running from now on, whatever it was. */
    method Stop()
      requires IsRunningKind(kind)
      modifies this`running
      ensures !running
    {
      running := false;
    }

    /** `close`: stops the channel if it runs, then always destroys its
        socket; the outcome says whether that worked. */
    method Close() returns (r: Outcome<CloseError>)
      modifies this`running, this`connected
      ensures !running
      ensures r == if socket.destroyFails then Fail(SocketNotDestroyed) else Pass
      ensures connected == (old(connected) && socket.destroyFails)
    {
      if running {
        running := false;
      }
      r := session.Disconnect(this);
    }
  }

  class Session {
    const id: string
    const userName: Option<string>
    const protocol: Protocol
    const receiveTimeout: int
    /** The channels connected so far, in the order the session's channel
        set yields them; each is listed once. */
    var channels: seq<Channel>
    /** Tasks handed to the cached thread pool. */
    var executed: seq<Task>
    /** Tasks handed to the scheduler, with their fixed delay. */
    var scheduled: seq<(Task, int)>
    /** The close steps taken so far. */
    var closeLog: seq<CloseEvent>
    var contextOpen: bool

    /** The state right after the argument checks pass. */
    constructor Init(id: string, userName: Option<string>, protocol: Protocol, receiveTimeout: int)
      requires receiveTimeout >= -1
      ensures this.id == id && this.userName == userName && this.protocol == protocol
      ensures this.receiveTimeout == receiveTimeout
      ensures channels == [] && executed == [] && scheduled == [] && closeLog == [] && contextOpen
    {
      this.id := id;
      this.userName := userName;
      this.protocol := protocol;
      this.receiveTimeout := receiveTimeout;
      channels := [];
      executed := [];
      scheduled := [];
      closeLog := [];
      contextOpen := true;
    }

    /** `new Session(...)`: the id is a UUID drawn by the caller; the
        arguments are checked first. */
    static method Open(uuid: string, userName: Option<string>, protocol: Protocol,
                       receiveTimeout: int, ioThreads: int) returns (r: Result<Session, SessionError>)
      ensures r.Err? <==> CheckArguments(receiveTimeout, ioThreads).Fail?
      ensures r.Err? ==> r.error == CheckArguments(receiveTimeout, ioThreads).error
      ensures r.Ok? ==> fresh(r.value) && r.value.id == uuid && r.value.userName == userName
                        && r.value.protocol == protocol && r.value.receiveTimeout == receiveTimeout
                        && r.value.channels == [] && r.value.executed == [] && r.value.scheduled == []
                        && r.value.closeLog == [] && r.value.contextOpen
    {
      if receiveTimeout < -1 {
        return Err(InvalidReceiveTimeout);
      }
      if ioThreads < 1 {
        return Err(InvalidIoThreads);
      }
      var s := new Session.Init(uuid, userName, protocol, receiveTimeout);
      return Ok(s);
    }

    /** A channel's constructor with `connect`: a blank address is refused;
        otherwise a new socket is connected to it with the session's receive
        timeout, and the channel joins the session's channels. */
    method Connect(address: string, kind: ChannelKind, initiallyRunning: bool, destroyFails: bool)
      returns (r: Result<Channel, ChannelError>)
      modifies this`channels
      ensures r.Err? <==> IsBlank(Some(address))
      ensures r.Err? ==> channels == old(channels)
      ensures r.Ok? ==> && fresh(r.value) && fresh(r.value.socket)
                        && channels == old(channels) + [r.value]
                        && r.value.address == address && r.value.session == this && r.value.kind == kind
                        && r.value.running == (initiallyRunning && IsRunningKind(kind))
                        && r.value.socket.peer == address && r.value.socket.receiveTimeout == receiveTimeout
                        && r.value.socket.destroyFails == destroyFails && r.value.connected
                        && r.value.socket.inbox == [] && r.value.socket.outbox == []
                        && r.value.socket.subscriptions == [] && !r.value.socket.rcvMore
                        && r.value.socket.budget == 0
    {
      if IsBlank(Some(address)) {
        return Err(BlankAddress);
      }
      var socket := new Socket(address, receiveTimeout, destroyFails);
      var c := new Channel(address, this, socket, kind, initiallyRunning);
      channels := channels + [c];
      return Ok(c);
    }

    /** `disconnect`: destroys the channel's socket. */
    method Disconnect(c: Channel) returns (r: Outcome<CloseError>)
      modifies c`connected
      ensures r == if c.socket.destroyFails then Fail(SocketNotDestroyed) else Pass
      ensures c.connected == (old(c.connected) && c.socket.destroyFails)
    {
      if c.socket.destroyFails {
        r := Fail(SocketNotDestroyed);
      } else {
        c.connected := false;
        r := Pass;
      }
    }

    /** `execute`: hands a task to the thread pool. */
    method Execute(t: Task)
      modifies this`executed
      ensures executed == old(executed) + [t]
    {
      executed := executed + [t];
    }

    /** `scheduleWithFixedDelay`: hands a task to the scheduler. */
    method ScheduleWithFixedDelay(t: Task, delayMillis: int)
      modifies this`scheduled
      ensures scheduled == old(scheduled) + [(t, delayMillis)]
    {
      scheduled := scheduled + [(t, delayMillis)];
    }

    /** `send`: stamps the header, lays the message out, and writes the
        frames. */
    method Send(m: Message, socket: Socket) returns (r: Outcome<SendError>)
      modifies m, socket`budget, socket`outbox
      ensures m.Value() == Stamp(Stamped(old(m.Value()), id, userName))
      ensures var frames := Encode(protocol, Stamped(old(m.Value()), id, userName));
              && r == SendOutcome(|frames|, old(socket.budget))
              && socket.outbox == old(socket.outbox) + Flagged(frames)[..Accepted(|frames|, old(socket.budget))]
              && socket.budget == old(socket.budget) - Accepted(|frames|, old(socket.budget))
    {
      m.WithHeader(m.header.(session := Some(id)));
      if !IsBlank(userName) {
        m.WithHeader(m.header.(username := userName));
      }
      var frames := ToFrames(protocol, m);
      r := WriteFrames(frames, socket);
    }

    /** The loop of `send`: the frames in order, all but the last flagged
        "more". Writing stops at the first frame the peer refuses, which the
        error names. */
    static method WriteFrames(frames: seq<Frame>, socket: Socket) returns (r: Outcome<SendError>)
      modifies socket`budget, socket`outbox
      ensures r == SendOutcome(|frames|, old(socket.budget))
      ensures socket.outbox == old(socket.outbox) + Flagged(frames)[..Accepted(|frames|, old(socket.budget))]
      ensures socket.budget == old(socket.budget) - Accepted(|frames|, old(socket.budget))
    {
      ghost var parts := Flagged(frames);
      for i := 0 to |frames|
        invariant i <= old(socket.budget)
        invariant socket.budget == old(socket.budget) - i
        invariant socket.outbox == old(socket.outbox) + parts[..i]
      {
        var ok := socket.Send(frames[i], i != |frames| - 1);
        if !ok {
          return Fail(FrameNotSent(i));
        }
        assert parts[..i + 1] == parts[..i] + [parts[i]];
      }
      assert parts[..|frames|] == parts;
      return Pass;
    }

    /** The loop of the shared body of `receive` and `poll`: after the
        first frame, more frames while the last one said more follow and the
        receive does not time out. */
    method ReceiveRest(socket: Socket, first: Frame) returns (frames: seq<Frame>)
      modifies socket`inbox, socket`rcvMore
      ensures frames == [first] + Gather(old(socket.inbox), old(socket.rcvMore)).0
      ensures socket.inbox == old(socket.inbox)[Gather(old(socket.inbox), old(socket.rcvMore)).1..]
    {
      frames := [first];
      ghost var consumed := 0;
      while socket.rcvMore
        invariant consumed <= |old(socket.inbox)|
        invariant socket.inbox == old(socket.inbox)[consumed..]
        invariant frames + Gather(socket.inbox, socket.rcvMore).0 == [first] + Gather(old(socket.inbox), old(socket.rcvMore)).0
        invariant consumed + Gather(socket.inbox, socket.rcvMore).1 == Gather(old(socket.inbox), old(socket.rcvMore)).1
        decreases |socket.inbox|
      {
        ghost var before := socket.inbox;
        var frame := socket.Recv();
        if frame.None? {
          assert Gather(before, true).0 == [];
          consumed := consumed + |before| - |socket.inbox|;
          assert consumed == Gather(old(socket.inbox), old(socket.rcvMore)).1;
          break;
        }
        assert before[1..] == socket.inbox;
        frames := frames + [frame.value];
        consumed := consumed + 1;
      }
    }

    /** The shared body of `receive` and `poll`: the first frame, the rest
        of the multipart message, and its decoding. */
    method ReceiveFrames(socket: Socket, failOnNull: bool) returns (r: Result<Option<Message>, ReceiveError>)
      modifies socket`inbox, socket`rcvMore
      ensures socket.inbox == old(socket.inbox)[Gather(old(socket.inbox), true).1..]
      ensures var spec := Received(protocol, old(socket.inbox), failOnNull);
              && (r.Err? <==> spec.Err?)
              && (r.Err? ==> r.error == spec.error)
              && (r.Ok? ==> (r.value.Some? <==> spec.value.Some?))
              && (r.Ok? && r.value.Some? ==> fresh(r.value.value) && r.value.value.Value() == spec.value.value)
    {
      var frame := socket.Recv();
      if frame.None? {
        return if failOnNull then Err(NullFirstFrame) else Ok(None);
      }
      var frames := ReceiveRest(socket, frame.value);
      assert frames == Gather(old(socket.inbox), true).0;
      var decoded := FromFrames(protocol, frames);
      match decoded
      case Err(e) => return Err(Undecodable(e));
      case Ok(message) => return Ok(Some(message));
    }

    /** `receive`: a blocking receive, for which a missing first frame is
        an error. */
    method Receive(socket: Socket) returns (r: Result<Message, ReceiveError>)
      modifies socket`inbox, socket`rcvMore
      ensures socket.inbox == old(socket.inbox)[Gather(old(socket.inbox), true).1..]
      ensures var spec := Received(protocol, old(socket.inbox), true);
              && (r.Err? <==> spec.Err?)
              && (r.Err? ==> r.error == spec.error)
              && (r.Ok? ==> spec.value.Some? && fresh(r.value) && r.value.Value() == spec.value.value)
    {
      var got := ReceiveFrames(socket, true);
      match got
      case Err(e) => return Err(e);
      case Ok(m) =>
        if m.None? {
          assert false;
          return Err(NullFirstFrame);
        }
        return Ok(m.value);
    }

    /** `poll`: a missing first frame means nothing has arrived. */
    method Poll(socket: Socket) returns (r: Result<Option<Message>, ReceiveError>)
      modifies socket`inbox, socket`rcvMore
      ensures socket.inbox == old(socket.inbox)[Gather(old(socket.inbox), true).1..]
      ensures var spec := Received(protocol, old(socket.inbox), false);
              && (r.Err? <==> spec.Err?)
              && (r.Err? ==> r.error == spec.error)
              && (r.Ok? ==> (r.value.Some? <==> spec.value.Some?))
              && (r.Ok? && r.value.Some? ==> fresh(r.value.value) && r.value.value.Value() == spec.value.value)
    {
      r := ReceiveFrames(socket, false);
    }

    /** The first phase of `close`: every channel with a running flag is
        stopped, in the order of the channels. */
    method StopRunningChannels()
      modifies this`closeLog, set c | c in channels
      ensures forall c :: c in channels && IsRunningKind(c.kind) ==> !c.running
      ensures closeLog == old(closeLog) + StopEvents(RunningOnes(channels))
    {
      var all := channels;
      for i := 0 to |all|
        invariant forall j :: 0 <= j < i && IsRunningKind(all[j].kind) ==> !all[j].running
        invariant closeLog == old(closeLog) + StopEvents(RunningOnes(all[..i]))
      {
        var c := all[i];
        assert all[..i + 1][..i] == all[..i];
        if IsRunningKind(c.kind) {
          c.Stop();
          StopEventsAppend(RunningOnes(all[..i]), c);
          closeLog := closeLog + [Stopped(c)];
        }
      }
      assert all[..|all|] == all;
    }

    /** The third phase of `close`: every channel is closed, in the same
        order; a channel that fails to close does not keep the others from
        closing. */
    method CloseChannels()
      modifies this`closeLog, set c | c in channels
      ensures forall c :: c in channels ==> !c.running
      ensures forall c :: c in channels ==> !c.connected || c.socket.destroyFails
      ensures closeLog == old(closeLog) + CloseEvents(channels)
    {
      var all := channels;
      for i := 0 to |all|
        invariant forall j :: 0 <= j < i ==> !all[j].running
        invariant forall j :: 0 <= j < i ==> !all[j].connected || all[j].socket.destroyFails
        invariant closeLog == old(closeLog) + CloseEvents(all[..i])
      {
        var c := all[i];
        var _ := c.Close();
        CloseEventsAppend(all[..i], c);
        assert all[..i + 1] == all[..i] + [c];
        closeLog := closeLog + [Closed(c)];
      }
      assert all[..|all|] == all;
    }

    /** `close`: stops every channel that has a running flag, shuts down
        both executors with the padded timeout, closes every channel and
        destroys the context. */
    method Close()
      modifies this`closeLog, this`contextOpen, set c | c in channels
      ensures forall c :: c in channels ==> !c.running
      ensures forall c :: c in channels ==> !c.connected || c.socket.destroyFails
      ensures !contextOpen
      ensures closeLog == old(closeLog) + CloseTrace(channels, ShutdownTimeoutPadding + receiveTimeout)
    {
      StopRunningChannels();
      var timeout := ShutdownTimeoutPadding + receiveTimeout;
      closeLog := closeLog + [ExecutorShutdown(timeout), SchedulerShutdown(timeout)];
      ghost var stopped := closeLog;
      CloseChannels();
      assert closeLog == stopped + CloseEvents(channels);
      closeLog := closeLog + [ContextDestroyed];
      contextOpen := false;
    }
  }
}
