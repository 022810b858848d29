/** The heartbeat channel: a running channel exactly when its period is
    positive, whose pinger sends a payload and judges the kernel's liveness
    from the echo. */
module Heartbeats {
  import opened Wire
  import opened Transport
  import opened Sessions

  datatype State = Unknown | Up | Down

  datatype PingError = KernelDown | Inconsistent

  /** What a ping concludes from the payload sent and the echo received:
      no echo means the kernel is down, an exact echo means it is up, any
      other echo leaves it unknown; only an exact echo is not a fault. */
  function Verdict(sent: Frame, echo: Option<Frame>): (r: (State, Outcome<PingError>))
    ensures r.0 == Up <==> echo == Some(sent)
    ensures r.0 == Down <==> echo == None
    ensures r.1 == Pass <==> r.0 == Up
    ensures r.1 == Fail(KernelDown) <==> r.0 == Down
  {
    match echo
    case None => (Down, Fail(KernelDown))
    case Some(e) => if e == sent then (Up, Pass) else (Unknown, Fail(Inconsistent))
  }

  /** The echo the next receive yields on `inbox`. */
  function NextEcho(inbox: seq<Option<Part>>): Option<Frame> {
    if inbox == [] || inbox[0].None? then None else Some(inbox[0].value.frame)
  }

  /** The new state depends only on the exchange, so every state can follow
      every state: the transitions are not restricted by the state before. */
  lemma EveryStateReachable(sent: Frame)
    ensures Verdict(sent, None).0 == Down
    ensures Verdict(sent, Some(sent)).0 == Up
    ensures Verdict(sent, Some(sent + [0])).0 == Unknown
  {
    assert sent + [0] != sent by {
      assert |sent + [0]| != |sent|;
    }
  }

  class Heartbeat {
    const channel: Channel
    const periodMillis: int
    var state: State

    constructor (channel: Channel, periodMillis: int)
      requires channel.kind == HeartbeatChannel
      modifies channel.session`scheduled
      ensures this.channel == channel && this.periodMillis == periodMillis && state == Unknown
      ensures channel.session.scheduled == old(channel.session.scheduled)
                + if channel.running then [(HeartbeatPinger(channel), periodMillis)] else []
    {
      this.channel := channel;
      this.periodMillis := periodMillis;
      state := Unknown;
      new;
      if channel.running {
        channel.session.ScheduleWithFixedDelay(HeartbeatPinger(channel), periodMillis);
      }
    }

    /** `new Heartbeat(address, session, period)`: the channel runs, and the
        pinger is scheduled with the period as its delay, exactly when the
        period is positive; the state starts unknown. */
    static method Open(session: Session, address: string, periodMillis: int, destroyFails: bool)
      returns (r: Result<Heartbeat, ChannelError>)
      modifies session`channels, session`scheduled
      ensures r.Err? <==> IsBlank(Some(address))
      ensures r.Err? ==> session.channels == old(session.channels) && session.scheduled == old(session.scheduled)
      ensures r.Ok? ==> && fresh(r.value) && fresh(r.value.channel)
                        && r.value.state == Unknown
                        && r.value.channel.session == session && r.value.channel.kind == HeartbeatChannel
                        && r.value.channel.address == address
                        && session.channels == old(session.channels) + [r.value.channel]
                        && (r.value.channel.running <==> periodMillis > 0)
                        && session.scheduled == old(session.scheduled)
                           + if periodMillis > 0 then [(HeartbeatPinger(r.value.channel), periodMillis)] else []
    {
      var c := session.Connect(address, HeartbeatChannel, periodMillis > 0, destroyFails);
      if c.Err? {
        return Err(c.error);
      }
      var h := new Heartbeat(c.value, periodMillis);
      return Ok(h);
    }

    /** `ping`: sends the payload (a refused write is not noticed), reads
        the echo, and sets the state from the exchange alone. */
    method Ping(payload: Frame) returns (r: Outcome<PingError>)
      modifies this`state, channel.socket`budget, channel.socket`outbox, channel.socket`inbox, channel.socket`rcvMore
      ensures (state, r) == Verdict(payload, NextEcho(old(channel.socket.inbox)))
      ensures channel.socket.outbox == old(channel.socket.outbox) + if old(channel.socket.budget) > 0 then [Part(payload, false)] else []
      ensures channel.socket.inbox == if old(channel.socket.inbox) == [] then [] else old(channel.socket.inbox)[1..]
    {
      var _ := channel.socket.Send(payload, false);
      var echo := channel.socket.Recv();
      var v := Verdict(payload, echo);
      state := v.0;
      r := v.1;
    }

    /** `HeartbeatPinger.run`: nothing when the channel is not running;
        otherwise one ping whose fault is swallowed, so the scheduled runs
        that follow still happen. */
    method PingerRun(payload: Frame)
      modifies this`state, channel.socket`budget, channel.socket`outbox, channel.socket`inbox, channel.socket`rcvMore
      ensures !channel.running ==> state == old(state) && unchanged(channel.socket)
      ensures channel.running ==> state == Verdict(payload, NextEcho(old(channel.socket.inbox))).0
      ensures channel.running ==> channel.socket.outbox == old(channel.socket.outbox) + if old(channel.socket.budget) > 0 then [Part(payload, false)] else []
    {
      if !channel.running {
        return;
      }
      var _ := Ping(payload);
    }
  }
}
