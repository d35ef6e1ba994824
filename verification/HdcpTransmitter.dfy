/**
 The HDCP 2.2 transmitter of msm/sde_hdcp_2x.c: the handlers its thread runs, as functions of the
 control structure, and the class that performs them in place.

 TrustZone, the client's response times and the client's STOP are an arbitrary environment: a
 stream of answers, one consumed at each point where the code asks.  Every read of `hdcp_off` is such
 a point, because the client's thread may have set it a moment before.
 */
module HdcpTransmitter {
  import opened HdcpMessages

  datatype Answer = Answer(
    stop: bool,       // the client switched HDCP off just before this point
    ok: bool,         // the TrustZone call succeeded
    reply: Msg,       // first byte of its response; Invalid when the response is empty
    repeater: bool,   // its repeater flag
    empty: bool,      // the received message has no length
    timedOut: bool)   // the wait for the client expired

  type Env = nat -> Answer

  // struct sde_hdcp_2x_ctrl; `prepared` is app_data.response.data[0].
  datatype Ctrl = Ctrl(
    last: Msg, noStoredKm: bool, repeater: bool, updateStream: bool, authenticated: bool,
    resendLcInit: bool, resendManage: bool, off: bool, prepared: Msg,
    stopAsked: bool, clock: nat, history: seq<Event>, enablePending: bool)

  function Log(c: Ctrl, e: Event): Ctrl {
    c.(history := c.history + [e])
  }

  // One question to the environment.
  function Tick(c: Ctrl): Ctrl {
    c.(clock := c.clock + 1)
  }

  function ReadOff(c: Ctrl, env: Env): (d: Ctrl)
    ensures c.off ==> d.off
  {
    if env(c.clock).stop then Log(Tick(c), Stopped).(off := true, stopAsked := true) else Tick(c)
  }

  predicate Waits(c: Ctrl) {
    || c.last == AkeSendHPrime || c.last == AkeSendPairingInfo
    || (c.last == RepSendRecvIdList && !c.authenticated)
  }

  // The measure of the cycle of waking the client, waiting for it and cleaning up.
  function Rank(c: Ctrl): nat {
    if c.off then 0 else 1
  }

  // sde_hdcp_2x_wait_for_response
  function WaitForResponse(c: Ctrl, env: Env): Ctrl
    decreases Rank(c), 1
  {
    if !Waits(c) then c
    else
      var c1 := ReadOff(c, env);
      if c1.off || !env(c1.clock).timedOut then (if c1.off then c1 else Tick(c1))
      else
        var c2 := ReadOff(Tick(c1), env);
        if c2.off then c2 else Clean(c2, env)
  }

  // The choice of message at the head of sde_hdcp_2x_wakeup_client.
  function Pick(c: Ctrl, cmd: Cmd): (d: Ctrl)
    ensures d.clock == c.clock
  {
    if !Exchanges(cmd) then Log(c, if cmd == StatusFailed then Failure else Success)
    else
      var m := NextMessage(c.last, c.noStoredKm, c.resendLcInit, c.repeater, cmd);
      var c1 := c.(last := m, resendManage := c.resendManage && c.last != RepStreamManage);
      if m == Invalid then c1 else Log(c1, if cmd == Send then Sent(m, c.prepared, c.off) else Asked(cmd, m))
  }

  // sde_hdcp_2x_wakeup_client
  function WakeupClient(c: Ctrl, cmd: Cmd, env: Env): Ctrl
    decreases Rank(c), 2
  {
    var c1 := Pick(c, cmd);
    if Exchanges(cmd) && c1.last == Invalid then c1 else WaitForResponse(c1, env)
  }

  // sde_hdcp_2x_clean, without its stream list
  function Clean(c: Ctrl, env: Env): Ctrl
    decreases Rank(c), 0
  {
    var c1 := ReadOff(c.(authenticated := false), env);
    if c1.off then c1 else WakeupClient(c1.(off := true), StatusFailed, env)
  }

  function CleanUnlessOff(c: Ctrl, env: Env): Ctrl {
    var c1 := ReadOff(c, env);
    if c1.off then c1 else Clean(c1, env)
  }

  function Init(c: Ctrl, env: Env): Ctrl {
    if env(c.clock).ok then Tick(c) else Clean(Tick(c), env)
  }

  function StartAuth(c: Ctrl, env: Env): Ctrl {
    if env(c.clock).ok then WakeupClient(Tick(c).(prepared := AkeInit), Send, env) else Clean(Tick(c), env)
  }

  function SendType(c: Ctrl, env: Env): Ctrl {
    var c1 := ReadOff(c, env);
    if c1.off || c1.repeater then c1
    else
      var c2 := ReadOff(c1.(prepared := SkeSendTypeId), env);
      if c2.off then c2 else WakeupClient(c2, Send, env)
  }

  function QueryStream(c: Ctrl, env: Env): Ctrl {
    var c1 := ReadOff(c, env);
    if c1.off || !c1.repeater || (!c1.authenticated && c1.prepared != RepSendAck) then c1
    else if !env(c1.clock).ok then Tick(c1)
    else
      var c2 := ReadOff(Tick(c1).(prepared := RepStreamManage), env);
      if c2.off then c2 else WakeupClient(c2.(last := RepSendAck), Send, env)
  }

  // HDCP2_CMD_EN_ENCRYPTION succeeded
  function SwitchOn(c: Ctrl, env: Env): Ctrl {
    WakeupClient(Log(c, Encrypted).(authenticated := true), StatusSuccess, env)
  }

  // sde_hdcp_2x_msg_sent
  function MsgSent(c: Ctrl, env: Env): Ctrl {
    var c1 := ReadOff(c, env);
    if c1.off then c1
    else match c1.prepared
      case SkeSendTypeId =>
        var c2 := if env(c1.clock).ok then SwitchOn(Tick(c1), env) else Tick(c1);
        WakeupClient(c2, LinkPoll, env)
      case SkeSendEks =>
        if c1.repeater then
          var c2 := ReadOff(c1, env);
          if c2.off then WakeupClient(c2.(prepared := SkeSendTypeId), Send, env)
          else WakeupClient(c2, LinkPoll, env)
        else WakeupClient(c1.(prepared := SkeSendTypeId), Send, env)
      case RepSendAck =>
        if c1.updateStream then QueryStream(c1, env).(updateStream := false)
        else WakeupClient(c1, LinkPoll, env)
      case _ => WakeupClient(c1, Recv, env)
  }

  // The part of sde_hdcp_2x_msg_recvd after a good stream-ready message.
  function StreamReady(c: Ctrl, env: Env): Ctrl {
    if c.resendManage || c.authenticated then WakeupClient(c, LinkPoll, env)
    else if env(c.clock).ok then WakeupClient(SwitchOn(Tick(c), env), LinkPoll, env)
    else CleanUnlessOff(WakeupClient(Tick(c), LinkPoll, env), env)
  }

  // What the transmitter remembers of TrustZone's answer `out` to the sink's message m.
  function Digest(c: Ctrl, m: Msg, out: Msg, repeater: bool): Ctrl {
    c.(resendLcInit := m == LcSendLPrime && out == LcInit,
       noStoredKm := out == AkeNoStoredKm,
       repeater := if out == SkeSendEks then repeater else c.repeater,
       updateStream := c.updateStream || out == SkeSendEks)
  }

  // The part of sde_hdcp_2x_msg_recvd that sends on what TrustZone prepared.
  function SendReply(c: Ctrl, m: Msg, out: Msg, repeater: bool, env: Env): Ctrl {
    var c1 := ReadOff(Digest(c, m, out, repeater), env);
    if c1.off then c1 else WakeupClient(c1, Send, env)
  }

  // TrustZone accepts message m of the sink and answers it with `out`.
  function Answered(c: Ctrl, m: Msg, out: Msg): Ctrl {
    Log(c, Accepted(m, out)).(prepared := if out == Invalid then c.prepared else out)
  }

  // The part of sde_hdcp_2x_msg_recvd after that.
  function Onward(c: Ctrl, out: Msg, rep: bool, env: Env): Ctrl {
    var c2 := Answered(c, c.last, out);
    if c.last == AkeSendHPrime && c.noStoredKm then WakeupClient(c2, Recv, env)
    else if c.last == RepStreamReady && out != RepStreamManage then StreamReady(c2, env)
    else SendReply(c2, c.last, out, rep, env)
  }

  // sde_hdcp_2x_msg_recvd on DisplayPort, where the id of the received message is last_msg.
  function MsgRecvd(c: Ctrl, env: Env): Ctrl {
    var c1 := ReadOff(c, env);
    if c1.off then c1
    else
      var a := env(c1.clock);
      if a.empty then Tick(c1)
      else if !a.ok || !Replies(c1.last, c1.noStoredKm, a.reply) then CleanUnlessOff(Tick(c1), env)
      else Onward(Tick(c1), a.reply, a.repeater, env)
  }

  // The end of sde_hdcp_2x_manage_stream; the environment says whether a stream changed.
  function ManageStream(c: Ctrl, env: Env): Ctrl {
    if !env(c.clock).ok then Tick(c)
    else if c.authenticated then QueryStream(Tick(c), env)
    else if c.last == RepStreamManage || c.last == RepStreamReady then Tick(c).(resendManage := true)
    else Tick(c)
  }

  // ----- Commands -----

  datatype Wakeup =
    | Enable | Disable | Start | StartAuthentication | Stop | SendSuccess | SendFailed | RecvSuccess
    | RecvFailed | QueryStreamType | LinkFailed | MinEncLevel | ChangeStreams

  // The command switch of sde_hdcp_2x_main.
  function Handle(c: Ctrl, w: Wakeup, env: Env): Ctrl {
    match w
    case Enable => c.(enablePending := false)
    case Disable => c
    case Start => Init(c, env)
    case Stop => Clean(c, env)
    case StartAuthentication => StartAuth(c, env)
    case SendSuccess => MsgSent(c, env)
    case SendFailed => Clean(c, env)
    case RecvFailed => Clean(c, env)
    case LinkFailed => Clean(c, env)
    case RecvSuccess => MsgRecvd(c, env)
    case QueryStreamType => QueryStream(c, env)
    case MinEncLevel => if !c.repeater then SendType(c, env) else QueryStream(c, env)
    case ChangeStreams => ManageStream(c, env)
  }

  // What sde_hdcp_2x_wakeup changes at once, on the client's thread.
  function AtWakeup(c: Ctrl, w: Wakeup): Ctrl {
    match w
    case Start =>
      c.(noStoredKm := false, repeater := false, updateStream := false, authenticated := false,
         last := Invalid, off := false, history := [])
    case Stop => Log(c, Stopped).(off := true)
    case Disable => Log(c, Stopped).(off := true)
    case Enable => c.(enablePending := true)
    case _ => c
  }

  // What it puts in the command queue.
  function Enqueued(c: Ctrl, w: Wakeup): seq<Wakeup> {
    match w
    case Enable => if c.enablePending then [] else [Enable]
    case Disable => if c.off then [Disable] else [Stop, Disable]
    case MinEncLevel => if c.authenticated then [MinEncLevel] else []
    case _ => [w]
  }
}
