/**
 Within a session nothing is taken back: what every handler of the HDCP 2.2 transmitter leaves in the
 history, whatever the state it is called in, and the only handler that can tear a message.
 */
module HdcpLater {
  import opened HdcpMessages
  import opened HdcpTransmitter
  import opened HdcpSession

  function Tears(e: Event): nat {
    if Torn(e) then 1 else 0
  }

  function TornCount(h: seq<Event>): nat {
    if h == [] then 0 else TornCount(h[..|h| - 1]) + Tears(h[|h| - 1])
  }

  // The history grows, the count of messages handed over only rises, encryption once on stays on, and so
  // does hdcp_off; n more messages are torn.
  ghost predicate Later(c: Ctrl, d: Ctrl, n: nat) {
    && c.history <= d.history
    && SentCount(c.history) <= SentCount(d.history)
    && (EncryptionOn(StageOf(c.history)) ==> EncryptionOn(StageOf(d.history)))
    && (c.off ==> d.off)
    && TornCount(d.history) == TornCount(c.history) + n
  }

  // Waking the client tears a message only with the stream type prepared and HDCP off.
  function TornBy(c: Ctrl, cmd: Cmd): nat {
    if cmd == Send && c.off && c.prepared == SkeSendTypeId
       && NextMessage(c.last, c.noStoredKm, c.resendLcInit, c.repeater, Send) != Invalid then 1 else 0
  }

  // The client stops between the two reads of hdcp_off in sde_hdcp_2x_msg_sent, the key message having
  // been sent to a repeater.
  predicate StopTears(c: Ctrl, env: Env) {
    !c.off && c.repeater && c.prepared == SkeSendEks && !env(c.clock).stop && env(c.clock + 1).stop
  }

  lemma {:induction false} LogLater(c: Ctrl, e: Event)
    ensures Later(c, Log(c, e), Tears(e))
  {
    SentSnoc(c.history, e);
    StageSnoc(c.history, e);
    assert (c.history + [e])[..|c.history|] == c.history;
  }

  lemma {:induction false} ReadOffLater(c: Ctrl, env: Env)
    ensures Later(c, ReadOff(c, env), 0)
  {
    hide StageOf, SentCount, TornCount;
    LogLater(Tick(c), Stopped);
  }

  lemma {:induction false} CleanLater(c: Ctrl, env: Env)
    ensures Later(c, Clean(c, env), 0)
  {
    hide StageOf, SentCount, TornCount, Clean, ReadOff;
    CleanSteps(c, env);
    var c0 := c.(authenticated := false);
    var c1 := ReadOff(c0, env);
    ReadOffLater(c0, env);
    LogLater(c1.(off := true), Failure);
    ReadOffLater(Log(c1.(off := true), Failure), env);
  }

  lemma {:induction false} WaitLater(c: Ctrl, env: Env)
    ensures Later(c, WaitForResponse(c, env), 0)
  {
    hide StageOf, SentCount, TornCount, Clean, ReadOff, WakeupClient;
    var c1 := ReadOff(c, env);
    ReadOffLater(c, env);
    ReadOffLater(Tick(c1), env);
    CleanLater(ReadOff(Tick(c1), env), env);
  }

  lemma {:induction false} WakeupLater(c: Ctrl, cmd: Cmd, env: Env)
    ensures Later(c, WakeupClient(c, cmd, env), TornBy(c, cmd))
  {
    hide StageOf, SentCount, TornCount, Clean, ReadOff, WaitForResponse;
    PickLater(c, cmd);
    WaitLater(Pick(c, cmd), env);
  }

  lemma {:induction false} PickLater(c: Ctrl, cmd: Cmd)
    ensures Later(c, Pick(c, cmd), TornBy(c, cmd))
  {
    hide StageOf, SentCount, TornCount, NextMessage;
    if !Exchanges(cmd) {
      LogLater(c, if cmd == StatusFailed then Failure else Success);
    } else {
      var m := NextMessage(c.last, c.noStoredKm, c.resendLcInit, c.repeater, cmd);
      var c1 := c.(last := m, resendManage := c.resendManage && c.last != RepStreamManage);
      LogLater(c1, if cmd == Send then Sent(m, c.prepared, c.off) else Asked(cmd, m));
    }
  }

  lemma {:induction false} SwitchOnLater(c: Ctrl, env: Env)
    ensures Later(c, SwitchOn(c, env), 0)
  {
    hide StageOf, SentCount, TornCount, WakeupClient;
    LogLater(c, Encrypted);
    WakeupLater(Log(c, Encrypted).(authenticated := true), StatusSuccess, env);
  }

  lemma {:induction false} QueryStreamLater(c: Ctrl, env: Env)
    ensures Later(c, QueryStream(c, env), 0)
  {
    hide StageOf, SentCount, TornCount, WakeupClient, ReadOff;
    var c1 := ReadOff(c, env);
    var c2 := Tick(c1).(prepared := RepStreamManage);
    ReadOffLater(c, env);
    ReadOffLater(c2, env);
    WakeupLater(ReadOff(c2, env).(last := RepSendAck), Send, env);
  }

  lemma {:induction false} SendTypeLater(c: Ctrl, env: Env)
    ensures Later(c, SendType(c, env), 0)
  {
    hide StageOf, SentCount, TornCount, WakeupClient, ReadOff;
    var c1 := ReadOff(c, env).(prepared := SkeSendTypeId);
    ReadOffLater(c, env);
    ReadOffLater(c1, env);
    WakeupLater(ReadOff(c1, env), Send, env);
  }

  lemma ReadOffIs(c: Ctrl, env: Env)
    ensures var d := ReadOff(c, env);
      && d.off == (c.off || env(c.clock).stop) && d.clock == c.clock + 1
      && d.prepared == c.prepared && d.repeater == c.repeater && d.last == c.last && d.updateStream == c.updateStream
  {
  }

  // The report that the key message was sent.
  lemma {:induction false} EksSentLater(c: Ctrl, env: Env)
    requires !c.off && c.prepared == SkeSendEks
    ensures
      Later(c,
            if c.repeater then
              var c2 := ReadOff(c, env);
              if c2.off then WakeupClient(c2.(prepared := SkeSendTypeId), Send, env)
              else WakeupClient(c2, LinkPoll, env)
            else WakeupClient(c.(prepared := SkeSendTypeId), Send, env),
            if c.repeater && env(c.clock).stop then 1 else 0)
  {
    hide StageOf, SentCount, TornCount, WakeupClient, ReadOff;
    var c2 := ReadOff(c, env);
    ReadOffIs(c, env);
    ReadOffLater(c, env);
    WakeupLater(c2.(prepared := SkeSendTypeId), Send, env);
    WakeupLater(c2, LinkPoll, env);
    WakeupLater(c.(prepared := SkeSendTypeId), Send, env);
  }

  lemma {:induction false} MsgSentLater(c: Ctrl, env: Env)
    ensures Later(c, MsgSent(c, env), if StopTears(c, env) then 1 else 0)
  {
    hide StageOf, SentCount, TornCount, WakeupClient, ReadOff, QueryStream, SwitchOn;
    var c1 := ReadOff(c, env);
    ReadOffIs(c, env);
    ReadOffLater(c, env);
    if !c1.off {
      if c1.prepared == SkeSendEks {
        EksSentLater(c1, env);
      } else {
        OtherSentLater(c1, env);
      }
    }
  }

  // The report that another message was sent.
  lemma {:induction false} OtherSentLater(c: Ctrl, env: Env)
    requires c.prepared != SkeSendEks
    ensures
      Later(c,
            if c.prepared == SkeSendTypeId then
              WakeupClient(if env(c.clock).ok then SwitchOn(Tick(c), env) else Tick(c), LinkPoll, env)
            else if c.prepared == RepSendAck then
              if c.updateStream then QueryStream(c, env).(updateStream := false) else WakeupClient(c, LinkPoll, env)
            else WakeupClient(c, Recv, env), 0)
  {
    hide StageOf, SentCount, TornCount, WakeupClient, QueryStream, SwitchOn;
    if c.prepared == SkeSendTypeId {
      SwitchOnLater(Tick(c), env);
      WakeupLater(if env(c.clock).ok then SwitchOn(Tick(c), env) else Tick(c), LinkPoll, env);
    } else {
      QueryStreamLater(c, env);
      WakeupLater(c, LinkPoll, env);
      WakeupLater(c, Recv, env);
    }
  }

  lemma {:induction false} CleanUnlessOffLater(c: Ctrl, env: Env)
    ensures Later(c, CleanUnlessOff(c, env), 0)
  {
    hide StageOf, SentCount, TornCount, Clean, ReadOff;
    ReadOffLater(c, env);
    CleanLater(ReadOff(c, env), env);
  }

  lemma LaterStill(c: Ctrl, d: Ctrl, e: Ctrl)
    requires Later(c, d, 0) && Later(d, e, 0)
    ensures Later(c, e, 0)
  {
    hide StageOf, SentCount, TornCount;
  }

  lemma TickLater(c: Ctrl)
    ensures Later(c, Tick(c), 0)
  {
    hide StageOf, SentCount, TornCount;
  }

  lemma {:induction false} StreamReadyLater(c: Ctrl, env: Env)
    ensures Later(c, StreamReady(c, env), 0)
  {
    hide StageOf, SentCount, TornCount, WakeupClient, SwitchOn, CleanUnlessOff, Later;
    TickLater(c);
    if c.resendManage || c.authenticated {
      WakeupLater(c, LinkPoll, env);
    } else if env(c.clock).ok {
      SwitchOnLater(Tick(c), env);
      WakeupLater(SwitchOn(Tick(c), env), LinkPoll, env);
      LaterStill(c, Tick(c), SwitchOn(Tick(c), env));
      LaterStill(c, SwitchOn(Tick(c), env), StreamReady(c, env));
    } else {
      var d := WakeupClient(Tick(c), LinkPoll, env);
      WakeupLater(Tick(c), LinkPoll, env);
      CleanUnlessOffLater(d, env);
      LaterStill(c, Tick(c), d);
      LaterStill(c, d, StreamReady(c, env));
    }
  }

  lemma {:induction false} SendReplyLater(c: Ctrl, m: Msg, out: Msg, rep: bool, env: Env)
    ensures Later(c, SendReply(c, m, out, rep, env), 0)
  {
    hide StageOf, SentCount, TornCount, WakeupClient, ReadOff;
    var c1 := Digest(c, m, out, rep);
    ReadOffLater(c1, env);
    WakeupLater(ReadOff(c1, env), Send, env);
  }

  lemma {:induction false} OnwardLater(c: Ctrl, out: Msg, rep: bool, env: Env)
    ensures Later(c, Onward(c, out, rep, env), 0)
  {
    hide StageOf, SentCount, TornCount, WakeupClient, StreamReady, SendReply;
    var c2 := Answered(c, c.last, out);
    LogLater(c, Accepted(c.last, out));
    WakeupLater(c2, Recv, env);
    StreamReadyLater(c2, env);
    SendReplyLater(c2, c.last, out, rep, env);
  }

  lemma {:induction false} MsgRecvdLater(c: Ctrl, env: Env)
    ensures Later(c, MsgRecvd(c, env), 0)
  {
    hide StageOf, SentCount, TornCount, CleanUnlessOff, WakeupClient, StreamReady, SendReply, ReadOff, Replies;
    var c1 := ReadOff(c, env);
    var a := env(c1.clock);
    ReadOffLater(c, env);
    CleanUnlessOffLater(Tick(c1), env);
    OnwardLater(Tick(c1), a.reply, a.repeater, env);
  }

  lemma {:induction false} HandleLater(c: Ctrl, w: Wakeup, env: Env)
    ensures Later(c, Handle(c, w, env), if w == SendSuccess && StopTears(c, env) then 1 else 0)
  {
    hide StageOf, SentCount, TornCount, Clean, WakeupClient, QueryStream, MsgSent, MsgRecvd, SendType, StopTears;
    match w {
      case Enable =>
      case Disable =>
      case Start => CleanLater(Tick(c), env);
      case StartAuthentication =>
        CleanLater(Tick(c), env);
        WakeupLater(Tick(c).(prepared := AkeInit), Send, env);
      case SendSuccess => MsgSentLater(c, env);
      case RecvSuccess => MsgRecvdLater(c, env);
      case QueryStreamType => QueryStreamLater(c, env);
      case MinEncLevel =>
        QueryStreamLater(c, env);
        SendTypeLater(c, env);
      case ChangeStreams => QueryStreamLater(Tick(c), env);
      case _ => CleanLater(c, env);
    }
  }
}
