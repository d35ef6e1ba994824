/**
 struct sde_hdcp_2x_ctrl and the functions that update it in place, each proved to take the structure
 where the transmitter's functions say.  The mutual recursion of waking the client, waiting for its
 answer and cleaning up ends because cleaning up only wakes the client after switching HDCP off.
 */
module HdcpDriver {
  import opened HdcpMessages
  import T = HdcpTransmitter

  // the message taken, and what is then logged of the command
  function Taken(c: T.Ctrl, cmd: Cmd): T.Ctrl {
    if !Exchanges(cmd) then c
    else
      c.(last := NextMessage(c.last, c.noStoredKm, c.resendLcInit, c.repeater, cmd),
         resendManage := c.resendManage && c.last != RepStreamManage)
  }

  lemma PickIs(c: T.Ctrl, cmd: Cmd)
    ensures !Exchanges(cmd) ==> Taken(c, cmd) == c
    ensures var t := Taken(c, cmd);
      T.Pick(c, cmd) ==
        if cmd == StatusFailed then T.Log(t, Failure)
        else if cmd == StatusSuccess then T.Log(t, Success)
        else if t.last == Invalid then t
        else T.Log(t, if cmd == Send then Sent(t.last, t.prepared, t.off) else Asked(cmd, t.last))
  {
    hide NextMessage;
  }

  class Hdcp2x {
    var last: Msg
    var noStoredKm: bool
    var repeater: bool
    var updateStream: bool
    var authenticated: bool
    var resendLcInit: bool
    var resendManage: bool
    var off: bool
    var prepared: Msg
    var stopAsked: bool
    var clock: nat
    var history: seq<Event>
    var enablePending: bool

    function View(): T.Ctrl
      reads this
    {
      T.Ctrl(last, noStoredKm, repeater, updateStream, authenticated, resendLcInit, resendManage, off,
             prepared, stopAsked, clock, history, enablePending)
    }

    // atomic_read(&hdcp->hdcp_off), which the client's thread may have set meanwhile
    method ReadOff(env: T.Env) returns (isOff: bool)
      modifies this
      ensures View() == T.ReadOff(old(View()), env) && isOff == off
    {
      if env(clock).stop {
        off, stopAsked, history := true, true, history + [Stopped];
      }
      clock := clock + 1;
      isOff := off;
    }

    // a question to TrustZone, or the wait for the client's answer
    method Ask(env: T.Env) returns (a: T.Answer)
      modifies this
      ensures a == env(old(clock)) && View() == T.Tick(old(View()))
    {
      a := env(clock);
      clock := clock + 1;
    }

    method GetNextMessage(cmd: Cmd) returns (m: Msg)
      modifies this
      ensures m == NextMessage(old(last), old(noStoredKm), old(resendLcInit), old(repeater), cmd)
      ensures View() == old(View()).(resendManage := old(resendManage) && old(last) != RepStreamManage)
    {
      match last {
        case Invalid => m := AkeInit;
        case AkeInit => m := AkeSendCert;
        case AkeSendCert => m := if noStoredKm then AkeNoStoredKm else AkeStoredKm;
        case AkeStoredKm => m := AkeSendHPrime;
        case AkeNoStoredKm => m := AkeSendHPrime;
        case AkeSendHPrime => m := if noStoredKm then AkeSendPairingInfo else LcInit;
        case AkeSendPairingInfo => m := LcInit;
        case LcInit => m := LcSendLPrime;
        case LcSendLPrime => m := if resendLcInit then LcInit else SkeSendEks;
        case RepSendRecvIdList => m := RepSendAck;
        case RepStreamManage =>
          resendManage := false;
          m := RepStreamReady;
        case _ =>
          if !repeater {
            m := if last == SkeSendEks || last == SkeSendTypeId then SkeSendTypeId else Invalid;
          } else if cmd == Send {
            m := RepStreamManage;
          } else {
            m := RepSendRecvIdList;
          }
      }
    }

    method WaitForResponse(env: T.Env)
      modifies this
      ensures View() == T.WaitForResponse(old(View()), env)
      decreases if off then 0 else 1, 1
    {
      hide T.Clean, T.WakeupClient, T.ReadOff, NextMessage;
      if last != AkeSendHPrime && last != AkeSendPairingInfo && (last != RepSendRecvIdList || authenticated) {
        return;
      }
      var isOff := ReadOff(env);
      if isOff { return; }
      var a := Ask(env);
      if a.timedOut {
        isOff := ReadOff(env);
        if !isOff {
          Clean(env);
        }
      }
    }

    // hdcp->last_msg = sde_hdcp_2x_get_next_message(hdcp, cmd)
    method TakeNext(cmd: Cmd)
      requires Exchanges(cmd)
      modifies this
      ensures View() == Taken(old(View()), cmd) && off == old(off)
    {
      hide NextMessage;
      last := GetNextMessage(cmd);
    }

    // the history is the model's own
    method Record(e: Event)
      modifies this
      ensures View() == T.Log(old(View()), e) && last == old(last) && off == old(off)
    {
      history := history + [e];
    }

    // the head of sde_hdcp_2x_wakeup_client, up to client_ops->wakeup
    method Pick(cmd: Cmd) returns (wakes: bool)
      modifies this
      ensures View() == T.Pick(old(View()), cmd)
      ensures wakes == !(Exchanges(cmd) && last == Invalid) && off == old(off)
    {
      hide T.Log, T.Pick, Taken;
      PickIs(View(), cmd);
      if cmd == Send || cmd == Recv || cmd == LinkPoll {
        TakeNext(cmd);
        if last == Invalid { return false; }
      }
      wakes := true;
      if cmd == Send {
        Record(Sent(last, prepared, off));
      } else if cmd == StatusSuccess {
        Record(Success);
      } else if cmd == StatusFailed {
        Record(Failure);
      } else {
        Record(Asked(cmd, last));
      }
    }

    method WakeupClient(cmd: Cmd, env: T.Env)
      modifies this
      ensures View() == T.WakeupClient(old(View()), cmd, env)
      decreases if off then 0 else 1, 2
    {
      hide T.WaitForResponse, T.Clean, T.Pick;
      var wakes := Pick(cmd);
      if wakes {
        WaitForResponse(env);
      }
    }

    method Clean(env: T.Env)
      modifies this
      ensures View() == T.Clean(old(View()), env)
      decreases if off then 0 else 1, 0
    {
      authenticated := false;
      var wasOff := ReadOff(env);
      if !wasOff {
        off := true;
        WakeupClient(StatusFailed, env);
      }
    }

    // app_data.response.data[0] = m
    method Prepare(m: Msg)
      modifies this
      ensures View() == old(View()).(prepared := m)
    {
      prepared := m;
    }

    // hdcp->last_msg = m
    method SetLast(m: Msg)
      modifies this
      ensures View() == old(View()).(last := m)
    {
      last := m;
    }

    method StartAuth(env: T.Env)
      modifies this
      ensures View() == T.StartAuth(old(View()), env)
    {
      hide T.WakeupClient, T.Clean, T.WaitForResponse;
      var a := Ask(env);
      if !a.ok {
        Clean(env);
        return;
      }
      Prepare(AkeInit);
      WakeupClient(Send, env);
    }

    method SendType(env: T.Env)
      modifies this
      ensures View() == T.SendType(old(View()), env)
    {
      hide T.WakeupClient, T.ReadOff, T.Clean, T.WaitForResponse;
      var isOff := ReadOff(env);
      if isOff || repeater { return; }
      Prepare(SkeSendTypeId);
      isOff := ReadOff(env);
      if !isOff {
        WakeupClient(Send, env);
      }
    }

    method QueryStream(env: T.Env)
      modifies this
      ensures View() == T.QueryStream(old(View()), env)
    {
      hide T.WakeupClient, T.ReadOff, T.Clean, T.WaitForResponse;
      var isOff := ReadOff(env);
      if isOff || !repeater { return; }
      if !authenticated && prepared != RepSendAck { return; }
      var a := Ask(env);
      if !a.ok { return; }
      Prepare(RepStreamManage);
      isOff := ReadOff(env);
      if !isOff {
        SetLast(RepSendAck);
        WakeupClient(Send, env);
      }
    }

    // HDCP2_CMD_EN_ENCRYPTION succeeded
    method SwitchOn(env: T.Env)
      modifies this
      ensures View() == T.SwitchOn(old(View()), env)
    {
      history := history + [Encrypted];
      authenticated := true;
      WakeupClient(StatusSuccess, env);
    }

    method MsgSent(env: T.Env)
      modifies this
      ensures View() == T.MsgSent(old(View()), env)
    {
      hide T.WakeupClient, T.ReadOff, T.Clean, T.WaitForResponse, T.QueryStream, T.SwitchOn;
      var isOff := ReadOff(env);
      if isOff { return; }
      match prepared {
        case SkeSendTypeId =>
          var a := Ask(env);
          if a.ok {
            SwitchOn(env);
          }
          WakeupClient(LinkPoll, env);
        case SkeSendEks => EksSent(env);
        case RepSendAck =>
          if updateStream {
            QueryStream(env);
            updateStream := false;
          } else {
            WakeupClient(LinkPoll, env);
          }
        case _ =>
          WakeupClient(Recv, env);
      }
    }

    // the key message was sent: poll a repeater, hand a receiver the stream type
    method EksSent(env: T.Env)
      modifies this
      ensures var c, d := old(View()), T.ReadOff(old(View()), env);
        View() ==
          if c.repeater && !d.off then T.WakeupClient(d, LinkPoll, env)
          else T.WakeupClient((if c.repeater then d else c).(prepared := SkeSendTypeId), Send, env)
    {
      hide T.WakeupClient, T.ReadOff, T.Clean, T.WaitForResponse;
      var poll := repeater;
      if poll {
        var isOff := ReadOff(env);
        poll := !isOff;
      }
      if poll {
        WakeupClient(LinkPoll, env);
      } else {
        Prepare(SkeSendTypeId);
        WakeupClient(Send, env);
      }
    }

    method CleanUnlessOff(env: T.Env)
      modifies this
      ensures View() == T.CleanUnlessOff(old(View()), env)
    {
      var isOff := ReadOff(env);
      if !isOff {
        Clean(env);
      }
    }

    method StreamReady(env: T.Env)
      modifies this
      ensures View() == T.StreamReady(old(View()), env)
    {
      hide T.WakeupClient, T.Clean, T.WaitForResponse, T.SwitchOn, T.CleanUnlessOff;
      var failed := false;
      if !resendManage && !authenticated {
        var a := Ask(env);
        if a.ok {
          SwitchOn(env);
        } else {
          failed := true;
        }
      }
      WakeupClient(LinkPoll, env);
      if failed {
        CleanUnlessOff(env);
      }
    }

    // what the transmitter remembers of TrustZone's answer
    method Digest(m: Msg, out: Msg, rep: bool)
      modifies this
      ensures View() == T.Digest(old(View()), m, out, rep)
    {
      if out == SkeSendEks {
        repeater := rep;
        updateStream := true;
      }
      resendLcInit := m == LcSendLPrime && out == LcInit;
      noStoredKm := out == AkeNoStoredKm;
    }

    method SendReply(m: Msg, out: Msg, rep: bool, env: T.Env)
      modifies this
      ensures View() == T.SendReply(old(View()), m, out, rep, env)
    {
      hide T.WakeupClient, T.ReadOff, T.Digest;
      Digest(m, out, rep);
      var isOff := ReadOff(env);
      if !isOff {
        WakeupClient(Send, env);
      }
    }

    // TrustZone's answer is in the response buffer
    method Accept(m: Msg, out: Msg)
      modifies this
      ensures View() == T.Log(old(View()), Accepted(m, out)).(prepared := if out == Invalid then old(prepared) else out)
    {
      history := history + [Accepted(m, out)];
      if out != Invalid {
        prepared := out;
      }
    }

    method MsgRecvd(env: T.Env)
      modifies this
      ensures View() == T.MsgRecvd(old(View()), env)
    {
      hide T.WakeupClient, T.ReadOff, T.Clean, T.WaitForResponse, T.StreamReady, T.SendReply, T.CleanUnlessOff, Replies;
      var isOff := ReadOff(env);
      if isOff { return; }
      var m := last;
      var a := Ask(env);
      if a.empty { return; }
      if !a.ok || !Replies(m, noStoredKm, a.reply) {
        CleanUnlessOff(env);
        return;
      }
      Accept(m, a.reply);
      if m == AkeSendHPrime && noStoredKm {
        WakeupClient(Recv, env);
        return;
      }
      if m == RepStreamReady && a.reply != RepStreamManage {
        StreamReady(env);
        return;
      }
      SendReply(m, a.reply, a.repeater, env);
    }

    // the end of sde_hdcp_2x_manage_stream, with the streams already opened and closed
    method AfterStreams(env: T.Env)
      modifies this
      ensures View() == T.ManageStream(old(View()), env)
    {
      var a := Ask(env);
      if a.ok {
        if authenticated {
          QueryStream(env);
        } else if last == RepStreamManage || last == RepStreamReady {
          resendManage := true;
        }
      }
    }

    // what START resets at once
    method Restart()
      modifies this
      ensures View() == T.AtWakeup(old(View()), T.Start)
    {
      noStoredKm, repeater, updateStream, authenticated := false, false, false, false;
      last, off, history := Invalid, false, [];
    }

    // sde_hdcp_2x_wakeup, on the client's thread; `puts` goes into the command queue
    method Wakeup(w: T.Wakeup) returns (puts: seq<T.Wakeup>)
      modifies this
      ensures View() == T.AtWakeup(old(View()), w) && puts == T.Enqueued(old(View()), w)
    {
      puts := [w];
      match w {
        case Disable =>
          if !off {
            puts := [T.Stop, w];
          }
          off, history := true, history + [Stopped];
        case Stop =>
          off, history := true, history + [Stopped];
        case Start => Restart();
        case Enable =>
          // atomic_cmpxchg(&hdcp->enable_pending, 0, 1)
          if enablePending {
            puts := [];
          }
          enablePending := true;
        case MinEncLevel =>
          if !authenticated {
            puts := [];
          }
        case _ =>
      }
    }

    // the command switch of sde_hdcp_2x_main
    method Handle(w: T.Wakeup, env: T.Env)
      modifies this
      ensures View() == T.Handle(old(View()), w, env)
    {
      match w {
        case Start =>
          var a := Ask(env);
          if !a.ok {
            Clean(env);
          }
        case StartAuthentication => StartAuth(env);
        case SendSuccess => MsgSent(env);
        case RecvSuccess => MsgRecvd(env);
        case QueryStreamType => QueryStream(env);
        case MinEncLevel =>
          if !repeater {
            SendType(env);
          } else {
            QueryStream(env);
          }
        case ChangeStreams => AfterStreams(env);
        case Enable => enablePending := false;
        case Disable =>
        case _ => Clean(env);
      }
    }
  }
}
