/**
 What the HDCP 2.2 transmitter does once HDCP is off: handlers that find it off do nothing, and no message is handed
 over any more but AKE_INIT and the torn one.
 */
module HdcpOff {
  import opened HdcpMessages
  import opened HdcpTransmitter
  import opened HdcpSession
  import opened HdcpLater
  import opened HdcpRuns

  /** A report of a message sent or received, a change of the encryption level and a request for stream management that
      find HDCP off, or a STOP just coming in, change nothing. */
  lemma OffIgnored(c: Ctrl, w: Wakeup, env: Env)
    requires c.off || env(c.clock).stop
    requires w == SendSuccess || w == RecvSuccess || w == MinEncLevel || w == QueryStreamType
    ensures Handle(c, w, env) == ReadOff(c, env) && Handle(c, w, env).off
  {
    hide WakeupClient, ReadOff, SwitchOn, CleanUnlessOff, Onward;
    ReadOffIs(c, env);
  }

  // A message may be handed over with HDCP off only if it is AKE_INIT, or the stream type is prepared.
  predicate MayBeOff(e: Event) {
    e.Sent? && e.off ==> e.prepared == AkeInit || e.prepared == SkeSendTypeId
  }

  // d is c after things that keep to that.
  ghost predicate Mindful(c: Ctrl, d: Ctrl) {
    c.history <= d.history && forall i :: |c.history| <= i < |d.history| ==> MayBeOff(d.history[i])
  }

  lemma MindfulLog(c: Ctrl, e: Event)
    requires MayBeOff(e)
    ensures Mindful(c, Log(c, e))
  {
  }

  lemma MindfulStill(c: Ctrl, d: Ctrl, e: Ctrl)
    requires Mindful(c, d) && Mindful(d, e)
    ensures Mindful(c, e)
  {
  }

  lemma ReadMindful(c: Ctrl, env: Env)
    ensures Mindful(c, ReadOff(c, env))
  {
    MindfulLog(Tick(c), Stopped);
  }

  lemma CleanMindful(c: Ctrl, env: Env)
    ensures Mindful(c, Clean(c, env))
  {
    hide Clean, ReadOff;
    CleanSteps(c, env);
    var c1 := ReadOff(c.(authenticated := false), env);
    ReadMindful(c.(authenticated := false), env);
    var c2 := Log(c1.(off := true), Failure);
    MindfulLog(c1.(off := true), Failure);
    ReadMindful(c2, env);
  }

  lemma WaitMindful(c: Ctrl, env: Env)
    ensures Mindful(c, WaitForResponse(c, env))
  {
    hide Clean, ReadOff, WakeupClient;
    var c1 := ReadOff(c, env);
    ReadMindful(c, env);
    ReadMindful(Tick(c1), env);
    CleanMindful(ReadOff(Tick(c1), env), env);
  }

  lemma WakeMindful(c: Ctrl, cmd: Cmd, env: Env)
    requires cmd == Send && c.off ==> c.prepared == AkeInit || c.prepared == SkeSendTypeId
    ensures Mindful(c, WakeupClient(c, cmd, env))
  {
    hide Pick, WaitForResponse;
    PickMindful(c, cmd);
    WaitMindful(Pick(c, cmd), env);
  }

  lemma PickMindful(c: Ctrl, cmd: Cmd)
    requires cmd == Send && c.off ==> c.prepared == AkeInit || c.prepared == SkeSendTypeId
    ensures Mindful(c, Pick(c, cmd))
  {
    hide NextMessage;
    if Exchanges(cmd) {
      var m := NextMessage(c.last, c.noStoredKm, c.resendLcInit, c.repeater, cmd);
      var c1 := c.(last := m, resendManage := c.resendManage && c.last != RepStreamManage);
      MindfulLog(c1, if cmd == Send then Sent(m, c.prepared, c.off) else Asked(cmd, m));
    } else {
      MindfulLog(c, if cmd == StatusFailed then Failure else Success);
    }
  }

  lemma CleanUnlessMindful(c: Ctrl, env: Env)
    ensures Mindful(c, CleanUnlessOff(c, env))
  {
    hide Clean, ReadOff;
    ReadMindful(c, env);
    CleanMindful(ReadOff(c, env), env);
  }

  lemma SwitchOnMindful(c: Ctrl, env: Env)
    ensures Mindful(c, SwitchOn(c, env))
  {
    hide WakeupClient;
    MindfulLog(c, Encrypted);
    WakeMindful(Log(c, Encrypted).(authenticated := true), StatusSuccess, env);
  }

  lemma SendTypeMindful(c: Ctrl, env: Env)
    ensures Mindful(c, SendType(c, env))
  {
    hide WakeupClient, ReadOff;
    var c1 := ReadOff(c, env).(prepared := SkeSendTypeId);
    ReadMindful(c, env);
    ReadMindful(c1, env);
    ReadOffIs(c1, env);
    WakeMindful(ReadOff(c1, env), Send, env);
  }

  lemma QueryMindful(c: Ctrl, env: Env)
    ensures Mindful(c, QueryStream(c, env))
  {
    hide WakeupClient, ReadOff;
    var c1 := ReadOff(c, env);
    var c2 := Tick(c1).(prepared := RepStreamManage);
    ReadMindful(c, env);
    ReadMindful(c2, env);
    if !ReadOff(c2, env).off {
      WakeMindful(ReadOff(c2, env).(last := RepSendAck), Send, env);
    }
  }

  lemma SentMindful(c: Ctrl, env: Env)
    ensures Mindful(c, MsgSent(c, env))
  {
    hide WakeupClient, ReadOff, QueryStream, SwitchOn, Mindful;
    var c1 := ReadOff(c, env);
    ReadMindful(c, env);
    if !c1.off {
      SentOnward(c1, env);
      MindfulStill(c, c1, MsgSent(c, env));
    }
  }

  // The report of a message, once HDCP was found on
  lemma SentOnward(c: Ctrl, env: Env)
    requires !c.off
    ensures
      Mindful(c,
              match c.prepared
              case SkeSendTypeId => WakeupClient(if env(c.clock).ok then SwitchOn(Tick(c), env) else Tick(c), LinkPoll, env)
              case SkeSendEks =>
                if c.repeater then
                  var c2 := ReadOff(c, env);
                  if c2.off then WakeupClient(c2.(prepared := SkeSendTypeId), Send, env) else WakeupClient(c2, LinkPoll, env)
                else WakeupClient(c.(prepared := SkeSendTypeId), Send, env)
              case RepSendAck =>
                if c.updateStream then QueryStream(c, env).(updateStream := false) else WakeupClient(c, LinkPoll, env)
              case _ => WakeupClient(c, Recv, env))
  {
    hide WakeupClient, ReadOff, QueryStream, SwitchOn, Mindful;
    match c.prepared {
      case SkeSendTypeId =>
        SwitchOnMindful(Tick(c), env);
        var x := if env(c.clock).ok then SwitchOn(Tick(c), env) else Tick(c);
        WakeMindful(x, LinkPoll, env);
        MindfulSame(c, Tick(c));
        if env(c.clock).ok {
          MindfulStill(c, Tick(c), x);
        }
        MindfulStill(c, x, WakeupClient(x, LinkPoll, env));
      case SkeSendEks => EksMindful(c, env);
      case RepSendAck =>
        QueryMindful(c, env);
        var q := QueryStream(c, env);
        MindfulSame(q, q.(updateStream := false));
        MindfulStill(c, q, q.(updateStream := false));
        WakeMindful(c, LinkPoll, env);
      case _ => WakeMindful(c, Recv, env);
    }
  }

  lemma MindfulSame(c: Ctrl, d: Ctrl)
    requires d.history == c.history
    ensures Mindful(c, d)
  {
  }

  lemma EksMindful(c: Ctrl, env: Env)
    requires !c.off
    ensures
      Mindful(c,
              if c.repeater then
                var c2 := ReadOff(c, env);
                if c2.off then WakeupClient(c2.(prepared := SkeSendTypeId), Send, env) else WakeupClient(c2, LinkPoll, env)
              else WakeupClient(c.(prepared := SkeSendTypeId), Send, env))
  {
    hide WakeupClient, ReadOff;
    var c2 := ReadOff(c, env);
    ReadMindful(c, env);
    WakeMindful(c2.(prepared := SkeSendTypeId), Send, env);
    WakeMindful(c2, LinkPoll, env);
    WakeMindful(c.(prepared := SkeSendTypeId), Send, env);
  }

  lemma ReadyMindful(c: Ctrl, env: Env)
    ensures Mindful(c, StreamReady(c, env))
  {
    hide WakeupClient, SwitchOn, CleanUnlessOff;
    SwitchOnMindful(Tick(c), env);
    WakeMindful(SwitchOn(Tick(c), env), LinkPoll, env);
    WakeMindful(c, LinkPoll, env);
    WakeMindful(Tick(c), LinkPoll, env);
    CleanUnlessMindful(WakeupClient(Tick(c), LinkPoll, env), env);
  }

  lemma ReplyMindful(c: Ctrl, m: Msg, out: Msg, rep: bool, env: Env)
    ensures Mindful(c, SendReply(c, m, out, rep, env))
  {
    hide WakeupClient, ReadOff;
    var c1 := ReadOff(Digest(c, m, out, rep), env);
    ReadMindful(Digest(c, m, out, rep), env);
    if !c1.off {
      WakeMindful(c1, Send, env);
    }
  }

  lemma OnwardMindful(c: Ctrl, out: Msg, rep: bool, env: Env)
    ensures Mindful(c, Onward(c, out, rep, env))
  {
    hide WakeupClient, StreamReady, SendReply;
    var c2 := Answered(c, c.last, out);
    MindfulLog(c, Accepted(c.last, out));
    WakeMindful(c2, Recv, env);
    ReadyMindful(c2, env);
    ReplyMindful(c2, c.last, out, rep, env);
  }

  lemma RecvdMindful(c: Ctrl, env: Env)
    ensures Mindful(c, MsgRecvd(c, env))
  {
    hide ReadOff, CleanUnlessOff, Onward, Replies;
    var c1 := ReadOff(c, env);
    ReadMindful(c, env);
    CleanUnlessMindful(Tick(c1), env);
    OnwardMindful(Tick(c1), env(c1.clock).reply, env(c1.clock).repeater, env);
  }

  lemma HandleMindful(c: Ctrl, w: Wakeup, env: Env)
    ensures Mindful(c, Handle(c, w, env))
  {
    hide Clean, WakeupClient, QueryStream, MsgSent, MsgRecvd, SendType;
    match w {
      case Start => CleanMindful(Tick(c), env);
      case StartAuthentication =>
        CleanMindful(Tick(c), env);
        WakeMindful(Tick(c).(prepared := AkeInit), Send, env);
      case SendSuccess => SentMindful(c, env);
      case RecvSuccess => RecvdMindful(c, env);
      case QueryStreamType => QueryMindful(c, env);
      case MinEncLevel =>
        QueryMindful(c, env);
        SendTypeMindful(c, env);
      case ChangeStreams => QueryMindful(Tick(c), env);
      case Enable =>
      case Disable =>
      case _ => CleanMindful(c, env);
    }
  }

  ghost predicate NoneOff(h: seq<Event>) {
    forall i :: 0 <= i < |h| ==> MayBeOff(h[i])
  }

  /** On every run, whatever the timing of a STOP, a message handed over with HDCP off is AKE_INIT's, or the stream type
      was prepared. */
  lemma {:induction false} NothingSentOff(steps: seq<Step>, env: Env)
    ensures NoneOff(Run(Registered(), steps, env).ctrl.history)
  {
    hide Next, NoneOff;
    if steps == [] {
      NoneYet();
    } else {
      var s := Run(Registered(), steps[..|steps| - 1], env);
      NothingSentOff(steps[..|steps| - 1], env);
      NextMindful(s, steps[|steps| - 1], env);
      MindfulOn(s.ctrl, Next(s, steps[|steps| - 1], env).ctrl);
    }
  }

  lemma NoneYet()
    ensures NoneOff([])
  {
  }

  lemma MindfulOn(c: Ctrl, d: Ctrl)
    requires NoneOff(c.history) && (d.history == [] || Mindful(c, d))
    ensures NoneOff(d.history)
  {
    hide MayBeOff;
    if d.history != [] {
      assert forall i :: 0 <= i < |c.history| ==> d.history[i] == c.history[i];
    }
  }

  lemma NextMindful(s: Sys, step: Step, env: Env)
    ensures var d := Next(s, step, env).ctrl; d.history == [] || Mindful(s.ctrl, d)
  {
    hide Handle, PutAll, Enqueued, Permitted, Put, AtWakeup, Mindful;
    if step == Worker && s.queue != [] {
      HandleMindful(s.ctrl, s.queue[0], env);
      SameMindful(s.ctrl, Handle(s.ctrl, s.queue[0], env), Next(s, step, env).ctrl);
    } else {
      MindfulSame(s.ctrl, s.ctrl);
      if step.Client? {
        ClientMindful(s.ctrl, step.w);
      }
    }
  }

  lemma SameMindful(c: Ctrl, d: Ctrl, e: Ctrl)
    requires Mindful(c, d) && e.history == d.history
    ensures Mindful(c, e)
  {
  }

  lemma ClientMindful(c: Ctrl, w: Wakeup)
    ensures var d := AtWakeup(c, w); d.history == [] || Mindful(c, d)
  {
    MindfulLog(c, Stopped);
  }
}
