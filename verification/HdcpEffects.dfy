/**
 What the handlers of the HDCP 2.2 transmitter do while HDCP is on and no STOP comes in: what they hand over, what
 they ask of the sink, and that every refusal and every wait that expires switches HDCP off and is reported once.
 */
module HdcpEffects {
  import opened HdcpMessages
  import opened HdcpTransmitter
  import opened HdcpSession
  import opened HdcpRuns
  import opened HdcpLater

  // No STOP comes in at the points of the environment between the two states.
  ghost predicate NoStop(env: Env, c: Ctrl, d: Ctrl) {
    forall i :: c.clock <= i < d.clock ==> !env(i).stop
  }

  // Nothing but questions to the environment lies between the two.
  ghost predicate Unchanged(c: Ctrl, d: Ctrl) {
    d == c.(clock := d.clock)
  }

  // HDCP is switched off and the failure reported, once.
  ghost predicate Reported(c: Ctrl, d: Ctrl) {
    d == c.(off := true, authenticated := false, history := c.history + [Failure], clock := d.clock)
  }

  // The answer of the sink to this message is awaited for a limited time.
  predicate Timed(last: Msg, authenticated: bool) {
    last == AkeSendHPrime || last == AkeSendPairingInfo || (last == RepSendRecvIdList && !authenticated)
  }

  // ----- The cycle of cleaning up, waiting and waking -----

  // A read of hdcp_off, at which a STOP may have come in.
  lemma ReadQuiet(c: Ctrl, env: Env)
    ensures ReadOff(c, env).clock == c.clock + 1
    ensures !env(c.clock).stop ==> ReadOff(c, env) == Tick(c)
  {
  }

  lemma CleanReports(c: Ctrl, env: Env)
    requires NoStop(env, c, Clean(c, env))
    ensures !c.off ==> Reported(c, Clean(c, env))
    ensures c.off ==> Unchanged(c.(authenticated := false), Clean(c, env))
  {
    hide Clean, ReadOff, WakeupClient, WaitForResponse;
    CleanSteps(c, env);
    CleanTakes(c, env);
    var c0 := c.(authenticated := false);
    ReadQuiet(c0, env);
    var c2 := Log(Tick(c0).(off := true), Failure);
    ReadQuiet(c2, env);
  }

  lemma CleanTakes(c: Ctrl, env: Env)
    ensures Clean(c, env).clock > c.clock
  {
    hide Clean, ReadOff, WakeupClient, WaitForResponse;
    CleanSteps(c, env);
    var c0 := c.(authenticated := false);
    ReadQuiet(c0, env);
    ReadQuiet(Log(ReadOff(c0, env).(off := true), Failure), env);
  }

  /** A wait for the sink that expires cleans up, if no STOP came in before: HDCP is off, not authenticated, and one
      failure is reported. */
  lemma ExpiredWaitReports(c: Ctrl, env: Env)
    requires !c.off && Timed(c.last, c.authenticated) && env(c.clock + 1).timedOut
    requires NoStop(env, c, WaitForResponse(c, env))
    ensures Reported(c, WaitForResponse(c, env))
  {
    hide Clean, WaitForResponse;
    var c3 := Tick(Tick(Tick(c)));
    Waited(c, env);
    CleanTakes(c3, env);
    CleanReports(c3, env);
  }

  // The first steps of a wait, whatever happens then.
  lemma Waited(c: Ctrl, env: Env)
    requires !c.off && Timed(c.last, c.authenticated) && env(c.clock + 1).timedOut
    requires NoStop(env, c, WaitForResponse(c, env))
    ensures WaitForResponse(c, env) == Clean(Tick(Tick(Tick(c))), env)
  {
    hide Clean, ReadOff, WakeupClient;
    ReadQuiet(c, env);
    var c1 := ReadOff(c, env);
    ReadQuiet(Tick(c1), env);
    CleanTakes(ReadOff(Tick(c1), env), env);
  }

  // A wait that does not expire changes nothing.
  lemma WaitGoesOn(c: Ctrl, env: Env)
    requires c.off || !Timed(c.last, c.authenticated) || !env(c.clock + 1).timedOut
    requires NoStop(env, c, WaitForResponse(c, env))
    ensures Unchanged(c, WaitForResponse(c, env))
  {
    hide ReadOff, WaitForResponse;
    if Timed(c.last, c.authenticated) {
      var c1 := ReadOff(c, env);
      ReadQuiet(c, env);
      ReadOffIs(c, env);
      WaitReads(c, env);
    } else {
      WaitReads(c, env);
      assert WaitForResponse(c, env) == c;
    }
  }

  lemma WaitReads(c: Ctrl, env: Env)
    requires c.off || !Timed(c.last, c.authenticated) || !env(c.clock + 1).timedOut
    ensures WaitForResponse(c, env) ==
      if !Timed(c.last, c.authenticated) then c
      else var c1 := ReadOff(c, env); if c1.off then c1 else Tick(c1)
  {
    hide ReadOff, Clean, WakeupClient;
    ReadOffIs(c, env);
  }

  lemma WaitTakes(c: Ctrl, env: Env)
    ensures WaitForResponse(c, env).clock >= c.clock
  {
    hide Clean, ReadOff, WakeupClient;
    ReadQuiet(c, env);
    var c1 := ReadOff(c, env);
    ReadQuiet(Tick(c1), env);
    CleanTakes(ReadOff(Tick(c1), env), env);
  }

  // The wait after a message was picked.
  ghost predicate Awaits(c: Ctrl, d: Ctrl, env: Env) {
    if Timed(c.last, c.authenticated) && !c.off && env(c.clock + 1).timedOut then Reported(c, d) else Unchanged(c, d)
  }

  lemma WaitDoes(c: Ctrl, env: Env)
    requires NoStop(env, c, WaitForResponse(c, env))
    ensures Awaits(c, WaitForResponse(c, env), env)
  {
    hide WaitForResponse, Reported, Unchanged;
    if !c.off && Timed(c.last, c.authenticated) && env(c.clock + 1).timedOut {
      ExpiredWaitReports(c, env);
    } else {
      WaitGoesOn(c, env);
    }
  }

  // ----- Waking the client -----

  // The events have come in; the last and the prepared message and the flag are these; HDCP is on unless the wait
  // for the sink's answer expired, which is reported.
  ghost predicate Goes(c: Ctrl, d: Ctrl, events: seq<Event>, last: Msg, prepared: Msg, authenticated: bool, expired: bool) {
    && d.last == last && d.prepared == prepared && d.off == expired && d.authenticated == (authenticated && !expired)
    && d.history == c.history + events + (if expired then [Failure] else [])
  }

  lemma AwaitsGoes(c: Ctrl, x: Ctrl, d: Ctrl, events: seq<Event>, env: Env)
    requires !c.off && !x.off && x.history == c.history + events && Awaits(x, d, env)
    ensures Goes(c, d, events, x.last, x.prepared, x.authenticated, Timed(x.last,
             x.authenticated) && env(x.clock + 1).timedOut)
    ensures Remembers(x, d) && d.resendManage == x.resendManage
  {
  }

  lemma WakeTakes(c: Ctrl, cmd: Cmd, env: Env)
    ensures WakeupClient(c, cmd, env).clock >= c.clock
  {
    hide WaitForResponse, Pick;
    WaitTakes(Pick(c, cmd), env);
  }

  // Handing over message m, or asking the client for it
  function Wakes(cmd: Cmd, m: Msg, prepared: Msg): Event {
    if cmd == Send then Sent(m, prepared, false) else Asked(cmd, m)
  }

  // Handing the prepared message over, or asking the client for the sink's.
  lemma WakeGoes(c: Ctrl, cmd: Cmd, m: Msg, env: Env)
    requires !c.off && (cmd == Send || cmd == Recv || cmd == LinkPoll) && m != Invalid
    requires m == NextMessage(c.last, c.noStoredKm, c.resendLcInit, c.repeater, cmd)
    requires NoStop(env, c, WakeupClient(c, cmd, env))
    ensures Goes(c, WakeupClient(c, cmd, env), [Wakes(cmd, m, c.prepared)], m, c.prepared, c.authenticated,
                 Timed(m, c.authenticated) && env(c.clock + 1).timedOut)
    ensures Remembers(c, WakeupClient(c, cmd, env)) && WakeupClient(c, cmd,
             env).resendManage == (c.resendManage && c.last != RepStreamManage)
  {
    hide WaitForResponse, NextMessage, Goes, Timed, Awaits, Pick;
    var x := Pick(c, cmd);
    WakesPicked(c, cmd, m, env);
    Picks(c, cmd, m);
    WaitDoes(x, env);
    AwaitsGoes(c, x, WakeupClient(c, cmd, env), [Wakes(cmd, m, c.prepared)], env);
  }

  lemma WakesPicked(c: Ctrl, cmd: Cmd, m: Msg, env: Env)
    requires !c.off && (cmd == Send || cmd == Recv || cmd == LinkPoll) && m != Invalid
    requires m == NextMessage(c.last, c.noStoredKm, c.resendLcInit, c.repeater, cmd)
    ensures WakeupClient(c, cmd, env) == WaitForResponse(Pick(c, cmd), env)
  {
    hide NextMessage, WaitForResponse;
  }

  // What was learnt of the sink is kept.
  predicate Remembers(c: Ctrl, d: Ctrl) {
    d.repeater == c.repeater && d.updateStream == c.updateStream && d.noStoredKm == c.noStoredKm
  }

  lemma Picks(c: Ctrl, cmd: Cmd, m: Msg)
    requires !c.off && (cmd == Send || cmd == Recv || cmd == LinkPoll) && m != Invalid
    requires m == NextMessage(c.last, c.noStoredKm, c.resendLcInit, c.repeater, cmd)
    ensures var x := Pick(c, cmd);
      && x.last == m && x.prepared == c.prepared && x.authenticated == c.authenticated && !x.off && x.clock == c.clock
      && x.history == c.history + [Wakes(cmd, m, c.prepared)]
      && Remembers(c, x) && x.resendManage == (c.resendManage && c.last != RepStreamManage)
  {
    hide NextMessage;
  }

  // ----- Refusals -----

  // TrustZone refuses the command: START and START_AUTH at once, a message of the sink when it is processed.
  predicate Refused(c: Ctrl, w: Wakeup, env: Env) {
    match w
    case Start => !env(c.clock).ok
    case StartAuthentication => !env(c.clock).ok
    case RecvSuccess =>
      var a := env(c.clock + 1);
      !a.empty && (!a.ok || !Replies(c.last, c.noStoredKm, a.reply))
    case _ => false
  }

  /** A command that TrustZone refuses, and a failure or STOP that the client reports, switch HDCP off and are reported
      once, in any state in which HDCP is on. */
  lemma RefusalReported(c: Ctrl, w: Wakeup, env: Env)
    requires !c.off && (Refused(c, w, env) || w == Stop || w == SendFailed || w == RecvFailed || w == LinkFailed)
    requires NoStop(env, c, Handle(c, w, env))
    ensures Reported(c, Handle(c, w, env))
  {
    hide Clean, Reported, Replies;
    match w {
      case RecvSuccess => RecvRefused(c, env);
      case Start => CleanTakes(Tick(c), env); CleanReports(Tick(c), env); SinceTick(c, Clean(Tick(c), env));
      case StartAuthentication => CleanTakes(Tick(c), env); CleanReports(Tick(c), env); SinceTick(c, Clean(Tick(c), env));
      case _ => CleanReports(c, env);
    }
  }

  lemma SinceTick(c: Ctrl, d: Ctrl)
    requires Reported(Tick(c), d)
    ensures Reported(c, d)
  {
  }

  lemma RecvRefused(c: Ctrl, env: Env)
    requires !c.off && Refused(c, RecvSuccess, env) && NoStop(env, c, MsgRecvd(c, env))
    ensures Reported(c, MsgRecvd(c, env))
  {
    hide Clean, Reported, Replies, ReadOff, CleanUnlessOff, Onward;
    var c1 := ReadOff(c, env);
    ReadQuiet(c, env);
    ReadOffIs(c, env);
    CleanUnlessTakes(Tick(c1), env);
    if !c1.off {
      CleanUnlessReports(Tick(Tick(c)), env);
      SinceTick(Tick(c), MsgRecvd(c, env));
      SinceTick(c, MsgRecvd(c, env));
    }
  }

  lemma CleanUnlessTakes(c: Ctrl, env: Env)
    ensures CleanUnlessOff(c, env).clock > c.clock
  {
    hide Clean, ReadOff;
    ReadQuiet(c, env);
    CleanTakes(ReadOff(c, env), env);
  }

  lemma CleanUnlessReports(c: Ctrl, env: Env)
    requires !c.off && NoStop(env, c, CleanUnlessOff(c, env))
    ensures Reported(c, CleanUnlessOff(c, env))
  {
    hide Clean, ReadOff, Reported;
    ReadQuiet(c, env);
    CleanTakes(ReadOff(c, env), env);
    CleanReports(Tick(c), env);
    SinceTick(c, Clean(Tick(c), env));
  }

  // ----- What the transmitter sends of itself -----

  // From a state that differs from c in nothing that Goes tells.
  lemma SinceSame(c: Ctrl, x: Ctrl, d: Ctrl, more: seq<Event>, events: seq<Event>, last: Msg, prepared: Msg,
      authenticated: bool, expired: bool)
    requires x.history == c.history + more && Goes(x, d, events, last, prepared, authenticated, expired)
    ensures Goes(c, d, more + events, last, prepared, authenticated, expired)
  {
  }

  // Handing over in place of c, whose history is that of x.
  lemma Hands(c: Ctrl, x: Ctrl, m: Msg, env: Env)
    requires !x.off && x.history == c.history && m != Invalid && !Timed(m, x.authenticated)
    requires m == NextMessage(x.last, x.noStoredKm, x.resendLcInit, x.repeater, Send)
    requires NoStop(env, x, WakeupClient(x, Send, env))
    ensures Goes(c, WakeupClient(x, Send, env), [Sent(m, x.prepared, false)], m, x.prepared, x.authenticated, false)
  {
    hide WakeupClient, NextMessage;
    WakeGoes(x, Send, m, env);
  }

  /** START_AUTH hands over AKE_INIT. */
  lemma AuthStarts(c: Ctrl, env: Env)
    requires !c.off && c.last == Invalid && env(c.clock).ok && NoStop(env, c, StartAuth(c, env))
    ensures Goes(c, StartAuth(c, env), [Sent(AkeInit, AkeInit, false)], AkeInit, AkeInit, c.authenticated, false)
  {
    hide WakeupClient, Clean;
    var x := Tick(c).(prepared := AkeInit);
    WakeTakes(x, Send, env);
    Hands(c, x, AkeInit, env);
  }

  /** A change of the encryption level hands the stream type to a receiver after its key exchange. */
  lemma TypeSent(c: Ctrl, env: Env)
    requires !c.off && !c.repeater && (c.last == SkeSendEks || c.last == SkeSendTypeId) && NoStop(env, c, SendType(c, env))
    ensures Goes(c, SendType(c, env), [Sent(SkeSendTypeId, SkeSendTypeId, false)], SkeSendTypeId, SkeSendTypeId,
             c.authenticated, false)
  {
    hide WakeupClient, ReadOff;
    var c1 := ReadOff(c, env);
    ReadQuiet(c, env);
    ReadOffIs(c, env);
    ReadQuiet(c1.(prepared := SkeSendTypeId), env);
    ReadOffIs(c1.(prepared := SkeSendTypeId), env);
    var x := Tick(Tick(c).(prepared := SkeSendTypeId));
    WakeTakes(ReadOff(c1.(prepared := SkeSendTypeId), env), Send, env);
    if !c1.off {
      Hands(c, x, SkeSendTypeId, env);
    }
  }

  /** A repeater that is authenticated, or whose acknowledgement is prepared, is handed stream management. */
  lemma StreamsManaged(c: Ctrl, env: Env)
    requires !c.off && c.repeater && (c.authenticated || c.prepared == RepSendAck) && env(c.clock + 1).ok
    requires NoStop(env, c, QueryStream(c, env))
    ensures Goes(c, QueryStream(c, env), [Sent(RepStreamManage, RepStreamManage, false)],
                 RepStreamManage, RepStreamManage, c.authenticated, false)
  {
    hide WakeupClient, ReadOff;
    var c1 := ReadOff(c, env);
    var c2 := Tick(c1).(prepared := RepStreamManage);
    ReadQuiet(c, env);
    ReadOffIs(c, env);
    ReadQuiet(c2, env);
    ReadOffIs(c2, env);
    WakeTakes(ReadOff(c2, env).(last := RepSendAck), Send, env);
    if !c1.off {
      Hands(c, Tick(Tick(Tick(c)).(prepared := RepStreamManage)).(last := RepSendAck), RepStreamManage, env);
    }
  }

  /** Anyone else is not, and nothing changes. */
  lemma StreamsNotManaged(c: Ctrl, env: Env)
    requires !c.off && !(c.repeater && (c.authenticated || c.prepared == RepSendAck) && env(c.clock + 1).ok)
    requires NoStop(env, c, QueryStream(c, env))
    ensures Unchanged(c, QueryStream(c, env))
  {
    hide WakeupClient, ReadOff;
    ReadQuiet(c, env);
    ReadOffIs(c, env);
  }

  lemma QueryTakes(c: Ctrl, env: Env)
    ensures QueryStream(c, env).clock > c.clock
  {
    hide WakeupClient, ReadOff;
    var c1 := ReadOff(c, env);
    var c2 := Tick(c1).(prepared := RepStreamManage);
    ReadQuiet(c, env);
    ReadQuiet(c2, env);
    WakeTakes(ReadOff(c2, env).(last := RepSendAck), Send, env);
  }

  // ----- The report that a message was sent -----

  // The answer that a message sent to the sink asks for.
  function AnswerTo(m: Msg): Msg {
    match m
    case AkeInit => AkeSendCert
    case AkeNoStoredKm => AkeSendHPrime
    case AkeStoredKm => AkeSendHPrime
    case LcInit => LcSendLPrime
    case RepStreamManage => RepStreamReady
    case _ => Invalid
  }

  /** A sent message that wants an answer makes the transmitter ask for it; if the time for H' runs out, this is
      reported. */
  lemma SentAwaits(c: Ctrl, env: Env)
    requires !c.off && c.prepared == c.last && AnswerTo(c.last) != Invalid && NoStop(env, c, MsgSent(c, env))
    ensures Goes(c, MsgSent(c, env), [Asked(Recv, AnswerTo(c.last))], AnswerTo(c.last), c.prepared, c.authenticated,
                 AnswerTo(c.last) == AkeSendHPrime && env(c.clock + 2).timedOut)
  {
    hide WakeupClient, ReadOff, QueryStream, SwitchOn;
    ReadQuiet(c, env);
    ReadOffIs(c, env);
    WakeTakes(ReadOff(c, env), Recv, env);
    if !ReadOff(c, env).off {
      WakeGoes(Tick(c), Recv, AnswerTo(c.last), env);
    }
  }

  lemma SwitchOnTakes(c: Ctrl, env: Env)
    ensures SwitchOn(c, env).clock >= c.clock
  {
    hide WakeupClient;
    WakeTakes(Log(c, Encrypted).(authenticated := true), StatusSuccess, env);
  }

  // Encryption goes on; the message awaited is none with a time limit.
  lemma SwitchesOn(c: Ctrl, env: Env)
    requires !c.off && !Timed(c.last, true) && NoStop(env, c, SwitchOn(c, env))
    ensures Unchanged(Log(Log(c, Encrypted), Success).(authenticated := true), SwitchOn(c, env))
  {
    hide WaitForResponse;
    WaitDoes(Log(Log(c, Encrypted).(authenticated := true), Success), env);
  }

  lemma TypeOnward(c: Ctrl, env: Env)
    requires !c.off && !c.repeater && c.last == SkeSendTypeId && c.prepared == SkeSendTypeId
    requires NoStop(env, c, WakeupClient(if env(c.clock).ok then SwitchOn(Tick(c), env) else Tick(c), LinkPoll, env))
    ensures var ok := env(c.clock).ok;
      Goes(c, WakeupClient(if ok then SwitchOn(Tick(c), env) else Tick(c), LinkPoll, env),
           (if ok then [Encrypted, Success] else []) + [Asked(LinkPoll, SkeSendTypeId)], SkeSendTypeId, SkeSendTypeId,
           ok || c.authenticated, false)
  {
    hide WakeupClient, SwitchOn, Goes;
    var ok := env(c.clock).ok;
    var x := if ok then SwitchOn(Tick(c), env) else Tick(c);
    SwitchOnTakes(Tick(c), env);
    WakeTakes(x, LinkPoll, env);
    if ok {
      SwitchesOn(Tick(c), env);
    }
    WakeGoes(x, LinkPoll, SkeSendTypeId, env);
    var more := if ok then [Encrypted, Success] else [];
    SinceSame(c, x, WakeupClient(x, LinkPoll, env), more, [Asked(LinkPoll, SkeSendTypeId)], SkeSendTypeId, SkeSendTypeId,
        ok || c.authenticated, false);
  }

  // The report that a message was sent, with HDCP on.
  lemma SentReads(c: Ctrl, env: Env)
    requires !c.off && NoStop(env, c, MsgSent(c, env))
    ensures MsgSent(c, env).clock >= c.clock + 1 && ReadOff(c, env) == Tick(c)
  {
    hide WakeupClient, ReadOff, QueryStream, SwitchOn;
    var c1 := ReadOff(c, env);
    ReadQuiet(c, env);
    ReadOffIs(c, env);
    if !c1.off {
      OnwardTakes(c1, env);
    }
  }

  lemma OnwardTakes(c: Ctrl, env: Env)
    ensures forall x: Ctrl, cmd :: x.clock >= c.clock ==> WakeupClient(x, cmd, env).clock >= c.clock
    ensures ReadOff(c, env).clock >= c.clock && QueryStream(c, env).clock >= c.clock
    ensures SwitchOn(Tick(c), env).clock >= c.clock
  {
    hide WakeupClient, ReadOff, QueryStream, SwitchOn;
    forall x: Ctrl, cmd | x.clock >= c.clock ensures WakeupClient(x, cmd, env).clock >= c.clock {
      WakeTakes(x, cmd, env);
    }
    ReadQuiet(c, env);
    QueryTakes(c, env);
    SwitchOnTakes(Tick(c), env);
  }

  /** After the key message, a receiver is handed the stream type; a repeater is asked for its list of receivers, and
      if the time for it runs out, this is reported. */
  lemma KeySent(c: Ctrl, env: Env)
    requires !c.off && c.last == SkeSendEks && c.prepared == SkeSendEks && NoStop(env, c, MsgSent(c, env))
    ensures !c.repeater ==>
      Goes(c, MsgSent(c, env), [Sent(SkeSendTypeId, SkeSendTypeId, false)], SkeSendTypeId, SkeSendTypeId,
          c.authenticated, false)
    ensures c.repeater ==>
      Goes(c, MsgSent(c, env), [Asked(LinkPoll, RepSendRecvIdList)], RepSendRecvIdList, SkeSendEks, c.authenticated,
          !c.authenticated && env(c.clock + 3).timedOut)
  {
    hide WakeupClient, ReadOff, MsgSent, Goes;
    SentReads(c, env);
    if c.repeater {
      RepeaterAsked(c, env);
    } else {
      ReceiverKeySent(c, env);
    }
  }

  lemma ReceiverKeySent(c: Ctrl, env: Env)
    requires !c.off && c.last == SkeSendEks && c.prepared == SkeSendEks && !c.repeater
    requires NoStop(env, c, MsgSent(c, env)) && ReadOff(c, env) == Tick(c)
    ensures Goes(c, MsgSent(c, env), [Sent(SkeSendTypeId, SkeSendTypeId, false)], SkeSendTypeId, SkeSendTypeId,
             c.authenticated, false)
  {
    hide WakeupClient, ReadOff, QueryStream, SwitchOn, Goes;
    Hands(c, Tick(c).(prepared := SkeSendTypeId), SkeSendTypeId, env);
  }

  lemma RepeaterAsked(c: Ctrl, env: Env)
    requires !c.off && c.last == SkeSendEks && c.prepared == SkeSendEks && c.repeater
    requires NoStop(env, c, MsgSent(c, env)) && ReadOff(c, env) == Tick(c)
    ensures Goes(c, MsgSent(c, env), [Asked(LinkPoll, RepSendRecvIdList)], RepSendRecvIdList, SkeSendEks,
             c.authenticated, !c.authenticated && env(c.clock + 3).timedOut)
  {
    hide WakeupClient, ReadOff, QueryStream, SwitchOn, Goes;
    var c2 := ReadOff(Tick(c), env);
    ReadQuiet(Tick(c), env);
    ReadOffIs(Tick(c), env);
    WakeTakes(c2.(prepared := SkeSendTypeId), Send, env);
    WakeTakes(c2, LinkPoll, env);
    assert c2 == Tick(Tick(c));
    WakeGoes(c2, LinkPoll, RepSendRecvIdList, env);
    assert [] + [Asked(LinkPoll, RepSendRecvIdList)] == [Asked(LinkPoll, RepSendRecvIdList)];
    SinceSame(c, c2, MsgSent(c, env), [], [Asked(LinkPoll, RepSendRecvIdList)], RepSendRecvIdList, SkeSendEks,
        c.authenticated, !c.authenticated && env(c.clock + 3).timedOut);
  }

  /** Later acknowledgements only have the repeater polled. */
  lemma LaterAckSent(c: Ctrl, env: Env)
    requires !c.off && c.repeater && c.prepared == RepSendAck && !c.updateStream && NoStop(env, c, MsgSent(c, env))
    requires c.last == RepSendAck || c.last == RepStreamReady
    ensures Goes(c, MsgSent(c, env), [Asked(LinkPoll, RepSendRecvIdList)], RepSendRecvIdList, RepSendAck,
             c.authenticated, !c.authenticated && env(c.clock + 2).timedOut)
  {
    hide WakeupClient, ReadOff, QueryStream, SwitchOn, Goes;
    SentReads(c, env);
    WakeGoes(Tick(c), LinkPoll, RepSendRecvIdList, env);
    assert [] + [Asked(LinkPoll, RepSendRecvIdList)] == [Asked(LinkPoll, RepSendRecvIdList)];
    SinceSame(c, Tick(c), MsgSent(c, env), [], [Asked(LinkPoll, RepSendRecvIdList)], RepSendRecvIdList, RepSendAck,
        c.authenticated,
              !c.authenticated && env(c.clock + 2).timedOut);
  }

  /** After the stream type, encryption is switched on and the receiver authenticated, unless TrustZone refuses. */
  lemma TypeReported(c: Ctrl, env: Env)
    requires !c.off && !c.repeater && c.last == SkeSendTypeId && c.prepared == SkeSendTypeId
    requires NoStop(env, c, MsgSent(c, env))
    ensures var ok := env(c.clock + 1).ok;
      Goes(c, MsgSent(c, env), (if ok then [Encrypted, Success] else []) + [Asked(LinkPoll, SkeSendTypeId)],
          SkeSendTypeId, SkeSendTypeId, ok || c.authenticated, false)
  {
    hide WakeupClient, ReadOff, QueryStream, SwitchOn;
    SentReads(c, env);
    TypeOnward(Tick(c), env);
  }

  /** After a repeater's acknowledgement, its streams are managed at once if the key exchange was just done. */
  lemma AckSent(c: Ctrl, env: Env)
    requires !c.off && c.repeater && c.prepared == RepSendAck && c.updateStream && env(c.clock + 2).ok
    requires NoStop(env, c, MsgSent(c, env))
    ensures Goes(c, MsgSent(c, env), [Sent(RepStreamManage, RepStreamManage, false)],
                 RepStreamManage, RepStreamManage, c.authenticated, false)
    ensures !MsgSent(c, env).updateStream
  {
    hide WakeupClient, ReadOff, QueryStream, SwitchOn;
    SentReads(c, env);
    StreamsManaged(Tick(c), env);
  }

  // ----- The sink's messages -----

  // A message of the sink that TrustZone accepts and answers.
  ghost predicate Accepts(c: Ctrl, env: Env, out: Msg) {
    var a := env(c.clock + 1);
    !a.empty && a.ok && a.reply == out && Replies(c.last, c.noStoredKm, out)
  }

  lemma OnwardLaterThan(c: Ctrl, out: Msg, rep: bool, env: Env)
    ensures Onward(c, out, rep, env).clock >= c.clock
  {
    hide WakeupClient, ReadOff, SwitchOn, CleanUnlessOff;
    var x := Answered(c, c.last, out);
    WakeTakes(x, Recv, env);
    WakeTakes(x, LinkPoll, env);
    SwitchOnTakes(Tick(x), env);
    WakeTakes(SwitchOn(Tick(x), env), LinkPoll, env);
    WakeTakes(Tick(x), LinkPoll, env);
    CleanUnlessTakes(WakeupClient(Tick(x), LinkPoll, env), env);
    var y := Digest(x, c.last, out, rep);
    ReadQuiet(y, env);
    WakeTakes(ReadOff(y, env), Send, env);
  }

  lemma RecvReads(c: Ctrl, env: Env, out: Msg)
    requires !c.off && Accepts(c, env, out) && NoStop(env, c, MsgRecvd(c, env))
    ensures MsgRecvd(c, env) == Onward(Tick(Tick(c)), out, env(c.clock + 1).repeater, env)
  {
    hide ReadOff, CleanUnlessOff, Onward, Replies;
    var c1 := ReadOff(c, env);
    ReadQuiet(c, env);
    ReadOffIs(c, env);
    OnwardLaterThan(Tick(c1), out, env(c.clock + 1).repeater, env);
  }

  /** Accepting H' before pairing makes the transmitter ask for the pairing information, and if the time for it runs out,
      this is reported. */
  lemma PairingAwaited(c: Ctrl, env: Env, out: Msg)
    requires !c.off && c.last == AkeSendHPrime && c.noStoredKm && Accepts(c, env, out) && NoStop(env, c, MsgRecvd(c, env))
    ensures Goes(c, MsgRecvd(c, env), [Accepted(AkeSendHPrime, out), Asked(Recv, AkeSendPairingInfo)],
                 AkeSendPairingInfo, if out == Invalid then c.prepared else out,
                 c.authenticated, env(c.clock + 3).timedOut)
  {
    hide WakeupClient, ReadOff, MsgRecvd, StreamReady, SendReply, Goes;
    RecvReads(c, env, out);
    var x := Answered(Tick(Tick(c)), c.last, out);
    WakeGoes(x, Recv, AkeSendPairingInfo, env);
    var more, asked := [Accepted(AkeSendHPrime, out)], [Asked(Recv, AkeSendPairingInfo)];
    assert more + asked == [Accepted(AkeSendHPrime, out), Asked(Recv, AkeSendPairingInfo)];
    SinceSame(c, x, MsgRecvd(c, env), more, asked, AkeSendPairingInfo, x.prepared, c.authenticated,
              env(c.clock + 3).timedOut);
  }

  /** Every other accepted message is followed by TrustZone's answer to it, and the key message tells whether the sink is
      a repeater. */
  lemma AnswerSent(c: Ctrl, env: Env, out: Msg)
    requires !c.off && Accepts(c, env, out) && NoStop(env, c, MsgRecvd(c, env))
    requires !(c.last == AkeSendHPrime && c.noStoredKm) && (c.last == RepStreamReady ==> c.repeater && out == RepStreamManage)
    ensures Goes(c, MsgRecvd(c, env), [Accepted(c.last, out), Sent(out, out, false)], out, out, c.authenticated, false)
    ensures var d := MsgRecvd(c, env);
      && d.repeater == (if out == SkeSendEks then env(c.clock + 1).repeater else c.repeater)
      && d.updateStream == (c.updateStream || out == SkeSendEks) && d.noStoredKm == (out == AkeNoStoredKm)
  {
    hide WakeupClient, ReadOff, MsgRecvd, StreamReady, Goes;
    RecvReads(c, env, out);
    var x := Answered(Tick(Tick(c)), c.last, out);
    Replied(x, c.last, out, env(c.clock + 1).repeater, env);
    var more := [Accepted(c.last, out)];
    assert more + [Sent(out, out, false)] == [Accepted(c.last, out), Sent(out, out, false)];
    SinceSame(c, x, MsgRecvd(c, env), more, [Sent(out, out, false)], out, out, c.authenticated, false);
  }

  lemma Replied(x: Ctrl, m: Msg, out: Msg, rep: bool, env: Env)
    requires !x.off && x.last == m && x.prepared == out && Replies(m, x.noStoredKm, out)
    requires !(m == AkeSendHPrime && x.noStoredKm) && (m == RepStreamReady ==> x.repeater && out == RepStreamManage)
    requires NoStop(env, x, SendReply(x, m, out, rep, env))
    ensures Goes(x, SendReply(x, m, out, rep, env), [Sent(out, out, false)], out, out, x.authenticated, false)
    ensures var d := SendReply(x, m, out, rep, env);
      && d.repeater == (if out == SkeSendEks then rep else x.repeater)
      && d.updateStream == (x.updateStream || out == SkeSendEks) && d.noStoredKm == (out == AkeNoStoredKm)
  {
    hide WakeupClient, ReadOff;
    var y := Digest(x, m, out, rep);
    ReadQuiet(y, env);
    ReadOffIs(y, env);
    WakeTakes(ReadOff(y, env), Send, env);
    if !ReadOff(y, env).off {
      Hands(x, Tick(y), out, env);
      WakeGoes(Tick(y), Send, out, env);
    }
  }

  /** A repeater that has its streams managed and is not authenticated yet gets encryption, and is then polled; if
      TrustZone refuses, HDCP is switched off and one failure reported, whether or not the wait for the list of receivers
      expires meanwhile. */
  lemma RepeaterEncrypted(c: Ctrl, env: Env)
    requires !c.off && c.last == RepStreamReady && c.repeater && !c.authenticated && !c.resendManage
    requires Accepts(c, env, Invalid) && NoStop(env, c, MsgRecvd(c, env))
    ensures env(c.clock + 2).ok ==>
      Goes(c, MsgRecvd(c, env), [Accepted(RepStreamReady, Invalid), Encrypted, Success, Asked(LinkPoll, RepSendRecvIdList)],
           RepSendRecvIdList, c.prepared, true, false)
    ensures !env(c.clock + 2).ok ==>
      Goes(c, MsgRecvd(c, env), [Accepted(RepStreamReady, Invalid), Asked(LinkPoll, RepSendRecvIdList)],
           RepSendRecvIdList, c.prepared, false, true)
  {
    hide WakeupClient, ReadOff, MsgRecvd, StreamReady, SendReply, Goes;
    RecvReads(c, env, Invalid);
    var x := Answered(Tick(Tick(c)), c.last, Invalid);
    var more := [Accepted(RepStreamReady, Invalid)];
    ReadyGoes(x, env);
    var on, asked := [Encrypted, Success, Asked(LinkPoll, RepSendRecvIdList)], [Asked(LinkPoll, RepSendRecvIdList)];
    if env(c.clock + 2).ok {
      assert more + on == [Accepted(RepStreamReady, Invalid), Encrypted, Success, Asked(LinkPoll, RepSendRecvIdList)];
      SinceSame(c, x, MsgRecvd(c, env), more, on, RepSendRecvIdList, c.prepared, true, false);
    } else {
      assert more + asked == [Accepted(RepStreamReady, Invalid), Asked(LinkPoll, RepSendRecvIdList)];
      SinceSame(c, x, MsgRecvd(c, env), more, asked, RepSendRecvIdList, c.prepared, false, true);
    }
  }

  lemma ReadyGoes(x: Ctrl, env: Env)
    requires !x.off && x.last == RepStreamReady && x.repeater && !x.authenticated && !x.resendManage
    requires NoStop(env, x, StreamReady(x, env))
    ensures env(x.clock).ok ==>
      Goes(x, StreamReady(x, env), [Encrypted, Success, Asked(LinkPoll, RepSendRecvIdList)], RepSendRecvIdList,
          x.prepared, true, false)
    ensures !env(x.clock).ok ==>
      Goes(x, StreamReady(x, env), [Asked(LinkPoll, RepSendRecvIdList)], RepSendRecvIdList, x.prepared, false, true)
  {
    hide WakeupClient, SwitchOn, CleanUnlessOff, Goes;
    if env(x.clock).ok {
      var y := SwitchOn(Tick(x), env);
      SwitchOnTakes(Tick(x), env);
      WakeTakes(y, LinkPoll, env);
      SwitchesOn(Tick(x), env);
      WakeGoes(y, LinkPoll, RepSendRecvIdList, env);
      var asked := [Asked(LinkPoll, RepSendRecvIdList)];
      assert [Encrypted, Success] + asked == [Encrypted, Success, Asked(LinkPoll, RepSendRecvIdList)];
      SinceSame(x, y, StreamReady(x, env), [Encrypted, Success], asked, RepSendRecvIdList, x.prepared, true, false);
    } else {
      var y := WakeupClient(Tick(x), LinkPoll, env);
      WakeTakes(Tick(x), LinkPoll, env);
      CleanUnlessTakes(y, env);
      WakeGoes(Tick(x), LinkPoll, RepSendRecvIdList, env);
      RefusedAnyway(x, y, env, Timed(RepSendRecvIdList, false) && env(x.clock + 2).timedOut);
    }
  }

  // Cleaning up after a refusal, unless the wait has expired already.
  lemma RefusedAnyway(x: Ctrl, y: Ctrl, env: Env, expired: bool)
    requires Goes(Tick(x), y, [Asked(LinkPoll, RepSendRecvIdList)], RepSendRecvIdList, x.prepared, false, expired)
    requires NoStop(env, y, CleanUnlessOff(y, env))
    ensures Goes(x, CleanUnlessOff(y, env), [Asked(LinkPoll, RepSendRecvIdList)], RepSendRecvIdList, x.prepared, false, true)
  {
    hide Clean, ReadOff;
    CleanUnlessTakes(y, env);
    if y.off {
      ReadQuiet(y, env);
    } else {
      CleanUnlessReports(y, env);
    }
  }

  /** A repeater whose streams are to be managed again, or which is authenticated already, is only polled. */
  lemma RepeaterPolled(c: Ctrl, env: Env)
    requires !c.off && c.last == RepStreamReady && c.repeater && (c.authenticated || c.resendManage)
    requires Accepts(c, env, Invalid) && NoStop(env, c, MsgRecvd(c, env))
    ensures Goes(c, MsgRecvd(c, env), [Accepted(RepStreamReady, Invalid), Asked(LinkPoll, RepSendRecvIdList)],
                 RepSendRecvIdList, c.prepared, c.authenticated, !c.authenticated && env(c.clock + 3).timedOut)
  {
    hide WakeupClient, ReadOff, MsgRecvd, SendReply, Goes;
    RecvReads(c, env, Invalid);
    var x := Answered(Tick(Tick(c)), c.last, Invalid);
    var more := [Accepted(RepStreamReady, Invalid)];
    WakeGoes(x, LinkPoll, RepSendRecvIdList, env);
    var asked := [Asked(LinkPoll, RepSendRecvIdList)];
    assert more + asked == [Accepted(RepStreamReady, Invalid), Asked(LinkPoll, RepSendRecvIdList)];
    SinceSame(c, x, MsgRecvd(c, env), more, asked, RepSendRecvIdList, c.prepared, c.authenticated,
              !c.authenticated && env(c.clock + 3).timedOut);
  }

  /** A message without content is ignored. */
  lemma EmptyIgnored(c: Ctrl, env: Env)
    requires !c.off && env(c.clock + 1).empty && NoStop(env, c, MsgRecvd(c, env))
    ensures Unchanged(c, MsgRecvd(c, env))
  {
    hide WakeupClient, ReadOff, CleanUnlessOff, Onward;
    ReadQuiet(c, env);
    ReadOffIs(c, env);
  }

  // ----- Changed streams -----

  /** A change of the streams has an authenticated repeater handed stream management; one that is under way with it is
      noted, to be asked again; and nothing happens otherwise. */
  lemma StreamsChanged(c: Ctrl, env: Env)
    requires !c.off && NoStop(env, c, ManageStream(c, env))
    ensures env(c.clock).ok && c.authenticated && c.repeater && env(c.clock + 2).ok ==>
      Goes(c, ManageStream(c, env), [Sent(RepStreamManage, RepStreamManage, false)], RepStreamManage, RepStreamManage,
          true, false)
    ensures env(c.clock).ok && !c.authenticated && (c.last == RepStreamManage || c.last == RepStreamReady) ==>
      Unchanged(c.(resendManage := true), ManageStream(c, env))
    ensures !env(c.clock).ok || (!c.authenticated && c.last != RepStreamManage && c.last != RepStreamReady) ==>
      Unchanged(c, ManageStream(c, env))
  {
    hide QueryStream;
    if env(c.clock).ok && c.authenticated {
      QueryTakes(Tick(c), env);
      if c.repeater && env(c.clock + 2).ok {
        StreamsManaged(Tick(c), env);
      }
    }
  }

  // ----- On runs -----

  // The sink's answer does not come in time: H' once km was sent, the pairing information, or a repeater's list of
  // receivers.
  ghost predicate Unanswered(c: Ctrl, w: Wakeup, env: Env) {
    match w
    case SendSuccess =>
      || ((c.last == AkeStoredKm || c.last == AkeNoStoredKm) && env(c.clock + 2).timedOut)
      || (c.last == SkeSendEks && c.repeater && env(c.clock + 3).timedOut)
    case RecvSuccess =>
      c.last == AkeSendHPrime && c.noStoredKm && Accepts(c, env, env(c.clock + 1).reply) && env(c.clock + 3).timedOut
    case _ => false
  }

  // TrustZone does not switch encryption on for a repeater.
  ghost predicate EncryptionRefused(c: Ctrl, w: Wakeup, env: Env) {
    && w == RecvSuccess && c.last == RepStreamReady && c.repeater && !c.authenticated && !c.resendManage
    && Accepts(c, env, Invalid) && !env(c.clock + 2).ok
  }

  // TrustZone refuses what the command asks, the client reports a failure or STOP, the sink's answer does not come in
  // time, or encryption is refused.
  ghost predicate Fails(c: Ctrl, w: Wakeup, env: Env) {
    Refused(c, w, env) || SwitchesOff(w) || Unanswered(c, w, env) || EncryptionRefused(c, w, env)
  }

  // HDCP is off, and exactly one failure report was added, after nothing but a message of the sink that was accepted
  // and one that was asked for.
  ghost predicate FailedOnce(c: Ctrl, d: Ctrl) {
    && d.off && !d.authenticated
    && |c.history| < |d.history| && c.history <= d.history && d.history[|d.history| - 1] == Failure
    && forall i :: |c.history| <= i < |d.history| - 1 ==> d.history[i].Accepted? || d.history[i].Asked?
  }

  /** On every run with HDCP on, a command that fails switches it off and reports this exactly once. */
  lemma FailuresReported(steps: seq<Step>, env: Env)
    requires var s := Run(Registered(), steps, env);
      && s.queue != [] && !s.ctrl.off && NoStop(env, s.ctrl, Run(Registered(), steps + [Worker], env).ctrl)
      && Fails(s.ctrl, s.queue[0], env)
    ensures var s := Run(Registered(), steps, env);
      FailedOnce(s.ctrl, Run(Registered(), steps + [Worker], env).ctrl)
  {
    hide Handle, Run, Good, Fails;
    var s := Run(Registered(), steps, env);
    RunKeeps(steps, env);
    Worked(steps, env);
    FailureReported(s.ctrl, s.queue[0], s.handled, env);
  }

  lemma FailureReported(c: Ctrl, w: Wakeup, handled: nat, env: Env)
    requires !c.off && Good(c, handled) && NoStop(env, c, Handle(c, w, env)) && Fails(c, w, env)
    ensures FailedOnce(c, Handle(c, w, env))
  {
    hide Handle, Good, Refused, Unanswered, EncryptionRefused, SwitchesOff, FailedOnce, Reported;
    if Refused(c, w, env) {
      RefusalReported(c, w, env);
      OnlyReported(c, Handle(c, w, env));
    } else if SwitchesOff(w) {
      NotReceived(w);
      RefusalReported(c, w, env);
      OnlyReported(c, Handle(c, w, env));
    } else if Unanswered(c, w, env) {
      UnansweredReported(c, w, handled, env);
    } else {
      EncryptionReported(c, w, env);
    }
  }

  lemma EncryptionReported(c: Ctrl, w: Wakeup, env: Env)
    requires !c.off && NoStop(env, c, Handle(c, w, env)) && EncryptionRefused(c, w, env)
    ensures FailedOnce(c, Handle(c, w, env))
  {
    hide MsgRecvd;
    RepeaterEncrypted(c, env);
    OnlyFailed(c, MsgRecvd(c, env), [Accepted(RepStreamReady, Invalid), Asked(LinkPoll, RepSendRecvIdList)],
               RepSendRecvIdList, c.prepared, false);
  }

  lemma NotReceived(w: Wakeup)
    requires SwitchesOff(w)
    ensures w == Stop || w == SendFailed || w == RecvFailed || w == LinkFailed
  {
  }

  lemma OnlyReported(c: Ctrl, d: Ctrl)
    requires Reported(c, d)
    ensures FailedOnce(c, d)
  {
  }

  lemma OnlyFailed(c: Ctrl, d: Ctrl, events: seq<Event>, last: Msg, prepared: Msg, authenticated: bool)
    requires Goes(c, d, events, last, prepared, authenticated, true)
    requires forall i :: 0 <= i < |events| ==> events[i].Accepted? || events[i].Asked?
    ensures FailedOnce(c, d)
  {
  }

  // The worker's step is the handling of the command at the front.
  lemma Worked(steps: seq<Step>, env: Env)
    requires Run(Registered(), steps, env).queue != []
    ensures var s := Run(Registered(), steps, env);
      Run(Registered(), steps + [Worker], env).ctrl == Handle(s.ctrl, s.queue[0], env).(stopAsked := false)
  {
    hide Handle;
    assert (steps + [Worker])[..|steps|] == steps;
  }

  lemma UnansweredReported(c: Ctrl, w: Wakeup, handled: nat, env: Env)
    requires !c.off && Good(c, handled) && Unanswered(c, w, env) && NoStop(env, c, Handle(c, w, env))
    ensures FailedOnce(c, Handle(c, w, env))
  {
    hide MsgSent, MsgRecvd, Replies, StageOf, SentCount, Orderly, Calm;
    if w == RecvSuccess {
      var out := env(c.clock + 1).reply;
      PairingAwaited(c, env, out);
      OnlyFailed(c, MsgRecvd(c, env), [Accepted(AkeSendHPrime, out), Asked(Recv, AkeSendPairingInfo)],
                 AkeSendPairingInfo, if out == Invalid then c.prepared else out, c.authenticated);
    } else if c.last == SkeSendEks {
      KeySent(c, env);
      OnlyFailed(c, MsgSent(c, env), [Asked(LinkPoll, RepSendRecvIdList)], RepSendRecvIdList, SkeSendEks, c.authenticated);
    } else {
      SentAwaits(c, env);
      OnlyFailed(c, MsgSent(c, env), [Asked(Recv, AkeSendHPrime)], AkeSendHPrime, c.prepared, c.authenticated);
    }
  }

  // ----- The client's thread -----

  /** A STOP or DISABLE of the client switches HDCP off at once, whatever is being worked off, and it stays off until
      the client asks for a START. */
  lemma {:induction false} StopLasts(steps: seq<Step>, w: Wakeup, more: seq<Step>, env: Env)
    requires (w == Stop || w == Disable) && forall i :: 0 <= i < |more| ==> more[i] != Client(Start)
    ensures Run(Run(Registered(), steps + [Client(w)], env), more, env).ctrl.off
    decreases |more|
  {
    hide Handle, PutAll, Enqueued, Permitted;
    var s := Run(Registered(), steps + [Client(w)], env);
    if more == [] {
      assert (steps + [Client(w)])[..|steps|] == steps;
      assert Permitted(Run(Registered(), steps, env), w) by { AlwaysPermitted(Run(Registered(), steps, env), w); }
    } else {
      var n := |more| - 1;
      StopLasts(steps, w, more[..n], env);
      StaysOff(Run(s, more[..n], env), more[n], env);
    }
  }

  lemma AlwaysPermitted(s: Sys, w: Wakeup)
    requires w == Stop || w == Disable
    ensures Permitted(s, w)
  {
  }

  lemma StaysOff(s: Sys, step: Step, env: Env)
    requires s.ctrl.off && step != Client(Start)
    ensures Next(s, step, env).ctrl.off
  {
    hide Handle, PutAll, Enqueued, Permitted, Put;
    if step == Worker && s.queue != [] {
      HandleLater(s.ctrl, s.queue[0], env);
    }
  }

  /** What a wake-up puts in a queue with room for it: the command itself, but ENABLE only if none is waiting to be
      worked off, a change of the encryption level only once authenticated, and a STOP before a DISABLE that finds HDCP
      on. */
  lemma CommandQueued(s: Sys, w: Wakeup, env: Env)
    requires Permitted(s, w) && |s.queue| + 2 <= QUEUE_SIZE
    ensures var q := Next(s, Client(w), env).queue;
      if (w == Enable && s.ctrl.enablePending) || (w == MinEncLevel && !s.ctrl.authenticated) then q == s.queue
      else if w == Disable && !s.ctrl.off then q == s.queue + [Stop, Disable]
      else q == s.queue + [w]
  {
    hide Permitted, Handle;
    assert [w][1..] == [] && [Stop, w][1..] == [w];
    assert s.queue + [Stop] + [w] == s.queue + [Stop, w];
    assert PutAll(s.queue, [w]) == PutAll(s.queue + [w], []) == s.queue + [w];
    assert PutAll(s.queue + [Stop], [w]) == s.queue + [Stop] + [w];
  }
}
