/**
 What every handler of the HDCP 2.2 transmitter keeps: where a session is after its history, and that
 the messages it handed over while HDCP was on are the ones TrustZone had prepared.
 */
module HdcpSession {
  import opened HdcpMessages
  import opened HdcpTransmitter

  function SentCount(h: seq<Event>): nat {
    if h == [] then 0 else SentCount(h[..|h| - 1]) + (if h[|h| - 1].Sent? then 1 else 0)
  }

  // ----- What holds of a session's history -----

  // Every message handed over was the one TrustZone had prepared, but for the torn ones, which never are.
  ghost predicate Agree(h: seq<Event>) {
    forall i :: 0 <= i < |h| && h[i].Sent? ==> (h[i].picked == h[i].prepared <==> !Torn(h[i]))
  }

  ghost predicate Quiet(h: seq<Event>) {
    forall i :: 0 <= i < |h| ==> h[i] != Failure && h[i] != Stopped
  }

  // A failure is reported only while nothing failed and nobody switched HDCP off before.
  ghost predicate Tidy(h: seq<Event>) {
    forall i :: 0 <= i < |h| && h[i] == Failure ==> Quiet(h[..i])
  }

  // Calm and Orderly are Quiet, and Agree with Tidy, in the form that follows the history as it grows.
  ghost predicate Calm(h: seq<Event>) {
    h == [] || (h[|h| - 1] != Failure && h[|h| - 1] != Stopped && Calm(h[..|h| - 1]))
  }

  ghost predicate Orderly(h: seq<Event>) {
    h == [] ||
    var e, g := h[|h| - 1], h[..|h| - 1];
    Orderly(g) && (e.Sent? ==> (e.picked == e.prepared <==> !Torn(e))) && (e == Failure ==> Calm(g))
  }

  lemma {:induction false} CalmIsQuiet(h: seq<Event>)
    requires Calm(h)
    ensures Quiet(h)
  {
    if h != [] {
      CalmIsQuiet(h[..|h| - 1]);
    }
  }

  lemma {:induction false} OrderlyMeans(h: seq<Event>)
    requires Orderly(h)
    ensures Agree(h) && Tidy(h)
  {
    if h != [] {
      var g := h[..|h| - 1];
      OrderlyMeans(g);
      forall i | 0 <= i < |h| && h[i] == Failure ensures Quiet(h[..i]) {
        if i < |g| {
          assert g[..i] == h[..i];
        } else {
          CalmIsQuiet(g);
        }
      }
    }
  }

  // Authenticated means that encryption is on, after a repeater's sequence exactly if the sink is one.
  ghost predicate Earned(authenticated: bool, repeater: bool, s: Stage) {
    authenticated ==> EncryptionOn(s) && (repeater <==> s == RepeaterOn)
  }

  ghost predicate Base(c: Ctrl) {
    && Orderly(c.history)
    && (!c.off ==> Calm(c.history))
    && Earned(c.authenticated, c.repeater, StageOf(c.history))
  }

  // Where the transmitter can be, at each stage, while HDCP is on: the last message, the prepared one
  // and two flags.  `open` is how many handed-over messages have not been reported sent; before the
  // key exchange it is at most one.
  ghost predicate At(s: Stage, open: int, last: Msg, prepared: Msg, noStoredKm: bool, repeater: bool) {
    match s
    case NotStarted => !repeater && last == Invalid && open == 0
    case InitSent => Handed(AkeInit, AkeSendCert, open, last, prepared, repeater)
    case NoKmSent => noStoredKm && Handed(AkeNoStoredKm, AkeSendHPrime, open, last, prepared, repeater)
    case KmSent => !noStoredKm && Handed(AkeStoredKm, AkeSendHPrime, open, last, prepared, repeater)
    case HPrimeAccepted => !repeater && last == AkeSendPairingInfo && open == 0
    case LcSent => Handed(LcInit, LcSendLPrime, open, last, prepared, repeater)
    case SkeSent =>
      prepared == SkeSendEks
      && (last == SkeSendEks || (repeater && (last == RepSendRecvIdList || last == RepSendAck)))
    case TypeSent => !repeater && last == SkeSendTypeId && prepared == SkeSendTypeId
    case ReceiverOn => !repeater && last == SkeSendTypeId && prepared == SkeSendTypeId
    case AckSent => repeater && prepared == RepSendAck && (last == RepSendRecvIdList || last == RepSendAck)
    case ManageSent => Managing(last, prepared, repeater)
    case ReadyAccepted => Managing(last, prepared, repeater)
    case RepeaterOn => Managing(last, prepared, repeater)
    case _ => false
  }

  // m was handed over and not yet reported, or it was and the answer to it is awaited.
  ghost predicate Handed(m: Msg, answer: Msg, open: int, last: Msg, prepared: Msg, repeater: bool) {
    !repeater && prepared == m && ((last == m && open == 1) || (last == answer && open == 0))
  }

  ghost predicate Managing(last: Msg, prepared: Msg, repeater: bool) {
    && repeater
    && (prepared == RepSendAck || prepared == RepStreamManage)
    && (last == RepSendRecvIdList || last == RepSendAck || last == RepStreamManage || last == RepStreamReady)
  }

  ghost predicate Session(c: Ctrl, handled: nat) {
    At(StageOf(c.history), SentCount(c.history) - handled, c.last, c.prepared, c.noStoredKm, c.repeater)
  }

  // ----- The cycle of waking the client, waiting and cleaning up -----

  // c' is c after things that can only have switched it off.
  ghost predicate Settled(c: Ctrl, c': Ctrl) {
    && c'.last == c.last && c'.noStoredKm == c.noStoredKm && c'.repeater == c.repeater
    && c'.updateStream == c.updateStream && c'.resendLcInit == c.resendLcInit
    && c'.resendManage == c.resendManage && c'.prepared == c.prepared
    && (c.off ==> c'.off)
    && (c'.authenticated ==> c.authenticated)
    && (!c'.off ==> c'.history == c.history && c'.authenticated == c.authenticated)
    && StageOf(c'.history) == StageOf(c.history) && SentCount(c'.history) == SentCount(c.history)
  }

  lemma SentSnoc(h: seq<Event>, e: Event)
    ensures SentCount(h + [e]) == SentCount(h) + (if e.Sent? then 1 else 0)
  {
    assert (h + [e])[..|h|] == h;
  }

  // One more event in the history of c, which is still on only if the event is not a switch-off.
  lemma BaseSnoc(c: Ctrl, e: Event)
    requires Orderly(c.history) && (!c.off ==> Calm(c.history))
    requires e == Failure ==> c.off && Calm(c.history)
    requires e == Stopped ==> c.off
    requires e.Sent? ==> (e.picked == e.prepared <==> !Torn(e))
    requires Earned(c.authenticated, c.repeater, NextStage(StageOf(c.history), e))
    ensures Base(Log(c, e))
    ensures StageOf(Log(c, e).history) == NextStage(StageOf(c.history), e)
    ensures SentCount(Log(c, e).history) == SentCount(c.history) + (if e.Sent? then 1 else 0)
  {
    hide Earned, NextStage;
    StageSnoc(c.history, e);
    SentSnoc(c.history, e);
    assert (c.history + [e])[..|c.history|] == c.history;
  }

  lemma StopStays(s: Stage)
    ensures NextStage(s, Stopped) == NextStage(s, Failure) == s
  {
  }

  lemma {:induction false} StopKeeps(c: Ctrl)
    requires Base(c)
    ensures var d := Log(Tick(c), Stopped);
      && Base(d.(off := true, stopAsked := true))
      && StageOf(d.history) == StageOf(c.history) && SentCount(d.history) == SentCount(c.history)
  {
    hide StageOf, SentCount, Orderly, Calm, NextStage, Earned, Torn;
    StopStays(StageOf(c.history));
    BaseSnoc(Tick(c).(off := true, stopAsked := true), Stopped);
  }

  lemma {:induction false} ReadOffKeeps(c: Ctrl, env: Env)
    requires Base(c)
    ensures Base(ReadOff(c, env)) && Settled(c, ReadOff(c, env))
  {
    hide StageOf, SentCount, Orderly, Calm, NextStage, Earned, Torn;
    if env(c.clock).stop {
      StopKeeps(c);
    }
  }

  // Once HDCP is off nobody waits, which is what ends the cycle.
  lemma WaitWhenOff(c: Ctrl, env: Env)
    requires c.off
    ensures WaitForResponse(c, env) == if Waits(c) then ReadOff(c, env) else c
  {
  }

  // Cleaning up either finds HDCP off already or switches it off and reports one failure.
  lemma CleanSteps(c: Ctrl, env: Env)
    ensures var c1 := ReadOff(c.(authenticated := false), env);
      Clean(c, env) ==
        if c1.off then c1
        else var c2 := Log(c1.(off := true), Failure); if Waits(c2) then ReadOff(c2, env) else c2
  {
    var c1 := ReadOff(c.(authenticated := false), env);
    WaitWhenOff(Log(c1.(off := true), Failure), env);
  }

  lemma CleanKeeps(c: Ctrl, env: Env)
    requires Base(c)
    ensures Base(Clean(c, env)) && Settled(c, Clean(c, env)) && Clean(c, env).off && !Clean(c, env).authenticated
  {
    hide StageOf, SentCount, Orderly, Calm, ReadOff, Waits, Clean;
    CleanSteps(c, env);
    var c0 := c.(authenticated := false);
    var c1 := ReadOff(c0, env);
    ReadOffKeeps(c0, env);
    if !c1.off {
      FailureKeeps(c1.(off := true), env);
    }
  }

  // Reporting the failure, after switching off.
  lemma {:induction false} FailureKeeps(c: Ctrl, env: Env)
    requires Base(c) && c.off && !c.authenticated && Calm(c.history)
    ensures var c2 := Log(c, Failure);
      var c3 := if Waits(c2) then ReadOff(c2, env) else c2;
      Base(c3) && Settled(c, c3) && !c3.authenticated
  {
    hide StageOf, SentCount, Orderly, Calm, ReadOff, Waits, NextStage;
    StopStays(StageOf(c.history));
    BaseSnoc(c, Failure);
    ReadOffKeeps(Log(c, Failure), env);
  }

  lemma WaitKeeps(c: Ctrl, env: Env)
    requires Base(c)
    ensures Base(WaitForResponse(c, env)) && Settled(c, WaitForResponse(c, env))
  {
    hide StageOf, NextStage, SentCount, Orderly, Calm;
    if Waits(c) {
      var c1 := ReadOff(c, env);
      ReadOffKeeps(c, env);
      if !c1.off && env(c1.clock).timedOut {
        var c2 := ReadOff(Tick(c1), env);
        ReadOffKeeps(Tick(c1), env);
        if !c2.off {
          CleanKeeps(c2, env);
        }
      }
    }
  }

  lemma CleanUnlessOffKeeps(c: Ctrl, env: Env)
    requires Base(c)
    ensures Base(CleanUnlessOff(c, env)) && Settled(c, CleanUnlessOff(c, env)) && CleanUnlessOff(c, env).off
  {
    hide StageOf, NextStage, SentCount, Orderly, Calm;
    ReadOffKeeps(c, env);
    if !ReadOff(c, env).off {
      CleanKeeps(ReadOff(c, env), env);
    }
  }

  // Asking for a message, or telling the client of success, changes no stage.
  lemma AskPicks(c: Ctrl, cmd: Cmd)
    requires Base(c) && cmd != Send && cmd != StatusFailed
    ensures var d := Pick(c, cmd);
      Base(d) && StageOf(d.history) == StageOf(c.history) && SentCount(d.history) == SentCount(c.history)
  {
    hide StageOf, NextStage, SentCount, Orderly, Calm, NextMessage, Earned;
    if Exchanges(cmd) {
      var m := NextMessage(c.last, c.noStoredKm, c.resendLcInit, c.repeater, cmd);
      AskStays(StageOf(c.history), Asked(cmd, m));
      BaseSnoc(c.(last := m, resendManage := c.resendManage && c.last != RepStreamManage), Asked(cmd, m));
    } else {
      AskStays(StageOf(c.history), Success);
      BaseSnoc(c, Success);
    }
  }

  lemma AskStays(s: Stage, e: Event)
    requires e.Asked? || e == Success
    ensures NextStage(s, e) == s
  {
  }

  lemma AskKeeps(c: Ctrl, cmd: Cmd, env: Env)
    requires Base(c) && cmd != Send && cmd != StatusFailed
    ensures Base(WakeupClient(c, cmd, env)) && Settled(Pick(c, cmd), WakeupClient(c, cmd, env))
    ensures var d := Pick(c, cmd); StageOf(d.history) == StageOf(c.history) && SentCount(d.history) == SentCount(c.history)
  {
    hide StageOf, NextStage, SentCount, Orderly, Calm, Pick, Base, WaitForResponse;
    AskPicks(c, cmd);
    WaitKeeps(Pick(c, cmd), env);
  }

  // Handing over a message: it has to be the prepared one, but for a torn one.
  ghost predicate Fitting(c: Ctrl) {
    var m := NextMessage(c.last, c.noStoredKm, c.resendLcInit, c.repeater, Send);
    m != Invalid && (m == c.prepared <==> !(c.off && c.prepared == SkeSendTypeId))
  }

  lemma {:induction false} SendPicks(c: Ctrl)
    requires Base(c) && Fitting(c)
    ensures Base(Pick(c, Send)) && Pick(c, Send).last != Invalid
    ensures !c.off ==>
      && StageOf(Pick(c, Send).history) == NextStage(StageOf(c.history), Sent(c.prepared, c.prepared, false))
      && SentCount(Pick(c, Send).history) == SentCount(c.history) + 1
  {
    hide StageOf, SentCount, Orderly, Calm, NextMessage;
    var m := NextMessage(c.last, c.noStoredKm, c.resendLcInit, c.repeater, Send);
    if EncryptionOn(StageOf(c.history)) {
      SendStays(StageOf(c.history), Sent(m, c.prepared, c.off));
    }
    BaseSnoc(c.(last := m, resendManage := c.resendManage && c.last != RepStreamManage), Sent(m, c.prepared, c.off));
  }

  // Once encryption is on, handing a message over changes no stage.
  lemma SendStays(s: Stage, e: Event)
    requires EncryptionOn(s)
    ensures NextStage(s, e) == s
  {
  }

  lemma {:induction false} SendKeeps(c: Ctrl, env: Env)
    requires Base(c) && Fitting(c)
    ensures Base(WakeupClient(c, Send, env)) && Settled(Pick(c, Send), WakeupClient(c, Send, env))
    ensures !c.off ==>
      && StageOf(Pick(c, Send).history) == NextStage(StageOf(c.history), Sent(c.prepared, c.prepared, false))
      && SentCount(Pick(c, Send).history) == SentCount(c.history) + 1
  {
    hide StageOf, NextStage, SentCount, Base, Pick, Settled, WaitForResponse, Fitting;
    SendPicks(c);
    WaitKeeps(Pick(c, Send), env);
  }

  // ----- The handlers -----

  ghost predicate Good(c: Ctrl, handled: nat) {
    Base(c) && (!c.off ==> Session(c, handled))
  }

  // A read of hdcp_off that finds it clear has changed nothing.
  lemma {:induction false} StillOn(c: Ctrl, env: Env)
    requires Base(c)
    ensures Base(ReadOff(c, env))
    ensures !ReadOff(c, env).off ==> !c.off && ReadOff(c, env) == Tick(c)
  {
    ReadOffKeeps(c, env);
  }

  // Handing over the prepared message, when that is the next one.
  lemma SendLands(c: Ctrl, handled: nat, env: Env)
    requires Base(c) && !c.off
    requires NextMessage(c.last, c.noStoredKm, c.resendLcInit, c.repeater, Send) == c.prepared != Invalid
    requires At(NextStage(StageOf(c.history), Sent(c.prepared, c.prepared, false)), SentCount(c.history) + 1 - handled,
                c.prepared, c.prepared, c.noStoredKm, c.repeater)
    ensures Good(WakeupClient(c, Send, env), handled)
  {
    hide Orderly, Calm, StageOf, NextStage, SentCount, At, WakeupClient, WaitForResponse, Clean, NextMessage;
    SendKeeps(c, env);
  }

  // Asking for the sink's next message.
  lemma AskLands(c: Ctrl, cmd: Cmd, handled: nat, env: Env)
    requires Base(c) && (cmd == Recv || cmd == LinkPoll)
    requires !c.off ==>
      At(StageOf(c.history), SentCount(c.history) - handled,
         NextMessage(c.last, c.noStoredKm, c.resendLcInit, c.repeater, cmd), c.prepared, c.noStoredKm, c.repeater)
    ensures Good(WakeupClient(c, cmd, env), handled)
  {
    hide Base, StageOf, NextStage, SentCount, At, WakeupClient, WaitForResponse, Clean, NextMessage, Pick;
    AskKeeps(c, cmd, env);
    PickSays(c, cmd);
  }

  lemma PickSays(c: Ctrl, cmd: Cmd)
    requires Exchanges(cmd)
    ensures var d := Pick(c, cmd);
      && d.last == NextMessage(c.last, c.noStoredKm, c.resendLcInit, c.repeater, cmd) && d.off == c.off
      && d.prepared == c.prepared && d.noStoredKm == c.noStoredKm && d.repeater == c.repeater
  {
    hide NextMessage;
  }

  lemma StartAuthKeeps(c: Ctrl, handled: nat, env: Env)
    requires Good(c, handled) && c.last == Invalid && (!c.off ==> StageOf(c.history) == NotStarted)
    ensures Good(StartAuth(c, env), handled)
  {
    hide Orderly, Calm, StageOf, SentCount, WakeupClient, WaitForResponse, Clean;
    var c1 := Tick(c).(prepared := AkeInit);
    if !env(c.clock).ok {
      CleanKeeps(Tick(c), env);
    } else if c.off {
      SendKeeps(c1, env);
    } else {
      SendLands(c1, handled, env);
    }
  }

  lemma {:induction false} SendTypeKeeps(c: Ctrl, handled: nat, env: Env)
    requires Good(c, handled) && (!c.off && !c.repeater ==> EncryptionOn(StageOf(c.history)))
    ensures Good(SendType(c, env), handled)
  {
    hide Orderly, Calm, StageOf, SentCount, WakeupClient, WaitForResponse, Clean, ReadOff;
    StillOn(c, env);
    var c1 := ReadOff(c, env);
    if !c1.off && !c1.repeater {
      var c2 := c1.(prepared := SkeSendTypeId);
      StillOn(c2, env);
      if !ReadOff(c2, env).off {
        SendLands(ReadOff(c2, env), handled, env);
      }
    }
  }

  lemma QueryStreamKeeps(c: Ctrl, handled: nat, env: Env)
    requires Good(c, handled)
    ensures Good(QueryStream(c, env), handled)
  {
    hide Base, Session, StageOf, SentCount, WakeupClient, ReadOff;
    OnOrOff(c, handled, env);
    var c1 := ReadOff(c, env);
    TickKeeps(c1, handled);
    if !c1.off && c1.repeater && (c1.authenticated || c1.prepared == RepSendAck) && env(c1.clock).ok {
      QueriedKeeps(Tick(c1), handled, env);
    }
  }

  lemma TickKeeps(c: Ctrl, handled: nat)
    requires Good(c, handled)
    ensures Good(Tick(c), handled)
  {
  }

  // A read of hdcp_off leaves a good place good.
  lemma {:induction false} OnOrOff(c: Ctrl, handled: nat, env: Env)
    requires Good(c, handled)
    ensures Good(ReadOff(c, env), handled)
  {
    hide Orderly, Calm, StageOf, SentCount, ReadOff, At;
    StillOn(c, env);
  }

  // The part of the query after TrustZone answered it.
  lemma QueriedKeeps(c: Ctrl, handled: nat, env: Env)
    requires Good(c, handled) && !c.off && c.repeater && (c.authenticated || c.prepared == RepSendAck)
    ensures var c2 := ReadOff(c.(prepared := RepStreamManage), env);
      Good(if c2.off then c2 else WakeupClient(c2.(last := RepSendAck), Send, env), handled)
  {
    hide Orderly, Calm, StageOf, SentCount, WakeupClient, ReadOff, At, NextStage;
    var c2 := c.(prepared := RepStreamManage);
    StillOn(c2, env);
    if !ReadOff(c2, env).off {
      ManageFits(StageOf(c.history), SentCount(c.history) - handled, c.last, c.prepared, c.noStoredKm, c.authenticated);
      SendLands(ReadOff(c2, env).(last := RepSendAck), handled, env);
    }
  }

  // Stream management may be sent once the receiver list was acknowledged.
  lemma ManageFits(s: Stage, open: int, last: Msg, prepared: Msg, noStoredKm: bool, authenticated: bool)
    requires At(s, open, last, prepared, noStoredKm, true)
    requires authenticated ==> EncryptionOn(s)
    requires authenticated || prepared == RepSendAck
    ensures At(NextStage(s, Sent(RepStreamManage, RepStreamManage, false)), open + 1, RepStreamManage, RepStreamManage,
             noStoredKm, true)
  {
  }

  // Switching encryption on after the last message of the sequence.
  lemma SwitchOnKeeps(c: Ctrl, env: Env)
    requires Base(c) && Earned(true, c.repeater, NextStage(StageOf(c.history), Encrypted))
    ensures var d := SwitchOn(c, env);
      && Base(d) && (c.off ==> d.off)
      && (!d.off ==>
            && StageOf(d.history) == NextStage(StageOf(c.history), Encrypted) && SentCount(d.history) == SentCount(c.history)
            && d.last == c.last && d.prepared == c.prepared && d.noStoredKm == c.noStoredKm
            && d.repeater == c.repeater && d.resendLcInit == c.resendLcInit)
  {
    hide Base, StageOf, NextStage, SentCount, WakeupClient, WaitForResponse, Clean, Earned, Pick;
    EncryptedBase(c);
    var x := Log(c, Encrypted).(authenticated := true);
    AskKeeps(x, StatusSuccess, env);
    SuccessPicks(x);
  }

  lemma EncryptedBase(c: Ctrl)
    requires Base(c) && Earned(true, c.repeater, NextStage(StageOf(c.history), Encrypted))
    ensures var d := Log(c, Encrypted).(authenticated := true);
      Base(d) && StageOf(d.history) == NextStage(StageOf(c.history),
          Encrypted) && SentCount(d.history) == SentCount(c.history)
  {
    hide Orderly, Calm, StageOf, NextStage, SentCount, Earned;
    BaseSnoc(c.(authenticated := true), Encrypted);
  }

  lemma SuccessPicks(c: Ctrl)
    ensures Pick(c, StatusSuccess) == Log(c, Success)
  {
  }

  lemma MsgSentKeeps(c: Ctrl, handled: nat, env: Env)
    requires Good(c, handled) && (!c.off ==> handled < SentCount(c.history))
    ensures Good(MsgSent(c, env), handled + 1)
  {
    hide Orderly, Calm, StageOf, SentCount, WakeupClient, ReadOff, At, NextStage, QueryStream, SwitchOn;
    StillOn(c, env);
    var c1 := ReadOff(c, env);
    if !c1.off {
      match c1.prepared {
        case SkeSendTypeId => TypeSentKeeps(c1, handled, env);
        case SkeSendEks => EksSentKeeps(c1, handled, env);
        case RepSendAck => AckSentKeeps(c1, handled, env);
        case _ => OtherSentKeeps(c1, handled, env);
      }
    }
  }

  lemma {:induction false} AckSentKeeps(c: Ctrl, handled: nat, env: Env)
    requires Good(c, handled) && !c.off && c.prepared == RepSendAck && handled < SentCount(c.history)
    ensures Good(if c.updateStream then QueryStream(c, env).(updateStream := false) else WakeupClient(c, LinkPoll, env),
             handled + 1)
  {
    hide Orderly, Calm, StageOf, SentCount, WakeupClient, At, QueryStream, NextMessage;
    AckFits(StageOf(c.history), SentCount(c.history) - handled, c.last, c.noStoredKm, c.resendLcInit, c.repeater);
    if c.updateStream {
      QueryStreamKeeps(c, handled + 1, env);
    } else {
      AskLands(c, LinkPoll, handled + 1, env);
    }
  }

  lemma {:induction false} OtherSentKeeps(c: Ctrl, handled: nat, env: Env)
    requires Good(c, handled) && !c.off && handled < SentCount(c.history)
    requires c.prepared != SkeSendTypeId && c.prepared != SkeSendEks && c.prepared != RepSendAck
    ensures Good(WakeupClient(c, Recv, env), handled + 1)
  {
    hide Orderly, Calm, StageOf, SentCount, WakeupClient, At, NextMessage;
    AskFits(StageOf(c.history), SentCount(c.history) - handled, c.last, c.prepared, c.noStoredKm, c.resendLcInit,
        c.repeater);
    AskLands(c, Recv, handled + 1, env);
  }

  // Once a message is reported sent, asking for the sink's next one leads to a place where the session can be.
  lemma AskFits(s: Stage, open: int, last: Msg, prepared: Msg, noStoredKm: bool, resend: bool, repeater: bool)
    requires At(s, open, last, prepared, noStoredKm, repeater) && open >= 1
    requires prepared != SkeSendTypeId && prepared != SkeSendEks && prepared != RepSendAck
    ensures At(s, open - 1, NextMessage(last, noStoredKm, resend, repeater, Recv), prepared, noStoredKm, repeater)
  {
    if repeater {
      assert Managing(last, prepared, true);
      assert Managing(NextMessage(last, noStoredKm, resend, true, Recv), prepared, true);
    } else {
      assert open == 1 && last == prepared;
    }
  }

  lemma AckFits(s: Stage, open: int, last: Msg, noStoredKm: bool, resend: bool, repeater: bool)
    requires At(s, open, last, RepSendAck, noStoredKm, repeater) && open >= 1
    ensures At(s, open - 1, last, RepSendAck, noStoredKm, repeater)
    ensures At(s, open - 1, NextMessage(last, noStoredKm, resend, repeater, LinkPoll), RepSendAck, noStoredKm, repeater)
  {
  }

  lemma {:induction false} TypeSentKeeps(c: Ctrl, handled: nat, env: Env)
    requires Good(c, handled) && !c.off && c.prepared == SkeSendTypeId && handled < SentCount(c.history)
    ensures var c2 := if env(c.clock).ok then SwitchOn(Tick(c), env) else Tick(c);
      Good(WakeupClient(c2, LinkPoll, env), handled + 1)
  {
    hide Orderly, Calm, StageOf, SentCount, WakeupClient, WaitForResponse, Clean, SwitchOn;
    var c2 := if env(c.clock).ok then SwitchOn(Tick(c), env) else Tick(c);
    assert StageOf(c.history) == TypeSent || StageOf(c.history) == ReceiverOn;
    if env(c.clock).ok {
      SwitchOnKeeps(Tick(c), env);
    }
    AskLands(c2, LinkPoll, handled + 1, env);
  }

  lemma {:induction false} EksSentKeeps(c: Ctrl, handled: nat, env: Env)
    requires Good(c, handled) && !c.off && c.prepared == SkeSendEks && handled < SentCount(c.history)
    ensures
      Good(if c.repeater then
             var c2 := ReadOff(c, env);
             if c2.off then WakeupClient(c2.(prepared := SkeSendTypeId), Send, env)
             else WakeupClient(c2, LinkPoll, env)
           else WakeupClient(c.(prepared := SkeSendTypeId), Send, env), handled + 1)
  {
    hide Orderly, Calm, StageOf, SentCount, WakeupClient, WaitForResponse, Clean, ReadOff;
    assert StageOf(c.history) == SkeSent;
    if c.repeater {
      ReadOffKeeps(c, env);
      StillOn(c, env);
      var c2 := ReadOff(c, env);
      if c2.off {
        SendKeeps(c2.(prepared := SkeSendTypeId), env);
      } else {
        AskLands(c2, LinkPoll, handled + 1, env);
      }
    } else {
      SendLands(c.(prepared := SkeSendTypeId), handled + 1, env);
    }
  }

  lemma {:induction false} StreamReadyKeeps(c: Ctrl, handled: nat, env: Env)
    requires Base(c) && !c.off && Managing(c.last, c.prepared, c.repeater) && c.last == RepStreamReady
    requires StageOf(c.history) == ReadyAccepted || StageOf(c.history) == RepeaterOn
    ensures Good(StreamReady(c, env), handled)
  {
    hide Orderly, Calm, StageOf, SentCount, WakeupClient, WaitForResponse, Clean, CleanUnlessOff, SwitchOn;
    if c.resendManage || c.authenticated {
      AskLands(c, LinkPoll, handled, env);
    } else if env(c.clock).ok {
      SwitchOnKeeps(Tick(c), env);
      AskLands(SwitchOn(Tick(c), env), LinkPoll, handled, env);
    } else {
      AskLands(Tick(c), LinkPoll, handled, env);
      RefusedKeeps(WakeupClient(Tick(c), LinkPoll, env), handled, env);
    }
  }

  lemma AnsweredKeeps(c: Ctrl, m: Msg, out: Msg)
    requires Base(c)
    ensures Base(Answered(c, m, out))
    ensures StageOf(Answered(c, m, out).history) == NextStage(StageOf(c.history), Accepted(m, out))
    ensures SentCount(Answered(c, m, out).history) == SentCount(c.history)
  {
    BaseSnoc(c, Accepted(m, out));
  }

  // TrustZone's answer to a message of the sink is the message the transmitter then picks, and
  // handing it over leads to a place where the session can be.
  ghost predicate Answers(s: Stage, open: int, m: Msg, out: Msg, before: bool, rep: bool) {
    var repeater := if out == SkeSendEks then rep else before;
    && NextMessage(m, out == AkeNoStoredKm, m == LcSendLPrime && out == LcInit, repeater, Send) == out
    && out != Invalid
    && At(NextStage(NextStage(s, Accepted(m, out)), Sent(out, out, false)), open + 1, out, out, out == AkeNoStoredKm,
        repeater)
  }

  lemma ReplyIsNextInAke(s: Stage, open: int, m: Msg, out: Msg, noStoredKm: bool, before: bool, rep: bool, prepared: Msg)
    requires At(s, open, m, prepared, noStoredKm, before) && Replies(m, noStoredKm, out)
    requires m == AkeSendCert || (m == AkeSendHPrime && !noStoredKm) || m == AkeSendPairingInfo
    ensures Answers(s, open, m, out, before, rep)
  {
  }

  lemma ReplyIsNextInLc(s: Stage, open: int, out: Msg, noStoredKm: bool, before: bool, rep: bool, prepared: Msg)
    requires At(s, open, LcSendLPrime, prepared, noStoredKm, before) && Replies(LcSendLPrime, noStoredKm, out)
    ensures Answers(s, open, LcSendLPrime, out, before, rep)
  {
    assert s == LcSent && !before;
  }

  lemma ReplyIsNextInRep(s: Stage, open: int, m: Msg, out: Msg, noStoredKm: bool, before: bool, rep: bool, prepared: Msg)
    requires At(s, open, m, prepared, noStoredKm, before) && Replies(m, noStoredKm, out)
    requires m == RepSendRecvIdList || (m == RepStreamReady && out == RepStreamManage)
    ensures Answers(s, open, m, out, before, rep)
  {
    assert before;
  }

  lemma {:induction false} ReplyIsNext(s: Stage, open: int, m: Msg, out: Msg, noStoredKm: bool, before: bool, rep: bool,
      prepared: Msg)
    requires At(s, open, m, prepared, noStoredKm, before) && Replies(m, noStoredKm, out)
    requires !(m == AkeSendHPrime && noStoredKm) && !(m == RepStreamReady && out != RepStreamManage)
    ensures Answers(s, open, m, out, before, rep)
  {
    hide At, NextMessage, Answers;
    if m == AkeSendCert || m == AkeSendHPrime || m == AkeSendPairingInfo {
      ReplyIsNextInAke(s, open, m, out, noStoredKm, before, rep, prepared);
    } else if m == LcSendLPrime {
      ReplyIsNextInLc(s, open, out, noStoredKm, before, rep, prepared);
    } else {
      ReplyIsNextInRep(s, open, m, out, noStoredKm, before, rep, prepared);
    }
  }

  // The repeater flag is learnt before encryption is on.
  lemma DigestKeeps(c: Ctrl, m: Msg, open: int, out: Msg, rep: bool)
    requires Base(c) && At(StageOf(c.history), open, m, c.prepared, c.noStoredKm, c.repeater)
    requires Replies(m, c.noStoredKm, out) && !(m == AkeSendHPrime && c.noStoredKm) && Base(Answered(c, m, out))
    requires StageOf(Answered(c, m, out).history) == NextStage(StageOf(c.history), Accepted(m, out))
    ensures Base(Digest(Answered(c, m, out), m, out, rep))
  {
    hide Orderly, Calm, StageOf;
    if out == SkeSendEks {
      LPrimeAfterLc(StageOf(c.history), open, c.prepared, c.noStoredKm, c.repeater);
    }
  }

  lemma LPrimeAfterLc(s: Stage, open: int, prepared: Msg, noStoredKm: bool, repeater: bool)
    requires At(s, open, LcSendLPrime, prepared, noStoredKm, repeater)
    ensures s == LcSent
  {
  }

  lemma {:induction false} SendReplyKeeps(c: Ctrl, out: Msg, rep: bool, handled: nat, env: Env)
    requires Base(c) && !c.off && Session(c, handled) && Replies(c.last, c.noStoredKm, out)
    requires !(c.last == AkeSendHPrime && c.noStoredKm) && !(c.last == RepStreamReady && out != RepStreamManage)
    ensures Good(SendReply(Answered(c, c.last, out), c.last, out, rep, env), handled)
  {
    hide Orderly, Calm, StageOf, SentCount, WakeupClient, ReadOff, At, NextStage, Replies, NextMessage, Base;
    AnsweredKeeps(c, c.last, out);
    DigestKeeps(c, c.last, SentCount(c.history) - handled, out, rep);
    ReplyIsNext(StageOf(c.history), SentCount(c.history) - handled, c.last, out, c.noStoredKm, c.repeater, rep, c.prepared);
    HandsOver(Digest(Answered(c, c.last, out), c.last, out, rep), handled, env);
  }

  // Handing over the prepared message, unless a read of hdcp_off finds it set.
  lemma {:induction false} HandsOver(c: Ctrl, handled: nat, env: Env)
    requires Base(c) && !c.off
    requires NextMessage(c.last, c.noStoredKm, c.resendLcInit, c.repeater, Send) == c.prepared != Invalid
    requires At(NextStage(StageOf(c.history), Sent(c.prepared, c.prepared, false)), SentCount(c.history) + 1 - handled,
                c.prepared, c.prepared, c.noStoredKm, c.repeater)
    ensures var c1 := ReadOff(c, env); Good(if c1.off then c1 else WakeupClient(c1, Send, env), handled)
  {
    hide Orderly, Calm, StageOf, SentCount, WakeupClient, ReadOff, At, NextStage, NextMessage, Earned;
    StillOn(c, env);
    if !ReadOff(c, env).off {
      SendLands(Tick(c), handled, env);
    }
  }

  // The second message of a pairing sink is asked for without sending anything.
  lemma PairingFits(s: Stage, open: int, prepared: Msg, resend: bool, repeater: bool, out: Msg, any: Msg)
    requires At(s, open, AkeSendHPrime, prepared, true, repeater)
    ensures At(NextStage(s, Accepted(AkeSendHPrime, out)), open,
               NextMessage(AkeSendHPrime, true, resend, repeater, Recv), any, true, repeater)
  {
  }

  lemma ReadyFits(s: Stage, open: int, prepared: Msg, noStoredKm: bool, repeater: bool, out: Msg)
    requires At(s, open, RepStreamReady, prepared, noStoredKm, repeater)
    ensures var t := NextStage(s, Accepted(RepStreamReady, out)); t == ReadyAccepted || t == RepeaterOn
    ensures Managing(RepStreamReady, prepared, repeater)
  {
  }

  lemma {:induction false} OnwardKeeps(c: Ctrl, out: Msg, rep: bool, handled: nat, env: Env)
    requires Good(c, handled) && !c.off && Replies(c.last, c.noStoredKm, out)
    ensures Good(Onward(c, out, rep, env), handled)
  {
    hide Orderly, Calm, StageOf, SentCount, WakeupClient, ReadOff, At, NextStage, NextMessage, StreamReady, SendReply,
         Replies, Base;
    var c2 := Answered(c, c.last, out);
    var s, open := StageOf(c.history), SentCount(c.history) - handled;
    if c.last == AkeSendHPrime && c.noStoredKm {
      AnsweredKeeps(c, c.last, out);
      PairingFits(s, open, c.prepared, c.resendLcInit, c.repeater, out, c2.prepared);
      AskLands(c2, Recv, handled, env);
    } else if c.last == RepStreamReady && out != RepStreamManage {
      AnsweredKeeps(c, c.last, out);
      ReadyFits(s, open, c.prepared, c.noStoredKm, c.repeater, out);
      ReadyPrepared(c, out);
      StreamReadyKeeps(c2, handled, env);
    } else {
      SendReplyKeeps(c, out, rep, handled, env);
    }
  }

  lemma ReadyPrepared(c: Ctrl, out: Msg)
    requires c.last == RepStreamReady && Replies(c.last, c.noStoredKm, out) && out != RepStreamManage
    ensures Answered(c, c.last, out).prepared == c.prepared
  {
  }

  lemma MsgRecvdKeeps(c: Ctrl, handled: nat, env: Env)
    requires Good(c, handled)
    ensures Good(MsgRecvd(c, env), handled)
  {
    hide Good, CleanUnlessOff, ReadOff, Onward, Replies;
    OnOrOff(c, handled, env);
    var c1 := ReadOff(c, env);
    if !c1.off && !env(c1.clock).empty {
      var a := env(c1.clock);
      TickKeeps(c1, handled);
      if !a.ok || !Replies(c1.last, c1.noStoredKm, a.reply) {
        RefusedKeeps(Tick(c1), handled, env);
      } else {
        OnwardKeeps(Tick(c1), a.reply, a.repeater, handled, env);
      }
    } else {
      TickKeeps(c1, handled);
    }
  }

  lemma RefusedKeeps(c: Ctrl, handled: nat, env: Env)
    requires Good(c, handled)
    ensures Good(CleanUnlessOff(c, env), handled)
  {
    hide Orderly, Calm, StageOf, SentCount, CleanUnlessOff, Session, Settled, Earned;
    CleanUnlessOffKeeps(c, env);
  }
}
