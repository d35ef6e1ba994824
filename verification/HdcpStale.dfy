/**
 What commands left in the queue do to the session of the next START: the agreement with TrustZone
 holds however the session goes on, exactly if they are harmless.
 */
module HdcpStale {
  import opened HdcpMessages
  import opened HdcpTransmitter
  import opened HdcpSession
  import opened HdcpLater
  import opened HdcpRuns

  // TrustZone does what it is asked, nobody switches HDCP off, and messages of the sink have no length.
  function Eager(): Env {
    (k: nat) => Answer(false, true, Invalid, false, true, false)
  }

  // ----- One command -----

  // No message was picked yet, or one was: then AKE_INIT is not the next one, and never will be.
  predicate Place(c: Ctrl, underWay: bool) {
    && !c.repeater && !c.updateStream && !c.stopAsked
    && if underWay then
         c.last in {AkeInit, AkeSendCert, AkeNoStoredKm, AkeStoredKm, AkeSendHPrime, AkeSendPairingInfo, LcInit,
                    LcSendLPrime, SkeSendEks, SkeSendTypeId}
       else c.last == Invalid
  }

  // Picking a message gets a session under way.
  lemma WakesEager(c: Ctrl, cmd: Cmd, underWay: bool)
    requires Place(c, underWay) && Exchanges(cmd)
    ensures var d := WakeupClient(c, cmd, Eager()); Place(d, true) && d.off == c.off
  {
    hide WakeupClient, WaitForResponse;
    PicksOn(c, cmd, underWay);
    WaitsEager(Pick(c, cmd));
    assert WakeupClient(c, cmd, Eager()) == WaitForResponse(Pick(c, cmd), Eager()) by { WakesIs(c, cmd, Eager()); }
  }

  lemma WakesIs(c: Ctrl, cmd: Cmd, env: Env)
    requires Exchanges(cmd) && Pick(c, cmd).last != Invalid
    ensures WakeupClient(c, cmd, env) == WaitForResponse(Pick(c, cmd), env)
  {
  }

  lemma PicksOn(c: Ctrl, cmd: Cmd, underWay: bool)
    requires Place(c, underWay) && Exchanges(cmd)
    ensures Place(Pick(c, cmd), true) && Pick(c, cmd).off == c.off
  {
  }

  lemma WaitsEager(c: Ctrl)
    ensures WaitForResponse(c, Eager()) == if Waits(c) && !c.off then Tick(Tick(c)) else if Waits(c) then Tick(c) else c
  {
  }

  lemma CleansEager(c: Ctrl, underWay: bool)
    requires Place(c, underWay)
    ensures var d := Clean(c, Eager()); Place(d, underWay) && d.off
  {
    hide Clean;
    CleanSteps(c, Eager());
  }

  // Reporting a message sent gets a session under way, if HDCP is on.
  lemma SentPicks(c: Ctrl, underWay: bool)
    requires Place(c, underWay)
    ensures var d := MsgSent(c, Eager()); Place(d, underWay || !c.off) && d.off == c.off
  {
    hide WakeupClient;
    var env := Eager();
    var c1 := Tick(c);
    assert ReadOff(c, env) == c1;
    if !c.off {
      match c.prepared {
        case SkeSendTypeId =>
          Encrypts(Tick(c1), underWay);
          WakesEager(SwitchOn(Tick(c1), env), LinkPoll, underWay);
        case SkeSendEks => WakesEager(c1.(prepared := SkeSendTypeId), Send, underWay);
        case RepSendAck => WakesEager(c1, LinkPoll, underWay);
        case _ => WakesEager(c1, Recv, underWay);
      }
    }
  }

  lemma Encrypts(c: Ctrl, underWay: bool)
    requires Place(c, underWay)
    ensures var d := SwitchOn(c, Eager()); Place(d, underWay) && d.off == c.off
  {
    hide WaitForResponse;
    WaitsEager(Log(Log(c, Encrypted).(authenticated := true), Success));
  }

  // A change of the encryption level is handed over, if HDCP is on.
  lemma TypePicks(c: Ctrl, underWay: bool)
    requires Place(c, underWay)
    ensures var d := SendType(c, Eager()); Place(d, underWay || !c.off) && d.off == c.off
  {
    hide WakeupClient;
    if !c.off {
      var c1 := Tick(c).(prepared := SkeSendTypeId);
      assert ReadOff(c, Eager()) == Tick(c) && ReadOff(c1, Eager()) == Tick(c1);
      WakesEager(Tick(c1), Send, underWay);
    }
  }

  lemma AuthPicks(c: Ctrl, underWay: bool)
    requires Place(c, underWay)
    ensures var d := StartAuth(c, Eager()); Place(d, true) && d.off == c.off
  {
    hide WakeupClient;
    WakesEager(Tick(c).(prepared := AkeInit), Send, underWay);
  }

  // Whether the command gets a session under way.
  predicate Picks(w: Wakeup, on: bool) {
    w == StartAuthentication || (on && (w == SendSuccess || w == MinEncLevel))
  }

  lemma HandlesEager(c: Ctrl, w: Wakeup, underWay: bool)
    requires Place(c, underWay)
    ensures var d := Handle(c, w, Eager());
      Place(d, underWay || Picks(w, !c.off)) && d.off == (c.off || SwitchesOff(w))
  {
    hide Clean, StartAuth, MsgSent, MsgRecvd, SendType, QueryStream, Place;
    match w {
      case Enable => Same(c, c.(enablePending := false), underWay);
      case Disable =>
      case Start => Same(c, Tick(c), underWay);
      case RecvSuccess => RecvIdle(c, underWay);
      case QueryStreamType => QueryIdle(c, underWay);
      case ChangeStreams =>
        Same(c, Tick(c), underWay);
        Same(c, Tick(c).(resendManage := true), underWay);
        QueryIdle(Tick(c), underWay);
      case StartAuthentication => AuthPicks(c, underWay);
      case SendSuccess => SentPicks(c, underWay);
      case MinEncLevel =>
        NoRepeater(c, underWay);
        TypePicks(c, underWay);
      case Stop => CleansEager(c, underWay);
      case SendFailed => CleansEager(c, underWay);
      case RecvFailed => CleansEager(c, underWay);
      case LinkFailed => CleansEager(c, underWay);
    }
  }

  lemma Same(c: Ctrl, d: Ctrl, underWay: bool)
    requires Place(c, underWay)
    requires d.last == c.last && d.repeater == c.repeater && d.updateStream == c.updateStream && d.stopAsked == c.stopAsked
    ensures Place(d, underWay)
  {
  }

  lemma NoRepeater(c: Ctrl, underWay: bool)
    requires Place(c, underWay)
    ensures !c.repeater
  {
  }

  lemma QueryIdle(c: Ctrl, underWay: bool)
    requires Place(c, underWay)
    ensures var d := QueryStream(c, Eager()); Place(d, underWay) && d.off == c.off
  {
  }

  lemma RecvIdle(c: Ctrl, underWay: bool)
    requires Place(c, underWay)
    ensures var d := MsgRecvd(c, Eager()); Place(d, underWay) && d.off == c.off
  {
  }

  // ----- A whole queue -----

  function HandleAll(c: Ctrl, q: seq<Wakeup>): Ctrl
    decreases |q|
  {
    if q == [] then c else HandleAll(Handle(c, q[0], Eager()), q[1..])
  }

  // A queue that is not harmless gets the session under way before authentication is asked for.
  lemma {:induction false} HarmfulPicks(c: Ctrl, q: seq<Wakeup>, underWay: bool) returns (after: bool)
    requires Place(c, underWay)
    ensures Place(HandleAll(c, q), after) && (underWay || !Harmless(q, !c.off) ==> after)
    decreases |q|
  {
    if q == [] {
      after := underWay;
    } else {
      HandlesEager(c, q[0], underWay);
      after := HarmfulPicks(Handle(c, q[0], Eager()), q[1..], underWay || Picks(q[0], !c.off));
    }
  }

  lemma {:induction false} HarmlessPut(q: seq<Wakeup>, w: Wakeup, on: bool)
    requires Harmless(Put(q, w), on)
    ensures Harmless(q, on)
  {
    if |q| < QUEUE_SIZE {
      HarmlessPrefix(q, w, on);
    }
  }

  lemma {:induction false} HarmlessPrefix(q: seq<Wakeup>, w: Wakeup, on: bool)
    requires Harmless(q + [w], on)
    ensures Harmless(q, on)
  {
    if q != [] {
      assert (q + [w])[1..] == q[1..] + [w];
      HarmlessPrefix(q[1..], w, on && !SwitchesOff(q[0]));
    }
  }

  function Workers(n: nat): seq<Step> {
    seq(n, _ => Worker)
  }

  lemma {:induction false} RunsOn(s: Sys, step: Step, rest: seq<Step>, env: Env)
    ensures Run(s, [step] + rest, env) == Run(Next(s, step, env), rest, env)
  {
    hide Next;
    var all := [step] + rest;
    if rest == [] {
      assert all[..|all| - 1] == [];
    } else {
      assert all[..|all| - 1] == [step] + rest[..|rest| - 1];
      RunsOn(s, step, rest[..|rest| - 1], env);
    }
  }

  // The thread works off its queue.
  lemma {:induction false} Drains(s: Sys, underWay: bool)
    requires Place(s.ctrl, underWay)
    ensures var t := Run(s, Workers(|s.queue|), Eager());
      t.ctrl == HandleAll(s.ctrl, s.queue) && t.queue == [] && t.authAsked == s.authAsked
    decreases |s.queue|
  {
    hide Handle;
    if s.queue != [] {
      var t := Next(s, Worker, Eager());
      HandlesEager(s.ctrl, s.queue[0], underWay);
      assert t.queue == s.queue[1..] && t.ctrl == Handle(s.ctrl, s.queue[0], Eager());
      Drains(t, underWay || Picks(s.queue[0], !s.ctrl.off));
      assert Workers(|s.queue|) == [Worker] + Workers(|t.queue|);
      RunsOn(s, Worker, Workers(|t.queue|), Eager());
    }
  }

  // Asking for authentication in a session under way hands over something else than AKE_INIT.
  lemma AskingDisagrees(c: Ctrl)
    requires Place(c, true)
    ensures !Agree(StartAuth(c, Eager()).history)
  {
    hide WakeupClient, WaitForResponse, Pick, Place, Agree;
    var c1 := Tick(c).(prepared := AkeInit);
    var d := Pick(c1, Send);
    Same(c, c1, true);
    PicksOther(c1);
    PicksOn(c1, Send, true);
    NotInvalid(d);
    WakesIs(c1, Send, Eager());
    WaitsEager(d);
    assert StartAuth(c, Eager()).history == d.history;
  }

  lemma NotInvalid(c: Ctrl)
    requires Place(c, true)
    ensures c.last != Invalid
  {
  }

  lemma PicksOther(c: Ctrl)
    requires Place(c, true) && c.prepared == AkeInit
    ensures !Agree(Pick(c, Send).history)
  {
    var d := Pick(c, Send);
    assert d.history[|c.history|] == Sent(d.last, AkeInit, c.off) && d.last != AkeInit;
  }

  lemma AfterDrain(s: Sys)
    requires s.queue == [] && !s.authAsked && Place(s.ctrl, true)
    ensures !Agree(Run(s, [Client(StartAuthentication), Worker], Eager()).ctrl.history)
  {
    hide StartAuth, Agree;
    var env := Eager();
    AskingDisagrees(s.ctrl);
    var steps := [Client(StartAuthentication), Worker];
    assert steps[..1][..0] == [] && steps[..1] == [Client(StartAuthentication)];
    assert [StartAuthentication][1..] == [];
    assert PutAll([], [StartAuthentication]) == Put([], StartAuthentication) == [StartAuthentication];
    var t := ClientStep(s, StartAuthentication);
    assert Run(s, steps[..1], env) == t && t.queue == [StartAuthentication] && t.ctrl == s.ctrl;
    assert Run(s, steps, env) == WorkerStep(t, env);
  }

  lemma {:induction false} RunsApart(s: Sys, a: seq<Step>, b: seq<Step>, env: Env)
    ensures Run(s, a + b, env) == Run(Run(s, a, env), b, env)
  {
    hide Next;
    if b == [] {
      assert a + b == a;
    } else {
      assert (a + b)[..|a + b| - 1] == a + b[..|b| - 1];
      RunsApart(s, a, b[..|b| - 1], env);
    }
  }

  // The continuation that breaks the agreement: the queue is worked off, then authentication is asked for.
  lemma HarmfulBreaks(s: Sys)
    requires !s.ctrl.stopAsked && !Harmless(s.queue, true)
    ensures var t := ClientStep(s, Start);
      !Agree(Run(t, Workers(|t.queue|) + [Client(StartAuthentication), Worker], Eager()).ctrl.history)
  {
    hide Agree, Harmless, HandleAll, Place;
    var t := ClientStep(s, Start);
    assert [Start][1..] == [];
    assert PutAll(s.queue, [Start]) == Put(s.queue, Start) == t.queue;
    if Harmless(t.queue, true) {
      HarmlessPut(s.queue, Start, true);
    }
    StartPlaces(s.ctrl);
    DrainBreaks(t);
  }

  lemma StartPlaces(c: Ctrl)
    requires !c.stopAsked
    ensures Place(AtWakeup(c, Start), false) && !AtWakeup(c, Start).off
  {
  }

  lemma {:induction false} GoesOn(s: Sys, steps: seq<Step>, env: Env)
    requires Inv(s)
    ensures Inv(Run(s, steps, env))
  {
    hide Inv, Next;
    if steps != [] {
      GoesOn(s, steps[..|steps| - 1], env);
      NextKeeps(Run(s, steps[..|steps| - 1], env), steps[|steps| - 1], env);
    }
  }

  /** In every state a run can reach, a START starts a session in which every message handed over agrees with
      TrustZone, however it goes on, exactly if the commands still in the queue are harmless. */
  lemma {:induction false} StartAgreesIff(before: seq<Step>, env: Env)
    ensures var s := Run(Registered(), before, env);
      (forall steps, e :: Agree(Run(ClientStep(s, Start), steps, e).ctrl.history)) <==> Harmless(s.queue, true)
  {
    hide Inv, Agree, Harmless, ClientStep, Run;
    var s := Run(Registered(), before, env);
    RunKeeps(before, env);
    if Harmless(s.queue, true) {
      ClientKeeps(s, Start);
      forall steps, e ensures Agree(Run(ClientStep(s, Start), steps, e).ctrl.history) {
        GoesOn(ClientStep(s, Start), steps, e);
        Agreed(Run(ClientStep(s, Start), steps, e));
      }
    } else {
      NotStopping(s);
      HarmfulBreaks(s);
    }
  }

  lemma NotStopping(s: Sys)
    requires Inv(s)
    ensures !s.ctrl.stopAsked
  {
  }

  // ----- Reports of messages that were not handed over -----

  // The client reports a message sent although none is due: the report joins the commands that nobody accounts for.
  function SpuriousReport(s: Sys): Sys {
    s.(queue := s.queue + [SendSuccess], stale := |s.queue| + 1)
  }

  /** In every state a run can reach before authentication is asked for, such a report leaves all sessions in agreement
      exactly if it is harmless in the queue it joins, which it is only once HDCP is off. */
  lemma {:induction false} SpuriousReportAgreesIff(before: seq<Step>, env: Env)
    requires var s := Run(Registered(), before, env); !s.authAsked && |s.queue| < QUEUE_SIZE
    ensures var s := Run(Registered(), before, env);
      (forall steps, e :: Agree(Run(SpuriousReport(s), steps, e).ctrl.history))
      <==> Harmless(s.queue + [SendSuccess], !s.ctrl.off)
  {
    hide Inv, Agree, Harmless, Run, Place;
    var s := Run(Registered(), before, env);
    RunKeeps(before, env);
    var t := SpuriousReport(s);
    if Harmless(t.queue, !s.ctrl.off) {
      SpuriousKeeps(s);
      forall steps, e ensures Agree(Run(t, steps, e).ctrl.history) {
        GoesOn(t, steps, e);
        Agreed(Run(t, steps, e));
      }
    } else {
      BeforeAsking(s);
      DrainBreaks(t);
    }
  }

  lemma {:induction false} SpuriousKeeps(s: Sys)
    requires Inv(s) && !s.authAsked && Harmless(s.queue + [SendSuccess], !s.ctrl.off)
    ensures Inv(SpuriousReport(s))
  {
    hide Good, Harmless, StageOf, SentCount;
    var t := SpuriousReport(s);
    assert t.queue[..t.stale] == t.queue && t.queue[t.stale..] == [];
  }

  // While HDCP is on nothing was picked; once it is off, the queue with the report is harmless.
  lemma {:induction false} BeforeAsking(s: Sys)
    requires Inv(s) && !s.authAsked && !Harmless(s.queue + [SendSuccess], !s.ctrl.off)
    ensures !s.ctrl.off && Place(s.ctrl, false)
  {
    hide Orderly, Calm, StageOf, SentCount, Earned;
    if s.ctrl.off {
      NoneAsks(s.queue, s.stale, false);
      NoAskHarmless(s.queue + [SendSuccess]);
    }
  }

  lemma {:induction false} NoneAsks(q: seq<Wakeup>, stale: nat, on: bool)
    requires stale <= |q| && Harmless(q[..stale], on) && Waiting(q[stale..], StartAuthentication) == 0
    ensures StartAuthentication !in q
    decreases |q|
  {
    if stale > 0 {
      assert q[..stale][0] == q[0] && q[..stale][1..] == q[1..][..stale - 1] && q[1..][stale - 1..] == q[stale..];
      NoneAsks(q[1..], stale - 1, on && !SwitchesOff(q[0]));
    } else if q != [] {
      assert q[0..] == q && q[1..][0..] == q[1..] && q[1..][..0] == [];
      NoneAsks(q[1..], 0, on);
    }
  }

  lemma {:induction false} NoAskHarmless(q: seq<Wakeup>)
    requires StartAuthentication !in q
    ensures Harmless(q, false)
  {
    if q != [] {
      NoAskHarmless(q[1..]);
    }
  }

  // Working off a harmful queue, and then asking for authentication, breaks the agreement.
  lemma {:induction false} DrainBreaks(t: Sys)
    requires Place(t.ctrl, false) && !t.ctrl.off && !t.authAsked && !Harmless(t.queue, true)
    ensures !Agree(Run(t, Workers(|t.queue|) + [Client(StartAuthentication), Worker], Eager()).ctrl.history)
  {
    hide Agree, Harmless, HandleAll, Place;
    var after := HarmfulPicks(t.ctrl, t.queue, false);
    Drains(t, false);
    AfterDrain(Run(t, Workers(|t.queue|), Eager()));
    RunsApart(t, Workers(|t.queue|), [Client(StartAuthentication), Worker], Eager());
  }

  lemma {:induction false} SomethingSent(h: seq<Event>)
    requires StageOf(h) != NotStarted
    ensures SentCount(h) > 0
  {
    var g := h[..|h| - 1];
    if StageOf(g) != NotStarted {
      SomethingSent(g);
    }
  }

  /** Later such a report hands over prepared messages only, like any other, and tears one in the same case. */
  lemma {:induction false} SpuriousReportKeepsAgreement(c: Ctrl, handled: nat, env: Env)
    requires Good(c, handled) && !c.off && StageOf(c.history) !in {NotStarted, HPrimeAccepted}
    ensures Agree(MsgSent(c, env).history)
  {
    hide Orderly, Calm, StageOf, SentCount, MsgSent, Agree;
    var s, sent := StageOf(c.history), SentCount(c.history);
    SomethingSent(c.history);
    if s in {InitSent, NoKmSent, KmSent, LcSent} {
      AsksAgain(c, env);
    } else {
      assert Session(c, sent - 1);
      MsgSentKeeps(c, sent - 1, env);
    }
    OrderlyMeans(MsgSent(c, env).history);
  }

  // A report after the sink's answer was asked for asks for the next one.
  lemma {:induction false} AsksAgain(c: Ctrl, env: Env)
    requires Base(c) && !c.off && c.prepared in {AkeInit, AkeNoStoredKm, AkeStoredKm, LcInit}
    ensures Orderly(MsgSent(c, env).history)
  {
    hide Orderly, Calm, StageOf, SentCount, WakeupClient, ReadOff, Earned;
    StillOn(c, env);
    if !ReadOff(c, env).off {
      AskKeeps(Tick(c), Recv, env);
    }
  }
}
