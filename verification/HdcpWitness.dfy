/**
 Runs that the claims about all runs are about: sessions that end authenticated with a receiver, paired or
 not, and with a repeater; a message torn by a switch-off; and a report left over from an earlier session.
 */
module HdcpWitness {
  import opened HdcpMessages
  import opened HdcpTransmitter
  import opened HdcpSession
  import opened HdcpLater
  import opened HdcpRuns

  // Nothing fails and no wait expires; TrustZone replies at some points of a run, and the client may
  // switch HDCP off at one.
  datatype Plan = Plan(replies: map<nat, Msg>, repeater: bool, stopAt: int)

  function Cooperative(p: Plan): Env {
    (k: nat) => Answer(k == p.stopAt, true, if k in p.replies then p.replies[k] else Invalid, p.repeater, false, false)
  }

  const STORED := Plan(map[4 := AkeStoredKm, 10 := LcInit, 14 := SkeSendEks], false, -1)
  const NEW_KM := Plan(map[4 := AkeNoStoredKm, 14 := LcInit, 18 := SkeSendEks], false, -1)
  const REPEATING := Plan(map[4 := AkeStoredKm, 10 := LcInit, 14 := SkeSendEks, 21 := RepSendAck], true, -1)
  const STOPPING := REPEATING.(stopAt := 17)

  // ----- Waking the client -----

  // On, and nothing but the message to be picked matters.
  predicate Clear(c: Ctrl) {
    !c.off && !c.stopAsked && !c.resendManage
  }

  // Handing over the prepared message.
  lemma Sends(c: Ctrl, m: Msg, env: Env)
    requires Clear(c) && m == c.prepared == NextMessage(c.last, c.noStoredKm, c.resendLcInit, c.repeater, Send)
    requires m !in {Invalid, AkeSendHPrime, AkeSendPairingInfo, RepSendRecvIdList}
    ensures WakeupClient(c, Send, env) == Log(c.(last := m), Sent(m, m, false))
  {
    hide NextMessage;
  }

  // Asking for the sink's message m, which the client delivers in time.
  lemma Asks(c: Ctrl, cmd: Cmd, m: Msg, p: Plan)
    requires Clear(c) && (cmd == Recv || cmd == LinkPoll) && c.clock != p.stopAt
    requires m == NextMessage(c.last, c.noStoredKm, c.resendLcInit, c.repeater, cmd) != Invalid
    ensures var d := Log(c.(last := m), Asked(cmd, m));
      WakeupClient(c, cmd, Cooperative(p)) == if Waits(d) then Tick(Tick(d)) else d
  {
    hide NextMessage, Waits;
    var d := Log(c.(last := m), Asked(cmd, m));
    assert Pick(c, cmd) == d;
    assert ReadOff(d, Cooperative(p)) == Tick(d);
  }

  // ----- One handler each -----

  lemma Begins(c: Ctrl, env: Env)
    requires Clear(c) && c.last == Invalid && env(c.clock).ok
    ensures StartAuth(c, env) == Log(Tick(c).(last := AkeInit, prepared := AkeInit), Sent(AkeInit, AkeInit, false))
  {
    hide WakeupClient;
    Sends(Tick(c).(prepared := AkeInit), AkeInit, env);
  }

  // A message was sent, and the sink's answer m is asked for.
  lemma SentAsks(c: Ctrl, m: Msg, p: Plan)
    requires Clear(c) && c.prepared !in {SkeSendTypeId, SkeSendEks, RepSendAck}
    requires c.clock != p.stopAt && c.clock + 1 != p.stopAt
    requires m == NextMessage(c.last, c.noStoredKm, c.resendLcInit, c.repeater, Recv) != Invalid
    ensures var d := Log(Tick(c).(last := m), Asked(Recv, m));
      MsgSent(c, Cooperative(p)) == if Waits(d) then Tick(Tick(d)) else d
  {
    hide WakeupClient, NextMessage;
    assert ReadOff(c, Cooperative(p)) == Tick(c);
    assert MsgSent(c, Cooperative(p)) == WakeupClient(Tick(c), Recv, Cooperative(p));
    Asks(Tick(c), Recv, m, p);
  }

  // TrustZone accepts the sink's message and its answer is handed over.
  lemma RecvdSends(c: Ctrl, out: Msg, p: Plan)
    requires Clear(c) && c.clock != p.stopAt && c.clock + 2 != p.stopAt
    requires c.clock + 1 in p.replies && p.replies[c.clock + 1] == out && Replied(c, out)
    ensures var c2 := Tick(Digest(Answered(Tick(Tick(c)), c.last, out), c.last, out, p.repeater));
      MsgRecvd(c, Cooperative(p)) == Log(c2.(last := out), Sent(out, out, false))
  {
    hide WakeupClient;
    var env := Cooperative(p);
    var c1 := Tick(c);
    assert ReadOff(c, env) == c1 && env(c1.clock).reply == out;
    assert MsgRecvd(c, env) == SendReply(Answered(Tick(c1), c.last, out), c.last, out, p.repeater, env);
    var c2 := Digest(Answered(Tick(c1), c.last, out), c.last, out, p.repeater);
    assert ReadOff(c2, env) == Tick(c2);
    Sends(Tick(c2), out, env);
  }

  // The first message of a pairing sink: the pairing information is asked for.
  lemma PairingAsks(c: Ctrl, p: Plan)
    requires Clear(c) && c.clock != p.stopAt && c.clock + 2 != p.stopAt
    requires c.last == AkeSendHPrime && c.noStoredKm && c.clock + 1 !in p.replies
    ensures MsgRecvd(c, Cooperative(p))
      == Tick(Tick(Log(Log(Tick(Tick(c)), Accepted(AkeSendHPrime, Invalid)).(last := AkeSendPairingInfo),
                       Asked(Recv, AkeSendPairingInfo))))
  {
    hide WakeupClient;
    var env := Cooperative(p);
    assert ReadOff(c, env) == Tick(c) && env(c.clock + 1).reply == Invalid;
    assert MsgRecvd(c, env) == WakeupClient(Answered(Tick(Tick(c)), AkeSendHPrime, Invalid), Recv, env);
    Asks(Answered(Tick(Tick(c)), AkeSendHPrime, Invalid), Recv, AkeSendPairingInfo, p);
  }

  // The key message was sent to a receiver: the stream type follows.
  lemma EksSends(c: Ctrl, p: Plan)
    requires Clear(c) && c.last == c.prepared == SkeSendEks && !c.repeater && c.clock != p.stopAt
    ensures MsgSent(c, Cooperative(p))
      == Log(Tick(c).(last := SkeSendTypeId, prepared := SkeSendTypeId), Sent(SkeSendTypeId, SkeSendTypeId, false))
  {
    hide WakeupClient;
    var env := Cooperative(p);
    assert ReadOff(c, env) == Tick(c);
    var c1 := Tick(c).(prepared := SkeSendTypeId);
    assert MsgSent(c, env) == WakeupClient(c1, Send, env);
    Sends(c1, SkeSendTypeId, env);
  }

  lemma Reports(c: Ctrl, env: Env)
    requires !Waits(c)
    ensures WakeupClient(c, StatusSuccess, env) == Log(c, Success)
  {
  }

  // The stream type was sent: encryption is switched on.
  lemma TypeEncrypts(c: Ctrl, p: Plan)
    requires Clear(c) && c.prepared == SkeSendTypeId && !c.repeater && c.clock != p.stopAt && c.clock + 2 != p.stopAt
    requires c.last == SkeSendTypeId || c.last == Invalid
    ensures var d := MsgSent(c, Cooperative(p));
      && d.authenticated && !d.repeater && !d.stopAsked
      && d.history == c.history + [Encrypted] + [Success] + [Asked(LinkPoll,
          if c.last == Invalid then AkeInit else SkeSendTypeId)]
  {
    hide WakeupClient;
    var env := Cooperative(p);
    assert ReadOff(c, env) == Tick(c);
    Reports(Log(Tick(Tick(c)), Encrypted).(authenticated := true), env);
    var c2 := Log(Log(Tick(Tick(c)), Encrypted).(authenticated := true), Success);
    assert SwitchOn(Tick(Tick(c)), env) == c2;
    assert MsgSent(c, env) == WakeupClient(c2, LinkPoll, env);
    Asks(c2, LinkPoll, if c.last == Invalid then AkeInit else SkeSendTypeId, p);
  }

  // The key message was sent to a repeater: its receiver list is asked for.
  lemma EksPolls(c: Ctrl, p: Plan)
    requires Clear(c) && c.last == c.prepared == SkeSendEks && c.repeater && !c.authenticated
    requires !(c.clock <= p.stopAt < c.clock + 3)
    ensures MsgSent(c, Cooperative(p))
      == Log(Tick(Tick(Tick(Tick(c)))).(last := RepSendRecvIdList), Asked(LinkPoll, RepSendRecvIdList))
  {
    hide WakeupClient;
    var env := Cooperative(p);
    assert ReadOff(c, env) == Tick(c) && ReadOff(Tick(c), env) == Tick(Tick(c));
    assert MsgSent(c, env) == WakeupClient(Tick(Tick(c)), LinkPoll, env);
    Asks(Tick(Tick(c)), LinkPoll, RepSendRecvIdList, p);
  }

  // The acknowledgement was sent: TrustZone is asked for stream management.
  lemma AckQueries(c: Ctrl, p: Plan)
    requires Clear(c) && c.last == c.prepared == RepSendAck && c.repeater && c.updateStream
    requires !(c.clock <= p.stopAt < c.clock + 4)
    ensures MsgSent(c, Cooperative(p))
      == Log(Tick(Tick(Tick(Tick(c)))).(last := RepStreamManage, prepared := RepStreamManage, updateStream := false),
             Sent(RepStreamManage, RepStreamManage, false))
  {
    hide WakeupClient;
    var env := Cooperative(p);
    var c1 := Tick(c);
    assert ReadOff(c, env) == c1 && ReadOff(c1, env) == Tick(c1);
    var c2 := Tick(Tick(c1)).(prepared := RepStreamManage);
    assert ReadOff(c2, env) == Tick(c2);
    assert QueryStream(c1, env) == WakeupClient(Tick(c2).(last := RepSendAck), Send, env);
    Sends(Tick(c2).(last := RepSendAck), RepStreamManage, env);
  }

  // The repeater's streams are ready: encryption is switched on.
  lemma ReadyEncrypts(c: Ctrl, p: Plan)
    requires Clear(c) && c.last == RepStreamReady && c.repeater && !c.authenticated && c.clock + 1 !in p.replies
    requires !(c.clock <= p.stopAt < c.clock + 4)
    ensures var d := MsgRecvd(c, Cooperative(p)); d.authenticated && d.repeater && !d.stopAsked
  {
    hide WakeupClient, StreamReady;
    var env := Cooperative(p);
    assert ReadOff(c, env) == Tick(c) && env(c.clock + 1).reply == Invalid;
    var c2 := Answered(Tick(Tick(c)), RepStreamReady, Invalid);
    assert MsgRecvd(c, env) == StreamReady(c2, env);
    StreamEncrypts(c2, p);
  }

  lemma StreamEncrypts(c: Ctrl, p: Plan)
    requires Clear(c) && c.last == RepStreamReady && c.repeater && !c.authenticated && !(c.clock <= p.stopAt < c.clock + 2)
    ensures var d := StreamReady(c, Cooperative(p)); d.authenticated && d.repeater && !d.stopAsked
  {
    hide WakeupClient;
    var env := Cooperative(p);
    var c1 := Log(Tick(c), Encrypted).(authenticated := true);
    Reports(c1, env);
    assert SwitchOn(Tick(c), env) == Log(c1, Success);
    Asks(Log(c1, Success), LinkPoll, RepSendRecvIdList, p);
  }

  // ----- Runs -----

  // Some run gets there.
  ghost predicate Reached(s: Sys, p: Plan) {
    exists steps :: Run(Registered(), steps, Cooperative(p)) == s
  }

  lemma StepReaches(s: Sys, step: Step, p: Plan)
    requires Reached(s, p)
    ensures Reached(Next(s, step, Cooperative(p)), p)
  {
    hide Next;
    var steps :| Run(Registered(), steps, Cooperative(p)) == s;
    assert (steps + [step])[..|steps|] == steps;
    assert Run(Registered(), steps + [step], Cooperative(p)) == Next(s, step, Cooperative(p));
  }

  // The thread is idle, and n messages were handed over and not reported sent.
  ghost predicate Idle(s: Sys, p: Plan, n: nat) {
    Reached(s, p) && s.queue == [] && s.stale == 0 && SentCount(s.ctrl.history) == s.answered + n
  }

  // The client issues command w and the transmitter's thread works it off.
  lemma Turn(s: Sys, w: Wakeup, p: Plan, n: nat) returns (t: Sys)
    requires Idle(s, p, n) && w in {SendSuccess, RecvSuccess} && (w == SendSuccess ==> n > 0)
    requires !Handle(s.ctrl, w, Cooperative(p)).stopAsked
    requires SentCount(Handle(s.ctrl, w, Cooperative(p)).history) >= s.answered + if w == SendSuccess then 1 else 0
    ensures t.ctrl == Handle(s.ctrl, w, Cooperative(p)) && t.authAsked == s.authAsked
    ensures Idle(t, p, SentCount(t.ctrl.history) - s.answered - if w == SendSuccess then 1 else 0)
  {
    hide Handle, SentCount, Run, Registered;
    var u := ClientStep(s, w);
    assert Enqueued(s.ctrl, w) == [w] && [w][1..] == [];
    assert PutAll([], [w]) == Put([], w) == [w];
    StepReaches(s, Client(w), p);
    StepReaches(u, Worker, p);
    t := WorkerStep(u, Cooperative(p));
  }

  lemma OneMore(h: seq<Event>, e: Event)
    ensures SentCount(h + [e]) == SentCount(h) + if e.Sent? then 1 else 0
  {
    SentSnoc(h, e);
  }

  lemma NothingSent()
    ensures SentCount([]) == 0
  {
  }

  lemma RunNone(s: Sys, env: Env)
    ensures Run(s, [], env) == s
  {
  }

  // Message m was handed over, and its report is awaited.
  predicate After(c: Ctrl, m: Msg, clock: nat) {
    && Clear(c) && c.last == c.prepared == m && c.clock == clock && !c.authenticated
    && c.noStoredKm == (m == AkeNoStoredKm)
  }

  // START, worked off.
  lemma Starts(p: Plan) returns (s: Sys)
    requires p.stopAt != 0
    ensures Reached(s, p) && s.queue == [] && s.stale == 0 && s.answered == 0 && !s.authAsked
    ensures Clear(s.ctrl) && s.ctrl.last == Invalid && s.ctrl.clock == 1 && s.ctrl.history == []
    ensures !s.ctrl.noStoredKm && !s.ctrl.repeater && !s.ctrl.authenticated
  {
    hide Run, Clean;
    var env, r := Cooperative(p), Registered();
    RunNone(r, env);
    assert Reached(r, p);
    StepReaches(r, Client(Start), p);
    assert [Start][1..] == [];
    assert PutAll([], [Start]) == Put([], Start) == [Start];
    var s1 := ClientStep(r, Start);
    StepReaches(s1, Worker, p);
    s := WorkerStep(s1, env);
    assert s.ctrl == Tick(s1.ctrl);
  }

  // Then authentication is asked for.
  lemma Opens(p: Plan) returns (s: Sys)
    requires p.stopAt < 0 || p.stopAt > 2
    ensures Idle(s, p, 1) && After(s.ctrl, AkeInit, 2) && !s.ctrl.repeater
  {
    hide SentCount, Run, StartAuth, Reached;
    var env := Cooperative(p);
    var s2 := Starts(p);
    StepReaches(s2, Client(StartAuthentication), p);
    assert [StartAuthentication][1..] == [];
    assert PutAll([], [StartAuthentication]) == Put([], StartAuthentication) == [StartAuthentication];
    var s3 := ClientStep(s2, StartAuthentication);
    StepReaches(s3, Worker, p);
    Begins(s3.ctrl, env);
    s := WorkerStep(s3, env);
    NothingSent();
    OneMore([], Sent(AkeInit, AkeInit, false));
    assert s.ctrl.history == [] + [Sent(AkeInit, AkeInit, false)];
  }

  lemma Counted(s: Sys, p: Plan, n: nat)
    requires Idle(s, p, n)
    ensures SentCount(s.ctrl.history) == s.answered + n
  {
  }

  // The report of a message, worked off: the sink's answer is asked for.
  lemma AsksTurn(s: Sys, asked: Msg, p: Plan) returns (t: Sys)
    requires Idle(s, p, 1) && Clear(s.ctrl) && s.ctrl.prepared !in {SkeSendTypeId, SkeSendEks, RepSendAck}
    requires !(s.ctrl.clock <= p.stopAt < s.ctrl.clock + 2)
    requires asked == NextMessage(s.ctrl.last, s.ctrl.noStoredKm, s.ctrl.resendLcInit, s.ctrl.repeater, Recv) != Invalid
    ensures var d := Log(Tick(s.ctrl).(last := asked), Asked(Recv, asked));
      Idle(t, p, 0) && t.ctrl == if Waits(d) then Tick(Tick(d)) else d
  {
    hide MsgSent, SentCount, Idle, NextMessage, Waits;
    SentAsks(s.ctrl, asked, p);
    Counted(s, p, 1);
    OneMore(s.ctrl.history, Asked(Recv, asked));
    t := Turn(s, SendSuccess, p, 1);
  }

  // TrustZone's answers to the sink's messages on these runs.
  predicate Replied(c: Ctrl, out: Msg) {
    || (c.last == AkeSendCert && (out == AkeStoredKm || out == AkeNoStoredKm))
    || (c.last == AkeSendHPrime && !c.noStoredKm && out == LcInit)
    || (c.last == AkeSendPairingInfo && out == LcInit)
    || (c.last == LcSendLPrime && out == SkeSendEks)
    || (c.last == RepSendRecvIdList && c.repeater && out == RepSendAck)
  }

  // The sink's answer is worked off: TrustZone's message after it is handed over.
  lemma RecvdGets(c: Ctrl, out: Msg, p: Plan)
    requires Clear(c) && !c.authenticated && !(c.clock <= p.stopAt < c.clock + 3)
    requires c.clock + 1 in p.replies && p.replies[c.clock + 1] == out && Replied(c, out)
    ensures var d := MsgRecvd(c, Cooperative(p));
      && After(d, out, c.clock + 3) && SentCount(d.history) == SentCount(c.history) + 1
      && if out == SkeSendEks then d.repeater == p.repeater && d.updateStream
         else d.repeater == c.repeater && d.updateStream == c.updateStream
  {
    hide MsgRecvd, SentCount;
    RecvdSends(c, out, p);
    OneMore(c.history, Accepted(c.last, out));
    OneMore(c.history + [Accepted(c.last, out)], Sent(out, out, false));
  }

  lemma RecvTurn(s: Sys, out: Msg, p: Plan) returns (t: Sys)
    requires Idle(s, p, 0)
    requires Clear(s.ctrl) && !s.ctrl.authenticated && !(s.ctrl.clock <= p.stopAt < s.ctrl.clock + 3)
    requires s.ctrl.clock + 1 in p.replies && p.replies[s.ctrl.clock + 1] == out && Replied(s.ctrl, out)
    ensures Idle(t, p, 1) && After(t.ctrl, out, s.ctrl.clock + 3)
    ensures if out == SkeSendEks then t.ctrl.repeater == p.repeater && t.ctrl.updateStream
            else t.ctrl.repeater == s.ctrl.repeater && t.ctrl.updateStream == s.ctrl.updateStream
  {
    hide MsgRecvd, SentCount, Idle, Replied;
    RecvdGets(s.ctrl, out, p);
    Counted(s, p, 0);
    t := Turn(s, RecvSuccess, p, 0);
  }

  // One exchange: m was sent, the sink's answer arrives, and TrustZone's message after it is handed over.
  lemma Exchange(s: Sys, m: Msg, asked: Msg, out: Msg, clock: nat, p: Plan) returns (t: Sys)
    requires Idle(s, p, 1) && After(s.ctrl, m, clock)
    requires (m, asked, out) in {(AkeInit, AkeSendCert, AkeStoredKm), (AkeInit, AkeSendCert, AkeNoStoredKm),
                                 (AkeStoredKm, AkeSendHPrime, LcInit), (LcInit, LcSendLPrime, SkeSendEks)}
    requires !(clock <= p.stopAt < clock + if asked == AkeSendHPrime then 6 else 4)
    requires var k := clock + if asked == AkeSendHPrime then 4 else 2; k in p.replies && p.replies[k] == out
    ensures Idle(t, p, 1) && After(t.ctrl, out, clock + if asked == AkeSendHPrime then 6 else 4)
    ensures if out == SkeSendEks then t.ctrl.repeater == p.repeater && t.ctrl.updateStream
            else t.ctrl.repeater == s.ctrl.repeater
  {
    hide Idle;
    var u := AsksTurn(s, asked, p);
    t := RecvTurn(u, out, p);
  }

  // The exchange with a sink that has to be paired: two messages arrive before the next is handed over.
  lemma Pairing(s: Sys, p: Plan) returns (t: Sys)
    requires Idle(s, p, 1) && After(s.ctrl, AkeNoStoredKm, 6) && p == NEW_KM
    ensures Idle(t, p, 1) && After(t.ctrl, LcInit, 16) && t.ctrl.repeater == s.ctrl.repeater
  {
    hide Idle;
    var u := AsksTurn(s, AkeSendHPrime, p);
    t := PairingTurn(u, p);
    t := RecvTurn(t, LcInit, p);
  }

  // The first of the two.
  lemma PairingTurn(s: Sys, p: Plan) returns (t: Sys)
    requires Idle(s, p, 0) && Clear(s.ctrl) && s.ctrl.last == AkeSendHPrime && s.ctrl.noStoredKm
    requires p == NEW_KM && s.ctrl.clock == 9
    ensures Idle(t, p, 0) && Clear(t.ctrl) && t.ctrl.last == AkeSendPairingInfo && t.ctrl.clock == 13
    ensures t.ctrl.repeater == s.ctrl.repeater && t.ctrl.authenticated == s.ctrl.authenticated
  {
    hide MsgRecvd, SentCount, Idle;
    PairingAsks(s.ctrl, p);
    OneMore(s.ctrl.history, Accepted(AkeSendHPrime, Invalid));
    OneMore(s.ctrl.history + [Accepted(AkeSendHPrime, Invalid)], Asked(Recv, AkeSendPairingInfo));
    Counted(s, p, 0);
    t := Turn(s, RecvSuccess, p, 0);
  }

  // The key message was sent to a receiver: the stream type is handed over.
  lemma TypeFollows(s: Sys, clock: nat, p: Plan) returns (t: Sys)
    requires Idle(s, p, 1) && After(s.ctrl, SkeSendEks, clock) && !s.ctrl.repeater && p.stopAt < 0
    ensures Idle(t, p, 1) && After(t.ctrl, SkeSendTypeId, clock + 1) && !t.ctrl.repeater
  {
    hide MsgSent, SentCount, Idle;
    EksSends(s.ctrl, p);
    Counted(s, p, 1);
    OneMore(s.ctrl.history, Sent(SkeSendTypeId, SkeSendTypeId, false));
    t := Turn(s, SendSuccess, p, 1);
  }

  // The last two reports of a receiver's session.
  lemma ReceiverCloses(s: Sys, clock: nat, p: Plan) returns (t: Sys)
    requires Idle(s, p, 1) && After(s.ctrl, SkeSendEks, clock) && !s.ctrl.repeater && p.stopAt < 0
    ensures Reached(t, p) && t.ctrl.authenticated && !t.ctrl.repeater
  {
    hide MsgSent, SentCount;
    var u := TypeFollows(s, clock, p);
    TypeEncrypts(u.ctrl, p);
    var h := u.ctrl.history;
    OneMore(h, Encrypted);
    OneMore(h + [Encrypted], Success);
    OneMore(h + [Encrypted] + [Success], Asked(LinkPoll, SkeSendTypeId));
    t := Turn(u, SendSuccess, p, 1);
  }

  /** There is a run in which the transmitter ends up authenticated with a receiver whose km is stored. */
  lemma ReceiverAuthenticates()
    ensures exists steps :: var c := Run(Registered(), steps, Cooperative(STORED)).ctrl; c.authenticated && !c.repeater
  {
    hide Idle, Run;
    var p := STORED;
    var s := Opens(p);
    s := Exchange(s, AkeInit, AkeSendCert, AkeStoredKm, 2, p);
    s := Exchange(s, AkeStoredKm, AkeSendHPrime, LcInit, 6, p);
    s := Exchange(s, LcInit, LcSendLPrime, SkeSendEks, 12, p);
    s := ReceiverCloses(s, 16, p);
  }

  /** There is one in which it does with a receiver that had to be paired. */
  lemma PairedReceiverAuthenticates()
    ensures exists steps :: var c := Run(Registered(), steps, Cooperative(NEW_KM)).ctrl; c.authenticated && !c.repeater
  {
    hide Idle, Run;
    var p := NEW_KM;
    var s := Opens(p);
    s := Exchange(s, AkeInit, AkeSendCert, AkeNoStoredKm, 2, p);
    s := Pairing(s, p);
    s := Exchange(s, LcInit, LcSendLPrime, SkeSendEks, 16, p);
    s := ReceiverCloses(s, 20, p);
  }

  // ----- Repeaters -----

  // A repeater got the key message.
  lemma RepeaterOpens(p: Plan) returns (s: Sys)
    requires p == REPEATING || p == STOPPING
    ensures Idle(s, p, 1) && After(s.ctrl, SkeSendEks, 16) && s.ctrl.repeater && s.ctrl.updateStream
  {
    hide Idle;
    s := Opens(p);
    s := Exchange(s, AkeInit, AkeSendCert, AkeStoredKm, 2, p);
    s := Exchange(s, AkeStoredKm, AkeSendHPrime, LcInit, 6, p);
    s := Exchange(s, LcInit, LcSendLPrime, SkeSendEks, 12, p);
  }

  // Its receiver list is acknowledged.
  lemma Acknowledges(s: Sys, p: Plan) returns (t: Sys)
    requires Idle(s, p, 1) && After(s.ctrl, SkeSendEks, 16) && s.ctrl.repeater && s.ctrl.updateStream && p == REPEATING
    ensures Idle(t, p, 1) && After(t.ctrl, RepSendAck, 23) && t.ctrl.repeater && t.ctrl.updateStream
  {
    hide MsgSent, SentCount, Idle;
    EksPolls(s.ctrl, p);
    Counted(s, p, 1);
    OneMore(s.ctrl.history, Asked(LinkPoll, RepSendRecvIdList));
    var u := Turn(s, SendSuccess, p, 1);
    t := RecvTurn(u, RepSendAck, p);
  }

  // Stream management is handed over.
  lemma Manages(s: Sys, p: Plan) returns (t: Sys)
    requires Idle(s, p, 1) && After(s.ctrl, RepSendAck, 23) && s.ctrl.repeater && s.ctrl.updateStream && p == REPEATING
    ensures Idle(t, p, 1) && After(t.ctrl, RepStreamManage, 27) && t.ctrl.repeater
  {
    hide MsgSent, SentCount, Idle;
    AckQueries(s.ctrl, p);
    Counted(s, p, 1);
    OneMore(s.ctrl.history, Sent(RepStreamManage, RepStreamManage, false));
    t := Turn(s, SendSuccess, p, 1);
  }

  // The sink is asked whether they are ready.
  lemma AsksReady(s: Sys, p: Plan) returns (t: Sys)
    requires Idle(s, p, 1) && After(s.ctrl, RepStreamManage, 27) && s.ctrl.repeater && p == REPEATING
    ensures Idle(t, p, 0) && Clear(t.ctrl) && t.ctrl.clock == 28
    ensures t.ctrl.last == RepStreamReady && t.ctrl.repeater && !t.ctrl.authenticated
  {
    hide Idle;
    t := AsksTurn(s, RepStreamReady, p);
  }

  // They are, and encryption is switched on.
  lemma RepeaterCloses(v: Sys, p: Plan) returns (t: Sys)
    requires Idle(v, p, 0) && Clear(v.ctrl) && v.ctrl.clock == 28 && p == REPEATING
    requires v.ctrl.last == RepStreamReady && v.ctrl.repeater && !v.ctrl.authenticated
    ensures Reached(t, p) && t.ctrl.authenticated && t.ctrl.repeater
  {
    hide MsgRecvd, SentCount, Idle;
    ReadyEncrypts(v.ctrl, p);
    Counted(v, p, 0);
    NoFewer(v.ctrl, p);
    t := Turn(v, RecvSuccess, p, 0);
    Gets(t, p, SentCount(t.ctrl.history) - v.answered);
  }

  lemma NoFewer(c: Ctrl, p: Plan)
    ensures SentCount(c.history) <= SentCount(MsgRecvd(c, Cooperative(p)).history)
  {
    MsgRecvdLater(c, Cooperative(p));
  }

  lemma Gets(s: Sys, p: Plan, n: nat)
    requires Idle(s, p, n)
    ensures Reached(s, p)
  {
  }

  /** There is one in which it does with a repeater. */
  lemma RepeaterAuthenticates()
    ensures exists steps :: var c := Run(Registered(), steps, Cooperative(REPEATING)).ctrl; c.authenticated && c.repeater
  {
    hide Idle, Run;
    var p := REPEATING;
    var s := RepeaterOpens(p);
    s := Acknowledges(s, p);
    s := Manages(s, p);
    s := AsksReady(s, p);
    s := RepeaterCloses(s, p);
  }

  // STOP between the two reads of hdcp_off in msg_sent: a repeater is handed stream management while the
  // stream type is prepared.
  lemma StopBetweenReads(c: Ctrl, env: Env)
    requires !c.off && c.repeater && c.last == SkeSendEks && c.prepared == SkeSendEks
    requires !env(c.clock).stop && env(c.clock + 1).stop
    ensures MsgSent(c, env).history == c.history + [Stopped, Sent(RepStreamManage, SkeSendTypeId, true)]
  {
    hide WakeupClient;
    var c2 := ReadOff(Tick(c), env).(prepared := SkeSendTypeId);
    assert ReadOff(c, env) == Tick(c) && c2.off && c2.history == c.history + [Stopped];
    assert MsgSent(c, env) == WakeupClient(c2, Send, env);
    TearsOne(c2, env);
    assert c2.history + [Sent(RepStreamManage, SkeSendTypeId, true)]
        == c.history + [Stopped, Sent(RepStreamManage, SkeSendTypeId, true)];
  }

  lemma TearsOne(c: Ctrl, env: Env)
    requires c.off && c.repeater && c.last == SkeSendEks
    ensures WakeupClient(c, Send, env).history == c.history + [Sent(RepStreamManage, c.prepared, true)]
  {
    hide WaitForResponse, Pick;
    var d := Pick(c, Send);
    PickSays(c, Send);
    PickHistory(c, RepStreamManage);
    NoWait(d, env);
  }

  lemma NoWait(c: Ctrl, env: Env)
    requires !Waits(c)
    ensures WaitForResponse(c, env) == c
  {
  }

  /** There is a run in which a switch-off tears a message. */
  lemma TearingHappens()
    ensures exists steps ::
      Sent(RepStreamManage, SkeSendTypeId, true) in Run(Registered(), steps, Cooperative(STOPPING)).ctrl.history
  {
    hide Idle, Run, Handle, MsgSent;
    var p := STOPPING;
    var s := RepeaterOpens(p);
    StopBetweenReads(s.ctrl, Cooperative(p));
    Counted(s, p, 1);
    Gets(s, p, 1);
    EmptyQueue(s, p, 1);
    StepReaches(s, Client(SendSuccess), p);
    assert [SendSuccess][1..] == [];
    assert PutAll([], [SendSuccess]) == Put([], SendSuccess) == [SendSuccess];
    var t := ClientStep(s, SendSuccess);
    StepReaches(t, Worker, p);
    assert Handle(t.ctrl, SendSuccess, Cooperative(p)) == MsgSent(s.ctrl, Cooperative(p)) by {
      HandlesSent(s.ctrl, Cooperative(p));
    }
    var h := WorkerStep(t, Cooperative(p)).ctrl.history;
    assert h[|h| - 1] == Sent(RepStreamManage, SkeSendTypeId, true);
  }

  lemma HandlesSent(c: Ctrl, env: Env)
    ensures Handle(c, SendSuccess, env) == MsgSent(c, env)
  {
  }

  lemma EmptyQueue(s: Sys, p: Plan, n: nat)
    requires Idle(s, p, n)
    ensures s.queue == [] && s.stale == 0
  {
  }

  // ----- A report left over -----

  lemma {:induction false} ContainsFits(h: seq<Event>, p: seq<Expect>)
    requires Contains(h, p)
    ensures |p| <= |h|
    decreases |p|
  {
    if p != [] {
      var k: nat :| k < |h| && Meets(h[k], p[|p| - 1]) && Contains(h[..k], p[..|p| - 1]);
      ContainsFits(h[..k], p[..|p| - 1]);
    }
  }

  /** A report left in the queue by a session that got as far as the stream type makes the next START
      authenticated without any authentication. */
  lemma StaleReportAuthenticates()
    ensures exists steps :: var s := Run(Registered(), steps, Cooperative(STORED));
      && s.queue == [SendSuccess]
      && var c := Run(ClientStep(s, Start), [Worker], Cooperative(STORED)).ctrl;
         c.authenticated && !FullyAuthenticated(c.history, c.repeater)
  {
    hide Idle, Run, Handle, MsgSent, FullyAuthenticated;
    var p := STORED;
    var s := Opens(p);
    s := Exchange(s, AkeInit, AkeSendCert, AkeStoredKm, 2, p);
    s := Exchange(s, AkeStoredKm, AkeSendHPrime, LcInit, 6, p);
    s := Exchange(s, LcInit, LcSendLPrime, SkeSendEks, 12, p);
    s := TypeFollows(s, 16, p);
    Counted(s, p, 1);
    Gets(s, p, 1);
    EmptyQueue(s, p, 1);
    StepReaches(s, Client(SendSuccess), p);
    assert [SendSuccess][1..] == [];
    assert PutAll([], [SendSuccess]) == Put([], SendSuccess) == [SendSuccess];
    var t := ClientStep(s, SendSuccess);
    assert t.queue == [SendSuccess] && t.ctrl == s.ctrl;
    LeftOver(t, p);
    assert Reached(t, p);
  }

  lemma LeftOver(s: Sys, p: Plan)
    requires s.queue == [SendSuccess] && s.ctrl.prepared == SkeSendTypeId && !s.ctrl.stopAsked && !s.ctrl.resendManage
    requires p.stopAt < 0
    ensures var c := Run(ClientStep(s, Start), [Worker], Cooperative(p)).ctrl;
      c.authenticated && !FullyAuthenticated(c.history, c.repeater)
  {
    hide MsgSent;
    var env := Cooperative(p);
    var t := ClientStep(s, Start);
    assert [Start][1..] == [];
    assert PutAll([SendSuccess], [Start]) == Put([SendSuccess], Start) == [SendSuccess, Start];
    TypeEncrypts(t.ctrl, p);
    assert [Worker][..0] == [];
    var c := MsgSent(t.ctrl, env);
    assert Run(t, [Worker], env).ctrl == c && c.history == [Encrypted, Success, Asked(LinkPoll, AkeInit)];
    forall ake | ake in {AKE_STORED, AKE_NEW} ensures !Contains(c.history, ake + LC_SKE + RECEIVER) {
      if Contains(c.history, ake + LC_SKE + RECEIVER) {
        ContainsFits(c.history, ake + LC_SKE + RECEIVER);
      }
    }
  }
}
