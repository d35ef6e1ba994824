/**
 Runs of the HDCP 2.2 transmitter: the client's thread and the transmitter's thread take turns in any
 order, the environment answers as it likes, and HDCP may be switched off at any moment.

 What is asked of the client: commands still in the queue at a START are harmless (HdcpStale shows that
 nothing less will do), authentication is asked for once per session, and a message is reported sent only
 after it was handed over.  Receive timeouts are not part of this model.
 */
module HdcpRuns {
  import opened HdcpMessages
  import opened HdcpTransmitter
  import opened HdcpSession
  import opened HdcpLater

  const QUEUE_SIZE: nat := 8

  // `stale` counts the commands at the front of the queue that were there at the last START.  Since then,
  // `answered` counts the messages the client reported sent and `handled` those reports worked off.
  datatype Sys = Sys(ctrl: Ctrl, queue: seq<Wakeup>, stale: nat, answered: nat, handled: nat, authAsked: bool)

  datatype Step = Client(w: Wakeup) | Worker

  // kfifo_put: a full queue drops the command.
  function Put(q: seq<Wakeup>, w: Wakeup): seq<Wakeup> {
    if |q| < QUEUE_SIZE then q + [w] else q
  }

  function PutAll(q: seq<Wakeup>, ws: seq<Wakeup>): seq<Wakeup>
    decreases |ws|
  {
    if ws == [] then q else PutAll(Put(q, ws[0]), ws[1..])
  }

  predicate SwitchesOff(w: Wakeup) {
    w in {Stop, SendFailed, RecvFailed, LinkFailed}
  }

  // Commands left over from before a START: none asks for authentication, and reports of sent messages and
  // changes of the encryption level come only after one that switches HDCP off.
  predicate Harmless(q: seq<Wakeup>, on: bool) {
    q == [] || (
      && q[0] != StartAuthentication && !(on && (q[0] == SendSuccess || q[0] == MinEncLevel))
      && Harmless(q[1..], on && !SwitchesOff(q[0])))
  }

  predicate Permitted(s: Sys, w: Wakeup) {
    match w
    case Start => Harmless(s.queue, true)
    case StartAuthentication => !s.authAsked
    case SendSuccess => s.answered < SentCount(s.ctrl.history)
    case _ => true
  }

  function ClientStep(s: Sys, w: Wakeup): Sys {
    Sys(AtWakeup(s.ctrl, w), PutAll(s.queue, Enqueued(s.ctrl, w)),
        if w == Start then |s.queue| else s.stale,
        if w == Start then 0 else if w == SendSuccess then s.answered + 1 else s.answered,
        if w == Start then 0 else s.handled,
        if w == Start then false else s.authAsked || w == StartAuthentication)
  }

  // The transmitter's thread takes one command; a STOP that came in meanwhile is in the queue after it.
  function WorkerStep(s: Sys, env: Env): Sys
    requires s.queue != []
  {
    var c := Handle(s.ctrl, s.queue[0], env);
    Sys(c.(stopAsked := false), if c.stopAsked then Put(s.queue[1..], Stop) else s.queue[1..],
        if s.stale > 0 then s.stale - 1 else 0,
        s.answered, if s.queue[0] == SendSuccess && s.stale == 0 then s.handled + 1 else s.handled, s.authAsked)
  }

  function Next(s: Sys, step: Step, env: Env): Sys {
    match step
    case Client(w) => if Permitted(s, w) then ClientStep(s, w) else s
    case Worker => if s.queue == [] then s else WorkerStep(s, env)
  }

  function Run(s: Sys, steps: seq<Step>, env: Env): Sys {
    if steps == [] then s else Next(Run(s, steps[..|steps| - 1], env), steps[|steps| - 1], env)
  }

  // sde_hdcp_2x_register: off, and nothing asked of TrustZone yet.
  function Registered(): Sys {
    Sys(Ctrl(Invalid, false, false, false, false, false, false, true, Invalid, false, 0, [], false),
        [], 0, 0, 0, true)
  }

  // ----- One command -----

  lemma {:induction false} ManageStreamKeeps(c: Ctrl, handled: nat, env: Env)
    requires Good(c, handled)
    ensures Good(ManageStream(c, env), handled)
  {
    hide Orderly, Calm, StageOf, SentCount, At, QueryStream;
    QueryStreamKeeps(Tick(c), handled, env);
  }

  lemma {:induction false} CleanIsGood(c: Ctrl, handled: nat, env: Env)
    requires Base(c)
    ensures Good(Clean(c, env), handled)
  {
    hide Base, Clean, Session, Settled;
    CleanKeeps(c, env);
  }

  lemma {:induction false} InitKeeps(c: Ctrl, handled: nat, env: Env)
    requires Good(c, handled)
    ensures Good(Init(c, env), handled)
  {
    hide Orderly, Calm, StageOf, SentCount, At, Clean;
    CleanIsGood(Tick(c), handled, env);
  }

  lemma EnableKeeps(c: Ctrl, handled: nat)
    requires Good(c, handled)
    ensures Good(c.(enablePending := false), handled)
  {
  }

  // No message was picked since START, and no repeater's streams are to be asked for.
  predicate Blank(c: Ctrl) {
    c.last == Invalid && !c.updateStream
  }

  // What a command in the queue may count on.
  ghost predicate Ready(c: Ctrl, w: Wakeup, handled: nat) {
    && (w == StartAuthentication ==> Blank(c) && (!c.off ==> StageOf(c.history) == NotStarted))
    && (w == SendSuccess && !c.off ==> handled < SentCount(c.history))
    && (w == MinEncLevel && !c.off ==> EncryptionOn(StageOf(c.history)))
  }

  function Done(w: Wakeup): nat {
    if w == SendSuccess then 1 else 0
  }

  lemma {:induction false} HandleKeeps(c: Ctrl, w: Wakeup, handled: nat, env: Env)
    requires Good(c, handled) && Ready(c, w, handled)
    ensures Good(Handle(c, w, env), handled + Done(w))
  {
    hide StageOf, SentCount, Clean, StartAuth, Init, QueryStream, MsgSent, MsgRecvd, SendType, ManageStream, Base, Session;
    match w {
      case Enable => EnableKeeps(c, handled);
      case Disable =>
      case Start => InitKeeps(c, handled, env);
      case StartAuthentication => StartAuthKeeps(c, handled, env);
      case SendSuccess => MsgSentKeeps(c, handled, env);
      case RecvSuccess => MsgRecvdKeeps(c, handled, env);
      case QueryStreamType => QueryStreamKeeps(c, handled, env);
      case MinEncLevel =>
        if c.repeater {
          QueryStreamKeeps(c, handled, env);
        } else {
          SendTypeKeeps(c, handled, env);
        }
      case ChangeStreams => ManageStreamKeeps(c, handled, env);
      case _ => CleanIsGood(c, handled, env);
    }
  }

  // Until authentication is asked for, nothing but a switch-off happens.
  lemma {:induction false} IdleStays(c: Ctrl, w: Wakeup, handled: nat, env: Env)
    requires Good(c, handled) && Ready(c, w, handled) && w != StartAuthentication
    requires Blank(c) && (!c.off ==> StageOf(c.history) == NotStarted)
    ensures var d := Handle(c, w, env); Blank(d) && (!d.off ==> StageOf(d.history) == NotStarted)
  {
    hide Orderly, Calm, StageOf, SentCount, Clean, ReadOff, Earned, MsgSent, MsgRecvd, SendType, QueryStream, Settled;
    OffStays(c, env);
    OffStays(Tick(c), env);
    match w {
      case RecvSuccess => RecvIdles(c, env);
      case QueryStreamType => QueryIdles(c, env);
      case ChangeStreams => QueryIdles(Tick(c), env);
      case SendSuccess => OffIdles(c, env);
      case MinEncLevel =>
        OffIdles(c, env);
      case _ =>
    }
  }

  // A message of the sink that nothing was asked for is refused.
  lemma RecvIdles(c: Ctrl, env: Env)
    requires Base(c) && Blank(c)
    ensures var d := MsgRecvd(c, env); Blank(d) && (!d.off ==> !c.off && d.history == c.history)
  {
    hide Orderly, Calm, StageOf, SentCount, Clean, ReadOff, CleanUnlessOff, Earned, Onward, Base;
    ReadOffIs(c, env);
    OffStays(c, env);
    var c2 := Tick(ReadOff(c, env));
    if !ReadOff(c, env).off {
      TickedTwice(c);
      OffStays(c2, env);
    }
  }

  lemma TickedTwice(c: Ctrl)
    requires Base(c)
    ensures Base(Tick(Tick(c))) && Base(Tick(c))
  {
  }

  // Unless the sink is a repeater and HDCP on, nobody is asked about streams.
  lemma QueryIdles(c: Ctrl, env: Env)
    requires c.off || !c.repeater
    ensures var d := QueryStream(c, env);
      d.last == c.last && d.updateStream == c.updateStream && (c.off ==> d.off) && (!d.off ==> d.history == c.history)
  {
    hide WakeupClient, ReadOff;
    ReadOffIs(c, env);
    StillSame(c, env);
  }

  lemma StillSame(c: Ctrl, env: Env)
    ensures ReadOff(c, env).off || ReadOff(c, env).history == c.history
  {
  }

  // With HDCP off, the handlers that read it first do nothing.
  lemma OffIdles(c: Ctrl, env: Env)
    requires c.off
    ensures MsgSent(c, env) == SendType(c, env) == QueryStream(c, env) == ReadOff(c, env)
    ensures var d := ReadOff(c, env); d.off && d.last == c.last && d.updateStream == c.updateStream
  {
    hide WakeupClient, SwitchOn, ReadOff, QueryStream;
    ReadOffIs(c, env);
    QueryOff(c, env);
  }

  lemma QueryOff(c: Ctrl, env: Env)
    requires c.off
    ensures QueryStream(c, env) == ReadOff(c, env)
  {
    hide WakeupClient;
  }

  // Cleaning up keeps the last message.
  lemma OffStays(c: Ctrl, env: Env)
    requires Base(c)
    ensures var d := Clean(c, env); d.off && d.last == c.last && d.updateStream == c.updateStream
    ensures var d := CleanUnlessOff(c, env); d.off && d.last == c.last && d.updateStream == c.updateStream
    ensures ReadOff(c, env).off || ReadOff(c, env) == Tick(c)
  {
    hide Orderly, Calm, StageOf, SentCount, Clean, ReadOff, Earned;
    CleanKeeps(c, env);
    CleanUnlessOffKeeps(c, env);
    StillOn(c, env);
  }

  // ----- Runs -----

  // How often w waits in the queue.
  function Waiting(q: seq<Wakeup>, w: Wakeup): nat {
    if q == [] then 0 else (if q[0] == w then 1 else 0) + Waiting(q[1..], w)
  }

  lemma {:induction false} WaitingSnoc(q: seq<Wakeup>, v: Wakeup, w: Wakeup)
    ensures Waiting(q + [v], w) == Waiting(q, w) + (if v == w then 1 else 0)
  {
    if q == [] {
      assert q + [v] == [v];
    } else {
      WaitingSnoc(q[1..], v, w);
      assert (q + [v])[1..] == q[1..] + [v];
    }
  }

  // A command put in the queue comes after the n at the front.
  lemma {:induction false} PutAfter(q: seq<Wakeup>, n: nat, v: Wakeup, w: Wakeup)
    requires n <= |q|
    ensures |Put(q, v)| >= |q| && Put(q, v)[..n] == q[..n]
    ensures Waiting(Put(q, v)[n..], w) <= Waiting(q[n..], w) + (if v == w then 1 else 0)
  {
    if |q| < QUEUE_SIZE {
      assert (q + [v])[n..] == q[n..] + [v];
      WaitingSnoc(q[n..], v, w);
    }
  }

  lemma {:induction false} EnqueuedAfter(c: Ctrl, q: seq<Wakeup>, n: nat, v: Wakeup, w: Wakeup)
    requires n <= |q| && (w == StartAuthentication || w == SendSuccess || w == MinEncLevel)
    ensures var r := PutAll(q, Enqueued(c, v));
      && |r| >= |q| && r[..n] == q[..n]
      && Waiting(r[n..], w) <= Waiting(q[n..], w) + (if v == w then 1 else 0)
      && (v == MinEncLevel && !c.authenticated ==> r == q)
  {
    PutAfter(q, n, v, w);
    var ws := Enqueued(c, v);
    if |ws| == 2 {
      assert ws == [Stop, Disable] && ws[1..] == [Disable] && [Disable][1..] == [];
      assert PutAll(Put(q, Stop), [Disable]) == Put(Put(q, Stop), Disable);
      PutAfter(q, n, Stop, w);
      PutAfter(Put(q, Stop), n, Disable, w);
    } else if |ws| == 1 {
      assert ws[1..] == [];
    }
  }

  ghost predicate Inv(s: Sys) {
    Core(s) && !s.ctrl.stopAsked
  }

  // The stale commands are harmless; the others are accounted for.
  ghost predicate Core(s: Sys) {
    && Good(s.ctrl, s.handled)
    && s.stale <= |s.queue| && Harmless(s.queue[..s.stale], !s.ctrl.off)
    && Bookkeeping(s.ctrl.history, s.ctrl.off, Blank(s.ctrl), s.queue[s.stale..], s.answered, s.handled, s.authAsked, s.stale)
  }

  // Every report waiting is of a message handed over, authentication is asked for at most once and
  // before anything was sent, and a type change waits only while encryption is on.
  ghost predicate Bookkeeping(h: seq<Event>, off: bool, blank: bool, q: seq<Wakeup>, answered: nat, handled: nat,
                              authAsked: bool, stale: nat) {
    && handled + Waiting(q, SendSuccess) <= answered <= SentCount(h)
    && Waiting(q, StartAuthentication) <= (if authAsked then 1 else 0)
    && (!authAsked || Waiting(q, StartAuthentication) > 0 || stale > 0 ==>
          blank && (!off ==> StageOf(h) == NotStarted))
    && (!off && Waiting(q, MinEncLevel) > 0 ==> EncryptionOn(StageOf(h)))
  }

  lemma NoneHarm(on: bool)
    ensures Harmless([], on)
  {
  }

  lemma HarmlessWhenOff(q: seq<Wakeup>, on: bool)
    requires Harmless(q, true)
    ensures Harmless(q, on)
  {
    if q != [] && !SwitchesOff(q[0]) {
      HarmlessWhenOff(q[1..], on);
    }
  }

  lemma {:induction false} LogStoppedKeeps(c: Ctrl, handled: nat)
    requires Good(c, handled)
    ensures Good(Log(c, Stopped).(off := true), handled)
    ensures StageOf(Log(c, Stopped).history) == StageOf(c.history)
    ensures SentCount(Log(c, Stopped).history) == SentCount(c.history)
  {
    hide Orderly, Calm, StageOf, SentCount, At, Earned;
    BaseSnoc(c.(off := true), Stopped);
  }

  lemma {:induction false} ClientKeeps(s: Sys, w: Wakeup)
    requires Inv(s) && Permitted(s, w)
    ensures Inv(ClientStep(s, w))
  {
    hide Orderly, Calm, StageOf, SentCount, At, PutAll, Enqueued, Waiting, Harmless, Earned;
    var c, q := s.ctrl, s.queue;
    EnqueuedAfter(c, q, s.stale, w, StartAuthentication);
    EnqueuedAfter(c, q, s.stale, w, SendSuccess);
    EnqueuedAfter(c, q, s.stale, w, MinEncLevel);
    if w == Start {
      StartedFresh(s);
    } else if w == Stop || w == Disable {
      LogStoppedKeeps(c, s.handled);
      if !c.off {
        HarmlessWhenOff(q[..s.stale], false);
      }
    } else if w == MinEncLevel && c.authenticated {
      assert EncryptionOn(StageOf(c.history)) by { Authenticated(c); }
    }
  }

  lemma Authenticated(c: Ctrl)
    requires Base(c) && c.authenticated
    ensures EncryptionOn(StageOf(c.history)) && (c.repeater <==> StageOf(c.history) == RepeaterOn)
  {
  }

  lemma {:induction false} StartedFresh(s: Sys)
    requires Inv(s) && Harmless(s.queue, true)
    ensures Inv(ClientStep(s, Start))
  {
    hide Good, Harmless, StageOf, SentCount, Waiting, Blank;
    var q := s.queue;
    assert [Start][1..] == [];
    assert PutAll(q, [Start]) == Put(q, Start);
    assert Put(q, Start)[|q|..] == if |q| < QUEUE_SIZE then [Start] else [];
    assert Put(q, Start)[..|q|] == q;
    OnlyStart();
    StartsAnew(s.ctrl);
  }

  lemma OnlyStart()
    ensures forall w :: w != Start ==> Waiting([], w) == Waiting([Start], w) == 0
  {
  }

  lemma StartsAnew(c: Ctrl)
    ensures var d := AtWakeup(c, Start);
      && Good(d, 0) && Blank(d) && !d.off && !d.authenticated && !d.repeater && !d.noStoredKm && d.stopAsked == c.stopAsked
      && StageOf(d.history) == NotStarted && SentCount(d.history) == 0
  {
  }

  lemma {:induction false} WorkerKeeps(s: Sys, env: Env)
    requires Inv(s) && s.queue != []
    ensures Inv(WorkerStep(s, env))
  {
    hide Handle, Put, Core;
    var w, q := s.queue[0], s.queue[1..];
    var d := Handle(s.ctrl, w, env);
    var n := if s.stale > 0 then s.stale - 1 else 0;
    var t := Sys(d, q, n, s.answered, if w == SendSuccess && s.stale == 0 then s.handled + 1 else s.handled, s.authAsked);
    if s.stale > 0 {
      StaleKeeps(s, env);
    } else {
      FreshKeeps(s, env);
    }
    StopPut(t);
    assert WorkerStep(s, env) == t.(ctrl := d.(stopAsked := false), queue := if d.stopAsked then Put(q, Stop) else q);
  }

  // A STOP that came in while the command was worked off is in the queue after it.
  lemma {:induction false} StopPut(s: Sys)
    requires Core(s)
    ensures Inv(s.(ctrl := s.ctrl.(stopAsked := false), queue := if s.ctrl.stopAsked then Put(s.queue, Stop) else s.queue))
  {
    hide Orderly, Calm, StageOf, SentCount, At, Put, Harmless, Earned;
    PutAfter(s.queue, s.stale, Stop, StartAuthentication);
    PutAfter(s.queue, s.stale, Stop, SendSuccess);
    PutAfter(s.queue, s.stale, Stop, MinEncLevel);
  }

  // A command from before the START, worked off.
  lemma {:induction false} StaleKeeps(s: Sys, env: Env)
    requires Inv(s) && s.stale > 0
    ensures Core(Sys(Handle(s.ctrl, s.queue[0], env), s.queue[1..], s.stale - 1, s.answered, s.handled, s.authAsked))
  {
    hide Good, StageOf, SentCount, Handle, Harmless;
    var q := s.queue[..s.stale];
    assert q[0] == s.queue[0];
    assert s.queue[1..][..s.stale - 1] == q[1..] && s.queue[1..][s.stale - 1..] == s.queue[s.stale..];
    StaleStep(s.ctrl, q, s.handled, env);
    HandleLater(s.ctrl, q[0], env);
  }

  lemma {:induction false} StaleStep(c: Ctrl, q: seq<Wakeup>, handled: nat, env: Env)
    requires Good(c, handled) && Blank(c) && (!c.off ==> StageOf(c.history) == NotStarted)
    requires q != [] && Harmless(q, !c.off)
    ensures var d := Handle(c, q[0], env);
      && Good(d, handled) && Blank(d) && (!d.off ==> StageOf(d.history) == NotStarted)
      && Harmless(q[1..], !d.off)
  {
    hide StageOf, SentCount, Handle, Harmless, Base, Session;
    var w, d := q[0], Handle(c, q[0], env);
    HarmlessStep(q, !c.off);
    HandleKeeps(c, w, handled, env);
    HandleLater(c, w, env);
    IdleStays(c, w, handled, env);
    if SwitchesOff(w) {
      SwitchedOff(c, w, handled, env);
    } else if !c.off {
      HarmlessWhenOff(q[1..], !d.off);
    }
  }

  lemma HarmlessStep(q: seq<Wakeup>, on: bool)
    requires q != [] && Harmless(q, on)
    ensures q[0] != StartAuthentication && !(on && (q[0] == SendSuccess || q[0] == MinEncLevel))
    ensures Harmless(q[1..], on && !SwitchesOff(q[0]))
  {
  }

  // A command of the session itself, worked off.
  lemma {:induction false} FreshKeeps(s: Sys, env: Env)
    requires Inv(s) && s.stale == 0 && s.queue != []
    ensures Core(Sys(Handle(s.ctrl, s.queue[0], env), s.queue[1..], 0, s.answered, s.handled + Done(s.queue[0]), s.authAsked))
  {
    hide Orderly, Calm, StageOf, SentCount, At, Handle, Earned, Harmless;
    var c, w := s.ctrl, s.queue[0];
    assert s.queue[0..] == s.queue && s.queue[1..][0..] == s.queue[1..];
    NoneHarm(!Handle(c, w, env).off);
    HandleKeeps(c, w, s.handled, env);
    HandleLater(c, w, env);
    if w != StartAuthentication && Blank(c) && (!c.off ==> StageOf(c.history) == NotStarted) {
      IdleStays(c, w, s.handled, env);
    }
  }

  lemma SwitchedOff(c: Ctrl, w: Wakeup, handled: nat, env: Env)
    requires Good(c, handled) && SwitchesOff(w)
    ensures Handle(c, w, env).off
  {
    hide Base, Clean;
    OffStays(c, env);
  }

  lemma {:induction false} RunKeeps(steps: seq<Step>, env: Env)
    ensures Inv(Run(Registered(), steps, env))
  {
    hide Inv, Permitted, ClientStep, WorkerStep;
    if steps == [] {
      RegisteredHolds();
    } else {
      RunKeeps(steps[..|steps| - 1], env);
      NextKeeps(Run(Registered(), steps[..|steps| - 1], env), steps[|steps| - 1], env);
    }
  }

  lemma RegisteredHolds()
    ensures Inv(Registered())
  {
  }

  lemma NextKeeps(s: Sys, step: Step, env: Env)
    requires Inv(s)
    ensures Inv(Next(s, step, env))
  {
    hide Inv, Permitted, ClientStep, WorkerStep;
    match step {
      case Client(w) => if Permitted(s, w) { ClientKeeps(s, w); }
      case Worker => if s.queue != [] { WorkerKeeps(s, env); }
    }
  }

  /** On every run, each message handed to the sink is the one TrustZone had prepared, unless it was torn by
      a switch-off, and then it is not. */
  lemma {:induction false} MessageAgreement(steps: seq<Step>, env: Env)
    ensures Agree(Run(Registered(), steps, env).ctrl.history)
  {
    RunKeeps(steps, env);
    OrderlyMeans(Run(Registered(), steps, env).ctrl.history);
  }

  /** In every state a run can reach, working off a command hands over prepared messages only, exactly unless
      the client stops between the two reads of hdcp_off as a repeater's key message is reported sent. */
  lemma {:induction false} StepAgreesIff(steps: seq<Step>, env: Env)
    requires Run(Registered(), steps, env).queue != []
    ensures var s := Run(Registered(), steps, env);
      var h, h' := s.ctrl.history, WorkerStep(s, env).ctrl.history;
      && h <= h'
      && ((forall i :: |h| <= i < |h'| && h'[i].Sent? ==> h'[i].picked == h'[i].prepared)
          <==> !(s.queue[0] == SendSuccess && StopTears(s.ctrl, env)))
  {
    hide Inv, Handle, StopTears, Run, Agree, Torn;
    var s := Run(Registered(), steps, env);
    var h, h' := s.ctrl.history, WorkerStep(s, env).ctrl.history;
    RunKeeps(steps, env);
    WorkerKeeps(s, env);
    Agreed(WorkerStep(s, env));
    HandleLater(s.ctrl, s.queue[0], env);
    NoneTornIff(h, h');
    AgreedAt(h, h');
  }

  lemma Agreed(s: Sys)
    requires Inv(s)
    ensures Agree(s.ctrl.history)
  {
    OrderlyMeans(s.ctrl.history);
  }

  lemma AgreedAt(h: seq<Event>, h': seq<Event>)
    requires h <= h' && Agree(h')
    ensures (forall i :: |h| <= i < |h'| && h'[i].Sent? ==> h'[i].picked == h'[i].prepared)
            <==> (forall i :: |h| <= i < |h'| ==> !Torn(h'[i]))
  {
  }

  // Nothing was torn on the way from h to h' exactly when the counts are the same.
  lemma {:induction false} NoneTornIff(h: seq<Event>, h': seq<Event>)
    requires h <= h'
    ensures TornCount(h) <= TornCount(h')
    ensures TornCount(h) == TornCount(h') <==> forall i :: |h| <= i < |h'| ==> !Torn(h'[i])
    decreases |h'|
  {
    if h == h' {
    } else {
      var g := h'[..|h'| - 1];
      assert h <= g && forall i :: |h| <= i < |g| ==> h'[i] == g[i];
      NoneTornIff(h, g);
    }
  }

  /** On every run, a transmitter that calls itself authenticated has been through the whole sequence since
      the last START, a repeater's if the sink is one and a receiver's if not, ending in encryption being
      enabled. */
  lemma {:induction false} AuthenticatedMeansFull(steps: seq<Step>, env: Env)
    requires Run(Registered(), steps, env).ctrl.authenticated
    ensures var c := Run(Registered(), steps, env).ctrl; FullyAuthenticated(c.history, c.repeater)
  {
    hide FullyAuthenticated, EncryptionOn;
    var c := Run(Registered(), steps, env).ctrl;
    RunKeeps(steps, env);
    Authenticated(c);
    EncryptionMeansAuthenticated(c.history);
  }

  /** On every run, a session reports at most one failure, and none after STOP or DISABLE. */
  lemma {:induction false} OneFailureReport(steps: seq<Step>, env: Env, h: seq<Event>, i: nat, j: nat)
    requires h == Run(Registered(), steps, env).ctrl.history && j < i && i < |h| && h[i] == Failure
    ensures h[j] != Failure && h[j] != Stopped
  {
    RunKeeps(steps, env);
    OrderlyMeans(h);
    assert h[..i][j] == h[j];
  }

  // ----- What the agreement rests on -----

  lemma PickHistory(c: Ctrl, m: Msg)
    requires m == NextMessage(c.last, c.noStoredKm, c.resendLcInit, c.repeater, Send)
    ensures Pick(c, Send).history == if m == Invalid then c.history else c.history + [Sent(m, c.prepared, c.off)]
  {
    hide NextMessage;
    if m == Invalid {
      assert Pick(c, Send).history == c.history;
    } else {
      var c1 := c.(last := m, resendManage := c.resendManage && c.last != RepStreamManage);
      assert Pick(c, Send) == Log(c1, Sent(m, c.prepared, c.off));
    }
  }

  lemma OrderlySent(h: seq<Event>, m: Msg, prepared: Msg)
    ensures Orderly(h + [Sent(m, prepared, false)]) <==> Orderly(h) && m == prepared
  {
    hide Calm;
    assert (h + [Sent(m, prepared, false)])[..|h|] == h;
  }

  // Handing over keeps a history orderly exactly when the picked message is the prepared one, or none is picked.
  lemma {:induction false} HandsOverAgrees(c: Ctrl)
    requires Orderly(c.history) && !c.off
    ensures var m := NextMessage(c.last, c.noStoredKm, c.resendLcInit, c.repeater, Send);
      Orderly(Pick(c, Send).history) <==> m == Invalid || m == c.prepared
  {
    hide NextMessage, Orderly, Calm, Pick;
    var m := NextMessage(c.last, c.noStoredKm, c.resendLcInit, c.repeater, Send);
    PickHistory(c, m);
    OrderlySent(c.history, m, c.prepared);
  }

  /** START_AUTH agrees with TrustZone exactly when nothing was exchanged since START, or when the
      transmitter's place is a repeater's and its flag says otherwise, where it sends nothing. */
  lemma {:induction false} StartAuthAgreesIff(c: Ctrl)
    requires Orderly(c.history) && !c.off
    ensures Orderly(Pick(c.(prepared := AkeInit), Send).history)
            <==> c.last == Invalid || (!c.repeater && (c.last == RepSendAck || c.last == RepStreamReady))
  {
    hide Orderly, Pick;
    HandsOverAgrees(c.(prepared := AkeInit));
  }

  /** A change of the encryption level handed to a receiver agrees exactly after its key exchange. */
  lemma {:induction false} SendTypeAgreesIff(c: Ctrl)
    requires Orderly(c.history) && !c.off && !c.repeater
    ensures Orderly(Pick(c.(prepared := SkeSendTypeId), Send).history)
            <==> c.last in {SkeSendEks, SkeSendTypeId, RepSendAck, RepStreamReady}
  {
    hide Orderly, Pick;
    HandsOverAgrees(c.(prepared := SkeSendTypeId));
  }

  function AllWell(): Env {
    (k: nat) => Answer(false, true, Invalid, false, false, false)
  }

  // A client that asks for authentication twice after one START: the second request hands over a
  // certificate request in place of AKE_INIT.
  lemma {:induction false} AskingTwiceDisagrees()
    ensures var c1 := StartAuth(AtWakeup(Registered().ctrl, Start), AllWell());
      Agree(c1.history) && !Agree(StartAuth(c1, AllWell()).history)
  {
    hide StartAuth;
    var c0 := AtWakeup(Registered().ctrl, Start);
    var c1 := StartAuth(c0, AllWell());
    AuthSends(c0, AkeInit);
    AuthSends(c1, AkeSendCert);
    assert c1.history == [Sent(AkeInit, AkeInit, false)];
    assert StartAuth(c1, AllWell()).history[1] == Sent(AkeSendCert, AkeInit, false);
  }

  lemma AuthSends(c: Ctrl, m: Msg)
    requires !c.off && m == NextMessage(c.last, c.noStoredKm, c.resendLcInit, c.repeater, Send) && (m == AkeInit || m == AkeSendCert)
    ensures var d := StartAuth(c, AllWell());
      d.history == c.history + [Sent(m, AkeInit, false)] && d.last == m && !d.off
  {
    hide Clean, NextMessage;
    var x := Tick(c).(prepared := AkeInit);
    PickHistory(x, m);
    assert !Waits(Pick(x, Send));
    assert WakeupClient(x, Send, AllWell()) == Pick(x, Send);
  }
}
