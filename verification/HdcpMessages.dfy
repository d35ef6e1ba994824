/**
 HDCP 2.2 messages as msm/sde_hdcp_2x.c numbers them, the transmitter's choice of the next one,
 and the order in which a session has to go through them.
 */
module HdcpMessages {

  datatype Msg =
    | Invalid | AkeInit | AkeSendCert | AkeNoStoredKm | AkeStoredKm | AkeSendHPrime | AkeSendPairingInfo
    | LcInit | LcSendLPrime | SkeSendEks | RepSendRecvIdList | RepSendAck | RepStreamManage
    | RepStreamReady | SkeSendTypeId

  datatype Cmd = Send | Recv | LinkPoll | StatusSuccess | StatusFailed

  predicate Exchanges(c: Cmd) {
    c == Send || c == Recv || c == LinkPoll
  }

  // sde_hdcp_2x_get_next_message
  function NextMessage(last: Msg, noStoredKm: bool, resendLcInit: bool, repeater: bool, cmd: Cmd): Msg {
    match last
    case Invalid => AkeInit
    case AkeInit => AkeSendCert
    case AkeSendCert => if noStoredKm then AkeNoStoredKm else AkeStoredKm
    case AkeStoredKm => AkeSendHPrime
    case AkeNoStoredKm => AkeSendHPrime
    case AkeSendHPrime => if noStoredKm then AkeSendPairingInfo else LcInit
    case AkeSendPairingInfo => LcInit
    case LcInit => LcSendLPrime
    case LcSendLPrime => if resendLcInit then LcInit else SkeSendEks
    case SkeSendEks => if !repeater then SkeSendTypeId else AfterSke(cmd)
    case SkeSendTypeId => if !repeater then SkeSendTypeId else AfterSke(cmd)
    case RepStreamReady => if !repeater then Invalid else AfterSke(cmd)
    case RepSendAck => if !repeater then Invalid else AfterSke(cmd)
    case RepSendRecvIdList => RepSendAck
    case RepStreamManage => RepStreamReady
  }

  function AfterSke(cmd: Cmd): Msg {
    if cmd == Send then RepStreamManage else RepSendRecvIdList
  }

  // What a TrustZone that keeps to sections 2.2 to 2.5 of HDCP 2.2 answers to a message of the sink.
  // Messages the transmitter itself sends are never accepted from the sink.
  predicate Replies(m: Msg, noStoredKm: bool, reply: Msg) {
    match m
    case AkeSendCert => reply == AkeNoStoredKm || reply == AkeStoredKm
    case AkeSendHPrime => noStoredKm || reply == LcInit
    case AkeSendPairingInfo => reply == LcInit
    case LcSendLPrime => reply == LcInit || reply == SkeSendEks
    case RepSendRecvIdList => reply == RepSendAck
    case RepStreamReady => reply == RepStreamManage || reply == Invalid
    case _ => false
  }

  // The history of a session: messages handed to the sink with the message TrustZone had prepared, messages
  // the client was asked to fetch from the sink, messages of the sink that TrustZone accepted, and encryption
  // being switched on.
  datatype Event =
    | Sent(picked: Msg, prepared: Msg, off: bool)
    | Asked(cmd: Cmd, msg: Msg)   // to receive it, or to poll the link for it
    | Accepted(msg: Msg, reply: Msg)
    | Encrypted
    | Success     // STATUS_SUCCESS reported to the client
    | Failure     // STATUS_FAILED reported to it
    | Stopped     // the client switched HDCP off

  // Handed over by sde_hdcp_2x_msg_sent after its second read found HDCP off: the stream type was
  // prepared for a receiver, but the sink is a repeater.
  predicate Torn(e: Event) {
    e.Sent? && e.off && e.prepared == SkeSendTypeId
  }

  datatype Stage =
    | NotStarted | InitSent | CertAccepted | NoKmSent | KmSent | HPrimeAccepted | AkeDone | LcSent
    | LcDone | SkeSent | TypeSent | ReceiverOn | IdListAccepted | AckSent | ManageSent | ReadyAccepted
    | RepeaterOn

  // One event takes a session one stage on, or back for a locality retry, or nowhere.
  function NextStage(s: Stage, e: Event): Stage {
    match s
    case NotStarted => if e.Sent? && e.picked == AkeInit then InitSent else s
    case InitSent => if e.Accepted? && e.msg == AkeSendCert then CertAccepted else s
    case CertAccepted =>
      if e.Sent? && e.picked == AkeNoStoredKm then NoKmSent
      else if e.Sent? && e.picked == AkeStoredKm then KmSent else s
    case NoKmSent => if e.Accepted? && e.msg == AkeSendHPrime then HPrimeAccepted else s
    case KmSent => if e.Accepted? && e.msg == AkeSendHPrime then AkeDone else s
    case HPrimeAccepted => if e.Accepted? && e.msg == AkeSendPairingInfo then AkeDone else s
    case AkeDone => if e.Sent? && e.picked == LcInit then LcSent else s
    case LcSent =>
      if e.Accepted? && e.msg == LcSendLPrime then (if e.reply == LcInit then AkeDone else LcDone) else s
    case LcDone => if e.Sent? && e.picked == SkeSendEks then SkeSent else s
    case SkeSent =>
      if e.Sent? && e.picked == SkeSendTypeId then TypeSent
      else if e.Accepted? && e.msg == RepSendRecvIdList then IdListAccepted else s
    case TypeSent => if e.Encrypted? then ReceiverOn else s
    case IdListAccepted => if e.Sent? && e.picked == RepSendAck then AckSent else s
    case AckSent => if e.Sent? && e.picked == RepStreamManage then ManageSent else s
    case ManageSent => if e.Accepted? && e.msg == RepStreamReady then ReadyAccepted else s
    case ReadyAccepted => if e.Encrypted? then RepeaterOn else s
    case ReceiverOn => s
    case RepeaterOn => s
  }

  function StageOf(h: seq<Event>): Stage {
    if h == [] then NotStarted else NextStage(StageOf(h[..|h| - 1]), h[|h| - 1])
  }

  predicate EncryptionOn(s: Stage) {
    s == ReceiverOn || s == RepeaterOn
  }

  lemma StageSnoc(h: seq<Event>, e: Event)
    ensures StageOf(h + [e]) == NextStage(StageOf(h), e)
  {
    assert (h + [e])[..|h|] == h;
  }

  // ----- What reaching a stage means, in terms of the history alone -----

  datatype Expect = ToSink(msg: Msg) | FromSink(msg: Msg) | KeyReady | EncryptionEnabled

  predicate Meets(e: Event, x: Expect) {
    match x
    case ToSink(m) => e.Sent? && e.picked == m
    case FromSink(m) => e.Accepted? && e.msg == m
    case KeyReady => e.Accepted? && e.msg == LcSendLPrime && e.reply != LcInit
    case EncryptionEnabled => e == Encrypted
  }

  // The expected events occur in h, in this order, with anything in between.
  ghost predicate Contains(h: seq<Event>, p: seq<Expect>) {
    p == [] || exists k: nat :: k < |h| && Meets(h[k], p[|p| - 1]) && Contains(h[..k], p[..|p| - 1])
  }

  const CERT: seq<Expect> := [ToSink(AkeInit), FromSink(AkeSendCert)]
  const AKE_STORED: seq<Expect> := CERT + [ToSink(AkeStoredKm), FromSink(AkeSendHPrime)]
  const AKE_NEW: seq<Expect> := CERT + [ToSink(AkeNoStoredKm), FromSink(AkeSendHPrime), FromSink(AkeSendPairingInfo)]
  const LC_SKE: seq<Expect> := [ToSink(LcInit), KeyReady, ToSink(SkeSendEks)]
  const RECEIVER: seq<Expect> := [ToSink(SkeSendTypeId), EncryptionEnabled]
  const REPEATER: seq<Expect> :=
    [FromSink(RepSendRecvIdList), ToSink(RepSendAck), ToSink(RepStreamManage), FromSink(RepStreamReady),
     EncryptionEnabled]

  // Encryption was enabled after a whole authentication: AKE with or without a stored km, the
  // locality check, SKE, and for a repeater the receiver list and stream management.
  ghost predicate FullyAuthenticated(h: seq<Event>, repeater: bool) {
    exists ake :: ake in {AKE_STORED, AKE_NEW} && Contains(h, ake + LC_SKE + if repeater then REPEATER else RECEIVER)
  }

  // The events behind a stage; `stored` tells how km was agreed.
  function Path(s: Stage, stored: bool): seq<Expect> {
    var ake := if stored then AKE_STORED else AKE_NEW;
    match s
    case NotStarted => []
    case InitSent => CERT[..1]
    case CertAccepted => CERT
    case NoKmSent => AKE_NEW[..3]
    case KmSent => AKE_STORED[..3]
    case HPrimeAccepted => AKE_NEW[..4]
    case AkeDone => ake
    case LcSent => ake + LC_SKE[..1]
    case LcDone => ake + LC_SKE[..2]
    case SkeSent => ake + LC_SKE
    case TypeSent => ake + LC_SKE + RECEIVER[..1]
    case ReceiverOn => ake + LC_SKE + RECEIVER
    case IdListAccepted => ake + LC_SKE + REPEATER[..1]
    case AckSent => ake + LC_SKE + REPEATER[..2]
    case ManageSent => ake + LC_SKE + REPEATER[..3]
    case ReadyAccepted => ake + LC_SKE + REPEATER[..4]
    case RepeaterOn => ake + LC_SKE + REPEATER
  }

  lemma ContainsMore(h: seq<Event>, e: Event, p: seq<Expect>)
    requires Contains(h, p)
    ensures Contains(h + [e], p)
  {
    if p != [] {
      var k: nat :| k < |h| && Meets(h[k], p[|p| - 1]) && Contains(h[..k], p[..|p| - 1]);
      assert (h + [e])[..k] == h[..k];
    }
  }

  lemma ContainsNext(h: seq<Event>, e: Event, p: seq<Expect>, x: Expect)
    requires Contains(h, p) && Meets(e, x)
    ensures Contains(h + [e], p + [x])
  {
    assert (h + [e])[..|h|] == h && (p + [x])[..|p|] == p;
  }

  lemma {:induction false} ContainsLess(h: seq<Event>, p: seq<Expect>, x: Expect)
    requires Contains(h, p + [x])
    ensures Contains(h, p)
  {
    assert (p + [x])[..|p|] == p;
    var k: nat :| k < |h| && Meets(h[k], (p + [x])[|p|]) && Contains(h[..k], p);
    ContainsExtended(h, k, p);
  }

  lemma {:induction false} ContainsExtended(h: seq<Event>, k: nat, p: seq<Expect>)
    requires k <= |h| && Contains(h[..k], p)
    ensures Contains(h, p)
    decreases |h| - k
  {
    if k == |h| {
      assert h[..k] == h;
    } else {
      ContainsMore(h[..k], h[k], p);
      assert h[..k + 1] == h[..k] + [h[k]];
      ContainsExtended(h, k + 1, p);
    }
  }

  // How km was agreed, once the stage t entered from s tells.
  function Via(s: Stage, t: Stage, stored: bool): bool {
    if t == KmSent || s == KmSent then true
    else if t == NoKmSent || t == HPrimeAccepted || s == HPrimeAccepted then false
    else stored
  }

  // A stage entered going forward has exactly one more event behind it: the one that entered it.
  lemma PathGrows(s: Stage, e: Event, stored: bool) returns (x: Expect)
    requires NextStage(s, e) != s && !(s == LcSent && NextStage(s, e) == AkeDone)
    ensures Path(NextStage(s, e), Via(s, NextStage(s, e), stored)) == Path(s, stored) + [x] && Meets(e, x)
  {
    if s in {NotStarted, InitSent, CertAccepted, NoKmSent, KmSent, HPrimeAccepted} {
      x := AkePathGrows(s, e, stored);
    } else {
      x := LaterPathGrows(s, e, stored);
    }
  }

  lemma AkePathGrows(s: Stage, e: Event, stored: bool) returns (x: Expect)
    requires NextStage(s, e) != s && s in {NotStarted, InitSent, CertAccepted, NoKmSent, KmSent, HPrimeAccepted}
    ensures Path(NextStage(s, e), Via(s, NextStage(s, e), stored)) == Path(s, stored) + [x] && Meets(e, x)
  {
    var p := Path(NextStage(s, e), Via(s, NextStage(s, e), stored));
    x := p[|p| - 1];
  }

  lemma LaterPathGrows(s: Stage, e: Event, stored: bool) returns (x: Expect)
    requires NextStage(s, e) != s && !(s == LcSent && NextStage(s, e) == AkeDone)
    requires s !in {NotStarted, InitSent, CertAccepted, NoKmSent, KmSent, HPrimeAccepted}
    ensures Path(NextStage(s, e), Via(s, NextStage(s, e), stored)) == Path(s, stored) + [x] && Meets(e, x)
  {
    var p := Path(NextStage(s, e), Via(s, NextStage(s, e), stored));
    x := p[|p| - 1];
  }

  // The stages are sound: a session only gets to one by the events behind it.
  lemma PathStep(h: seq<Event>, e: Event, s: Stage, stored: bool)
    requires Contains(h, Path(s, stored))
    ensures var t := NextStage(s, e); Contains(h + [e], Path(t, true)) || Contains(h + [e], Path(t, false))
  {
    var t := NextStage(s, e);
    if t == s {
      ContainsMore(h, e, Path(s, stored));
    } else if s == LcSent && t == AkeDone {
      assert Path(LcSent, stored) == Path(AkeDone, stored) + [ToSink(LcInit)];
      ContainsLess(h, Path(AkeDone, stored), ToSink(LcInit));
      ContainsMore(h, e, Path(AkeDone, stored));
    } else {
      var x := PathGrows(s, e, stored);
      ContainsNext(h, e, Path(s, stored), x);
    }
  }

  lemma {:induction false} StageSound(h: seq<Event>)
    ensures Contains(h, Path(StageOf(h), true)) || Contains(h, Path(StageOf(h), false))
  {
    if h != [] {
      var g := h[..|h| - 1];
      StageSound(g);
      assert h == g + [h[|h| - 1]];
      PathStep(g, h[|h| - 1], StageOf(g), Contains(g, Path(StageOf(g), true)));
    }
  }

  /** A session whose stage has encryption on went through a whole authentication, in order: a repeater's,
      with receiver list and stream management, or a receiver's. */
  lemma EncryptionMeansAuthenticated(h: seq<Event>)
    requires EncryptionOn(StageOf(h))
    ensures FullyAuthenticated(h, StageOf(h) == RepeaterOn)
  {
    StageSound(h);
    var ake := if Contains(h, Path(StageOf(h), true)) then AKE_STORED else AKE_NEW;
    assert Contains(h, ake + LC_SKE + if StageOf(h) == RepeaterOn then REPEATER else RECEIVER);
  }
}
