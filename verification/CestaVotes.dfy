/**
 Raise before lower: between the update before a commit and the one after it, neither the clock nor the
 bandwidth vote is below what the outgoing or the incoming request needs.
 */
module CestaVotes {
  import opened CestaModel

  // The vote in force is as high as the stored request needs, and no higher.
  ghost predicate Settled(c: Client) {
    ClkPeak(c.active) == ClkPeak(c.hw) && BwPeak(c.active) == BwPeak(c.hw)
  }

  ghost predicate Covers(vote: Data, need: Data) {
    ClkPeak(vote) >= ClkPeak(need) && BwPeak(vote) >= BwPeak(need)
  }

  // An unchanged request repeats the stored IB.
  ghost predicate Repeats(c: Client, p: Params) {
    !UpdateRequired(c, p) ==> p.data.bwIb == c.hw.bwIb
  }

  /** The update before a commit that keeps the client enabled votes at least what the outgoing and the
      incoming request need, and leaves for afterwards exactly what it could not settle. */
  lemma PreCommitCovers(c: Client, p: Params)
    requires Settled(c) && Repeats(c, p) && !p.postCommit
    ensures var d := PreCommit(c, p);
      && d.hw == p.data && d.enabled == p.enable
      && (p.enable ==> Covers(d.active, c.hw) && Covers(d.active, d.hw))
      && (Deferred(d.state) || Settled(d))
  {
  }

  ghost predicate Rises(need: Data, before: Data) {
    BwPeak(need) > BwPeak(before) || ClkPeak(need) > ClkPeak(before)
  }

  // What makes the update before a commit cover both requests; `low` says that the vote was below the stored
  // request already.
  ghost predicate Keeps(c: Client, p: Params, low: bool) {
    if UpdateRequired(c, p) then Rises(p.data, c.hw) || !low
    else if c.override || p.override then BwPeak(p.data) >= BwPeak(c.hw)
    else !low
  }

  /** From any vote, settled or not: with the client enabled, the update before a commit covers the outgoing and
      the incoming request exactly if the new request raises something or the vote covered the stored one, and
      when it only repeats the request and forces the vote, if its IB is not below the stored one. */
  lemma {:induction false} PreCommitCoversIff(c: Client, p: Params)
    requires p.enable && !p.postCommit
    ensures var d := PreCommit(c, p);
      Covers(d.active, c.hw) && Covers(d.active, d.hw) <==> Keeps(c, p, !Covers(c.active, c.hw))
  {
    if UpdateRequired(c, p) {
      assert PreCommit(c, p).hw == p.data;
    }
  }

  /** The update after it, given the same request, leaves the vote as high as the request needs. */
  lemma PostCommitSettles(c: Client, p: Params)
    requires (Deferred(c.state) || Settled(c)) && c.hw == p.data && p.postCommit
    ensures Settled(PostCommit(c, p)) && PostCommit(c, p).hw == p.data
  {
  }

  /** Given some other request, it settles exactly when that request peaks where the stored one does. */
  lemma PostCommitSettlesIff(c: Client, p: Params)
    requires Deferred(c.state) && p.postCommit && p.enable
    ensures Settled(PostCommit(c, p)) <==> ClkPeak(p.data) == ClkPeak(c.hw) && BwPeak(p.data) == BwPeak(c.hw)
  {
  }

  /** With the client enabled and settled, the update before a commit votes exactly the higher of the outgoing and the
      incoming request, for the clock and for the bandwidth. */
  lemma PreCommitIsHigher(c: Client, p: Params)
    requires Settled(c) && Repeats(c, p) && !p.postCommit && p.enable
    ensures var d := PreCommit(c, p);
      && ClkPeak(d.active) == Max(ClkPeak(c.hw), ClkPeak(p.data)) && BwPeak(d.active) == Max(BwPeak(c.hw), BwPeak(p.data))
  {
  }

  /** A request that peaks where the stored one does is stored, and no vote is placed, before or after the commit. */
  lemma SamePeaksNoVote(c: Client, p: Params)
    requires UpdateRequired(c, p) && !p.postCommit && ClkPeak(p.data) == ClkPeak(c.hw) && BwPeak(p.data) == BwPeak(c.hw)
    ensures var d := PreCommit(c, p);
      && d.active == c.active && d.hw == p.data && d.enabled == p.enable && d.override == p.override
      && PostCommit(d, p.(postCommit := true)) == d
  {
  }

  /** A request that differs in its IB only, with nothing forced, changes neither the vote nor what is stored. */
  lemma IbAloneIsNoUpdate(c: Client, p: Params, ib: nat)
    requires p.data == c.hw.(bwIb := ib) && p.enable == c.enabled && !p.override && !c.override
    ensures PreCommit(c, p) == c.(state := NoChange)
  {
  }

  /** Lowering after the commit is forced on the power states; the next update before a commit, if it only repeats the
      request, takes the force back and votes the whole request again. */
  lemma ForcedOnce(c: Client, p: Params)
    requires p.enable && !p.override && Deferred(c.state) && c.hw == p.data && !p.postCommit
    ensures var d := PostCommit(c, p.(postCommit := true));
      && d.override && d.active == p.data && d.hw == p.data
      && !PreCommit(d, p).override && PreCommit(d, p).active == p.data && !Deferred(PreCommit(d, p).state)
  {
  }

  // Switching a client off with an empty request needs no second update.
  lemma OffSettles(c: Client, p: Params)
    requires Settled(c) && Repeats(c, p) && !p.postCommit && !p.enable && p.data == Data(0, 0, 0, 0)
    ensures Settled(PreCommit(c, p))
  {
  }

  // ----- Runs over all clients -----

  // What a client owes: the second update for the request of its first, and the request it replaced.
  datatype Due = Nothing | Owed(request: Params, outgoing: Data)

  datatype Sys = Sys(clients: seq<Client>, due: seq<Due>)

  datatype Step = Pre(k: nat, p: Params) | Post(k: nat)

  ghost predicate Allowed(s: Sys, step: Step)
    requires |s.due| == |s.clients|
  {
    match step
    case Pre(k, p) => k < |s.clients| && s.due[k] == Nothing && !p.postCommit && Repeats(s.clients[k], p)
    case Post(k) => k < |s.clients| && s.due[k] != Nothing
  }

  ghost function Next(cfg: Config, s: Sys, step: Step): (r: Sys)
    requires |s.due| == |s.clients|
    ensures |r.due| == |r.clients| == |s.clients|
  {
    if !Allowed(s, step) then s
    else match step
      case Pre(k, p) =>
        var off := !p.enable && p.data == Data(0, 0, 0, 0);
        Sys(Update(cfg, s.clients, k, p),
            s.due[k := if off then Nothing else Owed(Requested(cfg, s.clients, k, p), s.clients[k].hw)])
      case Post(k) =>
        Sys(Update(cfg, s.clients, k, s.due[k].request.(postCommit := true)), s.due[k := Nothing])
  }

  ghost function Run(cfg: Config, clients: seq<Client>, steps: seq<Step>): (r: Sys)
    ensures |r.due| == |r.clients| == |clients|
  {
    if steps == [] then Sys(clients, seq(|clients|, i => Nothing))
    else Next(cfg, Run(cfg, clients, steps[..|steps| - 1]), steps[|steps| - 1])
  }

  ghost predicate ClientInv(c: Client, due: Due) {
    match due
    case Nothing => Settled(c)
    case Owed(p, outgoing) =>
      && c.hw == p.data && !p.postCommit && (Deferred(c.state) || Settled(c))
      && (p.enable ==> Covers(c.active, outgoing) && Covers(c.active, c.hw))
  }

  ghost predicate Inv(s: Sys)
    requires |s.due| == |s.clients|
  {
    forall i :: 0 <= i < |s.clients| ==> ClientInv(s.clients[i], s.due[i])
  }

  lemma RequestedRepeats(cfg: Config, clients: seq<Client>, k: nat, p: Params)
    requires k < |clients| && !p.postCommit && Repeats(clients[k], p)
    ensures var q := Requested(cfg, clients, k, p);
      && Repeats(clients[k], q) && !q.postCommit && q.enable == p.enable
      && (UpdateRequired(clients[k], q) <==> UpdateRequired(clients[k], p))
      && (!p.enable ==> q == p)
  {
  }

  lemma {:induction false} NextKeeps(cfg: Config, s: Sys, step: Step)
    requires |s.due| == |s.clients| && Inv(s)
    ensures Inv(Next(cfg, s, step))
  {
    hide Settled, Covers, PreCommit, PostCommit, Repeats, UpdateRequired, WithIb;
    if Allowed(s, step) {
      match step {
        case Pre(k, p) =>
          var c, q := s.clients[k], Requested(cfg, s.clients, k, p);
          assert ClientInv(c, s.due[k]);
          RequestedRepeats(cfg, s.clients, k, p);
          PreCommitCovers(c, q);
          if !p.enable && p.data == Data(0, 0, 0, 0) {
            OffSettles(c, q);
          }
        case Post(k) =>
          assert ClientInv(s.clients[k], s.due[k]);
          PostCommitSettles(s.clients[k], s.due[k].request.(postCommit := true));
      }
    }
  }

  /** Over every run in which each update is followed, before the client's next, by the one after the commit
      with the request as the first left it: while a request is under way the votes cover it and the one
      it replaces, and otherwise they are as high as the stored request needs. */
  lemma {:induction false} RaiseBeforeLower(cfg: Config, clients: seq<Client>, steps: seq<Step>)
    requires forall i :: 0 <= i < |clients| ==> Settled(clients[i])
    ensures Inv(Run(cfg, clients, steps))
  {
    if steps != [] {
      var before := steps[..|steps| - 1];
      RaiseBeforeLower(cfg, clients, before);
      NextKeeps(cfg, Run(cfg, clients, before), steps[|steps| - 1]);
    }
  }

  // ----- A caller that repeats its own IB -----

  // What such a caller owes: the second update, for the request with its own IB.
  datatype OwnDue = Paid | Own(request: Params)

  // low[k]: the last lowering of client k was settled with an IB above the derived one, and nothing rose since.
  datatype OwnSys = OwnSys(clients: seq<Client>, due: seq<OwnDue>, low: seq<bool>)

  ghost predicate Sized(s: OwnSys) {
    |s.due| == |s.low| == |s.clients|
  }

  ghost predicate OwnAllowed(s: OwnSys, step: Step)
    requires Sized(s)
  {
    match step
    case Pre(k, p) =>
      k < |s.clients| && s.due[k] == Paid && !p.postCommit && (p.enable || p.data == Data(0, 0, 0, 0))
    case Post(k) => k < |s.clients| && s.due[k] != Paid
  }

  // low after the update before a commit, from the requests alone.
  ghost function LowAfter(c: Client, q: Params, low: bool): bool {
    if !UpdateRequired(c, q) then low && !(c.override || q.override)
    else low && q.enable && !Rises(q.data, c.hw)
  }

  ghost function OwnNext(cfg: Config, s: OwnSys, step: Step): (r: OwnSys)
    requires Sized(s)
    ensures Sized(r) && |r.clients| == |s.clients|
  {
    if !OwnAllowed(s, step) then s
    else match step
      case Pre(k, p) =>
        OwnSys(Update(cfg, s.clients, k, p), s.due[k := if p.enable then Own(p) else Paid],
               s.low[k := LowAfter(s.clients[k], Requested(cfg, s.clients, k, p), s.low[k])])
      case Post(k) =>
        var c, p := s.clients[k], s.due[k].request;
        OwnSys(Update(cfg, s.clients, k, p.(postCommit := true)), s.due[k := Paid],
               s.low[k := if Deferred(c.state) then BwPeak(p.data) > BwPeak(c.hw) else s.low[k]])
  }

  ghost function OwnRun(cfg: Config, clients: seq<Client>, steps: seq<Step>): (r: OwnSys)
    ensures Sized(r) && |r.clients| == |clients|
  {
    if steps == [] then OwnSys(clients, seq(|clients|, i => Paid), seq(|clients|, i => false))
    else OwnNext(cfg, OwnRun(cfg, clients, steps[..|steps| - 1]), steps[|steps| - 1])
  }

  ghost predicate OwnClient(c: Client, due: OwnDue, low: bool) {
    match due
    case Paid => low <==> !Covers(c.active, c.hw)
    case Own(p) =>
      && p.enable && !p.postCommit
      && ClkPeak(c.hw) == ClkPeak(p.data)
      && (Deferred(c.state) || (low <==> !Covers(c.active, c.hw)))
  }

  ghost predicate OwnInv(s: OwnSys)
    requires Sized(s)
  {
    forall i :: 0 <= i < |s.clients| ==> OwnClient(s.clients[i], s.due[i], s.low[i])
  }

  lemma OwnPre(c: Client, q: Params, low: bool)
    requires (low <==> !Covers(c.active, c.hw)) && !q.postCommit && (q.enable || q.data == Data(0, 0, 0, 0))
    ensures var d := PreCommit(c, q);
      && (q.enable ==> ClkPeak(d.hw) == ClkPeak(q.data))
      && ((q.enable && Deferred(d.state)) || (LowAfter(c, q, low) <==> !Covers(d.active, d.hw)))
  {
  }

  lemma OwnPost(c: Client, p: Params)
    requires p.enable && p.postCommit && ClkPeak(c.hw) == ClkPeak(p.data)
    ensures var d := PostCommit(c, p);
      if Deferred(c.state) then (BwPeak(p.data) > BwPeak(c.hw) <==> !Covers(d.active, d.hw)) else d == c
  {
  }

  lemma OwnRequest(cfg: Config, clients: seq<Client>, k: nat, p: Params)
    requires k < |clients| && !p.postCommit
    ensures var q := Requested(cfg, clients, k, p);
      !q.postCommit && q.enable == p.enable && ClkPeak(q.data) == ClkPeak(p.data) && (!p.enable ==> q == p)
  {
  }

  lemma {:induction false} OwnKeeps(cfg: Config, s: OwnSys, step: Step)
    requires Sized(s) && OwnInv(s)
    ensures OwnInv(OwnNext(cfg, s, step))
  {
    hide Covers, PreCommit, PostCommit, UpdateRequired, WithIb, LowAfter, ClkPeak, BwPeak;
    if OwnAllowed(s, step) {
      match step {
        case Pre(k, p) =>
          assert OwnClient(s.clients[k], s.due[k], s.low[k]);
          OwnRequest(cfg, s.clients, k, p);
          OwnPre(s.clients[k], Requested(cfg, s.clients, k, p), s.low[k]);
        case Post(k) =>
          assert OwnClient(s.clients[k], s.due[k], s.low[k]);
          OwnPost(s.clients[k], s.due[k].request.(postCommit := true));
      }
    }
  }

  lemma {:induction false} OwnRunKeeps(cfg: Config, clients: seq<Client>, steps: seq<Step>)
    requires forall i :: 0 <= i < |clients| ==> Settled(clients[i])
    ensures OwnInv(OwnRun(cfg, clients, steps))
  {
    if steps != [] {
      OwnRunKeeps(cfg, clients, steps[..|steps| - 1]);
      OwnKeeps(cfg, OwnRun(cfg, clients, steps[..|steps| - 1]), steps[|steps| - 1]);
    }
  }

  /** Over every run of a caller that repeats its own IB, the update before a commit covers both requests exactly
      if the request raises something or the client is not low: its last lowering was not settled with an IB
      above the derived one, or something rose since. */
  lemma {:induction false} OwnIbCoversIff(cfg: Config, clients: seq<Client>, steps: seq<Step>, k: nat, p: Params)
    requires forall i :: 0 <= i < |clients| ==> Settled(clients[i])
    requires var s := OwnRun(cfg, clients, steps); k < |clients| && OwnAllowed(s, Pre(k, p)) && p.enable
    ensures var s := OwnRun(cfg, clients, steps);
      var c, d := s.clients[k], Update(cfg, s.clients, k, p)[k];
      Covers(d.active, c.hw) && Covers(d.active, d.hw) <==> Keeps(c, Requested(cfg, s.clients, k, p), s.low[k])
  {
    hide Covers, PreCommit, UpdateRequired, WithIb, Keeps;
    var s := OwnRun(cfg, clients, steps);
    OwnRunKeeps(cfg, clients, steps);
    assert OwnClient(s.clients[k], s.due[k], s.low[k]);
    OwnRequest(cfg, s.clients, k, p);
    PreCommitCoversIff(s.clients[k], Requested(cfg, s.clients, k, p));
  }

  // The caller's own IB never needs more than the derived one.
  ghost predicate Modest(cfg: Config, s: OwnSys, step: Step)
    requires Sized(s)
  {
    step.Pre? && step.k < |s.clients| ==>
      BwPeak(step.p.data) <= BwPeak(Requested(cfg, s.clients, step.k, step.p).data)
  }

  ghost predicate AllModest(cfg: Config, clients: seq<Client>, steps: seq<Step>) {
    forall n :: 0 <= n < |steps| ==> Modest(cfg, OwnRun(cfg, clients, steps[..n]), steps[n])
  }

  // What a modest caller owes peaks no higher than what is stored.
  ghost predicate ModestClient(c: Client, due: OwnDue, low: bool) {
    !low && (due.Own? ==> Deferred(c.state) ==> BwPeak(due.request.data) <= BwPeak(c.hw))
  }

  lemma ModestPre(c: Client, q: Params, p: Params)
    requires BwPeak(p.data) <= BwPeak(q.data) && !q.postCommit && p.enable
    ensures ModestClient(PreCommit(c, q), Own(p), LowAfter(c, q, false))
  {
  }

  /** A caller whose own IB never exceeds the derived one in peak is never low, so all its updates cover. */
  lemma {:induction false} ModestNeverLow(cfg: Config, clients: seq<Client>, steps: seq<Step>)
    requires AllModest(cfg, clients, steps)
    ensures var s := OwnRun(cfg, clients, steps);
      forall i :: 0 <= i < |s.clients| ==> ModestClient(s.clients[i], s.due[i], s.low[i])
  {
    hide OwnNext, Modest;
    if steps != [] {
      var n := |steps| - 1;
      var before := steps[..n];
      assert Modest(cfg, OwnRun(cfg, clients, steps[..n]), steps[n]);
      assert forall n :: 0 <= n < |before| ==> before[..n] == steps[..n];
      ModestNeverLow(cfg, clients, before);
      ModestNext(cfg, OwnRun(cfg, clients, before), steps[|steps| - 1]);
    }
  }

  lemma {:induction false} ModestNext(cfg: Config, s: OwnSys, step: Step)
    requires Sized(s) && Modest(cfg, s, step)
    requires forall i :: 0 <= i < |s.clients| ==> ModestClient(s.clients[i], s.due[i], s.low[i])
    ensures var r := OwnNext(cfg, s, step);
      forall i :: 0 <= i < |r.clients| ==> ModestClient(r.clients[i], r.due[i], r.low[i])
  {
    hide PreCommit, PostCommit, UpdateRequired, WithIb, LowAfter, BwPeak;
    if OwnAllowed(s, step) {
      assert ModestClient(s.clients[step.k], s.due[step.k], s.low[step.k]);
      match step {
        case Pre(k, p) =>
          OwnRequest(cfg, s.clients, k, p);
          ModestStep(s.clients[k], Requested(cfg, s.clients, k, p), p, s.low[k]);
        case Post(k) =>
      }
    }
  }

  lemma ModestStep(c: Client, q: Params, p: Params, low: bool)
    requires !low && BwPeak(p.data) <= BwPeak(q.data) && !q.postCommit
    ensures ModestClient(PreCommit(c, q), if p.enable then Own(p) else Paid, LowAfter(c, q, low))
  {
    if p.enable {
      ModestPre(c, q, p);
    }
  }

  // The second update given the caller's IB in place of the derived one: the vote for the next request stays
  // below what it needs, and nothing is raised before the commit.
  lemma OwnIbLowersFirst()
    ensures
      var cfg := Config(1, 50, 1000, 1000);
      var c0 := Client(Data(0, 7, 10, 20), true, false, NoChange, Data(0, 7, 10, 20));
      var p1 := Params(Data(0, 7, 5, 100), true, false, false, false);
      var p2 := Params(Data(0, 7, 20, 100), true, false, false, false);
      var s1 := Update(cfg, [c0], 0, p1);
      var s2 := Update(cfg, s1, 0, p1.(postCommit := true));
      var s3 := Update(cfg, s2, 0, p2);
      && Settled(c0) && Settled(s2[0].(hw := s1[0].hw)) && !Settled(s2[0])
      && Requested(cfg, s2, 0, p2).data.bwIb == 40 && BwPeak(s3[0].active) == 10
  {
    var cfg := Config(1, 50, 1000, 1000);
    var c0 := Client(Data(0, 7, 10, 20), true, false, NoChange, Data(0, 7, 10, 20));
    var p1 := Params(Data(0, 7, 5, 100), true, false, false, false);
    var p2 := Params(Data(0, 7, 20, 100), true, false, false, false);
    var q1 := p1.(data := Data(0, 7, 5, 10));
    var d1 := Client(q1.data, true, false, Down, c0.active);
    assert SumBw([c0], 0, 1) == 0 && DerivedIb(cfg, 5) == 10;
    assert Requested(cfg, [c0], 0, p1) == q1;
    assert PreCommit(c0, q1) == d1;
    assert Update(cfg, [c0], 0, p1) == [d1];
    var d2 := Client(p1.data, true, true, Down, q1.data);
    assert PostCommit(d1, p1.(postCommit := true)) == d2;
    assert Update(cfg, [d1], 0, p1.(postCommit := true)) == [d2];
    var q2 := p2.(data := Data(0, 7, 20, 40));
    assert SumBw([d2], 0, 1) == 0 && DerivedIb(cfg, 20) == 40;
    assert Requested(cfg, [d2], 0, p2) == q2;
    assert PreCommit(d2, q2) == Client(q2.data, true, false, Down, q1.data);
  }
}
