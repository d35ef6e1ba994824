/**
 Every commit that passes the gate comes to its end: each step that is not a new commit takes something
 off what is left to do, and while a commit is not over some such step is possible.
 */
module CommitProgress {
  import opened CommitProtocol
  import opened CommitProofs

  ghost predicate Over(c: Commit) {
    c.caller == Interrupted || (c.caller == Returned && c.work == Finished)
  }

  // A commit that holds its bits can move, or the worker it waits for can.
  lemma {:induction false} FlyingCanMove(s: State, cells: View, id: nat) returns (l: Label)
    requires Inv(s, cells) && Flying(s, id)
    ensures Enabled(s, l) && !l.Submit? && !l.Interrupt?
  {
    var c := s.commits[id];
    assert Lifecycle(c);
    match c.work {
      case Queued(t) =>
        if t in s.busy {
          var b := s.busy[t];
          assert Lifecycle(s.commits[b]);
          l := if s.commits[b].work == Cleared then FinishWork(b)
               else if s.commits[b].work.done == |PHASES| then ClearBits(b) else DoPhase(b);
        } else {
          assert id in s.queues[t];
          l := StartWork(t);
        }
      case Running(k) => l := if k == |PHASES| then ClearBits(id) else DoPhase(id);
      case _ => l := if c.caller == Gated then Swap(id) else Dispatch(id, Fallback);
    }
  }

  /** No deadlock: while some commit is not over, some step other than a new commit or a failed wait can fire. */
  lemma {:induction false} CanMove(s: State, cells: View, id: nat) returns (l: Label)
    requires Inv(s, cells) && id in s.commits && !Over(s.commits[id])
    ensures Enabled(s, l) && !l.Submit? && !l.Interrupt?
  {
    hide SerialSoFar, SlotsExact, Own;
    var c := s.commits[id];
    assert Lifecycle(c);
    if Flying(s, id) {
      l := FlyingCanMove(s, cells, id);
    } else if c.caller == Waiting {
      if Enabled(s, Gate(id)) {
        l := Gate(id);
      } else if i :| i in s.pendingCrtcs && i in c.req.crtcs {
        var h :| Flying(s, h) && i in s.commits[h].req.crtcs;
        l := FlyingCanMove(s, cells, h);
      } else {
        var i :| i in s.pendingPlanes && i in c.req.planes;
        var h :| Flying(s, h) && i in s.commits[h].req.planes;
        l := FlyingCanMove(s, cells, h);
      }
    } else {
      l := if c.work == Cleared then FinishWork(id) else CallerDone(id);
    }
  }

  // ----- What is left to do -----

  ghost function CallerLeft(c: Caller): nat {
    match c
    case Waiting => 4
    case Gated => 3
    case Swapped => 2
    case Completing => 1
    case Flushing => 1
    case Returned => 0
    case Interrupted => 0
  }

  ghost function WorkLeft(w: Work): nat {
    match w
    case Idle => |PHASES| + 5
    case Queued(_) => |PHASES| + 4
    case Running(k) => if k <= |PHASES| then |PHASES| - k + 3 else 3
    case Cleared => 2
    case Finished => 0
  }

  // The steps of the caller and of the work item that a commit has before it, at most.
  ghost function Left(c: Commit): nat {
    if c.caller == Interrupted then 0 else CallerLeft(c.caller) + WorkLeft(c.work)
  }

  ghost function Total(commits: map<nat, Commit>): nat
    decreases |commits|
  {
    if commits == map[] then 0
    else
      var id :| id in commits;
      assert |commits - {id}| < |commits| by { Smaller(commits, id); }
      Left(commits[id]) + Total(commits - {id})
  }

  lemma Smaller(commits: map<nat, Commit>, id: nat)
    requires id in commits
    ensures |commits - {id}| < |commits|
  {
    assert (commits - {id}).Keys == commits.Keys - {id};
    assert |(commits - {id}).Keys| == |commits - {id}| && |commits.Keys| == |commits|;
  }

  // Whichever commit is taken out first.
  lemma {:induction false} TotalWithout(commits: map<nat, Commit>, id: nat)
    requires id in commits
    ensures Total(commits) == Left(commits[id]) + Total(commits - {id})
    decreases |commits|
  {
    hide Left;
    var first :| first in commits && Total(commits) == Left(commits[first]) + Total(commits - {first});
    if first != id {
      Smaller(commits, first);
      TotalWithout(commits - {first}, id);
      Smaller(commits, id);
      TotalWithout(commits - {id}, first);
      assert commits - {first} - {id} == commits - {id} - {first};
    }
  }

  // A step other than a new commit takes something off what its commit has left.
  lemma {:induction false} ActorAdvances(s: State, l: Label, cells: View)
    requires Bounded(s, cells) && QueuesExact(s) && Enabled(s, l) && !l.Submit?
    ensures Actor(s, l) in s.commits && Left(Moved(s, l)) < Left(s.commits[Actor(s, l)])
  {
    ActorStep(s, l, cells);
  }

  lemma {:induction false} StepAdvances(s: State, l: Label, cells: View)
    requires Bounded(s, cells) && QueuesExact(s) && Enabled(s, l) && !l.Submit?
    ensures Total(Apply(s, l).commits) < Total(s.commits)
  {
    hide Bounded, QueuesExact, Moved, Enabled, Left;
    ActorAdvances(s, l, cells);
    var a, s' := Actor(s, l), Apply(s, l);
    TotalWithout(s.commits, a);
    TotalWithout(s'.commits, a);
    assert s'.commits - {a} == s.commits - {a};
  }

  // ----- Runs without new commits -----

  // Each of the labels fires in turn, and none is a new commit.
  ghost predicate Fires(s: State, labels: seq<Label>) {
    labels == [] ||
    var t := Execute(s, labels[..|labels| - 1]);
    var l := labels[|labels| - 1];
    Fires(s, labels[..|labels| - 1]) && Enabled(t, l) && !l.Submit?
  }

  // Nothing but a new commit is possible.
  ghost predicate Quiescent(s: State) {
    forall l :: Enabled(s, l) ==> l.Submit?
  }

  ghost predicate PassedGate(c: Commit) {
    c.caller != Waiting && c.caller != Interrupted
  }

  // Every commit that passed the gate was completed once and freed once, and every other only freed.
  ghost predicate AllOver(s: State) {
    forall id :: id in s.commits ==>
      var c := s.commits[id];
      && c.caller != Waiting && c.badTouches == 0 && c.frees == 1
      && c.completions == if PassedGate(c) then 1 else 0
  }

  // The commits of s are there in t, and those that passed the gate still have.
  ghost predicate Onward(s: State, t: State) {
    forall id :: id in s.commits ==> id in t.commits && (PassedGate(s.commits[id]) ==> PassedGate(t.commits[id]))
  }

  lemma {:induction false} FiresAdvances(s: State, labels: seq<Label>, cells: View)
    requires Inv(s, cells) && Fires(s, labels)
    ensures Inv(Execute(s, labels), cells) && Total(Execute(s, labels).commits) + |labels| <= Total(s.commits)
    ensures Onward(s, Execute(s, labels))
  {
    hide Inv, Enabled, Apply, Total;
    if labels != [] {
      var l, rest := labels[|labels| - 1], labels[..|labels| - 1];
      FiresAdvances(s, rest, cells);
      Advances(Execute(s, rest), l, cells);
    }
  }

  lemma Advances(s: State, l: Label, cells: View)
    requires Inv(s, cells) && Enabled(s, l) && !l.Submit?
    ensures Inv(Apply(s, l), cells) && Total(Apply(s, l).commits) < Total(s.commits) && Onward(s, Apply(s, l))
  {
    InvStep(s, l, cells);
    StepAdvances(s, l, cells);
  }

  lemma {:induction false} QuiescentIsOver(s: State, cells: View)
    requires Inv(s, cells) && Quiescent(s)
    ensures AllOver(s)
  {
    hide SerialSoFar, SlotsExact, Own, Enabled;
    forall id | id in s.commits
      ensures Over(s.commits[id]) && Lifecycle(s.commits[id])
    {
      if !Over(s.commits[id]) {
        var l := CanMove(s, cells, id);
      }
    }
  }

  /** Without new commits every run comes to an end: it has at most as many steps as were left, and when no
      step is possible every commit that passed the gate was completed exactly once and freed exactly once. */
  lemma {:induction false} RunsEnd(cells: View, threads: set<nat>, labels: seq<Label>, more: seq<Label>)
    requires Fires(Execute(Initial(cells, threads), labels), more)
    ensures var s := Execute(Initial(cells, threads), labels);
      && |more| <= Total(s.commits) && Onward(s, Execute(s, more))
      && (Quiescent(Execute(s, more)) ==> AllOver(Execute(s, more)))
  {
    hide Inv, Execute, Quiescent, AllOver, Fires;
    var s := Execute(Initial(cells, threads), labels);
    InvAlways(cells, threads, labels);
    FiresAdvances(s, more, cells);
    if Quiescent(Execute(s, more)) {
      QuiescentIsOver(Execute(s, more), cells);
    }
  }

  // A run that can go on goes on to its end.
  lemma {:induction false} RunsOn(s: State, cells: View, sofar: seq<Label>) returns (more: seq<Label>)
    requires Inv(s, cells) && Fires(s, sofar)
    ensures sofar <= more && Fires(s, more) && Quiescent(Execute(s, more)) && AllOver(Execute(s, more))
    decreases Total(Execute(s, sofar).commits)
  {
    hide Inv, Enabled, Apply, Total, AllOver;
    FiresAdvances(s, sofar, cells);
    var t := Execute(s, sofar);
    if Quiescent(t) {
      QuiescentIsOver(t, cells);
      more := sofar;
    } else {
      var l :| Enabled(t, l) && !l.Submit?;
      var longer := sofar + [l];
      assert longer[..|longer| - 1] == sofar;
      Advances(t, l, cells);
      more := RunsOn(s, cells, longer);
    }
  }

  /** From every state that a run reaches, and however it goes on without new commits, it gets to a point at which
      every commit that passed the gate was completed exactly once and freed exactly once. */
  lemma {:induction false} CommitsEnd(cells: View, threads: set<nat>, labels: seq<Label>, sofar: seq<Label>)
      returns (more: seq<Label>)
    requires Fires(Execute(Initial(cells, threads), labels), sofar)
    ensures var s := Execute(Initial(cells, threads), labels);
      && sofar <= more && Fires(s, more) && |more| <= Total(s.commits)
      && Onward(s, Execute(s, more)) && AllOver(Execute(s, more))
  {
    hide Inv, Execute, Quiescent, AllOver, Fires;
    InvAlways(cells, threads, labels);
    more := RunsOn(Execute(Initial(cells, threads), labels), cells, sofar);
    RunsEnd(cells, threads, labels, more);
  }
}
