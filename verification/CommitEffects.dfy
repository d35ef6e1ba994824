/**
 What the commits leave behind, said without the steps that do it: a swap installs the incoming states, the last
 commit in gate order that names an object decides its state, and the phases run in the driver's order.
 */
module CommitEffects {
  import opened CommitProtocol
  import opened CommitProofs

  // The commit brings a new state for the object.
  ghost predicate Names(r: Request, o: Obj) {
    o in Own(r) && o in r.incoming
  }

  // The j-th commit in gate order is the last to bring one.
  ghost predicate NamesLast(order: seq<Request>, j: int, o: Obj) {
    0 <= j < |order| && Names(order[j], o) && forall i :: j < i < |order| ==> !Names(order[i], o)
  }

  lemma ExecuteSnoc(s: State, labels: seq<Label>, l: Label)
    ensures var t := Execute(s, labels);
      Execute(s, labels + [l]) == if Enabled(t, l) then Apply(t, l) else t
  {
    assert (labels + [l])[..|labels|] == labels;
  }

  /** Right after the swap of a commit, on every run, each object it brings a state for has that state; the state it
      had is the one taken out, and what the hardware was told is as before.  Everything else is as before. */
  lemma SwapInstalls(cells: View, threads: set<nat>, labels: seq<Label>, id: nat, o: Obj)
    requires Enabled(Execute(Initial(cells, threads), labels), Swap(id)) && o in cells
    ensures var s, s' := Execute(Initial(cells, threads), labels), Execute(Initial(cells, threads), labels + [Swap(id)]);
      && o in s.cells && o in s'.cells && s'.cells[o].hw == s.cells[o].hw
      && (Names(s.commits[id].req, o) ==> s'.cells[o].sw == s.commits[id].req.incoming[o] && s'.cells[o].was == s.cells[o].sw)
      && (!Names(s.commits[id].req, o) ==> s'.cells[o] == s.cells[o])
  {
    InvAlways(cells, threads, labels);
    ExecuteSnoc(Initial(cells, threads), labels, Swap(id));
  }

  // ----- Whose state an object has -----

  // The commit's hooks leave the current state of its objects alone.
  ghost predicate KeepsStates(r: Request) {
    forall p, v: View, o {:trigger r.hook(p, v)[o]} :: o in v && o in r.hook(p, v) ==> r.hook(p, v)[o].sw == v[o].sw
  }

  lemma {:induction false} AfterState(r: Request, v: View, n: nat, o: Obj)
    requires 1 <= n <= STEPS && KeepsStates(r) && o in v
    ensures o in After(r, v, n)
    ensures After(r, v, n)[o].sw == if o in r.incoming then r.incoming[o] else v[o].sw
    decreases n
  {
    if n > 1 {
      AfterState(r, v, n - 1, o);
    }
  }

  lemma RunAloneState(r: Request, cells: View, o: Obj)
    requires KeepsStates(r) && o in cells
    ensures o in RunAlone(r, cells)
    ensures RunAlone(r, cells)[o].sw == if Names(r, o) then r.incoming[o] else cells[o].sw
  {
    var v := Restrict(cells, Own(r));
    AfterKeys(r, v, STEPS);
    if o in v {
      AfterState(r, v, STEPS, o);
    }
  }

  lemma {:induction false} SerialUnnamed(cells: View, order: seq<Request>, o: Obj)
    requires o in cells && forall j :: 0 <= j < |order| ==> KeepsStates(order[j]) && !Names(order[j], o)
    ensures o in Serial(cells, order) && Serial(cells, order)[o].sw == cells[o].sw
  {
    hide RunAlone, KeepsStates, Names;
    if order != [] {
      var init := order[..|order| - 1];
      SerialUnnamed(cells, init, o);
      RunAloneState(order[|order| - 1], Serial(cells, init), o);
    }
  }

  lemma {:induction false} SerialNamed(cells: View, order: seq<Request>, j: nat, o: Obj)
    requires o in cells && NamesLast(order, j, o) && forall i :: 0 <= i < |order| ==> KeepsStates(order[i])
    ensures o in Serial(cells, order) && Serial(cells, order)[o].sw == order[j].incoming[o]
    decreases |order|
  {
    hide RunAlone, KeepsStates;
    var init := order[..|order| - 1];
    if j < |init| {
      SerialNamed(cells, init, j, o);
    } else {
      SerialKeys(cells, init);
    }
    RunAloneState(order[|order| - 1], Serial(cells, init), o);
  }

  /** Once no commit holds an object, it has the state brought by the last commit in gate order that names it, and the
      state it started with if none does, whatever the interleaving, for hooks that leave the current states alone. */
  lemma LastNamedWins(cells: View, threads: set<nat>, labels: seq<Label>, o: Obj)
    requires var s := Execute(Initial(cells, threads), labels);
      o in cells && !Owned(s, o) && forall j :: 0 <= j < |s.order| ==> KeepsStates(s.order[j])
    ensures var s := Execute(Initial(cells, threads), labels);
      && o in s.cells
      && ((forall j :: 0 <= j < |s.order| ==> !Names(s.order[j], o)) ==> s.cells[o].sw == cells[o].sw)
      && (forall j :: NamesLast(s.order, j, o) ==> s.cells[o].sw == s.order[j].incoming[o])
  {
    Serializable(cells, threads, labels);
    var order := Execute(Initial(cells, threads), labels).order;
    if forall j :: 0 <= j < |order| ==> !Names(order[j], o) {
      SerialUnnamed(cells, order, o);
    }
    forall j | NamesLast(order, j, o) {
      SerialNamed(cells, order, j, o);
    }
  }

  // ----- The order of the phases -----

  function Digit(p: Phase): int {
    match p
    case WaitFences => 1
    case PrepareCommit => 2
    case ModesetDisables => 3
    case CommitPlanes => 4
    case ModesetEnables => 5
    case WaitCommitDone => 6
    case CleanupPlanes => 7
    case CompleteCommit => 8
  }

  // Each phase leaves its digit on the hardware side of every object it sees.
  ghost predicate Stamps(r: Request) {
    forall p, v: View, o {:trigger o in v, r.hook(p, v)} :: o in v ==>
      o in r.hook(p, v) && r.hook(p, v)[o].hw == 10 * v[o].hw + Digit(p)
  }

  const EXPONENTS: seq<int> := [1, 10, 100, 1000, 10000, 100000, 1000000, 10000000, 100000000]
  const STAMPS: seq<int> := [0, 1, 12, 123, 1234, 12345, 123456, 1234567, 12345678]

  lemma {:induction false} AfterStamps(r: Request, v: View, n: nat, o: Obj)
    requires 1 <= n <= STEPS && Stamps(r) && o in v
    ensures o in After(r, v, n) && After(r, v, n)[o].hw == v[o].hw * EXPONENTS[n - 1] + STAMPS[n - 1]
    decreases n
  {
    if n > 1 {
      AfterStamps(r, v, n - 1, o);
      assert PHASES[n - 2] in PHASES;
    }
  }

  /** Once no commit holds it, an object of the last commit that owned it has gone through the waiting for fences, the
      preparation, the disabling, the planes, the enabling, the wait for the hardware, the clean-up and the completion,
      each once and in this order. */
  lemma PhasesInOrder(cells: View, threads: set<nat>, labels: seq<Label>, o: Obj, j: nat)
    requires var s := Execute(Initial(cells, threads), labels);
      && o in cells && !Owned(s, o) && j < |s.order| && o in Own(s.order[j]) && Stamps(s.order[j])
      && forall i :: j < i < |s.order| ==> o !in Own(s.order[i])
    ensures var s := Execute(Initial(cells, threads), labels);
      o in s.cells && exists before :: s.cells[o].hw == before * 100000000 + 12345678
  {
    hide RunAlone, Stamps, Own, Inv;
    var s := Execute(Initial(cells, threads), labels);
    Serializable(cells, threads, labels);
    SerialKeys(cells, s.order[..j + 1]);
    SerialKeys(cells, s.order[..j]);
    SerialFrame(cells, s.order, j + 1, o);
    assert s.order[..j + 1] == s.order[..j] + [s.order[j]];
    var before := Serial(cells, s.order[..j]);
    SerialSnoc(cells, s.order[..j], s.order[j]);
    RunAloneStamps(s.order[j], before, o);
    assert s.cells[o].hw == before[o].hw * 100000000 + 12345678;
  }

  lemma RunAloneStamps(r: Request, cells: View, o: Obj)
    requires Stamps(r) && o in Own(r) && o in cells
    ensures o in RunAlone(r, cells) && RunAlone(r, cells)[o].hw == cells[o].hw * 100000000 + 12345678
  {
    AfterStamps(r, Restrict(cells, Own(r)), STEPS, o);
  }

  // ----- The gate and the display threads -----

  /** On every run, a waiting commit can pass the gate exactly if it shares no object with a commit in flight. */
  lemma GateOpensIff(cells: View, threads: set<nat>, labels: seq<Label>, id: nat)
    requires var s := Execute(Initial(cells, threads), labels); id in s.commits && s.commits[id].caller == Waiting
    ensures var s := Execute(Initial(cells, threads), labels);
      Enabled(s, Gate(id)) <==> forall f :: Flying(s, f) ==> Own(s.commits[f].req) !! Own(s.commits[id].req)
  {
    InvAlways(cells, threads, labels);
    var s := Execute(Initial(cells, threads), labels);
    var r := s.commits[id].req;
    if Enabled(s, Gate(id)) {
      forall f | Flying(s, f) ensures Own(s.commits[f].req) !! Own(r) {
        OwnDisjoint(s.commits[f].req, r);
      }
    } else {
      var f := SharesWith(s, r);
      assert Flying(s, f);
    }
  }

  lemma SharesWith(s: State, r: Request) returns (f: nat)
    requires MasksPartition(s) && !(s.pendingCrtcs !! r.crtcs && s.pendingPlanes !! r.planes)
    ensures Flying(s, f) && !(Own(s.commits[f].req) !! Own(r))
  {
    if s.pendingCrtcs !! r.crtcs {
      var i :| i in s.pendingPlanes && i in r.planes;
      f :| Flying(s, f) && i in s.commits[f].req.planes;
      assert Plane(i) in Own(s.commits[f].req) && Plane(i) in Own(r);
    } else {
      var i :| i in s.pendingCrtcs && i in r.crtcs;
      f :| Flying(s, f) && i in s.commits[f].req.crtcs;
      assert Crtc(i) in Own(s.commits[f].req) && Crtc(i) in Own(r);
    }
  }

  // The commits the run dispatched to the thread, and those the thread started on, in order.
  ghost function Sent(s: State, labels: seq<Label>, t: nat): seq<nat> {
    if labels == [] then []
    else
      var l := labels[|labels| - 1];
      Sent(s, labels[..|labels| - 1], t)
      + if l.Dispatch? && l.target == Thread(t) && Enabled(Execute(s, labels[..|labels| - 1]), l) then [l.id] else []
  }

  ghost function Started(s: State, labels: seq<Label>, t: nat): seq<nat> {
    if labels == [] then []
    else
      var before := Execute(s, labels[..|labels| - 1]);
      Started(s, labels[..|labels| - 1], t) 
      + if t !in before.busy && t in Execute(s, labels).busy then [Execute(s, labels).busy[t]] else []
  }

  lemma QueueStep(s: State, l: Label, t: nat)
    requires t in s.queues && Enabled(s, l)
    ensures var s' := Apply(s, l);
      && t in s'.queues
      && s.queues[t] + (if l.Dispatch? && l.target == Thread(t) then [l.id] else [])
         == (if t !in s.busy && t in s'.busy then [s'.busy[t]] else []) + s'.queues[t]
  {
    hide Moved, Written;
  }

  /** On every run, a display thread starts on the commits sent to it in the order they were sent; those it has not
      started on are in its queue. */
  lemma {:induction false} ThreadsKeepOrder(cells: View, threads: set<nat>, labels: seq<Label>, t: nat)
    requires t in threads
    ensures var s := Execute(Initial(cells, threads), labels);
      t in s.queues && Sent(Initial(cells, threads), labels, t) == Started(Initial(cells, threads), labels, t) + s.queues[t]
  {
    hide Apply, Enabled;
    if labels != [] {
      var start, init, l := Initial(cells, threads), labels[..|labels| - 1], labels[|labels| - 1];
      var s := Execute(start, init);
      ThreadsKeepOrder(cells, threads, init, t);
      if Enabled(s, l) {
        QueueStep(s, l, t);
        var q := Execute(start, labels).queues[t];
        var more := if t !in s.busy && t in Execute(start, labels).busy then [Execute(start, labels).busy[t]] else [];
        assert (Started(start, init, t) + more) + q == Started(start, init, t) + (more + q);
      } else {
        assert Sent(start, labels, t) == Sent(start, init, t) && Started(start, labels, t) == Started(start, init, t);
      }
    }
  }
}
