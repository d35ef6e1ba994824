/**
 Safety of the atomic commit protocol over every interleaving of any number of commits:
 the pending masks partition among the commits in flight, the outcome is the one of running the
 commits one at a time in gate order, each commit is completed and freed exactly once, and no
 reachable state is stuck.
 */
module CommitProofs {
  import opened CommitProtocol

  // ----- Facts about one commit -----

  lemma OwnDisjoint(a: Request, b: Request)
    requires Disjoint(a, b)
    ensures Own(a) !! Own(b)
  {
  }

  lemma {:induction false} AfterKeys(r: Request, v: View, n: nat)
    requires n <= STEPS
    ensures After(r, v, n).Keys == v.Keys
    decreases n
  {
    if n > 1 {
      AfterKeys(r, v, n - 1);
    }
  }

  lemma {:induction false} SerialKeys(cells: View, order: seq<Request>)
    ensures Serial(cells, order).Keys == cells.Keys
  {
    if order != [] {
      var r := order[|order| - 1];
      var before := Serial(cells, order[..|order| - 1]);
      SerialKeys(cells, order[..|order| - 1]);
      AfterKeys(r, Restrict(before, Own(r)), STEPS);
    }
  }

  lemma SerialSnoc(cells: View, order: seq<Request>, r: Request)
    ensures Serial(cells, order + [r]) == RunAlone(r, Serial(cells, order))
  {
    assert (order + [r])[..|order|] == order;
  }

  // A commit leaves alone what it does not own.
  lemma RunAloneFrame(r: Request, cells: View, o: Obj)
    requires o in cells && o !in Own(r)
    ensures o in RunAlone(r, cells) && RunAlone(r, cells)[o] == cells[o]
  {
    AfterKeys(r, Restrict(cells, Own(r)), STEPS);
  }

  // Commits gated later that share nothing with `o` do not change it in the serial run.
  lemma {:induction false} SerialFrame(cells: View, order: seq<Request>, n: nat, o: Obj)
    requires n <= |order| && o in Serial(cells, order[..n])
    requires forall j :: n <= j < |order| ==> o !in Own(order[j])
    ensures o in Serial(cells, order) && Serial(cells, order)[o] == Serial(cells, order[..n])[o]
    decreases |order|
  {
    if n == |order| {
      assert order[..n] == order;
    } else {
      var shorter := order[..|order| - 1];
      assert shorter[..n] == order[..n];
      SerialFrame(cells, shorter, n, o);
      RunAloneFrame(order[|order| - 1], Serial(cells, shorter), o);
    }
  }

  // ----- The invariant -----

  // The stages of one commit structure, with what has happened to it at each.
  ghost predicate Lifecycle(c: Commit) {
    && c.badTouches == 0
    && c.completions == (if c.work == Cleared || c.work == Finished then 1 else 0)
    && c.frees == (if c.caller == Interrupted || (c.work == Finished && (c.req.nonblock || c.caller == Returned))
                   then 1 else 0)
    && (match c.caller
        case Waiting => c.work == Idle
        case Interrupted => c.work == Idle
        case Gated => c.work == Idle
        case Swapped => c.work == Idle
        case Completing => c.work.Running? || c.work == Cleared || c.work == Finished
        case Flushing => !c.req.nonblock && c.work != Idle
        case Returned => c.work != Idle && (!c.req.nonblock ==> c.work == Finished))
    && (c.work.Running? ==> c.work.done <= |PHASES|)
  }

  ghost predicate Flying(s: State, id: nat) {
    id in s.commits && InFlight(s.commits[id])
  }

  ghost predicate Owned(s: State, o: Obj) {
    exists id :: Flying(s, id) && o in Own(s.commits[id].req)
  }

  // The masks are the union of the in-flight commits' masks, and those are pairwise disjoint.
  ghost predicate MasksPartition(s: State) {
    && (forall id :: Flying(s, id) ==>
          s.commits[id].req.crtcs <= s.pendingCrtcs && s.commits[id].req.planes <= s.pendingPlanes)
    && (forall i :: i in s.pendingCrtcs ==> exists id :: Flying(s, id) && i in s.commits[id].req.crtcs)
    && (forall i :: i in s.pendingPlanes ==> exists id :: Flying(s, id) && i in s.commits[id].req.planes)
    && (forall a, b :: Flying(s, a) && Flying(s, b) && a != b ==> Disjoint(s.commits[a].req, s.commits[b].req))
  }

  // An in-flight commit sits in the gate order, and nothing gated after it shares its objects.
  ghost predicate SlotsExact(s: State) {
    forall id :: Flying(s, id) ==>
      var c := s.commits[id];
      && c.slot < |s.order| && s.order[c.slot] == c.req
      && (forall j :: c.slot < j < |s.order| ==> Disjoint(s.order[j], c.req))
  }

  ghost predicate Bounded(s: State, cells: View) {
    && s.cells.Keys == cells.Keys
    && (forall id :: id in s.commits ==> Own(s.commits[id].req) <= cells.Keys && Lifecycle(s.commits[id]))
    && (forall j :: 0 <= j < |s.order| ==> Own(s.order[j]) <= cells.Keys)
  }

  // Where an in-flight commit's objects must be: its own steps applied to the serial prefix.
  ghost function Expected(s: State, cells: View, c: Commit): View
    requires c.slot <= |s.order| && Progress(c) <= STEPS
  {
    After(c.req, Restrict(Serial(cells, s.order[..c.slot]), Own(c.req)), Progress(c))
  }

  ghost predicate HeldExact(s: State, cells: View)
    requires Bounded(s, cells) && SlotsExact(s)
  {
    forall id :: Flying(s, id) ==>
      Restrict(s.cells, Own(s.commits[id].req)) == Expected(s, cells, s.commits[id])
  }

  // Where every other object must be: at the outcome of the whole serial run so far.
  ghost predicate FreeExact(s: State, cells: View) {
    forall o :: o in s.cells && !Owned(s, o) ==>
      o in Serial(cells, s.order) && s.cells[o] == Serial(cells, s.order)[o]
  }

  ghost predicate SerialSoFar(s: State, cells: View)
    requires Bounded(s, cells) && SlotsExact(s)
  {
    HeldExact(s, cells) && FreeExact(s, cells)
  }

  // Work queues: a queued commit is in exactly its thread's queue, and a busy thread runs its commit.
  ghost predicate QueuesExact(s: State) {
    && (forall t, k :: t in s.queues && 0 <= k < |s.queues[t]| ==>
          s.queues[t][k] in s.commits && s.commits[s.queues[t][k]].work == Queued(t))
    && (forall t, j, k :: t in s.queues && 0 <= j < k < |s.queues[t]| ==> s.queues[t][j] != s.queues[t][k])
    && (forall id :: id in s.commits && s.commits[id].work.Queued? ==>
          s.commits[id].work.thread in s.queues && id in s.queues[s.commits[id].work.thread])
    && (forall t :: t in s.busy ==>
          && t in s.queues && s.busy[t] in s.commits
          && (s.commits[s.busy[t]].work.Running? || s.commits[s.busy[t]].work == Cleared))
  }

  ghost predicate Inv(s: State, cells: View) {
    Bounded(s, cells) && MasksPartition(s) && SlotsExact(s) && SerialSoFar(s, cells) && QueuesExact(s)
  }

  // ----- Preservation, part by part -----

  // The commit that moves keeps its lifecycle, and is in flight afterwards as the label says.
  lemma ActorStep(s: State, l: Label, cells: View)
    requires Bounded(s, cells) && QueuesExact(s) && Enabled(s, l)
    ensures Lifecycle(Moved(s, l)) && Own(Moved(s, l).req) <= cells.Keys
    ensures !l.Submit? ==> Actor(s, l) in s.commits && Moved(s, l).req == s.commits[Actor(s, l)].req
    ensures l.Submit? ==> Actor(s, l) !in s.commits
    ensures InFlight(Moved(s, l)) <==> (Flying(s, Actor(s, l)) && !l.ClearBits?) || l.Gate?
    ensures l.Gate? || l.Submit? || Moved(s, l).slot == s.commits[Actor(s, l)].slot
    ensures !l.Submit? ==> Lifecycle(s.commits[Actor(s, l)])
    ensures l.StartWork? ==> s.commits[Actor(s, l)].work == Queued(l.thread)
    ensures Flying(s, Actor(s, l)) && InFlight(Moved(s, l)) ==>
      Progress(Moved(s, l)) == Progress(s.commits[Actor(s, l)]) + (if l.Swap? || l.DoPhase? then 1 else 0)
  {
    if !l.Submit? {
      assert Actor(s, l) in s.commits && Lifecycle(s.commits[Actor(s, l)]);
      if l.StartWork? {
        assert s.commits[s.queues[l.thread][0]].work == Queued(l.thread);
      }
    }
  }

  lemma {:induction false} BoundedStep(s: State, l: Label, cells: View)
    requires Bounded(s, cells) && QueuesExact(s) && Enabled(s, l)
    ensures Bounded(Apply(s, l), cells)
  {
    hide Lifecycle, QueuesExact, Moved;
    ActorStep(s, l, cells);
    var s' := Apply(s, l);
    assert Written(s, l).Keys <= s.cells.Keys;
    assert s'.cells.Keys == cells.Keys;
  }

  lemma FlyingStep(s: State, l: Label, cells: View, id: nat)
    requires Bounded(s, cells) && QueuesExact(s) && Enabled(s, l)
    ensures Flying(Apply(s, l), id) <==> (Flying(s, id) && l != ClearBits(id)) || l == Gate(id)
    ensures Flying(Apply(s, l), id) ==>
      id in s.commits && Apply(s, l).commits[id].req == s.commits[id].req
    ensures Flying(Apply(s, l), id) && l != Gate(id) ==> Apply(s, l).commits[id].slot == s.commits[id].slot
  {
    hide Lifecycle, Own, Written;
    ActorStep(s, l, cells);
  }

  lemma MasksStep(s: State, l: Label, cells: View)
    requires Bounded(s, cells) && QueuesExact(s) && MasksPartition(s) && Enabled(s, l)
    ensures MasksPartition(Apply(s, l))
  {
    var s' := Apply(s, l);
    forall id ensures Flying(s', id) <==> (Flying(s, id) && l != ClearBits(id)) || l == Gate(id)
      ensures Flying(s', id) ==> id in s.commits && s'.commits[id].req == s.commits[id].req
    {
      FlyingStep(s, l, cells, id);
    }
    MasksFollow(s, s', l);
  }

  // The masks change by the mask of the commit that enters or leaves flight.
  // The masks and the commits in flight of s' are those of s after the step l.
  ghost predicate Follows(s: State, s': State, l: Label) {
    && (l.Gate? || l.ClearBits? ==> l.id in s.commits)
    && (l.ClearBits? ==> Flying(s, l.id))
    && s'.pendingCrtcs == (if l.Gate? then s.pendingCrtcs + s.commits[l.id].req.crtcs
                           else if l.ClearBits? then s.pendingCrtcs - s.commits[l.id].req.crtcs else s.pendingCrtcs)
    && s'.pendingPlanes == (if l.Gate? then s.pendingPlanes + s.commits[l.id].req.planes
                            else if l.ClearBits? then s.pendingPlanes - s.commits[l.id].req.planes else s.pendingPlanes)
    && (forall id :: Flying(s', id) <==> (Flying(s, id) && l != ClearBits(id)) || l == Gate(id))
    && (forall id :: Flying(s', id) ==> id in s.commits && s'.commits[id].req == s.commits[id].req)
  }

  lemma CrtcsFollow(s: State, s': State, l: Label, i: nat)
    requires MasksPartition(s) && Follows(s, s', l) && i in s'.pendingCrtcs
    ensures exists id :: Flying(s', id) && i in s'.commits[id].req.crtcs
  {
    hide Disjoint;
    if i in s.pendingCrtcs {
      var id :| Flying(s, id) && i in s.commits[id].req.crtcs;
      assert Flying(s', id);
    } else {
      assert Flying(s', l.id);
    }
  }

  lemma PlanesFollow(s: State, s': State, l: Label, i: nat)
    requires MasksPartition(s) && Follows(s, s', l) && i in s'.pendingPlanes
    ensures exists id :: Flying(s', id) && i in s'.commits[id].req.planes
  {
    hide Disjoint;
    if i in s.pendingPlanes {
      var id :| Flying(s, id) && i in s.commits[id].req.planes;
      assert Flying(s', id);
    } else {
      assert Flying(s', l.id);
    }
  }

  lemma PairFollows(s: State, s': State, l: Label, a: nat, b: nat)
    requires MasksPartition(s) && Enabled(s, l) && Follows(s, s', l) && Flying(s', a) && Flying(s', b) && a != b
    ensures Disjoint(s'.commits[a].req, s'.commits[b].req)
  {
  }

  lemma OneFollows(s: State, s': State, l: Label, a: nat)
    requires MasksPartition(s) && Enabled(s, l) && Follows(s, s', l) && Flying(s', a)
    ensures s'.commits[a].req.crtcs <= s'.pendingCrtcs && s'.commits[a].req.planes <= s'.pendingPlanes
  {
  }

  lemma MasksFollow(s: State, s': State, l: Label)
    requires MasksPartition(s) && Enabled(s, l) && Follows(s, s', l)
    ensures MasksPartition(s')
  {
    hide Follows, Enabled, Disjoint, Flying;
    forall a | Flying(s', a) {
      OneFollows(s, s', l, a);
    }
    forall a, b | Flying(s', a) && Flying(s', b) && a != b {
      PairFollows(s, s', l, a, b);
    }
    forall i | i in s'.pendingCrtcs {
      CrtcsFollow(s, s', l, i);
    }
    forall i | i in s'.pendingPlanes {
      PlanesFollow(s, s', l, i);
    }
  }

  lemma {:induction false} SlotsStep(s: State, l: Label, cells: View)
    requires Bounded(s, cells) && QueuesExact(s) && MasksPartition(s) && SlotsExact(s) && Enabled(s, l)
    ensures SlotsExact(Apply(s, l))
  {
    var s' := Apply(s, l);
    ActorStep(s, l, cells);
    forall id | Flying(s', id)
      ensures s'.commits[id].slot < |s'.order| && s'.order[s'.commits[id].slot] == s'.commits[id].req
      ensures forall j :: s'.commits[id].slot < j < |s'.order| ==> Disjoint(s'.order[j], s'.commits[id].req)
    {
      FlyingStep(s, l, cells, id);
      if l != Gate(id) {
        var c := s.commits[id];
        assert Flying(s, id) && s.order[c.slot] == c.req;
        forall j | c.slot < j < |s'.order| ensures Disjoint(s'.order[j], c.req) {
          if j < |s.order| {
            assert Disjoint(s.order[j], c.req);
          }
        }
      }
    }
  }

  // Queues other than the one the step pushes to or pops from are the same.
  lemma {:induction false} QueuesStep(s: State, l: Label, cells: View)
    requires Bounded(s, cells) && QueuesExact(s) && Enabled(s, l)
    ensures QueuesExact(Apply(s, l))
  {
    ActorStep(s, l, cells);
    if l.StartWork? {
      PopStep(s, l.thread, cells);
    } else if l.Dispatch? && l.target.Thread? {
      PushStep(s, l.id, l.target.thread, cells);
    } else {
      KeepQueues(s, Apply(s, l), l);
    }
  }

  // A step that is neither a push nor a pop moves only commits outside the queues.
  lemma KeepQueues(s: State, s': State, l: Label)
    requires QueuesExact(s) && Enabled(s, l) && !l.StartWork? && !(l.Dispatch? && l.target.Thread?)
    requires s'.queues == s.queues && s'.commits == s.commits[l.id := Moved(s, l)]
    requires s'.busy == if l.FinishWork? then map t | t in s.busy && s.busy[t] != l.id :: s.busy[t] else s.busy
    requires l.id in s.commits ==> Lifecycle(s.commits[l.id])
    requires !Moved(s, l).work.Queued? || (l.CallerDone? && l.id in s.commits)
    ensures QueuesExact(s')
  {
    var c' := Moved(s, l);
    assert l.id in s.commits ==> !s.commits[l.id].work.Queued?;
    forall t, k | t in s'.queues && 0 <= k < |s'.queues[t]|
      ensures s'.queues[t][k] in s'.commits && s'.commits[s'.queues[t][k]].work == Queued(t)
    {
      assert s.commits[s.queues[t][k]].work == Queued(t);
    }
    forall t | t in s'.busy
      ensures t in s'.queues && s'.busy[t] in s'.commits
      ensures s'.commits[s'.busy[t]].work.Running? || s'.commits[s'.busy[t]].work == Cleared
    {
      assert t in s.queues && s.busy[t] in s.commits;
      assert s.commits[s.busy[t]].work.Running? || s.commits[s.busy[t]].work == Cleared;
    }
  }

  lemma PopStep(s: State, t: nat, cells: View)
    requires Bounded(s, cells) && QueuesExact(s) && Enabled(s, StartWork(t))
    ensures QueuesExact(Apply(s, StartWork(t)))
  {
    hide Lifecycle, Own, Written;
    var s' := Apply(s, StartWork(t));
    ActorStep(s, StartWork(t), cells);
    var h := s.queues[t][0];
    forall u, k | u in s'.queues && 0 <= k < |s'.queues[u]|
      ensures s'.queues[u][k] in s'.commits && s'.commits[s'.queues[u][k]].work == Queued(u)
    {
      var j := if u == t then k + 1 else k;
      assert s'.queues[u][k] == s.queues[u][j];
      assert s.commits[s.queues[u][j]].work == Queued(u);
    }
    forall id | id in s'.commits && s'.commits[id].work.Queued?
      ensures s'.commits[id].work.thread in s'.queues && id in s'.queues[s'.commits[id].work.thread]
    {
      if s.commits[id].work.thread == t {
        var k :| 0 <= k < |s.queues[t]| && s.queues[t][k] == id;
        assert s'.queues[t][k - 1] == id;
      }
    }
  }

  lemma PushStep(s: State, id: nat, t: nat, cells: View)
    requires Bounded(s, cells) && QueuesExact(s) && Enabled(s, Dispatch(id, Thread(t)))
    ensures QueuesExact(Apply(s, Dispatch(id, Thread(t))))
  {
    hide Lifecycle, Own, Written;
    var s' := Apply(s, Dispatch(id, Thread(t)));
    ActorStep(s, Dispatch(id, Thread(t)), cells);
    var q := s.queues[t];
    forall u, k | u in s.queues && 0 <= k < |s.queues[u]| ensures s.queues[u][k] != id {
      assert s.commits[s.queues[u][k]].work == Queued(u);
    }
    forall i | i in s'.commits && s'.commits[i].work.Queued?
      ensures s'.commits[i].work.thread in s'.queues && i in s'.queues[s'.commits[i].work.thread]
    {
      if i == id {
        assert s'.queues[t][|q|] == id;
      } else if s.commits[i].work.thread == t {
        var k :| 0 <= k < |q| && q[k] == i;
        assert s'.queues[t][k] == i;
      }
    }
  }

  // ----- Serial order -----

  lemma OwnedBy(s: State, id: nat, o: Obj)
    requires Flying(s, id) && o in Own(s.commits[id].req)
    ensures Owned(s, o)
  {
  }

  // Objects held by two commits in flight are distinct.
  lemma NotShared(s: State, a: nat, b: nat)
    requires MasksPartition(s) && Flying(s, a) && Flying(s, b) && a != b
    ensures Own(s.commits[a].req) !! Own(s.commits[b].req)
  {
    OwnDisjoint(s.commits[a].req, s.commits[b].req);
  }

  // The object is free before the step if it is free after it, unless the step clears its holder.
  lemma {:induction false} StillFree(s: State, l: Label, cells: View, o: Obj)
    requires Inv(s, cells) && Enabled(s, l) && !Owned(Apply(s, l), o)
    ensures Owned(s, o) ==> l.ClearBits? && o in Own(s.commits[l.id].req)
    ensures l.Gate? ==> o !in Own(s.commits[l.id].req)
  {
    var s' := Apply(s, l);
    if l.Gate? && o in Own(s.commits[l.id].req) {
      FlyingStep(s, l, cells, l.id);
      OwnedBy(s', l.id, o);
    }
    if Owned(s, o) {
      var i :| Flying(s, i) && o in Own(s.commits[i].req);
      FlyingStep(s, l, cells, i);
      if Flying(s', i) {
        OwnedBy(s', i, o);
      }
    }
  }

  // What a step other than the gate does to a commit in flight on both sides of it.
  lemma HolderMoves(s: State, l: Label, cells: View, id: nat)
    requires Bounded(s, cells) && QueuesExact(s) && Enabled(s, l) && !l.Gate? && Flying(Apply(s, l), id)
    ensures Flying(s, id) && Lifecycle(s.commits[id])
    ensures Apply(s, l).commits[id].req == s.commits[id].req && Apply(s, l).commits[id].slot == s.commits[id].slot
    ensures Progress(Apply(s, l).commits[id])
         == Progress(s.commits[id]) + (if l == Swap(id) || l == DoPhase(id) then 1 else 0)
    ensures l.Swap? || l.DoPhase? ==> Flying(s, l.id) && Lifecycle(s.commits[l.id])
  {
    FlyingStep(s, l, cells, id);
    ActorStep(s, l, cells);
  }

  // A commit in flight on both sides of a step has exactly the objects its progress calls for.
  lemma HolderStep(s: State, l: Label, cells: View, id: nat)
    requires Bounded(s, cells) && QueuesExact(s) && MasksPartition(s) && SlotsExact(s) && HeldExact(s, cells)
    requires Enabled(s, l) && !l.Gate? && Flying(Apply(s, l), id)
    ensures var c' := Apply(s, l).commits[id];
      && c'.slot <= |s.order| && Progress(c') <= STEPS
      && Restrict(Apply(s, l).cells, Own(c'.req))
         == After(c'.req, Restrict(Serial(cells, s.order[..c'.slot]), Own(c'.req)), Progress(c'))
  {
    HolderMoves(s, l, cells, id);
    var c := s.commits[id];
    assert Restrict(s.cells, Own(c.req)) == Expected(s, cells, c);
    HolderCells(s, l, c.req, Restrict(Serial(cells, s.order[..c.slot]), Own(c.req)), id);
  }

  lemma HolderCells(s: State, l: Label, r: Request, start: View, id: nat)
    requires Enabled(s, l) && !l.Gate? && Flying(s, id) && s.commits[id].req == r && Lifecycle(s.commits[id])
    requires MasksPartition(s) && Own(r) <= s.cells.Keys
    requires l.Swap? || l.DoPhase? ==> Flying(s, l.id)
    requires l.DoPhase? ==> Lifecycle(s.commits[l.id])
    requires Restrict(s.cells, Own(r)) == After(r, start, Progress(s.commits[id]))
    ensures var more := if l == Swap(id) || l == DoPhase(id) then 1 else 0;
      && Progress(s.commits[id]) + more <= STEPS
      && Restrict(s.cells + Written(s, l), Own(r)) == After(r, start, Progress(s.commits[id]) + more)
  {
    if l == Swap(id) || l == DoPhase(id) {
      OwnWrites(s, l, r, start, Progress(s.commits[id]));
    } else {
      if l.Swap? || l.DoPhase? {
        NotShared(s, l.id, id);
      }
      KeepsRestriction(s, l, Own(r));
    }
  }

  // The commit's own step rewrites exactly its objects, one step further on.
  lemma OwnWrites(s: State, l: Label, r: Request, start: View, done: nat)
    requires Enabled(s, l) && (l.Swap? || l.DoPhase?) && s.commits[l.id].req == r
    requires done == if l.Swap? then 0 else 1 + s.commits[l.id].work.done
    requires Own(r) <= s.cells.Keys && Restrict(s.cells, Own(r)) == After(r, start, done)
    ensures Restrict(s.cells + Written(s, l), Own(r)) == After(r, start, done + 1)
  {
    var v := Restrict(s.cells, Own(r));
    assert v.Keys == Own(r);
    var w := Written(s, l);
    assert w == After(r, start, done + 1);
    assert w.Keys == Own(r);
    assert Restrict(s.cells + w, Own(r)) == w;
  }

  lemma KeepsRestriction(s: State, l: Label, objs: set<Obj>)
    requires Enabled(s, l)
    requires l.Swap? || l.DoPhase? ==> Own(s.commits[l.id].req) !! objs
    ensures Restrict(s.cells + Written(s, l), objs) == Restrict(s.cells, objs)
  {
    assert Written(s, l).Keys !! objs;
  }

  lemma {:induction false} OtherStep(s: State, l: Label, cells: View)
    requires Inv(s, cells) && Enabled(s, l) && !l.Gate? && !l.ClearBits?
    requires Bounded(Apply(s, l), cells) && SlotsExact(Apply(s, l))
    ensures SerialSoFar(Apply(s, l), cells)
  {
    var s' := Apply(s, l);
    forall i | Flying(s', i) ensures Restrict(s'.cells, Own(s'.commits[i].req)) == Expected(s', cells, s'.commits[i]) {
      HolderStep(s, l, cells, i);
    }
    forall o | o in s'.cells && !Owned(s', o)
      ensures o in Serial(cells, s'.order) && s'.cells[o] == Serial(cells, s'.order)[o]
    {
      StillFree(s, l, cells, o);
      if l.Swap? || l.DoPhase? {
        ActorStep(s, l, cells);
        assert Flying(s, l.id);
        assert o !in Own(s.commits[l.id].req);
      }
    }
  }

  lemma {:induction false} GateStep(s: State, cells: View, id: nat)
    requires Inv(s, cells) && Enabled(s, Gate(id))
    requires Bounded(Apply(s, Gate(id)), cells) && SlotsExact(Apply(s, Gate(id)))
    ensures SerialSoFar(Apply(s, Gate(id)), cells)
  {
    hide After, Serial, MasksPartition, QueuesExact, Lifecycle, Own;
    GateFree(s, cells, id);
    assert s.cells + Written(s, Gate(id)) == s.cells;
    forall i | Flying(Apply(s, Gate(id)), i) {
      GateHolder(s, cells, id, i);
    }
  }

  lemma {:induction false} GateFree(s: State, cells: View, id: nat)
    requires Inv(s, cells) && Enabled(s, Gate(id))
    ensures FreeExact(Apply(s, Gate(id)), cells)
  {
    var s' := Apply(s, Gate(id));
    forall o | o in s'.cells && !Owned(s', o)
      ensures o in Serial(cells, s'.order) && s'.cells[o] == Serial(cells, s'.order)[o]
    {
      StillFree(s, Gate(id), cells, o);
      LaterCommit(cells, s.order, s.commits[id].req, o);
    }
  }

  lemma LaterCommit(cells: View, order: seq<Request>, r: Request, o: Obj)
    requires o in Serial(cells, order) && o !in Own(r)
    ensures o in Serial(cells, order + [r]) && Serial(cells, order + [r])[o] == Serial(cells, order)[o]
  {
    SerialSnoc(cells, order, r);
    RunAloneFrame(r, Serial(cells, order), o);
  }

  lemma {:induction false} GateHolder(s: State, cells: View, id: nat, i: nat)
    requires Inv(s, cells) && Enabled(s, Gate(id)) && Flying(Apply(s, Gate(id)), i)
    ensures var c' := Apply(s, Gate(id)).commits[i];
      && c'.slot <= |s.order| && Progress(c') <= STEPS
      && Restrict(s.cells, Own(c'.req))
         == After(c'.req, Restrict(Serial(cells, (s.order + [s.commits[id].req])[..c'.slot]), Own(c'.req)), Progress(c'))
  {
    var order' := s.order + [s.commits[id].req];
    if i == id {
      FreeObjects(s, cells, s.commits[id].req);
      assert order'[..|s.order|] == s.order;
    } else {
      var c := s.commits[i];
      assert Flying(s, i) && Lifecycle(c);
      assert Restrict(s.cells, Own(c.req)) == Expected(s, cells, c);
      assert order'[..c.slot] == s.order[..c.slot];
    }
  }

  // The objects a commit takes at the gate are free, so they are where the serial run has them.
  lemma FreeObjects(s: State, cells: View, r: Request)
    requires Inv(s, cells) && s.pendingCrtcs !! r.crtcs && s.pendingPlanes !! r.planes
    ensures Restrict(s.cells, Own(r)) == Restrict(Serial(cells, s.order), Own(r))
  {
    SerialKeys(cells, s.order);
    forall o | o in Own(r) ensures !Owned(s, o) {
      if Owned(s, o) {
        var i :| Flying(s, i) && o in Own(s.commits[i].req);
        OwnDisjoint(s.commits[i].req, r);
      }
    }
  }

  // When the bits are cleared the commit has done all its steps, so its objects agree with the serial run.
  lemma {:induction false} ClearStep(s: State, cells: View, id: nat)
    requires Inv(s, cells) && Enabled(s, ClearBits(id))
    requires Bounded(Apply(s, ClearBits(id)), cells) && SlotsExact(Apply(s, ClearBits(id)))
    ensures SerialSoFar(Apply(s, ClearBits(id)), cells)
  {
    var l := ClearBits(id);
    var s' := Apply(s, l);
    var c := s.commits[id];
    assert Lifecycle(c) && Flying(s, id);
    forall i | Flying(s', i) ensures Restrict(s'.cells, Own(s'.commits[i].req)) == Expected(s', cells, s'.commits[i]) {
      HolderStep(s, l, cells, i);
    }
    forall o | o in s'.cells && !Owned(s', o)
      ensures o in Serial(cells, s'.order) && s'.cells[o] == Serial(cells, s'.order)[o]
    {
      StillFree(s, l, cells, o);
      if o in Own(c.req) {
        ClearedObject(s, cells, id, o);
      }
    }
  }

  lemma {:induction false} ClearedObject(s: State, cells: View, id: nat, o: Obj)
    requires Inv(s, cells) && Flying(s, id) && Progress(s.commits[id]) == STEPS
    requires o in Own(s.commits[id].req) && o in s.cells
    ensures o in Serial(cells, s.order) && s.cells[o] == Serial(cells, s.order)[o]
  {
    var c := s.commits[id];
    forall j | c.slot + 1 <= j < |s.order| ensures o !in Own(s.order[j]) {
      OwnDisjoint(s.order[j], c.req);
    }
    assert Restrict(s.cells, Own(c.req)) == Expected(s, cells, c);
    SerialAfterSlot(cells, s.order, c.slot, c.req, s.cells, o);
  }

  lemma SerialAfterSlot(cells: View, order: seq<Request>, slot: nat, r: Request, now: View, o: Obj)
    requires slot < |order| && order[slot] == r && o in cells && o in now && o in Own(r)
    requires forall j :: slot + 1 <= j < |order| ==> o !in Own(order[j])
    requires Restrict(now, Own(r)) == After(r, Restrict(Serial(cells, order[..slot]), Own(r)), STEPS)
    ensures o in Serial(cells, order) && now[o] == Serial(cells, order)[o]
  {
    hide After, Serial;
    SerialKeys(cells, order[..slot + 1]);
    SerialFrame(cells, order, slot + 1, o);
    assert order[..slot + 1] == order[..slot] + [r];
    SerialSnoc(cells, order[..slot], r);
    assert o in Restrict(now, Own(r));
  }

  lemma InvStep(s: State, l: Label, cells: View)
    requires Inv(s, cells) && Enabled(s, l)
    ensures Inv(Apply(s, l), cells)
  {
    BoundedStep(s, l, cells);
    MasksStep(s, l, cells);
    SlotsStep(s, l, cells);
    QueuesStep(s, l, cells);
    match l {
      case Gate(id) => GateStep(s, cells, id);
      case ClearBits(id) => ClearStep(s, cells, id);
      case _ => OtherStep(s, l, cells);
    }
  }

  lemma {:induction false} InvAlways(cells: View, threads: set<nat>, labels: seq<Label>)
    ensures Inv(Execute(Initial(cells, threads), labels), cells)
  {
    if labels != [] {
      InvAlways(cells, threads, labels[..|labels| - 1]);
      var t := Execute(Initial(cells, threads), labels[..|labels| - 1]);
      if Enabled(t, labels[|labels| - 1]) {
        InvStep(t, labels[|labels| - 1], cells);
      }
    }
  }

  // ----- Main results -----

  /** In every reachable state the pending masks are the disjoint union of the in-flight masks. */
  lemma PendingMasksPartition(cells: View, threads: set<nat>, labels: seq<Label>)
    ensures MasksPartition(Execute(Initial(cells, threads), labels))
  {
    InvAlways(cells, threads, labels);
  }

  /**
   Serializability.  Whatever the interleaving, an object no commit holds is in the state that
   running the commits one at a time in gate order leaves it in; with no commit in flight, all are.
   */
  lemma Serializable(cells: View, threads: set<nat>, labels: seq<Label>)
    ensures var s := Execute(Initial(cells, threads), labels);
      && (forall o :: o in cells && !Owned(s, o) ==>
            o in s.cells && o in Serial(cells, s.order) && s.cells[o] == Serial(cells, s.order)[o])
      && (s.pendingCrtcs == {} && s.pendingPlanes == {} ==> s.cells == Serial(cells, s.order))
  {
    InvAlways(cells, threads, labels);
    var s := Execute(Initial(cells, threads), labels);
    SerialKeys(cells, s.order);
    if s.pendingCrtcs == {} && s.pendingPlanes == {} {
      NothingOwned(s);
    }
  }

  lemma {:induction false} NothingOwned(s: State)
    requires MasksPartition(s) && s.pendingCrtcs == {} && s.pendingPlanes == {}
    ensures forall o :: !Owned(s, o)
  {
  }

  /**
   Exactly-once completion and ownership: no commit is ever touched after its free, and once its
   caller has returned and its work is over it was completed once and freed once, for blocking and
   nonblocking commits, queued or completed by the caller.  One the gate turned away is freed only.
   */
  lemma {:induction false} CompletedAndFreedOnce(cells: View, threads: set<nat>, labels: seq<Label>)
    ensures var s := Execute(Initial(cells, threads), labels);
      forall id :: id in s.commits ==>
        var c := s.commits[id];
        && c.badTouches == 0 && c.completions <= 1 && c.frees <= 1
        && (c.caller == Returned && c.work == Finished ==> c.completions == 1 && c.frees == 1)
        && (c.caller == Returned && !c.req.nonblock ==> c.work == Finished)
        && (c.caller == Interrupted ==> c.completions == 0 && c.frees == 1)
        && (c.completions == 0 && c.caller != Interrupted ==> c.frees == 0)
  {
    InvAlways(cells, threads, labels);
    var s := Execute(Initial(cells, threads), labels);
    assert forall id :: id in s.commits ==> Lifecycle(s.commits[id]);
  }
}
