/**
 The atomic commit protocol of msm/msm_atomic.c as a state machine.

 Any number of callers run `msm_atomic_commit` concurrently with the per-CRTC display threads.
 A commit passes the gate on the pending masks, swaps the software state in, is dispatched to a
 display thread (or completed by its caller when no thread takes it), runs the hardware phases,
 clears its bits and is freed.  One label is one step that no other thread can interrupt.

 KMS and DRM-helper hooks are arbitrary functions of the objects in the commit's own state.
 */
module CommitProtocol {

  datatype Obj = Crtc(idx: nat) | Plane(idx: nat)

  // What the driver keeps per object: the current atomic state, the one the last swap took out, which the
  // phases still read, and what the hardware was told.
  datatype Cell = Cell(sw: int, was: int, hw: int)

  type View = map<Obj, Cell>

  // The calls that complete_commit makes, in order.
  datatype Phase =
    | WaitFences | PrepareCommit | ModesetDisables | CommitPlanes
    | ModesetEnables | WaitCommitDone | CleanupPlanes | CompleteCommit

  const PHASES: seq<Phase> :=
    [WaitFences, PrepareCommit, ModesetDisables, CommitPlanes,
     ModesetEnables, WaitCommitDone, CleanupPlanes, CompleteCommit]

  // A `drm_atomic_state` together with the masks gathered from it; masks are sets of bit positions.
  datatype Request = Request(
    crtcs: set<nat>,
    planes: set<nat>,
    incoming: map<Obj, int>,
    nonblock: bool,
    hook: (Phase, View) -> View)

  ghost function Own(r: Request): set<Obj> {
    (set i | i in r.crtcs :: Crtc(i)) + (set i | i in r.planes :: Plane(i))
  }

  ghost predicate Disjoint(a: Request, b: Request) {
    a.crtcs !! b.crtcs && a.planes !! b.planes
  }

  // ----- What one commit does to its own objects -----

  ghost function Restrict(cells: View, objs: set<Obj>): View {
    map o | o in objs && o in cells :: cells[o]
  }

  ghost function SwapState(r: Request, v: View): View {
    map o | o in v :: if o in r.incoming then Cell(r.incoming[o], v[o].sw, v[o].hw) else v[o]
  }

  // A hook reads and writes the commit's own objects; anything else it returns is ignored.
  ghost function RunPhase(r: Request, p: Phase, v: View): View {
    map o | o in v :: if o in r.hook(p, v) then r.hook(p, v)[o] else v[o]
  }

  // The commit's objects after `n` of its steps: the swap is step 1, the phases follow.
  ghost function After(r: Request, v: View, n: nat): View
    requires n <= 1 + |PHASES|
    decreases n
  {
    if n == 0 then v
    else if n == 1 then SwapState(r, v)
    else RunPhase(r, PHASES[n - 2], After(r, v, n - 1))
  }

  const STEPS: nat := 1 + |PHASES|

  // ----- The serial reference: whole commits, one at a time -----

  ghost function RunAlone(r: Request, cells: View): View {
    cells + After(r, Restrict(cells, Own(r)), STEPS)
  }

  ghost function Serial(cells: View, order: seq<Request>): View {
    if order == [] then cells
    else RunAlone(order[|order| - 1], Serial(cells, order[..|order| - 1]))
  }

  // ----- The concurrent machine -----

  datatype Caller =
    | Waiting       // masks gathered, at the gate
    | Gated         // bits marked busy, before the swap
    | Swapped       // before dispatch
    | Completing    // running complete_commit itself
    | Flushing      // blocking commit, in kthread_flush_work
    | Returned
    | Interrupted   // the wait at the gate failed

  datatype Work =
    | Idle
    | Queued(thread: nat)
    | Running(done: nat)   // inside complete_commit, `done` phases finished
    | Cleared              // bits cleared, nonblock flag not yet read
    | Finished

  // One `msm_commit`.  `slot` is its place in gate order.  The counters record the history:
  // completions of the work, frees of the structure, and accesses after a free.
  datatype Commit = Commit(
    req: Request, caller: Caller, work: Work, slot: nat,
    completions: nat, frees: nat, badTouches: nat)

  datatype State = State(
    cells: View,
    pendingCrtcs: set<nat>,
    pendingPlanes: set<nat>,
    commits: map<nat, Commit>,
    order: seq<Request>,
    queues: map<nat, seq<nat>>,   // display thread -> queued commits
    busy: map<nat, nat>)          // display thread -> the commit it is working on

  datatype Label =
    | Submit(id: nat, req: Request)
    | Interrupt(id: nat)
    | Gate(id: nat)
    | Swap(id: nat)
    | Dispatch(id: nat, target: Target)
    | StartWork(thread: nat)
    | DoPhase(id: nat)
    | ClearBits(id: nat)
    | FinishWork(id: nat)
    | CallerDone(id: nat)

  // Where msm_atomic_commit_dispatch sends the commit.
  datatype Target = Thread(thread: nat) | Fallback

  ghost function Initial(cells: View, threads: set<nat>): State {
    State(cells, {}, {}, map[], [], map t | t in threads :: [], map[])
  }

  ghost predicate InFlight(c: Commit) {
    c.caller != Waiting && c.caller != Interrupted && c.work != Cleared && c.work != Finished
  }

  // How many of its own steps an in-flight commit has taken.
  ghost function Progress(c: Commit): nat {
    if c.caller == Gated then 0 else if c.work.Running? then 1 + c.work.done else 1
  }

  // Every access to the structure goes through here.
  ghost function Touch(c: Commit): Commit {
    c.(badTouches := c.badTouches + (if c.frees > 0 then 1 else 0))
  }

  ghost function Free(c: Commit): Commit {
    c.(frees := c.frees + 1)
  }

  ghost predicate Enabled(s: State, l: Label) {
    match l
    case Submit(id, req) => id !in s.commits && Own(req) <= s.cells.Keys
    case Interrupt(id) => id in s.commits && s.commits[id].caller == Waiting
    case Gate(id) =>
      && id in s.commits && s.commits[id].caller == Waiting
      && s.pendingCrtcs !! s.commits[id].req.crtcs
      && s.pendingPlanes !! s.commits[id].req.planes
    case Swap(id) => id in s.commits && s.commits[id].caller == Gated
    case Dispatch(id, target) =>
      && id in s.commits && s.commits[id].caller == Swapped
      && (target.Thread? ==> target.thread in s.queues)
    case StartWork(t) =>
      t in s.queues && s.queues[t] != [] && t !in s.busy && s.queues[t][0] in s.commits
    case DoPhase(id) =>
      id in s.commits && s.commits[id].work.Running? && s.commits[id].work.done < |PHASES|
    case ClearBits(id) =>
      id in s.commits && s.commits[id].work.Running? && s.commits[id].work.done == |PHASES|
    case FinishWork(id) => id in s.commits && s.commits[id].work == Cleared
    case CallerDone(id) =>
      && id in s.commits && (s.commits[id].caller == Completing || s.commits[id].caller == Flushing)
      && s.commits[id].work == Finished
  }

  // The commit a step is about.
  ghost function Actor(s: State, l: Label): nat
    requires Enabled(s, l)
  {
    if l.StartWork? then s.queues[l.thread][0] else l.id
  }

  // What the step does to that commit's structure.
  ghost function Moved(s: State, l: Label): Commit
    requires Enabled(s, l)
  {
    if l.Submit? then Commit(l.req, Waiting, Idle, 0, 0, 0, 0) else
    var c := s.commits[Actor(s, l)];
    match l
    case Interrupt(_) => Free(Touch(c).(caller := Interrupted))
    case Gate(_) => Touch(c).(caller := Gated, slot := |s.order|)
    case Swap(_) => c.(caller := Swapped)
    case Dispatch(_, target) =>
      if target.Fallback? then Touch(c).(work := Running(0), caller := Completing)
      else Touch(c).(work := Queued(target.thread), caller := if c.req.nonblock then Returned else Flushing)
    case StartWork(_) => Touch(c).(work := Running(0))
    case DoPhase(_) => Touch(c).(work := Running(c.work.done + 1))
    case ClearBits(_) => Touch(c).(work := Cleared, completions := c.completions + 1)
    case FinishWork(_) =>
      // commit_destroy reads the flag from the structure and frees it only when nonblocking
      var d := Touch(c).(work := Finished);
      if c.req.nonblock then Free(d) else d
    case CallerDone(_) =>
      // flush_work looks at the work item; a fallback caller uses its cached copy of the flag
      var d := (if c.caller == Flushing then Touch(c) else c).(caller := Returned);
      if c.req.nonblock then d else Free(d)
  }

  // The objects the step rewrites, with their new contents.
  ghost function Written(s: State, l: Label): View
    requires Enabled(s, l)
  {
    if l.Swap? then
      var r := s.commits[l.id].req;
      SwapState(r, Restrict(s.cells, Own(r)))
    else if l.DoPhase? then
      var c := s.commits[l.id];
      RunPhase(c.req, PHASES[c.work.done], Restrict(s.cells, Own(c.req)))
    else map[]
  }

  ghost function Apply(s: State, l: Label): State
    requires Enabled(s, l)
  {
    var a := Actor(s, l);
    var c := Moved(s, l);
    State(
      s.cells + Written(s, l),
      if l.Gate? then s.pendingCrtcs + c.req.crtcs
      else if l.ClearBits? then s.pendingCrtcs - c.req.crtcs else s.pendingCrtcs,
      if l.Gate? then s.pendingPlanes + c.req.planes
      else if l.ClearBits? then s.pendingPlanes - c.req.planes else s.pendingPlanes,
      s.commits[a := c],
      if l.Gate? then s.order + [c.req] else s.order,
      if l.Dispatch? && l.target.Thread?
      then s.queues[l.target.thread := s.queues[l.target.thread] + [a]]
      else if l.StartWork? then s.queues[l.thread := s.queues[l.thread][1..]] else s.queues,
      if l.StartWork? then s.busy[l.thread := a]
      else if l.FinishWork? then map t | t in s.busy && s.busy[t] != a :: s.busy[t] else s.busy)
  }

  // Any interleaving: labels that cannot fire are skipped.
  ghost function Execute(s: State, labels: seq<Label>): State {
    if labels == [] then s
    else
      var t := Execute(s, labels[..|labels| - 1]);
      var l := labels[|labels| - 1];
      if Enabled(t, l) then Apply(t, l) else t
  }
}
