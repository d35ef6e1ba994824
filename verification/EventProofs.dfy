/** An event is enabled exactly while somebody listens, and a closing file disables each of its last ones once. */
module EventProofs {
  import opened EventModel

  ghost predicate Listened(clients: seq<Client>, p: Pair) {
    exists i :: 0 <= i < |clients| && clients[i].pair == p
  }

  lemma {:induction false} CountIff(clients: seq<Client>, p: Pair)
    ensures Count(clients, p) > 0 <==> Listened(clients, p)
  {
    if clients != [] {
      CountIff(clients[1..], p);
      if i :| 0 <= i < |clients| && clients[i].pair == p {
        assert i == 0 || clients[1..][i - 1].pair == p;
      }
    }
  }

  ghost predicate EnabledIffListened(e: Events) {
    forall p :: p in e.enabled <==> Listened(e.clients, p)
  }

  ghost predicate OneEach(clients: seq<Client>) {
    forall i, j :: 0 <= i < j < |clients| ==> clients[i] != clients[j]
  }

  ghost predicate Inv(e: Events) {
    EnabledIffListened(e) && OneEach(e.clients)
  }

  // ----- Registering -----

  lemma RegisterKeeps(e: Events, file: nat, p: Pair, supported: bool, enables: bool)
    requires Inv(e)
    ensures Inv(Register(e, file, p, supported, enables).1)
  {
    CountIff(e.clients, p);
    var c := Client(file, p);
    var after := Register(e, file, p, supported, enables).1;
    if after.clients != e.clients {
      forall q ensures Listened(after.clients, q) <==> Listened(e.clients, q) || q == p {
        if i :| 0 <= i < |e.clients| && e.clients[i].pair == q {
          assert after.clients[i].pair == q;
        }
        assert after.clients[|e.clients|].pair == p;
      }
    }
  }

  // ----- Deregistering -----

  lemma {:induction false} RemoveFirstAt(clients: seq<Client>, c: Client) returns (k: nat)
    requires c in clients
    ensures k < |clients| && clients[k] == c && RemoveFirst(clients, c) == clients[..k] + clients[k + 1..]
  {
    k := 0;
    if clients[0] != c {
      var j := RemoveFirstAt(clients[1..], c);
      k := j + 1;
      assert [clients[0]] + (clients[1..][..j] + clients[1..][j + 1..]) == clients[..k] + clients[k + 1..];
    }
  }

  lemma RemovedListeners(clients: seq<Client>, k: nat, p: Pair)
    requires k < |clients| && p != clients[k].pair
    ensures Listened(clients[..k] + clients[k + 1..], p) <==> Listened(clients, p)
  {
    var left := clients[..k] + clients[k + 1..];
    if i :| 0 <= i < |clients| && clients[i].pair == p {
      assert left[if i < k then i else i - 1].pair == p;
    }
    if i :| 0 <= i < |left| && left[i].pair == p {
      assert clients[if i < k then i else i + 1].pair == p;
    }
  }

  // Some other file listens to p.
  ghost predicate OthersListen(clients: seq<Client>, file: nat, p: Pair) {
    exists i :: 0 <= i < |clients| && clients[i].pair == p && clients[i].file != file
  }

  // Without its own client, who listens is the others.
  lemma OthersLeft(clients: seq<Client>, k: nat)
    requires k < |clients| && OneEach(clients)
    ensures Listened(clients[..k] + clients[k + 1..], clients[k].pair)
            <==> OthersListen(clients, clients[k].file, clients[k].pair)
  {
    var left, c := clients[..k] + clients[k + 1..], clients[k];
    if i :| 0 <= i < |clients| && clients[i].pair == c.pair && clients[i].file != c.file {
      assert left[if i < k then i else i - 1].pair == c.pair;
    }
    if i :| 0 <= i < |left| && left[i].pair == c.pair {
      var j := if i < k then i else i + 1;
      assert left[i] == clients[j] && j != k;
    }
  }

  /** Deregistering keeps events enabled exactly while listened to, exactly unless the file was the last to
      listen and the KMS does not disable the event. */
  lemma DeregisterKeepsIff(e: Events, file: nat, p: Pair, supported: bool, disables: bool)
    requires Inv(e)
    ensures var (code, after) := Deregister(e, file, p, supported, disables);
      && OneEach(after.clients)
      && (EnabledIffListened(after) <==>
            !supported || Client(file, p) !in e.clients || OthersListen(e.clients, file, p) || disables)
  {
    if supported && Client(file, p) in e.clients {
      var k := RemoveFirstAt(e.clients, Client(file, p));
      var left := RemoveFirst(e.clients, Client(file, p));
      CountIff(left, p);
      assert Listened(e.clients, p) by { assert e.clients[k].pair == p; }
      RemovedOnce(e.clients, k);
      OthersLeft(e.clients, k);
      DeregisteredIff(e, left, p, disables);
    }
  }

  lemma RemovedOnce(clients: seq<Client>, k: nat)
    requires k < |clients| && OneEach(clients)
    ensures var left := clients[..k] + clients[k + 1..];
      OneEach(left) && forall q :: q != clients[k].pair ==> (Listened(left, q) <==> Listened(clients, q))
  {
    var left := clients[..k] + clients[k + 1..];
    forall q | q != clients[k].pair ensures Listened(left, q) <==> Listened(clients, q) {
      RemovedListeners(clients, k, q);
    }
    assert forall i :: 0 <= i < |left| ==> left[i] == clients[if i < k then i else i + 1];
  }

  lemma DeregisteredIff(e: Events, left: seq<Client>, p: Pair, disables: bool)
    requires EnabledIffListened(e) && Listened(e.clients, p)
    requires forall q :: q != p ==> (Listened(left, q) <==> Listened(e.clients, q))
    ensures Listened(left, p) ==> EnabledIffListened(e.(clients := left))
    ensures !Listened(left, p) ==>
      (EnabledIffListened(Events(left, if disables then e.enabled - {p} else e.enabled)) <==> disables)
  {
    hide Listened;
    var after := Events(left, e.enabled);
    if !Listened(left, p) && !disables {
      assert p in after.enabled;
    }
  }

  // ----- Releasing a file -----

  lemma {:induction false} MineIs(clients: seq<Client>, file: nat, mine: bool)
    requires OneEach(clients)
    ensures var r := Mine(clients, file, mine);
      OneEach(r) && forall c :: c in r <==> c in clients && (c.file == file) == mine
  {
    if clients != [] {
      var init := clients[..|clients| - 1];
      MineIs(init, file, mine);
      assert clients == init + [clients[|clients| - 1]];
    }
  }

  lemma SplitListened(clients: seq<Client>, file: nat, p: Pair)
    requires OneEach(clients)
    ensures Listened(clients, p) <==> Listened(Mine(clients, file, true), p) || Listened(Mine(clients, file, false), p)
  {
    MineIs(clients, file, true);
    MineIs(clients, file, false);
    var a, b := Mine(clients, file, true), Mine(clients, file, false);
    if i :| 0 <= i < |clients| && clients[i].pair == p {
      assert clients[i] in clients;
      assert clients[i] in a || clients[i] in b;
    }
    if i :| 0 <= i < |a| && a[i].pair == p {
      assert a[i] in clients;
    }
    if i :| 0 <= i < |b| && b[i].pair == p {
      assert b[i] in clients;
    }
  }

  /** Closing a file disables each event it listened to and nobody else does, and no event twice. */
  lemma {:induction false} DisablesAre(moved: seq<Client>, left: seq<Client>)
    ensures forall p :: p in Disables(moved, left) <==> Listened(moved, p) && !Listened(left, p)
    ensures forall i, j :: 0 <= i < j < |Disables(moved, left)| ==> Disables(moved, left)[i] != Disables(moved, left)[j]
  {
    if moved != [] {
      var p, rest := moved[0].pair, moved[1..];
      DisablesAre(rest, left);
      CountIff(left, p);
      CountIff(rest, p);
      forall q ensures Listened(moved, q) <==> q == p || Listened(rest, q) {
        assert moved[0].pair == p;
        if i :| 0 <= i < |moved| && moved[i].pair == q {
          assert i == 0 || rest[i - 1].pair == q;
        }
        if i :| 0 <= i < |rest| && rest[i].pair == q {
          assert moved[i + 1].pair == q;
        }
      }
      assert p in Disables(rest, left) ==> Listened(rest, p);
    }
  }

  /** Releasing a file keeps events enabled exactly while listened to, exactly if none it has to disable fails. */
  lemma ReleaseKeepsIff(e: Events, file: nat, fail: set<Pair>)
    requires Inv(e)
    ensures var after := Release(e, file, fail);
      var calls := Disables(Mine(e.clients, file, true), after.clients);
      OneEach(after.clients) && (EnabledIffListened(after) <==> forall p :: p in calls ==> p !in fail)
  {
    var moved, left := Mine(e.clients, file, true), Mine(e.clients, file, false);
    MineIs(e.clients, file, false);
    DisablesAre(moved, left);
    var after, calls := Release(e, file, fail), Disables(moved, left);
    forall p ensures p in after.enabled <==> Listened(left, p) || (p in calls && p in fail) {
      SplitListened(e.clients, file, p);
    }
    if p :| p in calls && p in fail {
      assert p in after.enabled && !Listened(left, p);
    }
  }

  // ----- Runs -----

  datatype Op =
    | Registering(file: nat, p: Pair, supported: bool, enables: bool)
    | Deregistering(file: nat, p: Pair, supported: bool)
    | Releasing(file: nat)

  function Step(e: Events, op: Op): Events {
    match op
    case Registering(file, p, supported, enables) => Register(e, file, p, supported, enables).1
    case Deregistering(file, p, supported) => Deregister(e, file, p, supported, true).1
    case Releasing(file) => Release(e, file, {})
  }

  function Run(ops: seq<Op>): Events {
    if ops == [] then Events([], {}) else Step(Run(ops[..|ops| - 1]), ops[|ops| - 1])
  }

  lemma {:induction false} RunKeeps(ops: seq<Op>)
    ensures Inv(Run(ops))
  {
    if ops != [] {
      var e := Run(ops[..|ops| - 1]);
      RunKeeps(ops[..|ops| - 1]);
      match ops[|ops| - 1] {
        case Registering(file, p, supported, enables) => RegisterKeeps(e, file, p, supported, enables);
        case Deregistering(file, p, supported) => DeregisterKeepsIff(e, file, p, supported, true);
        case Releasing(file) => ReleaseKeepsIff(e, file, {});
      }
    }
  }

  /** Over every run of registering, deregistering and releasing, with disables succeeding, an event is enabled
      exactly while some client listens to it, and a file has at most one client for it. */
  lemma EnabledWhileListened(ops: seq<Op>, p: Pair)
    ensures var e := Run(ops);
      (p in e.enabled <==> Listened(e.clients, p))
      && forall i, j :: 0 <= i < j < |e.clients| ==> e.clients[i] != e.clients[j]
  {
    RunKeeps(ops);
  }

  // ----- Who listens -----

  /** Registering lists the client, after the others, exactly if the event is supported, the file is not listed for it, and
      somebody listens already or the KMS enables it; otherwise nothing changes. */
  lemma {:induction false} RegisterListsIff(e: Events, file: nat, p: Pair, supported: bool, enables: bool)
    ensures var (code, after) := Register(e, file, p, supported, enables);
      && (code == Ok <==> supported && Client(file, p) !in e.clients && (Listened(e.clients, p) || enables))
      && (code == Ok ==> after.clients == e.clients + [Client(file, p)])
      && (code != Ok ==> after == e)
      && (code == Unsupported <==> !supported) && (code == Already <==> supported && Client(file, p) in e.clients)
  {
    CountIff(e.clients, p);
  }

  /** Deregistering takes the file's client for the event off, and no other; it fails if there is none, or if the KMS does
      not disable an event that nobody else listens to. */
  lemma {:induction false} DeregisterDrops(e: Events, file: nat, p: Pair, supported: bool, disables: bool)
    requires OneEach(e.clients)
    ensures var (code, after) := Deregister(e, file, p, supported, disables);
      && (forall c :: c in after.clients <==> c in e.clients && !(supported && c == Client(file, p)))
      && (code == Unsupported <==> !supported) && (code == NotFound <==> supported && Client(file, p) !in e.clients)
      && (code == Ok <==> supported && Client(file, p) in e.clients && (OthersListen(e.clients, file, p) || disables))
  {
    if supported && Client(file, p) in e.clients {
      var k := RemoveFirstAt(e.clients, Client(file, p));
      CountIff(RemoveFirst(e.clients, Client(file, p)), p);
      OthersLeft(e.clients, k);
      OnlyOneGone(e.clients, k);
    }
  }

  lemma OnlyOneGone(clients: seq<Client>, k: nat)
    requires k < |clients| && OneEach(clients)
    ensures forall c :: c in clients[..k] + clients[k + 1..] <==> c in clients && c != clients[k]
  {
    forall c | c in clients && c != clients[k] ensures c in clients[..k] + clients[k + 1..] {
      var i :| 0 <= i < |clients| && clients[i] == c;
      assert (clients[..k] + clients[k + 1..])[if i < k then i else i - 1] == c;
    }
  }

  // The operation ends the file's listening to the event.
  predicate Ends(op: Op, file: nat, p: Pair) {
    op == Releasing(file) || op == Deregistering(file, p, true)
  }

  // The i-th operation registered the file for the event, and nothing has ended it since.
  ghost predicate Since(ops: seq<Op>, file: nat, p: Pair, i: nat) {
    && i < |ops| && ops[i].Registering? && ops[i].file == file && ops[i].p == p && ops[i].supported
    && (ops[i].enables || Listened(Run(ops[..i]).clients, p))
    && forall j :: i < j < |ops| ==> !Ends(ops[j], file, p)
  }

  /** Over every run, a file is listed for an event exactly if it was registered for it, with somebody listening already or
      the KMS enabling it, and neither deregistered nor released since. */
  lemma {:induction false} ListedSince(ops: seq<Op>, file: nat, p: Pair)
    ensures Client(file, p) in Run(ops).clients <==> exists i :: Since(ops, file, p, i)
  {
    hide Since, Step;
    if ops == [] {
      NothingSince(file, p);
    } else {
      var n := |ops| - 1;
      ListedSince(ops[..n], file, p);
      RunKeeps(ops[..n]);
      StepLists(Run(ops[..n]), ops[n], file, p);
      forall i: nat ensures i < n ==> (Since(ops, file, p, i) <==> Since(ops[..n], file, p, i) && !Ends(ops[n], file, p)) {
        SinceEarlier(ops, file, p, i);
      }
      forall i: nat ensures i >= n ==>
        (Since(ops, file, p, i) <==> i == n && Registers(Run(ops[..n]), ops[n], file, p))
      {
        if i >= n {
          SinceLast(ops, file, p, i);
        }
      }
      forall i: nat ensures Since(ops[..n], file, p, i) ==> i < n {
        SinceEarlier(ops, file, p, i);
      }
      assert Registers(Run(ops[..n]), ops[n], file, p) ==> Since(ops, file, p, n);
      if i: nat :| Since(ops[..n], file, p, i) {
        assert !Ends(ops[n], file, p) ==> Since(ops, file, p, i);
      }
    }
  }

  lemma NothingSince(file: nat, p: Pair)
    ensures forall i :: !Since([], file, p, i)
  {
  }

  ghost predicate Registers(e: Events, op: Op, file: nat, p: Pair) {
    op.Registering? && op.file == file && op.p == p && op.supported && (op.enables || Listened(e.clients, p))
  }

  lemma SinceEarlier(ops: seq<Op>, file: nat, p: Pair, i: nat)
    requires ops != []
    ensures var init := ops[..|ops| - 1];
      && (Since(init, file, p, i) ==> i < |ops| - 1)
      && (i < |ops| - 1 ==> (Since(ops, file, p, i) <==> Since(init, file, p, i) && !Ends(ops[|ops| - 1], file, p)))
  {
    hide Run, Listened, Ends;
    var init := ops[..|ops| - 1];
    if i < |ops| - 1 {
      assert init[i] == ops[i] && init[..i] == ops[..i];
      assert forall j :: i < j < |init| ==> init[j] == ops[j];
    }
  }

  lemma SinceLast(ops: seq<Op>, file: nat, p: Pair, i: nat)
    requires ops != [] && i >= |ops| - 1
    ensures Since(ops, file, p, i) <==> i == |ops| - 1 && Registers(Run(ops[..|ops| - 1]), ops[|ops| - 1], file, p)
  {
    hide Run, Listened;
  }

  lemma StepLists(e: Events, op: Op, file: nat, p: Pair)
    requires OneEach(e.clients)
    ensures var c := Client(file, p);
      c in Step(e, op).clients <==> (c in e.clients && !Ends(op, file, p)) || Registers(e, op, file, p)
  {
    hide Register, Deregister, Listened;
    match op {
      case Registering(f, q, supported, enables) => RegisterListsIff(e, f, q, supported, enables);
      case Deregistering(f, q, supported) => DeregisterDrops(e, f, q, supported, true);
      case Releasing(f) => MineIs(e.clients, f, false);
    }
  }
}
