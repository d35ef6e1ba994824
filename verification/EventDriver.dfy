/** The event ioctls and the event part of release in msm/msm_drv.c, on the client list in place. */
module EventDriver {
  import opened EventModel

  class MsmDrm {
    var clients: seq<Client>    // client_event_list
    var enabled: set<Pair>      // in the KMS
    var disabled: seq<Pair>     // the KMS disables asked for, in order

    function View(): Events
      reads this
    {
      Events(clients, enabled)
    }

    static method ClientCount(list: seq<Client>, p: Pair) returns (count: nat)
      ensures count == Count(list, p)
    {
      count := 0;
      var i := 0;
      while i < |list|
        invariant i <= |list| && Count(list, p) == count + Count(list[i..], p)
      {
        assert list[i..][1..] == list[i + 1..];
        if list[i].pair == p {
          count := count + 1;
        }
        i := i + 1;
      }
    }

    method FindClient(c: Client) returns (at: nat)
      ensures at <= |clients| && (at < |clients| <==> c in clients)
      ensures at < |clients| ==> RemoveFirst(clients, c) == clients[..at] + clients[at + 1..]
    {
      at := 0;
      ghost var r := RemoveFirst(clients, c);
      assert [] + r == r && clients[0..] == clients;
      while at < |clients| && clients[at] != c
        invariant at <= |clients| && c !in clients[..at] && r == clients[..at] + RemoveFirst(clients[at..], c)
      {
        assert clients[at..][1..] == clients[at + 1..];
        assert clients[..at] + ([clients[at]] + RemoveFirst(clients[at + 1..], c)) == clients[..at + 1] + RemoveFirst(clients[at + 1..], c);
        at := at + 1;
      }
    }

    method RegisterEvent(p: Pair, enable: bool, succeeds: bool)
      modifies this`enabled, this`disabled
      ensures enabled == if !succeeds then old(enabled) else if enable then old(enabled) + {p} else old(enabled) - {p}
      ensures disabled == if enable then old(disabled) else old(disabled) + [p]
    {
      if !enable {
        disabled := disabled + [p];
      }
      if succeeds {
        enabled := if enable then enabled + {p} else enabled - {p};
      }
    }

    // msm_ioctl_register_event
    method Register(file: nat, p: Pair, supported: bool, enables: bool) returns (code: Code)
      modifies this
      ensures (code, View()) == EventModel.Register(old(View()), file, p, supported, enables)
    {
      if !supported { return Unsupported; }
      var at := FindClient(Client(file, p));
      if at < |clients| { return Already; }
      var count := ClientCount(clients, p);
      if count == 0 {
        RegisterEvent(p, true, enables);
        if !enables { return Failed; }
      }
      clients := clients + [Client(file, p)];
      return Ok;
    }

    // msm_ioctl_deregister_event
    method Deregister(file: nat, p: Pair, supported: bool, disables: bool) returns (code: Code)
      modifies this
      ensures (code, View()) == EventModel.Deregister(old(View()), file, p, supported, disables)
    {
      if !supported { return Unsupported; }
      var at := FindClient(Client(file, p));
      if at == |clients| { return NotFound; }
      clients := clients[..at] + clients[at + 1..];
      var count := ClientCount(clients, p);
      code := Ok;
      if count == 0 {
        RegisterEvent(p, false, disables);
        code := if disables then Ok else Failed;
      }
    }

    // moving the file's clients to the temporary list
    method TakeClients(file: nat) returns (moved: seq<Client>)
      modifies this`clients
      ensures moved == Mine(old(clients), file, true) && clients == Mine(old(clients), file, false)
    {
      var left := [];
      moved := [];
      var i := 0;
      while i < |clients|
        invariant i <= |clients| && clients == old(clients)
        invariant moved == Mine(clients[..i], file, true) && left == Mine(clients[..i], file, false)
      {
        assert clients[..i + 1][..i] == clients[..i];
        if clients[i].file == file {
          moved := moved + [clients[i]];
        } else {
          left := left + [clients[i]];
        }
        i := i + 1;
      }
      assert clients[..i] == clients;
      clients := left;
    }

    // one turn of the loop of msm_release: the event is disabled if nobody is left to listen to it
    method DisableIfLast(p: Pair, rest: seq<Client>, fail: set<Pair>) returns (ghost call: seq<Pair>)
      modifies this`enabled, this`disabled
      ensures call == if Count(clients, p) + Count(rest, p) == 0 then [p] else []
      ensures disabled == old(disabled) + call && enabled == old(enabled) - Off(call, fail)
    {
      var count := ClientCount(clients, p);
      var others := ClientCount(rest, p);
      if count + others == 0 {
        RegisterEvent(p, false, p !in fail);
        return [p];
      }
      return [];
    }

    // the event part of msm_release
    method Release(file: nat, fail: set<Pair>)
      modifies this
      ensures View() == EventModel.Release(old(View()), file, fail)
      ensures disabled == old(disabled) + Disables(Mine(old(clients), file, true), clients)
    {
      hide Mine, Count, Disables, Off;
      var moved := TakeClients(file);
      ghost var calls := Disables(moved, clients);
      ghost var done: seq<Pair> := [];
      assert [] + calls == calls && moved[0..] == moved;
      OffNone(fail);
      var i := 0;
      while i < |moved|
        invariant i <= |moved| && clients == Mine(old(clients), file, false)
        invariant done + Disables(moved[i..], clients) == calls
        invariant disabled == old(disabled) + done && enabled == old(enabled) - Off(done, fail)
      {
        ghost var call := DisableIfLast(moved[i].pair, moved[i + 1..], fail);
        DisablesNext(moved, i, clients, done, call);
        OffMore(done, call, fail);
        done := done + call;
        i := i + 1;
      }
      assert moved[i..] == [];
      DisablesNone(clients, done);
    }
  }

  lemma OffNone(fail: set<Pair>)
    ensures Off([], fail) == {}
  {
  }

  lemma OffMore(done: seq<Pair>, call: seq<Pair>, fail: set<Pair>)
    ensures Off(done + call, fail) == Off(done, fail) + Off(call, fail)
  {
  }

  lemma DisablesNone(left: seq<Client>, done: seq<Pair>)
    ensures done + Disables([], left) == done
  {
    assert done + [] == done;
  }

  // The calls for the clients from i on are the one for client i, if it is made, and those after it.
  lemma DisablesNext(moved: seq<Client>, i: nat, left: seq<Client>, done: seq<Pair>, call: seq<Pair>)
    requires i < |moved|
    requires call == if Count(left, moved[i].pair) + Count(moved[i + 1..], moved[i].pair) == 0 then [moved[i].pair] else []
    ensures done + Disables(moved[i..], left) == (done + call) + Disables(moved[i + 1..], left)
  {
    hide Count;
    assert moved[i..][1..] == moved[i + 1..];
    assert Disables(moved[i..], left) == call + Disables(moved[i + 1..], left);
  }
}
