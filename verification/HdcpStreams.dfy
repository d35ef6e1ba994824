/**
 The stream table of msm/sde_hdcp_2x.c: a linked list of the streams the client asked for, beside the
 streams TrustZone has open.  The client's thread adds and removes entries; the transmitter's thread
 opens and closes them, and closes them all when it cleans up.
 */
module HdcpStreams {

  datatype Key = Key(id: nat, channel: nat)

  // struct sde_hdcp_stream; a handle of 0 means TrustZone has not opened it.
  datatype Stream = Stream(key: Key, handle: nat, active: bool)

  // What TrustZone was asked, as the handles it gave out and the handles it was told to close.
  datatype Tz = Tz(given: multiset<nat>, closed: multiset<nat>)

  predicate IsOpen(tz: Tz, h: nat) {
    tz.given[h] > tz.closed[h]
  }

  // TrustZone's answers to hdcp2_open_stream: the handle it offers, 0 when it refuses.  It never offers
  // one that is open.
  type Offers = nat -> nat

  predicate Grants(tz: Tz, h: nat) {
    h != 0 && !IsOpen(tz, h)
  }

  function Open(tz: Tz, h: nat): Tz {
    tz.(given := tz.given + multiset{h})
  }

  function Close(tz: Tz, h: nat): Tz {
    tz.(closed := tz.closed + multiset{h})
  }

  // ----- The operations on values -----

  predicate Present(l: seq<Stream>, k: Key) {
    exists i :: 0 <= i < |l| && l[i].key == k
  }

  // sde_hdcp_2x_add_streams for one stream: a new entry goes to the head of the list.
  function Add(l: seq<Stream>, k: Key): seq<Stream> {
    if Present(l, k) then l else [Stream(k, 0, true)] + l
  }

  function AddAll(l: seq<Stream>, ks: seq<Key>): seq<Stream> {
    if ks == [] then l else Add(AddAll(l, ks[..|ks| - 1]), ks[|ks| - 1])
  }

  // sde_hdcp_2x_remove_streams for one stream
  function Remove(l: seq<Stream>, k: Key): seq<Stream> {
    if l == [] then []
    else if l[0].key == k then (if l[0].handle == 0 then l[1..] else [l[0].(active := false)] + l[1..])
    else [l[0]] + Remove(l[1..], k)
  }

  function RemoveAll(l: seq<Stream>, ks: seq<Key>): seq<Stream> {
    if ks == [] then l else Remove(RemoveAll(l, ks[..|ks| - 1]), ks[|ks| - 1])
  }

  datatype Walk = Walk(list: seq<Stream>, tz: Tz, asked: nat, query: bool)

  // The walk of sde_hdcp_2x_manage_stream: inactive entries are closed and dropped, unopened ones opened.
  function Manage(l: seq<Stream>, tz: Tz, offers: Offers, asked: nat): Walk {
    if l == [] then Walk([], tz, asked, false)
    else if !l[0].active then Manage(l[1..], Close(tz, l[0].handle), offers, asked).(query := true)
    else if l[0].handle == 0 then
      var h := offers(asked);
      if Grants(tz, h) then
        var w := Manage(l[1..], Open(tz, h), offers, asked + 1);
        Walk([l[0].(handle := h)] + w.list, w.tz, w.asked, true)
      else
        var w := Manage(l[1..], tz, offers, asked + 1);
        w.(list := [l[0]] + w.list)
    else
      var w := Manage(l[1..], tz, offers, asked);
      w.(list := [l[0]] + w.list)
  }

  // The loop of sde_hdcp_2x_clean over the streams.
  function CloseAll(l: seq<Stream>, tz: Tz): Tz {
    if l == [] then tz else CloseAll(l[1..], Close(tz, l[0].handle))
  }

  // ----- What the table keeps -----

  ghost predicate KeysUnique(l: seq<Stream>) {
    forall i, j :: 0 <= i < j < |l| ==> l[i].key != l[j].key
  }

  // How many entries hold handle h.
  function Holders(l: seq<Stream>, h: nat): nat {
    if l == [] then 0 else (if l[0].handle == h then 1 else 0) + Holders(l[1..], h)
  }

  // Every handle but 0 was given out once more than closed if an entry holds it, and as often if none
  // does: the table holds what is open, no handle is held twice, and each was closed once per opening.
  ghost predicate Mirrors(l: seq<Stream>, tz: Tz) {
    forall h: nat :: h != 0 ==> Holders(l, h) <= 1 && tz.given[h] == tz.closed[h] + Holders(l, h)
  }

  ghost predicate InactiveHaveHandles(l: seq<Stream>) {
    forall i :: 0 <= i < |l| && !l[i].active ==> l[i].handle != 0
  }

  ghost predicate Kept(l: seq<Stream>, tz: Tz) {
    KeysUnique(l) && InactiveHaveHandles(l) && Mirrors(l, tz)
  }

  // ----- Steps and runs -----

  datatype Op = AddStreams(ks: seq<Key>) | RemoveStreams(ks: seq<Key>) | ManageStreams | CleanUp

  datatype Table = Table(list: seq<Stream>, tz: Tz, asked: nat)

  function Step(t: Table, op: Op, offers: Offers): Table {
    match op
    case AddStreams(ks) => t.(list := AddAll(t.list, ks))
    case RemoveStreams(ks) => t.(list := RemoveAll(t.list, ks))
    case ManageStreams => var w := Manage(t.list, t.tz, offers, t.asked); Table(w.list, w.tz, w.asked)
    case CleanUp => t.(list := [], tz := CloseAll(t.list, t.tz))
  }

  function Run(ops: seq<Op>, offers: Offers): Table {
    if ops == [] then Table([], Tz(multiset{}, multiset{}), 0)
    else Step(Run(ops[..|ops| - 1], offers), ops[|ops| - 1], offers)
  }

  lemma AddKeeps(l: seq<Stream>, k: Key, tz: Tz)
    requires Kept(l, tz)
    ensures Kept(Add(l, k), tz)
  {
    if !Present(l, k) {
      var s := Stream(k, 0, true);
      assert ([s] + l)[1..] == l;
    }
  }

  lemma {:induction false} AddAllKeeps(l: seq<Stream>, ks: seq<Key>, tz: Tz)
    requires Kept(l, tz)
    ensures Kept(AddAll(l, ks), tz)
  {
    if ks != [] {
      AddAllKeeps(l, ks[..|ks| - 1], tz);
      AddKeeps(AddAll(l, ks[..|ks| - 1]), ks[|ks| - 1], tz);
    }
  }

  // Removing one key either drops an unopened entry or marks an opened one, at the entry's place.
  lemma {:induction false} RemoveAt(l: seq<Stream>, i: nat)
    requires i < |l| && forall j :: 0 <= j < i ==> l[j].key != l[i].key
    ensures Remove(l, l[i].key) == if l[i].handle == 0 then l[..i] + l[i + 1..] else l[i := l[i].(active := false)]
  {
    if i > 0 {
      RemoveAt(l[1..], i - 1);
      if l[i].handle == 0 {
        assert [l[0]] + (l[1..][..i - 1] + l[1..][i..]) == l[..i] + l[i + 1..];
      }
    }
  }

  lemma {:induction false} RemoveAbsent(l: seq<Stream>, k: Key)
    requires !Present(l, k)
    ensures Remove(l, k) == l
  {
    if l != [] {
      assert forall i :: 0 <= i < |l[1..]| ==> l[1..][i] == l[i + 1];
      RemoveAbsent(l[1..], k);
    }
  }

  lemma {:induction false} HoldersSplit(a: seq<Stream>, b: seq<Stream>, h: nat)
    ensures Holders(a + b, h) == Holders(a, h) + Holders(b, h)
  {
    if a == [] {
      assert a + b == b;
    } else {
      assert (a + b)[1..] == a[1..] + b;
      HoldersSplit(a[1..], b, h);
    }
  }

  lemma RemoveHolders(l: seq<Stream>, i: nat, h: nat)
    requires i < |l| && h != 0 && forall j :: 0 <= j < i ==> l[j].key != l[i].key
    ensures Holders(Remove(l, l[i].key), h) == Holders(l, h)
  {
    RemoveAt(l, i);
    var a, b := l[..i], l[i + 1..];
    assert l == a + ([l[i]] + b);
    HoldersSplit(a, [l[i]] + b, h);
    HoldersSplit(a, b, h);
    if l[i].handle != 0 {
      var s := l[i].(active := false);
      assert l[i := s] == a + ([s] + b);
      HoldersSplit(a, [s] + b, h);
    }
  }

  // A list with an entry dropped, or marked inactive while it has a handle
  lemma ShorterKeeps(l: seq<Stream>, i: nat)
    requires i < |l| && KeysUnique(l) && InactiveHaveHandles(l)
    ensures KeysUnique(l[..i] + l[i + 1..]) && InactiveHaveHandles(l[..i] + l[i + 1..])
    ensures l[i].handle != 0 ==>
      KeysUnique(l[i := l[i].(active := false)]) && InactiveHaveHandles(l[i := l[i].(active := false)])
  {
    var r := l[..i] + l[i + 1..];
    assert forall j :: 0 <= j < |r| ==> r[j] == l[if j < i then j else j + 1];
  }

  lemma RemoveKeeps(l: seq<Stream>, k: Key, tz: Tz)
    requires Kept(l, tz)
    ensures Kept(Remove(l, k), tz)
  {
    hide KeysUnique, InactiveHaveHandles, Remove, Holders;
    if !Present(l, k) {
      RemoveAbsent(l, k);
    } else {
      var i := FirstAt(l, k);
      RemoveAt(l, i);
      ShorterKeeps(l, i);
      forall h: nat | h != 0 ensures Holders(Remove(l, k), h) == Holders(l, h) {
        RemoveHolders(l, i, h);
      }
    }
  }

  lemma FirstAt(l: seq<Stream>, k: Key) returns (i: nat)
    requires Present(l, k)
    ensures i < |l| && l[i].key == k && forall j :: 0 <= j < i ==> l[j].key != k
  {
    i := 0;
    while l[i].key != k
      invariant i < |l| && forall j :: 0 <= j < i ==> l[j].key != k
      decreases |l| - i
    {
      i := i + 1;
    }
  }

  lemma {:induction false} RemoveAllKeeps(l: seq<Stream>, ks: seq<Key>, tz: Tz)
    requires Kept(l, tz)
    ensures Kept(RemoveAll(l, ks), tz)
  {
    if ks != [] {
      RemoveAllKeeps(l, ks[..|ks| - 1], tz);
      RemoveKeeps(RemoveAll(l, ks[..|ks| - 1]), ks[|ks| - 1], tz);
    }
  }

  // ----- The walks over the whole list -----

  lemma DropKeeps(a: seq<Stream>, s: Stream, b: seq<Stream>, tz: Tz)
    requires Kept(a + ([s] + b), tz) && s.handle != 0
    ensures Kept(a + b, Close(tz, s.handle))
  {
    var l := a + ([s] + b);
    forall i, j | 0 <= i < j < |a + b| ensures (a + b)[i].key != (a + b)[j].key {
      assert (a + b)[i] == l[if i < |a| then i else i + 1] && (a + b)[j] == l[if j < |a| then j else j + 1];
    }
    forall i | 0 <= i < |a + b| && !(a + b)[i].active ensures (a + b)[i].handle != 0 {
      assert (a + b)[i] == l[if i < |a| then i else i + 1];
    }
    forall h: nat | h != 0
      ensures Holders(a + b, h) <= 1 && Close(tz, s.handle).given[h] == Close(tz, s.handle).closed[h] + Holders(a + b, h)
    {
      HoldersSplit(a, [s] + b, h);
      HoldersSplit(a, b, h);
      HoldersSplit([s], b, h);
    }
  }

  lemma OpenKeeps(a: seq<Stream>, s: Stream, b: seq<Stream>, tz: Tz, h: nat)
    requires Kept(a + ([s] + b), tz) && s.handle == 0 && s.active && Grants(tz, h)
    ensures Kept(a + ([s.(handle := h)] + b), Open(tz, h))
  {
    var l, l' := a + ([s] + b), a + ([s.(handle := h)] + b);
    assert forall i :: 0 <= i < |l| ==> l'[i].key == l[i].key && l'[i].active == l[i].active;
    assert forall i :: 0 <= i < |l| && i != |a| ==> l'[i] == l[i];
    forall g: nat | g != 0
      ensures Holders(l', g) <= 1 && Open(tz, h).given[g] == Open(tz, h).closed[g] + Holders(l', g)
    {
      HoldersSplit(a, [s] + b, g);
      HoldersSplit(a, [s.(handle := h)] + b, g);
      HoldersSplit([s], b, g);
      HoldersSplit([s.(handle := h)], b, g);
    }
  }

  // The walk, with the entries before it already settled, keeps the table and leaves active entries only.
  lemma {:induction false} ManageKeeps(a: seq<Stream>, l: seq<Stream>, tz: Tz, offers: Offers, asked: nat)
    requires Kept(a + l, tz)
    ensures var w := Manage(l, tz, offers, asked);
      Kept(a + w.list, w.tz) && forall i :: 0 <= i < |w.list| ==> w.list[i].active
    decreases |l|
  {
    if l != [] {
      var s, b := l[0], l[1..];
      assert l == [s] + b;
      if !s.active {
        assert (a + l)[|a|] == s;
        DropKeeps(a, s, b, tz);
        ManageKeeps(a, b, Close(tz, s.handle), offers, asked);
      } else {
        var h := offers(asked);
        var opens := s.handle == 0 && Grants(tz, h);
        var s', tz' := if opens then s.(handle := h) else s, if opens then Open(tz, h) else tz;
        if opens {
          OpenKeeps(a, s, b, tz, h);
        }
        assert a + ([s'] + b) == (a + [s']) + b;
        var asked' := if s.handle == 0 then asked + 1 else asked;
        ManageKeeps(a + [s'], b, tz', offers, asked');
        var w := Manage(b, tz', offers, asked');
        assert a + ([s'] + w.list) == (a + [s']) + w.list;
      }
    }
  }

  // Cleaning up closes every open handle once; entries never opened are closed as handle 0.
  lemma {:induction false} CloseAllCounts(l: seq<Stream>, tz: Tz, h: nat)
    ensures CloseAll(l, tz).given == tz.given && CloseAll(l, tz).closed[h] == tz.closed[h] + Holders(l, h)
  {
    if l != [] {
      CloseAllCounts(l[1..], Close(tz, l[0].handle), h);
    }
  }

  lemma CleanUpKeeps(l: seq<Stream>, tz: Tz)
    requires Kept(l, tz)
    ensures Kept([], CloseAll(l, tz))
  {
    forall h: nat | h != 0 ensures CloseAll(l, tz).given[h] == CloseAll(l, tz).closed[h] {
      CloseAllCounts(l, tz, h);
    }
  }

  /** Over every run of adding, removing, managing and cleaning up, the table mirrors TrustZone: keys are
      unique, inactive entries have a handle, and the handles TrustZone has open are exactly the nonzero
      ones in the table, each held once and closed once for every time it was opened. */
  lemma {:induction false} TableMirrors(ops: seq<Op>, offers: Offers)
    ensures Kept(Run(ops, offers).list, Run(ops, offers).tz)
  {
    if ops != [] {
      hide Kept, Manage, CloseAll;
      var t := Run(ops[..|ops| - 1], offers);
      TableMirrors(ops[..|ops| - 1], offers);
      match ops[|ops| - 1] {
        case AddStreams(ks) => AddAllKeeps(t.list, ks, t.tz);
        case RemoveStreams(ks) => RemoveAllKeeps(t.list, ks, t.tz);
        case ManageStreams =>
          assert [] + t.list == t.list;
          ManageKeeps([], t.list, t.tz, offers, t.asked);
          var w := Manage(t.list, t.tz, offers, t.asked);
          assert [] + w.list == w.list;
        case CleanUp => CleanUpKeeps(t.list, t.tz);
      }
    }
  }

  /** The handles TrustZone has open are those in the table. */
  lemma OpenIffHeld(ops: seq<Op>, offers: Offers, h: nat)
    requires h != 0
    ensures var t := Run(ops, offers);
      IsOpen(t.tz, h) <==> exists i :: 0 <= i < |t.list| && t.list[i].handle == h
  {
    TableMirrors(ops, offers);
    HeldIffHolders(Run(ops, offers).list, h);
  }

  lemma {:induction false} HeldIffHolders(l: seq<Stream>, h: nat)
    ensures Holders(l, h) > 0 <==> exists i :: 0 <= i < |l| && l[i].handle == h
  {
    if l != [] {
      HeldIffHolders(l[1..], h);
      if i :| 0 <= i < |l| && l[i].handle == h {
        assert i == 0 || l[1..][i - 1].handle == h;
      }
    }
  }

  // ----- Asking for a stream again -----

  ghost predicate Active(l: seq<Stream>, k: Key) {
    exists i :: 0 <= i < |l| && l[i].key == k && l[i].active
  }

  /** Adding a stream takes effect exactly when no entry for it is left that waits to be closed: adding
      back a stream whose removal was not managed yet is lost. */
  lemma AddTakesEffect(l: seq<Stream>, k: Key)
    requires KeysUnique(l)
    ensures Active(Add(l, k), k) <==> !(exists i :: 0 <= i < |l| && l[i].key == k && !l[i].active)
  {
    if !Present(l, k) {
      assert Add(l, k)[0] == Stream(k, 0, true);
    }
  }

  lemma AddAfterRemove(l: seq<Stream>, i: nat)
    requires KeysUnique(l) && i < |l|
    ensures Active(Add(Remove(l, l[i].key), l[i].key), l[i].key) <==> l[i].handle == 0
  {
    hide Remove;
    RemoveAt(l, i);
    var k := l[i].key;
    var l' := Remove(l, k);
    if l[i].handle == 0 {
      forall j | 0 <= j < |l'| ensures l'[j].key != k {
        assert l'[j] == l[if j < i then j else j + 1];
      }
      assert Add(l', k)[0] == Stream(k, 0, true);
    } else {
      assert l'[i].key == k && !l'[i].active;
      assert forall j :: 0 <= j < |l'| && j != i ==> l'[j].key != k;
    }
  }

  // ----- What the walk does -----

  // The entries that the walk keeps, in order.
  function Actives(l: seq<Stream>): seq<Stream> {
    if l == [] then [] else (if l[0].active then [l[0]] else []) + Actives(l[1..])
  }

  // The handles of the others.
  function Given(l: seq<Stream>): multiset<nat> {
    if l == [] then multiset{} else (if l[0].active then multiset{} else multiset{l[0].handle}) + Given(l[1..])
  }

  // How many active entries have no handle.
  function Unopened(l: seq<Stream>): nat {
    if l == [] then 0 else (if l[0].active && l[0].handle == 0 then 1 else 0) + Unopened(l[1..])
  }

  // The same entries, but that some without a handle now have one.
  ghost predicate OpenedUp(before: seq<Stream>, after: seq<Stream>) {
    && |after| == |before|
    && forall i :: 0 <= i < |before| ==>
         after[i] == before[i].(handle := after[i].handle) && (before[i].handle != 0 ==> after[i] == before[i])
  }

  /** The walk keeps the active entries in order, closes the handles of the others, each once, asks once for every active
      entry without a handle, and wants the streams managed again exactly if it closed or opened one. */
  lemma {:induction false} ManageDoes(l: seq<Stream>, tz: Tz, offers: Offers, asked: nat)
    ensures var w := Manage(l, tz, offers, asked);
      && OpenedUp(Actives(l), w.list) && w.tz.closed == tz.closed + Given(l) && w.asked == asked + Unopened(l)
      && (w.query <==> Actives(l) != l || w.list != l)
  {
    if l != [] {
      var w := Manage(l, tz, offers, asked);
      var tz' := if !l[0].active then Close(tz, l[0].handle)
                 else if l[0].handle == 0 && Grants(tz, offers(asked)) then Open(tz, offers(asked)) else tz;
      var asked' := if l[0].active && l[0].handle == 0 then asked + 1 else asked;
      ManageDoes(l[1..], tz', offers, asked');
      ActivesAreFewer(l);
      if l[0].active {
        var v := Manage(l[1..], tz', offers, asked');
        OpenedOne(l[0], w.list[0], Actives(l[1..]), v.list);
        SameTail(l, w.list, Actives(l[1..]), v.list);
      }
    }
  }

  lemma {:induction false} ActivesAreFewer(l: seq<Stream>)
    ensures |Actives(l)| <= |l| && (|Actives(l)| == |l| ==> Actives(l) == l)
    ensures l != [] && !l[0].active ==> |Actives(l)| < |l|
  {
    if l != [] {
      ActivesAreFewer(l[1..]);
      assert l == [l[0]] + l[1..];
    }
  }

  lemma OpenedOne(s: Stream, s': Stream, before: seq<Stream>, after: seq<Stream>)
    requires OpenedUp(before, after) && s' == s.(handle := s'.handle) && (s.handle != 0 ==> s' == s)
    ensures OpenedUp([s] + before, [s'] + after)
  {
  }

  lemma SameTail(l: seq<Stream>, list: seq<Stream>, actives: seq<Stream>, rest: seq<Stream>)
    requires l != [] && list != [] && list[1..] == rest
    ensures [l[0]] + actives == l <==> actives == l[1..]
    ensures list == l <==> list[0] == l[0] && rest == l[1..]
  {
    assert l == [l[0]] + l[1..] && list == [list[0]] + list[1..];
    assert ([l[0]] + actives)[1..] == actives;
  }

  // TrustZone offers handles that are not open, and none twice.
  ghost predicate Willing(tz: Tz, offers: Offers, asked: nat) {
    && (forall n: nat :: n >= asked ==> Grants(tz, offers(n)))
    && (forall m: nat, n: nat :: asked <= m < n ==> offers(m) != offers(n))
  }

  /** If TrustZone opens what it is asked to, every entry has a handle after the walk. */
  lemma {:induction false} ManageOpens(l: seq<Stream>, tz: Tz, offers: Offers, asked: nat)
    requires Willing(tz, offers, asked)
    ensures forall i :: 0 <= i < |Manage(l, tz, offers, asked).list| ==> Manage(l, tz, offers, asked).list[i].handle != 0
  {
    if l != [] {
      if !l[0].active {
        StillWilling(tz, Close(tz, l[0].handle), offers, asked, asked);
        ManageOpens(l[1..], Close(tz, l[0].handle), offers, asked);
      } else if l[0].handle == 0 {
        StillWilling(tz, Open(tz, offers(asked)), offers, asked, asked + 1);
        ManageOpens(l[1..], Open(tz, offers(asked)), offers, asked + 1);
      } else {
        ManageOpens(l[1..], tz, offers, asked);
      }
    }
  }

  lemma StillWilling(tz: Tz, tz': Tz, offers: Offers, asked: nat, asked': nat)
    requires Willing(tz, offers, asked) && asked' >= asked
    requires (exists h :: tz' == Close(tz, h) && asked' == asked) || (tz' == Open(tz, offers(asked)) && asked' == asked + 1)
    ensures Willing(tz', offers, asked')
  {
  }

  // ----- The table in place -----

  // stream_count is a u8.
  function Dec(count: nat): (r: nat)
    ensures forall n: nat {:trigger n % 256} :: count == (n + 1) % 256 ==> r == n % 256
  {
    (count + 255) % 256
  }

  function Inc(count: nat): (r: nat)
    ensures forall n: nat {:trigger n % 256} :: count == n % 256 ==> r == (n + 1) % 256
  {
    (count + 1) % 256
  }

  // Whether any of the keys is found as they are removed one after the other.
  predicate Touches(l: seq<Stream>, ks: seq<Key>) {
    ks != [] && (Touches(l, ks[..|ks| - 1]) || Present(RemoveAll(l, ks[..|ks| - 1]), ks[|ks| - 1]))
  }

  // What the walk ends with, when it has come to place `at`.
  ghost function Continue(l: seq<Stream>, at: nat, tz: Tz, offers: Offers, asked: nat, query: bool): Walk
    requires at <= |l|
  {
    var r := Manage(l[at..], tz, offers, asked);
    Walk(l[..at] + r.list, r.tz, r.asked, query || r.query)
  }

  lemma ContinueDrop(l: seq<Stream>, at: nat, tz: Tz, offers: Offers, asked: nat, query: bool)
    requires at < |l| && !l[at].active
    ensures Continue(l[..at] + l[at + 1..], at, Close(tz, l[at].handle), offers, asked, true)
         == Continue(l, at, tz, offers, asked, query)
  {
    var l' := l[..at] + l[at + 1..];
    assert l'[at..] == l[at..][1..] && l'[..at] == l[..at];
  }

  lemma ContinueKeep(l: seq<Stream>, at: nat, tz: Tz, offers: Offers, asked: nat, query: bool)
    requires at < |l| && l[at].active
    ensures
      var ask := l[at].handle == 0;
      var grant := ask && Grants(tz, offers(asked));
      Continue(if grant then l[at := l[at].(handle := offers(asked))] else l, at + 1,
               if grant then Open(tz, offers(asked)) else tz, offers, if ask then asked + 1 else asked, query || grant)
         == Continue(l, at, tz, offers, asked, query)
  {
    var ask := l[at].handle == 0;
    var grant := ask && Grants(tz, offers(asked));
    var l' := if grant then l[at := l[at].(handle := offers(asked))] else l;
    assert l'[at + 1..] == l[at..][1..];
    assert forall t: seq<Stream> :: l'[..at + 1] + t == l[..at] + ([l'[at]] + t);
  }

  lemma ContinueEnd(l: seq<Stream>, tz: Tz, offers: Offers, asked: nat, query: bool)
    ensures Continue(l, |l|, tz, offers, asked, query) == Walk(l, tz, asked, query)
  {
  }

  class StreamTable {
    var list: seq<Stream>
    var count: nat      // u8
    var tz: Tz
    var asked: nat

    ghost predicate Valid()
      reads this
    {
      count == |list| % 256
    }

    function View(): Table
      reads this
    {
      Table(list, tz, asked)
    }

    // sde_hdcp_2x_stream_present: the place of the first entry for the key, or the end of the list
    method StreamPresent(k: Key) returns (i: nat)
      ensures i <= |list| && (i < |list| <==> Present(list, k))
      ensures i < |list| ==> list[i].key == k
      ensures forall j :: 0 <= j < i ==> list[j].key != k
    {
      i := 0;
      while i < |list|
        invariant i <= |list| && forall j :: 0 <= j < i ==> list[j].key != k
      {
        if list[i].key == k { return; }
        i := i + 1;
      }
    }

    method AddStreams(ks: seq<Key>) returns (changed: bool)
      requires Valid()
      modifies this`list, this`count
      ensures Valid() && list == AddAll(old(list), ks)
      ensures changed <==> list != old(list)
    {
      changed := false;
      var i := 0;
      while i < |ks|
        invariant i <= |ks| && Valid() && list == AddAll(old(list), ks[..i])
        invariant |list| >= |old(list)| && (changed <==> |list| > |old(list)|)
        invariant !changed ==> list == old(list)
      {
        assert ks[..i + 1][..i] == ks[..i];
        var at := StreamPresent(ks[i]);
        if at == |list| {
          list := [Stream(ks[i], 0, true)] + list;
          count := Inc(count);
          changed := true;
        }
        i := i + 1;
      }
      assert ks[..|ks|] == ks;
    }

    method RemoveStream(k: Key) returns (changed: bool)
      requires Valid()
      modifies this`list, this`count
      ensures Valid() && list == Remove(old(list), k) && (changed <==> Present(old(list), k))
    {
      var at := StreamPresent(k);
      changed := at < |list|;
      if !changed {
        RemoveAbsent(list, k);
        return;
      }
      RemoveAt(list, at);
      if list[at].handle == 0 {
        count := Dec(count);
        list := list[..at] + list[at + 1..];
      } else {
        list := list[at := list[at].(active := false)];
      }
    }

    method RemoveStreams(ks: seq<Key>) returns (changed: bool)
      requires Valid()
      modifies this`list, this`count
      ensures Valid() && list == RemoveAll(old(list), ks)
      ensures changed <==> Touches(old(list), ks)
    {
      changed := false;
      var i := 0;
      while i < |ks|
        invariant i <= |ks| && Valid() && list == RemoveAll(old(list), ks[..i])
        invariant changed <==> Touches(old(list), ks[..i])
      {
        assert ks[..i + 1][..i] == ks[..i];
        var touched := RemoveStream(ks[i]);
        changed := changed || touched;
        i := i + 1;
      }
      assert ks[..|ks|] == ks;
    }

    // The walk of sde_hdcp_2x_manage_stream: `at` is the entry it has come to.
    method ManageStream(offers: Offers) returns (query: bool)
      requires Valid()
      modifies this
      ensures Valid()
      ensures var w := Manage(old(list), old(tz), offers, old(asked));
        View() == Table(w.list, w.tz, w.asked) && query == w.query
    {
      hide Manage;
      query := false;
      var at := 0;
      ghost var w := Manage(list, tz, offers, asked);
      assert [] + w.list == w.list && list[0..] == list;
      while at < |list|
        invariant at <= |list| && Valid()
        invariant Continue(list, at, tz, offers, asked, query) == w
        decreases |list| - at
      {
        if !list[at].active {
          ContinueDrop(list, at, tz, offers, asked, query);
          tz := Close(tz, list[at].handle);
          count := Dec(count);
          list := list[..at] + list[at + 1..];
          query := true;
        } else {
          ContinueKeep(list, at, tz, offers, asked, query);
          if list[at].handle == 0 {
            var h := offers(asked);
            asked := asked + 1;
            if Grants(tz, h) {
              tz := Open(tz, h);
              list := list[at := list[at].(handle := h)];
              query := true;
            }
          }
          at := at + 1;
        }
      }
      ContinueEnd(list, tz, offers, asked, query);
    }

    // The loop of sde_hdcp_2x_clean
    method Clean()
      requires Valid()
      modifies this
      ensures Valid() && View() == Table([], CloseAll(old(list), old(tz)), old(asked))
    {
      ghost var end := CloseAll(list, tz);
      while list != []
        invariant Valid() && CloseAll(list, tz) == end && asked == old(asked)
        decreases |list|
      {
        var s := list[0];
        list := list[1..];
        tz := Close(tz, s.handle);
        count := Dec(count);
      }
    }
  }
}
