/**
 What every sequence of lease probes, notifications and removals keeps: leases hold disjoint sets of at
 most 64 objects, an explicitly leased connector stays tied to the CRTC leased with it, and leased CRTCs
 keep the primary planes of their lease.
 */
module LeaseProofs {
  import opened LeaseModel
  import opened LeasePrimaries

  ghost predicate Apart(a: seq<Obj>, b: seq<Obj>) {
    forall i, j :: 0 <= i < |a| && 0 <= j < |b| ==> a[i] != b[j]
  }

  ghost predicate Partition(t: Topology, leases: seq<Lease>) {
    && (forall k :: 0 <= k < |leases| ==>
          Distinct(leases[k].ids) && |leases[k].ids| <= MAX_OBJECTS && IdsFit(t, leases[k].ids))
    && (forall j, k :: 0 <= j < k < |leases| ==> Apart(leases[j].ids, leases[k].ids))
  }

  // A connector followed by a CRTC was leased explicitly with it: the CRTC is its encoder's only one.
  ghost predicate PairsHold(t: Topology, possible: seq<set<nat>>, ids: seq<Obj>)
    requires Encodes(t, possible) && IdsFit(t, ids)
  {
    forall i {:trigger ids[i]} :: 0 <= i < |ids| - 1 && ids[i].Connector? && ids[i + 1].Crtc? ==>
      t.encoder[ids[i].index] >= 0 && possible[t.encoder[ids[i].index]] == {ids[i + 1].index}
  }

  ghost predicate AllPairsHold(t: Topology, possible: seq<set<nat>>, leases: seq<Lease>)
    requires Encodes(t, possible)
  {
    forall k :: 0 <= k < |leases| ==> IdsFit(t, leases[k].ids) && PairsHold(t, possible, leases[k].ids)
  }

  // The i-th CRTC of a lease has the i-th plane of the lease as its primary plane.
  ghost predicate HoldsOwn(primary: seq<int>, ids: seq<Obj>) {
    forall i :: 0 <= i < |CrtcsOf(ids)| && i < |PlanesOf(ids)| ==>
      CrtcsOf(ids)[i] < |primary| && primary[CrtcsOf(ids)[i]] == PlanesOf(ids)[i]
  }

  ghost predicate Explicit(l: Lease) {
    l.planes != [] && l.connectors != []
  }

  // A bound lease whose device tree node lists both planes and connectors got planes, and no fewer than CRTCs;
  // one that lists connectors got a CRTC with each.
  ghost predicate Covered(l: Lease) {
    && (Explicit(l) ==>
          && (l.ids != [] ==> |CrtcsOf(l.ids)| <= |PlanesOf(l.ids)|)
          && (l.bound ==> l.ids != []))
    && (l.connectors != [] ==> Paired(l.ids))
  }

  // Every connector is followed by a CRTC.
  ghost predicate Paired(ids: seq<Obj>) {
    forall i {:trigger ids[i]} :: 0 <= i < |ids| && ids[i].Connector? ==> i + 1 < |ids| && ids[i + 1].Crtc?
  }

  ghost predicate Inv(t: Topology, s: Sys) {
    && Fits(t, s.kms) && Matching(s.kms) && Partition(t, s.leases)
    && AllPairsHold(t, s.kms.possible, s.leases)
    && (forall k :: 0 <= k < |s.leases| ==> HoldsOwn(s.kms.primary, s.leases[k].ids) && Covered(s.leases[k]))
  }

  // ----- Gathering -----

  ghost predicate Free(leases: seq<Lease>, ids: seq<Obj>) {
    forall i, k :: 0 <= i < |ids| && 0 <= k < |leases| ==> ids[i] !in leases[k].ids
  }

  // What has been gathered is free, distinct and not too much, and its pairs are tied together.
  ghost predicate Gathered(t: Topology, leases: seq<Lease>, p: Parse) {
    && Encodes(t, p.possible) && IdsFit(t, p.ids)
    && Distinct(p.ids) && |p.ids| <= MAX_OBJECTS && Free(leases, p.ids)
    && PairsHold(t, p.possible, p.ids) && AllPairsHold(t, p.possible, leases)
  }

  // Appending a free plane or connector.
  lemma AppendKeeps(t: Topology, leases: seq<Lease>, p: Parse, o: Obj)
    requires Gathered(t, leases, p) && |p.ids| < MAX_OBJECTS && InDevice(t, o) && !Leased(o, leases, p.ids)
    requires o.Crtc? ==> p.ids == [] || !p.ids[|p.ids| - 1].Connector?
    ensures Gathered(t, leases, p.(ids := p.ids + [o]))
  {
  }

  lemma AddPlaneKeeps(t: Topology, leases: seq<Lease>, p: Parse, name: string)
    requires Gathered(t, leases, p)
    ensures Gathered(t, leases, AddPlane(t, leases, p, name))
  {
    hide Gathered, Leased;
    var i := IndexOf(t.planes, name);
    if |p.ids| < MAX_OBJECTS && i < |t.planes| && !Leased(Plane(i), leases, p.ids) {
      AppendKeeps(t, leases, p, Plane(i));
      SameIds(t, leases, p.(ids := p.ids + [Plane(i)]), AddPlane(t, leases, p, name));
    } else {
      SameIds(t, leases, p, AddPlane(t, leases, p, name));
    }
  }

  lemma SameIds(t: Topology, leases: seq<Lease>, p: Parse, q: Parse)
    requires Gathered(t, leases, p) && q.ids == p.ids && q.possible == p.possible
    ensures Gathered(t, leases, q)
  {
  }

  // Tying an encoder to a free CRTC does not touch an encoder tied to a leased one.
  lemma TyingKeeps(t: Topology, possible: seq<set<nat>>, ids: seq<Obj>, e: nat, c: nat)
    requires Encodes(t, possible) && IdsFit(t, ids) && PairsHold(t, possible, ids)
    requires e < |possible| && c in possible[e] && Crtc(c) !in ids
    ensures PairsHold(t, possible[e := {c}], ids)
  {
  }

  lemma AddConnectorKeeps(t: Topology, leases: seq<Lease>, p: Parse, name: string)
    requires Gathered(t, leases, p)
    ensures Gathered(t, leases, AddConnector(t, leases, p, name))
  {
    var i := IndexOf(t.connectors, name);
    if |p.ids| < MAX_OBJECTS - 1 && i < |t.connectors| && !Leased(Connector(i), leases, p.ids) && t.encoder[i] >= 0 {
      var e := t.encoder[i];
      var c := FirstFree(t.crtcs, p.possible[e], leases, p.ids, 0);
      if c < t.crtcs {
        TieConnector(t, leases, p, i, c);
      }
    }
  }

  lemma TieConnector(t: Topology, leases: seq<Lease>, p: Parse, i: nat, c: nat)
    requires Gathered(t, leases, p) && |p.ids| < MAX_OBJECTS - 1
    requires i < |t.connectors| && !Leased(Connector(i), leases, p.ids) && t.encoder[i] >= 0
    requires c < t.crtcs && c in p.possible[t.encoder[i]] && !Leased(Crtc(c), leases, p.ids)
    ensures Gathered(t, leases, p.(ids := p.ids + [Connector(i), Crtc(c)], possible := p.possible[t.encoder[i] := {c}]))
  {
    var e := t.encoder[i];
    TyingKeeps(t, p.possible, p.ids, e, c);
    forall k | 0 <= k < |leases| ensures PairsHold(t, p.possible[e := {c}], leases[k].ids) {
      TyingKeeps(t, p.possible, leases[k].ids, e, c);
    }
    var tied := p.(possible := p.possible[e := {c}]);
    assert Gathered(t, leases, tied);
    var ids := p.ids + [Connector(i), Crtc(c)];
    assert forall j :: 0 <= j < |p.ids| ==> ids[j] == p.ids[j];
    assert PairsHold(t, tied.possible, ids);
  }

  lemma {:induction false} AddPlanesKeep(t: Topology, leases: seq<Lease>, p: Parse, names: seq<string>)
    requires Gathered(t, leases, p)
    ensures Gathered(t, leases, AddPlanes(t, leases, p, names))
    decreases |names|
  {
    hide Gathered, AddPlane;
    if names != [] && p.error == NoError {
      AddPlaneKeeps(t, leases, p, names[0]);
      AddPlanesKeep(t, leases, AddPlane(t, leases, p, names[0]), names[1..]);
    }
  }

  lemma {:induction false} AddConnectorsKeep(t: Topology, leases: seq<Lease>, p: Parse, names: seq<string>)
    requires Encodes(t, p.possible) && Gathered(t, leases, p)
    ensures Gathered(t, leases, AddConnectors(t, leases, p, names))
    decreases |names|
  {
    hide Gathered, AddConnector;
    if names != [] && p.error == NoError {
      AddConnectorKeeps(t, leases, p, names[0]);
      AddConnectorsKeep(t, leases, AddConnector(t, leases, p, names[0]), names[1..]);
    }
  }

  // ----- How many planes and CRTCs -----

  lemma OfSnoc(ids: seq<Obj>, o: Obj)
    ensures PlanesOf(ids + [o]) == PlanesOf(ids) + if o.Plane? then [o.index] else []
    ensures CrtcsOf(ids + [o]) == CrtcsOf(ids) + if o.Crtc? then [o.index] else []
  {
    assert (ids + [o])[..|ids|] == ids;
  }

  lemma {:induction false} PlanesCount(t: Topology, leases: seq<Lease>, p: Parse, names: seq<string>)
    requires |PlanesOf(p.ids)| == |p.ids| && CrtcsOf(p.ids) == []
    ensures var r := AddPlanes(t, leases, p, names); |PlanesOf(r.ids)| == |r.ids| && CrtcsOf(r.ids) == []
    decreases |names|
  {
    if names != [] && p.error == NoError {
      OfSnoc(p.ids, Plane(IndexOf(t.planes, names[0])));
      PlanesCount(t, leases, AddPlane(t, leases, p, names[0]), names[1..]);
    }
  }

  lemma {:induction false} ConnectorsCount(t: Topology, leases: seq<Lease>, p: Parse, names: seq<string>)
    requires Encodes(t, p.possible) && p.error == NoError
    ensures var r := AddConnectors(t, leases, p, names);
      && |PlanesOf(r.ids)| == |PlanesOf(p.ids)| && p.ids <= r.ids
      && (r.error == NoError ==> |CrtcsOf(r.ids)| == |CrtcsOf(p.ids)| + |names|)
    decreases |names|
  {
    if names != [] {
      var q := AddConnector(t, leases, p, names[0]);
      if q.error == NoError {
        var i := IndexOf(t.connectors, names[0]);
        var c := FirstFree(t.crtcs, p.possible[t.encoder[i]], leases, p.ids, 0);
        OfSnoc(p.ids, Connector(i));
        OfSnoc(p.ids + [Connector(i)], Crtc(c));
        assert p.ids + [Connector(i), Crtc(c)] == p.ids + [Connector(i)] + [Crtc(c)];
        ConnectorsCount(t, leases, q, names[1..]);
      }
    }
  }

  lemma {:induction false} ConnectorsPaired(t: Topology, leases: seq<Lease>, p: Parse, names: seq<string>)
    requires Encodes(t, p.possible) && Paired(p.ids)
    ensures Paired(AddConnectors(t, leases, p, names).ids)
    decreases |names|
  {
    if names != [] && p.error == NoError {
      ConnectorsPaired(t, leases, AddConnector(t, leases, p, names[0]), names[1..]);
    }
  }

  lemma {:induction false} PlanesPaired(t: Topology, leases: seq<Lease>, p: Parse, names: seq<string>)
    requires OnlyPlanes(p.ids)
    ensures Paired(AddPlanes(t, leases, p, names).ids)
  {
    AddPlanesOnly(t, leases, p, names);
  }

  lemma NothingGathered(t: Topology, s: Sys)
    requires Inv(t, s)
    ensures Gathered(t, s.leases, Parse(NoError, [], s.kms.possible))
  {
  }

  lemma {:induction false} ParseKeeps(t: Topology, s: Sys, k: nat)
    requires Inv(t, s) && k < |s.leases|
    ensures var p := ParseObjs(t, s.leases, s.leases[k], s.kms.possible);
      && Gathered(t, s.leases, p)
      && (p.error == NoError ==> Covered(s.leases[k].(bound := true, ids := p.ids)))
  {
    hide Gathered, Covered, HoldsOwn, Matching, Partition, AllPairsHold;
    var l, none := s.leases[k], Parse(NoError, [], s.kms.possible);
    NothingGathered(t, s);
    var p := AddPlanes(t, s.leases, none, l.planes);
    AddPlanesKeep(t, s.leases, none, l.planes);
    if p.error == NoError {
      AddConnectorsKeep(t, s.leases, p, l.connectors);
      SameIds(t, s.leases, p, p.(error := Einval));
      ParseCovers(t, s.leases, l, none);
    }
  }

  lemma ParseCovers(t: Topology, leases: seq<Lease>, l: Lease, none: Parse)
    requires Encodes(t, none.possible) && none == Parse(NoError, [], none.possible)
    ensures var p := ParseObjs(t, leases, l, none.possible);
      p.error == NoError ==> Covered(l.(bound := true, ids := p.ids))
  {
    var p := AddPlanes(t, leases, none, l.planes);
    PlanesCount(t, leases, none, l.planes);
    PlanesPaired(t, leases, none, l.planes);
    if p.error == NoError {
      ConnectorsCount(t, leases, p, l.connectors);
      ConnectorsPaired(t, leases, p, l.connectors);
    }
  }

  // ----- The remaining objects -----

  lemma {:induction false} RestPlanesKeep(t: Topology, leases: seq<Lease>, p: Parse, i: nat)
    requires i <= |t.planes| && Gathered(t, leases, p) && OnlyPlanes(p.ids)
    ensures var r := RestPlanes(t, leases, p.ids, i); Gathered(t, leases, p.(ids := r)) && OnlyPlanes(r)
    decreases |t.planes| - i
  {
    hide Gathered, Leased;
    if i < |t.planes| && |p.ids| < MAX_OBJECTS {
      if Leased(Plane(i), leases, p.ids) {
        RestPlanesKeep(t, leases, p, i + 1);
      } else {
        AppendKeeps(t, leases, p, Plane(i));
        RestPlanesKeep(t, leases, p.(ids := p.ids + [Plane(i)]), i + 1);
      }
    }
  }

  ghost predicate OnlyPlanes(ids: seq<Obj>) {
    forall i :: 0 <= i < |ids| ==> ids[i].Plane?
  }

  ghost predicate NoConnectors(ids: seq<Obj>) {
    forall i :: 0 <= i < |ids| ==> !ids[i].Connector?
  }

  lemma {:induction false} AddPlanesOnly(t: Topology, leases: seq<Lease>, p: Parse, names: seq<string>)
    requires OnlyPlanes(p.ids)
    ensures OnlyPlanes(AddPlanes(t, leases, p, names).ids)
    decreases |names|
  {
    if names != [] && p.error == NoError {
      AddPlanesOnly(t, leases, AddPlane(t, leases, p, names[0]), names[1..]);
    }
  }

  lemma {:induction false} RestCrtcsKeep(t: Topology, k: Kms, leases: seq<Lease>, p: Parse, dedicated: bool, c: nat)
    requires c <= t.crtcs == |k.primary| && |k.possible| == |t.virtuals|
    requires Gathered(t, leases, p) && NoConnectors(p.ids)
    ensures var r := RestCrtcs(t, k, leases, p.ids, dedicated, c); Gathered(t, leases, p.(ids := r)) && NoConnectors(r)
    decreases t.crtcs - c
  {
    hide Gathered, Leased, Shared;
    if c < t.crtcs && |p.ids| < MAX_OBJECTS {
      if Leased(Crtc(c), leases, p.ids) || (dedicated && Shared(t, k.possible, c)) || k.primary[c] < 0 {
        RestCrtcsKeep(t, k, leases, p, dedicated, c + 1);
      } else {
        AppendKeeps(t, leases, p, Crtc(c));
        RestCrtcsKeep(t, k, leases, p.(ids := p.ids + [Crtc(c)]), dedicated, c + 1);
      }
    }
  }

  lemma {:induction false} RestConnectorsKeep(t: Topology, leases: seq<Lease>, p: Parse, upTo: seq<Obj>, i: nat)
    requires i <= |t.connectors| && Encodes(t, p.possible) && Gathered(t, leases, p)
    ensures Gathered(t, leases, p.(ids := RestConnectors(t, p.possible, leases, p.ids, upTo, i)))
    decreases |t.connectors| - i
  {
    hide Gathered, Leased, Reaches;
    if i < |t.connectors| && |p.ids| < MAX_OBJECTS {
      if Leased(Connector(i), leases, p.ids) || t.encoder[i] < 0 || !Reaches(p.possible[t.encoder[i]], upTo) {
        RestConnectorsKeep(t, leases, p, upTo, i + 1);
      } else {
        AppendKeeps(t, leases, p, Connector(i));
        RestConnectorsKeep(t, leases, p.(ids := p.ids + [Connector(i)]), upTo, i + 1);
      }
    }
  }

  lemma GatherKeeps(t: Topology, s: Sys, l: Lease)
    requires Inv(t, s)
    ensures Gathered(t, s.leases, Gather(t, s.kms, s.leases, l))
  {
    hide Gathered, Covered, HoldsOwn, Matching, Partition, AllPairsHold, Leased, Shared;
    var none := Parse(NoError, [], s.kms.possible);
    NothingGathered(t, s);
    RestPlanesKeep(t, s.leases, none, 0);
    AddPlanesKeep(t, s.leases, none, l.planes);
    AddPlanesOnly(t, s.leases, none, l.planes);
    var q := AddPlanes(t, s.leases, none, l.planes);
    SameIds(t, s.leases, q, q.(error := NoError));
    var p := if l.planes == [] then none.(ids := RestPlanes(t, s.leases, [], 0)) else q.(error := NoError);
    if l.connectors != [] {
      AddConnectorsKeep(t, s.leases, p, l.connectors);
    } else {
      RestCrtcsKeep(t, s.kms, s.leases, p, true, 0);
      var p1 := p.(ids := RestCrtcs(t, s.kms, s.leases, p.ids, true, 0));
      RestCrtcsKeep(t, s.kms, s.leases, p1, false, 0);
      var p2 := p1.(ids := RestCrtcs(t, s.kms, s.leases, p1.ids, false, 0));
      RestConnectorsKeep(t, s.leases, p2, p2.ids, 0);
    }
  }

  // A lease of the remaining objects that names connectors got a CRTC with each.
  lemma GatherPairs(t: Topology, s: Sys, l: Lease)
    requires Inv(t, s) && l.connectors != []
    ensures Paired(Gather(t, s.kms, s.leases, l).ids)
  {
    hide Gathered, Covered, HoldsOwn, Matching, Partition, AllPairsHold, Leased, Shared;
    var none := Parse(NoError, [], s.kms.possible);
    NothingGathered(t, s);
    RestPlanesKeep(t, s.leases, none, 0);
    PlanesPaired(t, s.leases, none, l.planes);
    var p := if l.planes == [] then none.(ids := RestPlanes(t, s.leases, [], 0))
             else AddPlanes(t, s.leases, none, l.planes).(error := NoError);
    ConnectorsPaired(t, s.leases, p, l.connectors);
  }

  // ----- Steps -----

  // Handing primary planes round for freshly gathered objects leaves every other lease its own.
  lemma OthersHold(k: Kms, k': Kms, ids: seq<Obj>, other: seq<Obj>)
    requires Distinct(other) && Apart(ids, other) && HoldsOwn(k.primary, other) && |k'.primary| == |k.primary|
    requires Distinct(ids)
    requires forall c :: 0 <= c < |k.primary| && c !in CrtcsOf(ids) && k.primary[c] >= 0 && k.primary[c] !in PlanesOf(ids)
               ==> k'.primary[c] == k.primary[c]
    ensures HoldsOwn(k'.primary, other)
  {
    OfDistinct(ids);
    OfDistinct(other);
    forall i | 0 <= i < |CrtcsOf(other)| && i < |PlanesOf(other)|
      ensures CrtcsOf(other)[i] < |k'.primary| && k'.primary[CrtcsOf(other)[i]] == PlanesOf(other)[i]
    {
      var c, p := CrtcsOf(other)[i], PlanesOf(other)[i];
      assert c in CrtcsOf(other) && p in PlanesOf(other);
      assert Crtc(c) in other && Plane(p) in other;
      assert c !in CrtcsOf(ids) && p !in PlanesOf(ids);
    }
  }

  lemma GrantPartition(t: Topology, leases: seq<Lease>, k: nat, l: Lease, p: Parse)
    requires Partition(t, leases) && k < |leases| && Gathered(t, leases, p) && l.ids == p.ids
    ensures Partition(t, leases[k := l])
    ensures AllPairsHold(t, p.possible, leases[k := l])
  {
  }

  lemma GrantPrimaries(t: Topology, s: Sys, k: nat, p: Parse)
    requires Inv(t, s) && k < |s.leases| && Gathered(t, s.leases, p) && |p.possible| == |s.kms.possible|
    ensures var r := Grant(t, s, k, p);
      && Matching(r.kms)
      && forall j :: 0 <= j < |r.leases| ==> HoldsOwn(r.kms.primary, r.leases[j].ids)
  {
    hide Matching, Fixup, HoldsOwn, AllPairsHold, PairsHold, Covered, NonCursor;
    var k0 := s.kms.(possible := p.possible);
    OfInRange(t, k0, p.ids);
    SameMatching(s.kms, k0);
    FixupKeeps(k0, p.ids);
    var r := Grant(t, s, k, p);
    forall j | 0 <= j < |r.leases| ensures HoldsOwn(r.kms.primary, r.leases[j].ids) {
      if j == k {
        OwnHolds(r.kms, p.ids, k0);
      } else {
        OthersHold(k0, r.kms, p.ids, s.leases[j].ids);
      }
    }
  }

  lemma SameMatching(k: Kms, k': Kms)
    requires Matching(k) && k'.types == k.types && k'.primary == k.primary
    ensures Matching(k')
  {
    assert forall p :: Used(k, p) ==> Used(k', p);
  }

  lemma OwnHolds(k: Kms, ids: seq<Obj>, k0: Kms)
    requires |k.primary| == |k0.primary| && InRange(k0, PlanesOf(ids), CrtcsOf(ids))
    requires forall i :: 0 <= i < |PlanesOf(ids)| && i < |CrtcsOf(ids)| ==> k.primary[CrtcsOf(ids)[i]] == PlanesOf(ids)[i]
    ensures HoldsOwn(k.primary, ids)
  {
  }

  lemma GrantKeeps(t: Topology, s: Sys, k: nat, p: Parse)
    requires Inv(t, s) && k < |s.leases| && Gathered(t, s.leases, p) && |p.possible| == |s.kms.possible|
    requires Covered(s.leases[k].(bound := true, ids := p.ids))
    ensures Inv(t, Grant(t, s, k, p))
  {
    hide Matching, Fixup, HoldsOwn, Covered;
    GrantPrimaries(t, s, k, p);
    GrantPartition(t, s.leases, k, s.leases[k].(bound := true, ids := p.ids), p);
  }

  lemma GrantRestKeeps(t: Topology, s: Sys)
    requires Inv(t, s)
    ensures Inv(t, GrantRest(t, s))
  {
    hide Matching, HoldsOwn, Partition, AllPairsHold, Gathered, Grant, Gather;
    var k := Target(s.leases);
    if k >= 0 {
      assert Covered(s.leases[k]);
      GatherKeeps(t, s, s.leases[k]);
      if s.leases[k].connectors != [] {
        GatherPairs(t, s, s.leases[k]);
      }
      GrantKeeps(t, s, k, Gather(t, s.kms, s.leases, s.leases[k]));
    }
  }

  lemma NarrowedKeeps(t: Topology, s: Sys, p: Parse)
    requires Inv(t, s) && Gathered(t, s.leases, p) && |p.possible| == |s.kms.possible|
    ensures Inv(t, s.(kms := s.kms.(possible := p.possible)))
  {
    SameMatching(s.kms, s.kms.(possible := p.possible));
  }

  lemma {:induction false} NotifiedKeeps(t: Topology, s: Sys, k: nat, alloc: bool, register: bool)
    requires Inv(t, s) && k < |s.leases|
    ensures Inv(t, Notified(t, s, k, alloc, register))
  {
    hide Matching, HoldsOwn, Partition, AllPairsHold, Gathered, Grant, GrantRest, ParseObjs, Covered;
    var p := ParseObjs(t, s.leases, s.leases[k], s.kms.possible);
    ParseKeeps(t, s, k);
    if p.error != NoError || !alloc {
      NarrowedKeeps(t, s, p);
    } else {
      GrantKeeps(t, s, k, p);
      GrantRestKeeps(t, Grant(t, s, k, p));
    }
  }

  lemma {:induction false} StepKeeps(t: Topology, s: Sys, op: Op)
    requires Inv(t, s)
    ensures Inv(t, Step(t, s, op))
  {
    hide Matching, Notified, Fits;
    match op {
      case Probe(planes, connectors) => ProbeKeeps(t, s, Lease(planes, connectors, false, []));
      case Notify(k, alloc, register) => if k < |s.leases| { NotifiedKeeps(t, s, k, alloc, register); }
      case Unbind(k) => if k < |s.leases| { UnbindKeeps(t, s, k); }
    }
  }

  lemma ProbeKeeps(t: Topology, s: Sys, l: Lease)
    requires Inv(t, s) && l.ids == [] && !l.bound
    ensures Inv(t, s.(leases := s.leases + [l]))
  {
    hide Matching;
  }

  lemma UnbindKeeps(t: Topology, s: Sys, k: nat)
    requires Inv(t, s) && k < |s.leases|
    ensures Inv(t, s.(leases := s.leases[..k] + s.leases[k + 1..]))
  {
    hide Matching, HoldsOwn, Covered, PairsHold;
    var after := s.leases[..k] + s.leases[k + 1..];
    assert forall j :: 0 <= j < |after| ==> after[j] == s.leases[if j < k then j else j + 1];
  }

  lemma {:induction false} RunKeeps(t: Topology, k0: Kms, ops: seq<Op>)
    requires Fits(t, k0) && Matching(k0)
    ensures Inv(t, Run(t, k0, ops))
  {
    if ops != [] {
      RunKeeps(t, k0, ops[..|ops| - 1]);
      StepKeeps(t, Run(t, k0, ops[..|ops| - 1]), ops[|ops| - 1]);
    }
  }

  // ----- The main results -----

  /** After any sequence of probes, notifications and removals no object is in two leases or twice in one,
      and no lease holds more than 64. */
  lemma {:induction false} LeasesPartition(t: Topology, k0: Kms, ops: seq<Op>)
    requires Fits(t, k0) && Matching(k0)
    ensures Partition(t, Run(t, k0, ops).leases)
  {
    RunKeeps(t, k0, ops);
  }

  /** Planes of type PRIMARY stay in one-to-one correspondence with the CRTCs that have a primary plane. */
  lemma {:induction false} PrimariesMatch(t: Topology, k0: Kms, ops: seq<Op>)
    requires Fits(t, k0) && Matching(k0)
    ensures Matching(Run(t, k0, ops).kms)
  {
    RunKeeps(t, k0, ops);
  }

  /** A connector leased by name has a CRTC leased with it, and for as long as the lease lasts its encoder can
      drive that CRTC and no other. */
  lemma ConnectorsStayTied(t: Topology, k0: Kms, ops: seq<Op>, k: nat, n: nat)
    requires Fits(t, k0) && Matching(k0)
    requires var s := Run(t, k0, ops); k < |s.leases| && s.leases[k].connectors != [] && Connector(n) in s.leases[k].ids
    ensures var s := Run(t, k0, ops);
      && n < |t.encoder| && 0 <= t.encoder[n] < |s.kms.possible|
      && exists c: nat :: Crtc(c) in s.leases[k].ids && s.kms.possible[t.encoder[n]] == {c}
  {
    RunKeeps(t, k0, ops);
    var s := Run(t, k0, ops);
    var c, i := TiedTo(t, s, k, n);
  }

  // The CRTC that comes after the connector.
  lemma TiedTo(t: Topology, s: Sys, k: nat, n: nat) returns (c: nat, i: nat)
    requires Inv(t, s) && k < |s.leases| && s.leases[k].connectors != [] && Connector(n) in s.leases[k].ids
    ensures n < |t.encoder| && 0 <= t.encoder[n] < |s.kms.possible| && s.kms.possible[t.encoder[n]] == {c}
    ensures i + 1 < |s.leases[k].ids| && s.leases[k].ids[i] == Connector(n) && s.leases[k].ids[i + 1] == Crtc(c)
  {
    var ids := s.leases[k].ids;
    i :| 0 <= i < |ids| && ids[i] == Connector(n);
    assert Covered(s.leases[k]) && PairsHold(t, s.kms.possible, ids) && InDevice(t, ids[i]);
    c := ids[i + 1].index;
  }

  /** Two connectors leased by name, in the same lease or in two, never share a CRTC. */
  lemma {:induction false} TiedCrtcsDiffer(t: Topology, k0: Kms, ops: seq<Op>, k: nat, n: nat, j: nat, m: nat)
    requires Fits(t, k0) && Matching(k0) && n != m
    requires var s := Run(t, k0, ops);
      && k < |s.leases| && s.leases[k].connectors != [] && Connector(n) in s.leases[k].ids
      && j < |s.leases| && s.leases[j].connectors != [] && Connector(m) in s.leases[j].ids
    ensures var s := Run(t, k0, ops);
      && n < |t.encoder| && 0 <= t.encoder[n] < |s.kms.possible| && m < |t.encoder| && 0 <= t.encoder[m] < |s.kms.possible|
      && s.kms.possible[t.encoder[n]] !! s.kms.possible[t.encoder[m]]
  {
    hide AllPairsHold, Matching, HoldsOwn, Covered;
    RunKeeps(t, k0, ops);
    var s := Run(t, k0, ops);
    var c, i := TiedTo(t, s, k, n);
    var d, h := TiedTo(t, s, j, m);
    if c == d {
      OnePlace(t, s.leases, k, i, j, h);
    }
  }

  // What comes next has one place in one lease.
  lemma OnePlace(t: Topology, leases: seq<Lease>, k: nat, i: nat, j: nat, h: nat)
    requires Partition(t, leases) && k < |leases| && j < |leases| && i + 1 < |leases[k].ids| && h + 1 < |leases[j].ids|
    requires leases[k].ids[i + 1] == leases[j].ids[h + 1]
    ensures k == j && i == h
  {
    assert k < j ==> Apart(leases[k].ids, leases[j].ids);
    assert j < k ==> Apart(leases[j].ids, leases[k].ids);
  }

  /** Every CRTC of a lease that names its planes and connectors has a primary plane from that lease, whatever
      is leased later. */
  lemma {:induction false} ExplicitCrtcsHavePrimaries(t: Topology, k0: Kms, ops: seq<Op>, k: nat, c: nat)
    requires Fits(t, k0) && Matching(k0)
    requires var s := Run(t, k0, ops); k < |s.leases| && Explicit(s.leases[k]) && Crtc(c) in s.leases[k].ids
    ensures var s := Run(t, k0, ops);
      c < |s.kms.primary| && exists p: nat :: s.kms.primary[c] == p && Plane(p) in s.leases[k].ids
  {
    RunKeeps(t, k0, ops);
    var s := Run(t, k0, ops);
    var ids := s.leases[k].ids;
    OfDistinct(ids);
    assert c in CrtcsOf(ids);
    assert HoldsOwn(s.kms.primary, ids) && Covered(s.leases[k]);
    var i :| 0 <= i < |CrtcsOf(ids)| && CrtcsOf(ids)[i] == c;
    assert PlanesOf(ids)[i] in PlanesOf(ids);
  }

  // ----- Every CRTC has a primary plane -----

  // Planes enough there stay; and once anything is leased, every CRTC has a primary plane.
  ghost predicate Supplied(s: Sys) {
    Enough(s.kms) && ((exists k :: 0 <= k < |s.leases| && s.leases[k].ids != []) ==> Full(s.kms))
  }

  lemma GrantSupplies(t: Topology, s: Sys, k: nat, p: Parse)
    requires Inv(t, s) && k < |s.leases| && Gathered(t, s.leases, p) && |p.possible| == |s.kms.possible|
    requires Supplied(s)
    ensures Supplied(Grant(t, s, k, p))
  {
    hide Matching, HoldsOwn, PairsHold, Covered, Fixup;
    var k0 := s.kms.(possible := p.possible);
    OfInRange(t, k0, p.ids);
    SameMatching(s.kms, k0);
    FixupKeeps(k0, p.ids);
    var r := Grant(t, s, k, p);
    EnoughStays(k0, r.kms);
    if p.ids == [] {
      NothingGranted(k0);
      if j :| 0 <= j < |r.leases| && r.leases[j].ids != [] {
        assert s.leases[j].ids != [];
      }
    }
  }

  lemma NothingGranted(k: Kms)
    requires PrimariesFit(k)
    ensures InRange(k, PlanesOf([]), CrtcsOf([])) && Fixup(k, []) == k
  {
  }

  lemma {:induction false} StepSupplies(t: Topology, s: Sys, op: Op)
    requires Inv(t, s) && Supplied(s)
    ensures Supplied(Step(t, s, op))
  {
    hide Matching, HoldsOwn, PairsHold, Grant, ParseObjs, Gather, Gathered, Partition, AllPairsHold, Full, Enough, Fits;
    match op {
      case Probe(planes, connectors) =>
        SameLeases(s.leases, s.leases + [Lease(planes, connectors, false, [])]);
      case Notify(k, alloc, register) =>
        if k < |s.leases| {
          NotifiedSupplies(t, s, k, alloc, register);
        }
      case Unbind(k) =>
        if k < |s.leases| {
          SameLeases(s.leases, s.leases[..k] + s.leases[k + 1..]);
        }
    }
  }

  lemma SameLeases(a: seq<Lease>, b: seq<Lease>)
    requires forall k :: 0 <= k < |b| && b[k].ids != [] ==> b[k] in a
    ensures (exists k :: 0 <= k < |b| && b[k].ids != []) ==> (exists k :: 0 <= k < |a| && a[k].ids != [])
  {
  }

  lemma {:induction false} NotifiedSupplies(t: Topology, s: Sys, k: nat, alloc: bool, register: bool)
    requires Inv(t, s) && Supplied(s) && k < |s.leases|
    ensures Supplied(Notified(t, s, k, alloc, register))
  {
    hide Matching, HoldsOwn, PairsHold, Grant, ParseObjs, Gather, Gathered, Partition, AllPairsHold;
    var p := ParseObjs(t, s.leases, s.leases[k], s.kms.possible);
    ParseKeeps(t, s, k);
    if p.error == NoError && alloc {
      GrantSupplies(t, s, k, p);
      GrantKeeps(t, s, k, p);
      var s1 := Grant(t, s, k, p);
      var k1 := Target(s1.leases);
      if k1 >= 0 {
        GatherKeeps(t, s1, s1.leases[k1]);
        GrantSupplies(t, s1, k1, Gather(t, s1.kms, s1.leases, s1.leases[k1]));
      }
    }
  }

  /** If the planes that are not cursors are at least as many as the CRTCs, then in every state with anything
      leased, every CRTC of the device has a primary plane. */
  lemma {:induction false} EveryCrtcHasPrimary(t: Topology, k0: Kms, ops: seq<Op>)
    requires Fits(t, k0) && Matching(k0) && Enough(k0)
    ensures Supplied(Run(t, k0, ops))
  {
    if ops != [] {
      EveryCrtcHasPrimary(t, k0, ops[..|ops| - 1]);
      RunKeeps(t, k0, ops[..|ops| - 1]);
      StepSupplies(t, Run(t, k0, ops[..|ops| - 1]), ops[|ops| - 1]);
    }
  }

  // ----- Failed notifications -----

  // The connector's encoder could drive only one CRTC anyway.
  ghost predicate Narrow(t: Topology, possible: seq<set<nat>>, n: nat) {
    n < |t.encoder| && 0 <= t.encoder[n] < |possible| && |possible[t.encoder[n]]| == 1
  }

  ghost predicate AllNarrow(t: Topology, possible: seq<set<nat>>, ids: seq<Obj>, start: nat) {
    forall i :: start <= i < |ids| && ids[i].Connector? ==> Narrow(t, possible, ids[i].index)
  }

  lemma OnlyOne(s: set<nat>, c: nat)
    requires c in s
    ensures |s| == 1 <==> s == {c}
  {
    if |s| == 1 {
      assert |s - {c}| == 0;
    }
  }

  // Gathering connectors leaves the masks alone exactly when each connector it gathers had a single CRTC.
  lemma {:induction false} GatheringNarrowsIff(t: Topology, leases: seq<Lease>, p: Parse, names: seq<string>)
    requires Encodes(t, p.possible) && Gathered(t, leases, p)
    ensures var r := AddConnectors(t, leases, p, names);
      p.ids <= r.ids && (r.possible == p.possible <==> AllNarrow(t, p.possible, r.ids, |p.ids|))
    decreases |names|
  {
    hide Gathered, AddConnector, Distinct;
    if names != [] && p.error == NoError {
      var q, r := AddConnector(t, leases, p, names[0]), AddConnectors(t, leases, p, names);
      AddConnectorKeeps(t, leases, p, names[0]);
      GatheringNarrowsIff(t, leases, q, names[1..]);
      AddConnectorsKeep(t, leases, q, names[1..]);
      OneNarrowsIff(t, leases, p, names[0], r);
    }
  }

  // One connector, and what gathering the others made of it.
  lemma OneNarrowsIff(t: Topology, leases: seq<Lease>, p: Parse, name: string, r: Parse)
    requires Encodes(t, p.possible)
    requires var q := AddConnector(t, leases, p, name);
      && q.ids <= r.ids && Gathered(t, leases, r) && |r.possible| == |p.possible|
      && (r.possible == q.possible <==> AllNarrow(t, q.possible, r.ids, |q.ids|))
    ensures p.ids <= r.ids && (r.possible == p.possible <==> AllNarrow(t, p.possible, r.ids, |p.ids|))
  {
    var q, n := AddConnector(t, leases, p, name), |p.ids|;
    if q.ids != p.ids {
      var i := IndexOf(t.connectors, name);
      var e := t.encoder[i];
      var c := FirstFree(t.crtcs, p.possible[e], leases, p.ids, 0);
      OnlyOne(p.possible[e], c);
      assert r.ids[n] == q.ids[n] == Connector(i) && r.ids[n + 1] == q.ids[n + 1] == Crtc(c);
      assert r.possible[e] == {c};
      if |p.possible[e]| == 1 {
        assert q.possible == p.possible;
      } else {
        assert !Narrow(t, p.possible, r.ids[n].index);
      }
    }
  }

  // How many of the names are gathered before one fails: it is unknown or already leased, it has no encoder, its
  // encoder no free CRTC, or there are too many objects.
  function NamesGathered(t: Topology, leases: seq<Lease>, p: Parse, names: seq<string>): (n: nat)
    requires Encodes(t, p.possible)
    ensures n <= |names|
    decreases |names|
  {
    if names == [] then 0
    else
      var q := AddConnector(t, leases, p, names[0]);
      if q.error != NoError then 0 else 1 + NamesGathered(t, leases, q, names[1..])
  }

  // The connectors of the list before the first name that fails, none when the planes already do.
  function NamedBefore(t: Topology, leases: seq<Lease>, l: Lease, possible: seq<set<nat>>): seq<string>
    requires Encodes(t, possible)
  {
    var p := AddPlanes(t, leases, Parse(NoError, [], possible), l.planes);
    if l.planes == [] || p.error != NoError || |l.connectors| > |p.ids| then []
    else l.connectors[..NamesGathered(t, leases, p, l.connectors)]
  }

  ghost predicate NamesNarrow(t: Topology, possible: seq<set<nat>>, names: seq<string>) {
    forall j :: 0 <= j < |names| ==> Narrow(t, possible, IndexOf(t.connectors, names[j]))
  }

  // From `start` on, the ids are the first n named connectors, each with a CRTC after it.
  ghost predicate NamedAt(t: Topology, ids: seq<Obj>, start: nat, names: seq<string>, n: nat)
    requires n <= |names| && |ids| == start + 2 * n
  {
    forall j :: 0 <= j < n ==>
      ids[start + 2 * j] == Connector(IndexOf(t.connectors, names[j])) && ids[start + 2 * j + 1].Crtc?
  }

  lemma NamedFirst(t: Topology, ids: seq<Obj>, start: nat, names: seq<string>, n: nat)
    requires 0 < n <= |names| && |ids| == start + 2 * n && NamedAt(t, ids, start + 2, names[1..], n - 1)
    requires ids[start] == Connector(IndexOf(t.connectors, names[0])) && ids[start + 1].Crtc?
    ensures NamedAt(t, ids, start, names, n)
  {
    forall j | 0 <= j < n
      ensures ids[start + 2 * j] == Connector(IndexOf(t.connectors, names[j])) && ids[start + 2 * j + 1].Crtc?
    {
      if j > 0 {
        assert names[1..][j - 1] == names[j] && ids[start + 2 + 2 * (j - 1)] == ids[start + 2 * j];
      }
    }
  }

  // The connectors gathered are the named ones.
  lemma {:induction false} GatheredAreNamed(t: Topology, leases: seq<Lease>, p: Parse, names: seq<string>)
    requires Encodes(t, p.possible) && p.error == NoError
    ensures var r, n := AddConnectors(t, leases, p, names), NamesGathered(t, leases, p, names);
      p.ids <= r.ids && |r.ids| == |p.ids| + 2 * n && NamedAt(t, r.ids, |p.ids|, names, n)
    decreases |names|
  {
    hide NamedAt, IndexOf, FirstFree, Leased;
    if names == [] {
      NothingNamed(t, p.ids);
    } else {
      var q := AddConnector(t, leases, p, names[0]);
      if q.error == NoError {
        GatheredAreNamed(t, leases, q, names[1..]);
        var r, n := AddConnectors(t, leases, p, names), NamesGathered(t, leases, p, names);
        assert r.ids[|p.ids|] == q.ids[|p.ids|] && r.ids[|p.ids| + 1] == q.ids[|p.ids| + 1];
        NamedFirst(t, r.ids, |p.ids|, names, n);
      } else {
        NothingNamed(t, p.ids);
      }
    }
  }

  lemma NothingNamed(t: Topology, ids: seq<Obj>)
    ensures forall names :: NamedAt(t, ids, |ids|, names, 0)
  {
  }

  lemma {:induction false} NarrowByName(t: Topology, leases: seq<Lease>, p: Parse, names: seq<string>)
    requires Encodes(t, p.possible) && p.error == NoError
    ensures AllNarrow(t, p.possible, AddConnectors(t, leases, p, names).ids, |p.ids|)
            <==> NamesNarrow(t, p.possible, names[..NamesGathered(t, leases, p, names)])
  {
    hide Narrow, AddConnectors, NamesGathered;
    var r, n := AddConnectors(t, leases, p, names), NamesGathered(t, leases, p, names);
    GatheredAreNamed(t, leases, p, names);
    if NamesNarrow(t, p.possible, names[..n]) {
      forall i | |p.ids| <= i < |r.ids| && r.ids[i].Connector? ensures Narrow(t, p.possible, r.ids[i].index) {
        var j := (i - |p.ids|) / 2;
        assert i == |p.ids| + 2 * j || i == |p.ids| + 2 * j + 1;
        assert names[..n][j] == names[j];
      }
    }
    if AllNarrow(t, p.possible, r.ids, |p.ids|) {
      forall j | 0 <= j < n ensures Narrow(t, p.possible, IndexOf(t.connectors, names[..n][j])) {
        assert r.ids[|p.ids| + 2 * j].Connector?;
      }
    }
  }

  /** A notification that fails leases nothing and moves no primary plane, and it leaves the encoders as they were
      exactly when every connector named before the first name that fails could drive only one CRTC. */
  lemma {:induction false} FailedKeepsEncodersIff(t: Topology, s: Sys, k: nat, alloc: bool, register: bool)
    requires Inv(t, s) && k < |s.leases|
    requires ParseObjs(t, s.leases, s.leases[k], s.kms.possible).error != NoError || !alloc
    ensures var r := Notified(t, s, k, alloc, register);
      && r.leases == s.leases && r.kms.types == s.kms.types && r.kms.primary == s.kms.primary
      && (r.kms.possible == s.kms.possible
          <==> NamesNarrow(t, s.kms.possible, NamedBefore(t, s.leases, s.leases[k], s.kms.possible)))
  {
    hide Gathered, Covered, HoldsOwn, Matching, Partition, AllPairsHold, AllNarrow, NamesNarrow;
    var l, none := s.leases[k], Parse(NoError, [], s.kms.possible);
    NothingGathered(t, s);
    var p := AddPlanes(t, s.leases, none, l.planes);
    AddPlanesKeep(t, s.leases, none, l.planes);
    NoNames(t, s.kms.possible);
    if p.error == NoError {
      GatheringNarrowsIff(t, s.leases, p, l.connectors);
      NarrowByName(t, s.leases, p, l.connectors);
      assert l.connectors == [] ==> l.connectors[..NamesGathered(t, s.leases, p, l.connectors)] == [];
    }
  }

  lemma NoNames(t: Topology, possible: seq<set<nat>>)
    ensures NamesNarrow(t, possible, [])
  {
  }

  // One connector that two CRTCs could drive, and a list that goes on with a name nobody has.
  function Narrowed(): (Topology, Sys) {
    (Topology(["p0", "p1"], 2, ["c0"], [0], [false]),
     Sys(Kms([Primary, Primary], [0, 1], [{0, 1}]), [Lease(["p0", "p1"], ["c0", "missing"], false, [])]))
  }

  /** The notification of this lease fails, and its connector's encoder can drive only CRTC 0 from then on. */
  lemma FailureNarrows()
    ensures var (t, s) := Narrowed();
      && Fits(t, s.kms) && Inv(t, s) && s == Run(t, s.kms, [Probe(["p0", "p1"], ["c0", "missing"])])
      && ParseObjs(t, s.leases, s.leases[0], s.kms.possible).error == Enoent
      && Notified(t, s, 0, true, true).kms.possible == [{0}]
  {
    hide AddPlanes, AddConnectors, Inv;
    NarrowedFits();
    NarrowedPlanes();
    NarrowedConnectors();
    var ops := [Probe(["p0", "p1"], ["c0", "missing"])];
    assert ops[..|ops| - 1] == [];
  }

  lemma NarrowedPlanes()
    ensures var (t, s) := Narrowed();
      AddPlanes(t, s.leases, Parse(NoError, [], s.kms.possible), ["p0", "p1"])
      == Parse(NoError, [Plane(0), Plane(1)], s.kms.possible)
  {
    var (t, s) := Narrowed();
    var leases, none := s.leases, Parse(NoError, [], s.kms.possible);
    assert "p0" != "p1" by { assert "p0"[1] != "p1"[1]; }
    assert IndexOf(t.planes, "p0") == 0 && IndexOf(t.planes, "p1") == 1;
    var p1 := AddPlane(t, leases, none, "p0");
    assert p1 == none.(ids := [Plane(0)]);
    var p2 := AddPlane(t, leases, p1, "p1");
    assert p2 == none.(ids := [Plane(0), Plane(1)]);
    var names := ["p0", "p1"];
    assert names[1..] == ["p1"] && names[1..][1..] == [];
    assert AddPlanes(t, leases, none, names) == AddPlanes(t, leases, p1, names[1..]) == AddPlanes(t, leases, p2, []) == p2;
  }

  lemma NarrowedConnectors()
    ensures var (t, s) := Narrowed();
      AddConnectors(t, s.leases, Parse(NoError, [Plane(0), Plane(1)], s.kms.possible), ["c0", "missing"])
      == Parse(Enoent, [Plane(0), Plane(1), Connector(0), Crtc(0)], [{0}])
  {
    var (t, s) := Narrowed();
    var leases, p2 := s.leases, Parse(NoError, [Plane(0), Plane(1)], s.kms.possible);
    assert IndexOf(t.connectors, "c0") == 0;
    assert FirstFree(2, {0, 1}, leases, p2.ids, 0) == 0;
    var p3 := AddConnector(t, leases, p2, "c0");
    assert p3 == Parse(NoError, [Plane(0), Plane(1), Connector(0), Crtc(0)], [{0}]);
    assert "missing" !in t.connectors by { assert |"missing"| != |"c0"|; }
    var p4 := AddConnector(t, leases, p3, "missing");
    assert p4 == p3.(error := Enoent);
    var names := ["c0", "missing"];
    assert names[1..] == ["missing"] && names[1..][1..] == [];
    assert AddConnectors(t, leases, p2, names) == AddConnectors(t, leases, p3, names[1..]) == AddConnectors(t, leases, p4, []) == p4;
  }

  lemma NarrowedFits()
    ensures var (t, s) := Narrowed(); Fits(t, s.kms) && Inv(t, s)
  {
    hide PlanesOf, CrtcsOf;
    var (t, s) := Narrowed();
    NarrowedMatching();
    NothingHeld(s.kms.primary);
  }

  lemma NarrowedMatching()
    ensures Matching(Narrowed().1.kms)
  {
    var k := Narrowed().1.kms;
    assert k.primary[0] == 0 && k.primary[1] == 1;
  }

  lemma NothingHeld(primary: seq<int>)
    ensures HoldsOwn(primary, [])
  {
  }
}
