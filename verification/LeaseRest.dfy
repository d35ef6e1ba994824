/**
 Which objects a lease gets: the ones its device tree node names; and, for the lease that names none, everything
 left that can be used, in the device's order and up to the 64 that fit.
 */
module LeaseRest {
  import opened LeaseModel
  import opened LeasePrimaries
  import opened LeaseProofs

  // No lease has the object.
  ghost predicate Unleased(o: Obj, leases: seq<Lease>) {
    forall k :: 0 <= k < |leases| ==> o !in leases[k].ids
  }

  // As many as fit.
  ghost function First(s: seq<Obj>): (r: seq<Obj>)
    ensures r <= s && |r| <= MAX_OBJECTS && (|r| < MAX_OBJECTS ==> r == s)
  {
    if |s| <= MAX_OBJECTS then s else s[..MAX_OBJECTS]
  }

  function PlaneAt(x: nat): Obj { Plane(x) }
  function CrtcAt(x: nat): Obj { Crtc(x) }
  function ConnectorAt(x: nat): Obj { Connector(x) }

  // The objects of one kind at the wanted places from i on, in order.
  ghost function Listed(at: nat -> Obj, want: set<nat>, i: nat, n: nat): seq<Obj>
    requires i <= n
    decreases n - i
  {
    if i == n then [] else (if i in want then [at(i)] else []) + Listed(at, want, i + 1, n)
  }

  lemma {:induction false} ListedHas(at: nat -> Obj, want: set<nat>, i: nat, n: nat, o: Obj)
    requires i <= n
    ensures o in Listed(at, want, i, n) <==> exists x: nat {:trigger at(x)} :: i <= x < n && x in want && at(x) == o
    decreases n - i
  {
    if i < n {
      ListedHas(at, want, i + 1, n, o);
      if x: nat :| i <= x < n && x in want && at(x) == o {
        assert x == i || i + 1 <= x;
      }
    }
  }

  // ----- The three sweeps over the device's objects -----

  lemma FirstStep(mine: seq<Obj>, o: Obj, rest: seq<Obj>)
    requires |mine| <= MAX_OBJECTS
    ensures First(mine + ([o] + rest)) == if |mine| == MAX_OBJECTS then mine else First((mine + [o]) + rest)
    ensures First(mine + ([] + rest)) == First(mine + rest)
    ensures |mine| == MAX_OBJECTS ==> First(mine + rest) == mine
  {
    assert mine + ([o] + rest) == (mine + [o]) + rest;
    assert [] + rest == rest;
  }

  lemma {:induction false} PlanesSwept(t: Topology, leases: seq<Lease>, mine: seq<Obj>, i: nat, want: set<nat>)
    requires i <= |t.planes| && |mine| <= MAX_OBJECTS
    requires forall x :: i <= x < |t.planes| ==> (x in want <==> Unleased(Plane(x), leases) && Plane(x) !in mine)
    ensures RestPlanes(t, leases, mine, i) == First(mine + Listed(PlaneAt, want, i, |t.planes|))
    decreases |t.planes| - i
  {
    if i < |t.planes| {
      FirstStep(mine, Plane(i), Listed(PlaneAt, want, i + 1, |t.planes|));
      if |mine| < MAX_OBJECTS {
        PlanesSwept(t, leases, if i in want then mine + [Plane(i)] else mine, i + 1, want);
      }
    } else {
      assert mine + [] == mine;
    }
  }

  lemma {:induction false} CrtcsSwept(
      t: Topology, k: Kms, leases: seq<Lease>, mine: seq<Obj>, dedicated: bool, i: nat, want: set<nat>)
    requires i <= t.crtcs == |k.primary| && |k.possible| == |t.virtuals| && |mine| <= MAX_OBJECTS
    requires forall x :: i <= x < t.crtcs ==>
      (x in want <==> Unleased(Crtc(x), leases) && Crtc(x) !in mine && k.primary[x] >= 0
                      && (dedicated ==> Dedicated(t, k.possible, x)))
    ensures RestCrtcs(t, k, leases, mine, dedicated, i) == First(mine + Listed(CrtcAt, want, i, t.crtcs))
    decreases t.crtcs - i
  {
    if i < t.crtcs {
      FirstStep(mine, Crtc(i), Listed(CrtcAt, want, i + 1, t.crtcs));
      if |mine| < MAX_OBJECTS {
        CrtcsSwept(t, k, leases, if i in want then mine + [Crtc(i)] else mine, dedicated, i + 1, want);
      }
    } else {
      assert mine + [] == mine;
    }
  }

  // Every encoder that can drive the CRTC, but for virtual ones, can drive no other.
  ghost predicate Dedicated(t: Topology, possible: seq<set<nat>>, c: nat)
    requires |possible| == |t.virtuals|
  {
    forall e :: 0 <= e < |possible| && !t.virtuals[e] && c in possible[e] ==> possible[e] == {c}
  }

  // The connector has an encoder that can drive a CRTC among the objects.
  ghost predicate Drivable(t: Topology, possible: seq<set<nat>>, objs: seq<Obj>, n: nat) {
    && n < |t.encoder| && 0 <= t.encoder[n] < |possible|
    && exists c: nat :: Crtc(c) in objs && c in possible[t.encoder[n]]
  }

  lemma CanDrive(t: Topology, possible: seq<set<nat>>, objs: seq<Obj>, n: nat)
    requires Encodes(t, possible) && n < |t.connectors|
    ensures Drivable(t, possible, objs, n) <==> t.encoder[n] >= 0 && Reaches(possible[t.encoder[n]], objs)
  {
    if t.encoder[n] >= 0 && Reaches(possible[t.encoder[n]], objs) {
      var i :| 0 <= i < |objs| && objs[i].Crtc? && objs[i].index in possible[t.encoder[n]];
      assert Crtc(objs[i].index) in objs;
    }
  }

  lemma {:induction false} ConnectorsSwept(
      t: Topology, possible: seq<set<nat>>, leases: seq<Lease>, mine: seq<Obj>, upTo: seq<Obj>, i: nat, want: set<nat>)
    requires i <= |t.connectors| && Encodes(t, possible) && |mine| <= MAX_OBJECTS
    requires forall x :: i <= x < |t.connectors| ==>
      (x in want <==> Unleased(Connector(x), leases) && Connector(x) !in mine && Drivable(t, possible, upTo, x))
    ensures RestConnectors(t, possible, leases, mine, upTo, i) == First(mine + Listed(ConnectorAt, want, i, |t.connectors|))
    decreases |t.connectors| - i
  {
    hide Reaches, Drivable;
    if i < |t.connectors| {
      FirstStep(mine, Connector(i), Listed(ConnectorAt, want, i + 1, |t.connectors|));
      CanDrive(t, possible, upTo, i);
      if |mine| < MAX_OBJECTS {
        ConnectorsSwept(t, possible, leases, if i in want then mine + [Connector(i)] else mine, upTo, i + 1, want);
      }
    } else {
      assert mine + [] == mine;
    }
  }

  // ----- Everything that is left -----

  ghost function LeftPlanes(t: Topology, leases: seq<Lease>): set<nat> {
    set x: nat | x < |t.planes| && Unleased(Plane(x), leases)
  }

  // The CRTCs with a primary plane.
  ghost function LeftCrtcs(t: Topology, k: Kms, leases: seq<Lease>): set<nat>
    requires t.crtcs == |k.primary|
  {
    set x: nat | x < t.crtcs && Unleased(Crtc(x), leases) && k.primary[x] >= 0
  }

  ghost function DedicatedOnes(t: Topology, k: Kms): set<nat>
    requires |k.possible| == |t.virtuals|
  {
    set x: nat | x < t.crtcs && Dedicated(t, k.possible, x)
  }

  ghost function LeftConnectors(t: Topology, k: Kms, leases: seq<Lease>, objs: seq<Obj>): set<nat> {
    set x: nat | x < |t.connectors| && Unleased(Connector(x), leases) && Drivable(t, k.possible, objs, x)
  }

  // Dedicated CRTCs come before the others.
  ghost function CrtcsInOrder(t: Topology, k: Kms, leases: seq<Lease>): seq<Obj>
    requires t.crtcs == |k.primary| && |k.possible| == |t.virtuals|
  {
    Listed(CrtcAt, LeftCrtcs(t, k, leases) * DedicatedOnes(t, k), 0, t.crtcs)
    + Listed(CrtcAt, LeftCrtcs(t, k, leases) - DedicatedOnes(t, k), 0, t.crtcs)
  }

  lemma BothPasses(t: Topology, k: Kms, leases: seq<Lease>, mine: seq<Obj>)
    requires t.crtcs == |k.primary| && |k.possible| == |t.virtuals| && |mine| <= MAX_OBJECTS && OnlyPlanes(mine)
    ensures RestCrtcs(t, k, leases, RestCrtcs(t, k, leases, mine, true, 0), false, 0)
         == First(mine + CrtcsInOrder(t, k, leases))
  {
    var left, ded := LeftCrtcs(t, k, leases), DedicatedOnes(t, k);
    var once, others := Listed(CrtcAt, left * ded, 0, t.crtcs), Listed(CrtcAt, left - ded, 0, t.crtcs);
    CrtcsSwept(t, k, leases, mine, true, 0, left * ded);
    var one := First(mine + once);
    assert (mine + once) + others == mine + CrtcsInOrder(t, k, leases);
    if |one| < MAX_OBJECTS {
      forall x | 0 <= x < t.crtcs ensures Crtc(x) in one <==> x in left * ded {
        ListedHas(CrtcAt, left * ded, 0, t.crtcs, Crtc(x));
        assert CrtcAt(x) == Crtc(x);
      }
      CrtcsSwept(t, k, leases, one, false, 0, left - ded);
    }
  }

  // ----- The lease of the remaining objects -----

  ghost function RestInOrder(t: Topology, k: Kms, leases: seq<Lease>, planes: seq<Obj>): seq<Obj>
    requires t.crtcs == |k.primary| && |k.possible| == |t.virtuals|
  {
    var crtcs := planes + CrtcsInOrder(t, k, leases);
    crtcs + Listed(ConnectorAt, LeftConnectors(t, k, leases, crtcs), 0, |t.connectors|)
  }

  lemma CrtcsAndConnectors(t: Topology, k: Kms, leases: seq<Lease>, mine: seq<Obj>)
    requires Fits(t, k) && |mine| <= MAX_OBJECTS && OnlyPlanes(mine)
    ensures var crtcs := RestCrtcs(t, k, leases, RestCrtcs(t, k, leases, mine, true, 0), false, 0);
      RestConnectors(t, k.possible, leases, crtcs, crtcs, 0) == First(RestInOrder(t, k, leases, mine))
  {
    hide Drivable, Unleased, LeftCrtcs, DedicatedOnes;
    BothPasses(t, k, leases, mine);
    var all := mine + CrtcsInOrder(t, k, leases);
    var crtcs := First(all);
    if |crtcs| < MAX_OBJECTS {
      forall x: nat ensures Connector(x) !in all {
        ListedHas(CrtcAt, LeftCrtcs(t, k, leases) * DedicatedOnes(t, k), 0, t.crtcs, Connector(x));
        ListedHas(CrtcAt, LeftCrtcs(t, k, leases) - DedicatedOnes(t, k), 0, t.crtcs, Connector(x));
      }
      ConnectorsSwept(t, k.possible, leases, crtcs, crtcs, 0, LeftConnectors(t, k, leases, crtcs));
    }
  }

  /** A lease of the remaining objects gets, as far as they fit, the planes it names or all planes left, the dedicated
      CRTCs, the other CRTCs, and the connectors that these can drive, each kind in the device's order. */
  lemma GatherIsRest(t: Topology, k: Kms, leases: seq<Lease>, l: Lease)
    requires Fits(t, k) && l.connectors == []
    ensures l.planes == [] ==>
      Gather(t, k, leases, l).ids
      == First(RestInOrder(t, k, leases, First(Listed(PlaneAt, LeftPlanes(t, leases), 0, |t.planes|))))
    ensures l.planes != [] ==>
      var named := AddPlanes(t, leases, Parse(NoError, [], k.possible), l.planes).ids;
      |named| <= MAX_OBJECTS ==> Gather(t, k, leases, l).ids == First(RestInOrder(t, k, leases, named))
    ensures Gather(t, k, leases, l).possible == k.possible
  {
    hide RestInOrder, RestPlanes, RestCrtcs, RestConnectors;
    var none := Parse(NoError, [], k.possible);
    if l.planes == [] {
      var want := LeftPlanes(t, leases);
      PlanesSwept(t, leases, [], 0, want);
      assert [] + Listed(PlaneAt, want, 0, |t.planes|) == Listed(PlaneAt, want, 0, |t.planes|);
      forall i | 0 <= i < |First(Listed(PlaneAt, want, 0, |t.planes|))|
        ensures First(Listed(PlaneAt, want, 0, |t.planes|))[i].Plane?
      {
        var o := First(Listed(PlaneAt, want, 0, |t.planes|))[i];
        ListedHas(PlaneAt, want, 0, |t.planes|, o);
      }
      CrtcsAndConnectors(t, k, leases, First(Listed(PlaneAt, want, 0, |t.planes|)));
    } else {
      var named := AddPlanes(t, leases, none, l.planes).ids;
      AddPlanesOnly(t, leases, none, l.planes);
      if |named| <= MAX_OBJECTS {
        CrtcsAndConnectors(t, k, leases, named);
      }
    }
  }

  // What a list of the remaining objects holds.
  lemma RestHas(t: Topology, k: Kms, leases: seq<Lease>, planes: seq<Obj>, o: Obj)
    requires Fits(t, k) && OnlyPlanes(planes)
    ensures var r := RestInOrder(t, k, leases, planes);
      o in r <==> match o
        case Plane(_) => o in planes
        case Crtc(c) => c < t.crtcs && Unleased(o, leases) && k.primary[c] >= 0
        case Connector(n) => n < |t.connectors| && Unleased(o, leases) && Drivable(t, k.possible, r, n)
  {
    hide Unleased, Dedicated;
    var left, ded := LeftCrtcs(t, k, leases), DedicatedOnes(t, k);
    var crtcs := planes + CrtcsInOrder(t, k, leases);
    var r, want := RestInOrder(t, k, leases, planes), LeftConnectors(t, k, leases, crtcs);
    ListedHas(CrtcAt, left * ded, 0, t.crtcs, o);
    ListedHas(CrtcAt, left - ded, 0, t.crtcs, o);
    ListedHas(ConnectorAt, want, 0, |t.connectors|, o);
    match o {
      case Plane(_) =>
      case Crtc(c) => assert CrtcAt(c) == o;
      case Connector(n) =>
        assert ConnectorAt(n) == o;
        forall c: nat ensures Crtc(c) in r <==> Crtc(c) in crtcs {
          ListedHas(ConnectorAt, want, 0, |t.connectors|, Crtc(c));
        }
    }
  }

  // What is there to take, given the objects taken: the planes and CRTCs no lease has, the CRTCs only with a primary
  // plane, and the connectors no lease has whose encoder can drive a CRTC taken.
  ghost predicate Takable(t: Topology, k: Kms, leases: seq<Lease>, ids: seq<Obj>, o: Obj)
    requires t.crtcs == |k.primary|
  {
    && Unleased(o, leases)
    && match o
       case Plane(p) => p < |t.planes|
       case Crtc(c) => c < t.crtcs && k.primary[c] >= 0
       case Connector(n) => n < |t.connectors| && Drivable(t, k.possible, ids, n)
  }

  /** While fewer than 64 are held, a lease that names nothing takes exactly what there is to take. */
  lemma GatherTakesAll(t: Topology, k: Kms, leases: seq<Lease>, l: Lease, o: Obj)
    requires Fits(t, k) && l.planes == [] && l.connectors == []
    requires |Gather(t, k, leases, l).ids| < MAX_OBJECTS
    ensures var ids := Gather(t, k, leases, l).ids; o in ids <==> Takable(t, k, leases, ids, o)
  {
    hide RestInOrder, Gather, Unleased, Drivable;
    GatherIsRest(t, k, leases, l);
    var want := LeftPlanes(t, leases);
    var all := Listed(PlaneAt, want, 0, |t.planes|);
    var planes := First(all);
    assert planes <= RestInOrder(t, k, leases, planes) by { Starts(t, k, leases, planes); }
    forall i | 0 <= i < |planes| ensures planes[i].Plane? {
      ListedHas(PlaneAt, want, 0, |t.planes|, planes[i]);
    }
    ListedHas(PlaneAt, want, 0, |t.planes|, o);
    assert o.Plane? ==> PlaneAt(o.index) == o;
    RestHas(t, k, leases, planes, o);
  }

  lemma Starts(t: Topology, k: Kms, leases: seq<Lease>, planes: seq<Obj>)
    requires t.crtcs == |k.primary| && |k.possible| == |t.virtuals|
    ensures planes <= RestInOrder(t, k, leases, planes)
  {
  }

  lemma RunSnoc(t: Topology, k0: Kms, ops: seq<Op>, op: Op)
    requires Fits(t, k0)
    ensures Run(t, k0, ops + [op]) == Step(t, Run(t, k0, ops), op)
  {
    assert (ops + [op])[..|ops|] == ops;
  }

  // The last bound lease without objects.
  ghost predicate LastEmpty(leases: seq<Lease>, m: nat) {
    && m < |leases| && leases[m].bound && leases[m].ids == []
    && forall j :: m < j < |leases| ==> !(leases[j].bound && leases[j].ids == [])
  }

  /** Over every run: when a notification goes through, the last bound lease without objects, if it names none, gets
      exactly what there is to take then, as long as that is fewer than 64 objects; the other leases stay. */
  lemma RestLeaseTakesAll(t: Topology, k0: Kms, ops: seq<Op>, k: nat, m: nat, o: Obj)
    requires Fits(t, k0) && k < |Run(t, k0, ops).leases|
    requires var s := Run(t, k0, ops); ParseObjs(t, s.leases, s.leases[k], s.kms.possible).error == NoError
    requires var s := Run(t, k0, ops + [Notify(k, true, false)]);
      LastEmpty(s.leases, m) && s.leases[m].planes == [] && s.leases[m].connectors == []
    ensures var s, s' := Run(t, k0, ops + [Notify(k, true, false)]), Run(t, k0, ops + [Notify(k, true, true)]);
      && |s'.leases| == |s.leases| && (forall j :: 0 <= j < |s.leases| && j != m ==> s'.leases[j] == s.leases[j])
      && (|s'.leases[m].ids| < MAX_OBJECTS ==>
            (o in s'.leases[m].ids <==> Takable(t, s.kms, s.leases, s'.leases[m].ids, o)))
  {
    hide Takable, Gather, Fixup, ParseObjs;
    RunSnoc(t, k0, ops, Notify(k, true, false));
    RunSnoc(t, k0, ops, Notify(k, true, true));
    var s := Run(t, k0, ops + [Notify(k, true, false)]);
    assert Target(s.leases) == m;
    if |Gather(t, s.kms, s.leases, s.leases[m]).ids| < MAX_OBJECTS {
      GatherTakesAll(t, s.kms, s.leases, s.leases[m], o);
    }
  }

  // ----- The objects a lease names -----

  // The names are those of distinct planes, in no lease and not yet among the objects, and there is room for them.
  ghost predicate PlanesOpen(t: Topology, leases: seq<Lease>, ids: seq<Obj>, names: seq<string>) {
    && |ids| + |names| <= MAX_OBJECTS
    && (forall i :: 0 <= i < |names| ==>
          && names[i] in t.planes && Unleased(Plane(IndexOf(t.planes, names[i])), leases)
          && Plane(IndexOf(t.planes, names[i])) !in ids)
    && (forall i, j :: 0 <= i < j < |names| ==> names[i] != names[j])
  }

  lemma {:induction false} PlanesGatheredIff(t: Topology, leases: seq<Lease>, p: Parse, names: seq<string>)
    requires p.error == NoError
    ensures AddPlanes(t, leases, p, names).error == NoError <==> names == [] || PlanesOpen(t, leases, p.ids, names)
    decreases |names|
  {
    if names != [] {
      var q := AddPlane(t, leases, p, names[0]);
      if q.error == NoError {
        hide PlanesOpen;
        PlanesGatheredIff(t, leases, q, names[1..]);
        OpenFirst(t, leases, p.ids, names);
      }
    }
  }

  // The objects from `start` on are the first planes of these names.
  ghost predicate PlanesAt(t: Topology, ids: seq<Obj>, start: nat, names: seq<string>) {
    |ids| >= start + |names| && forall i :: 0 <= i < |names| ==> ids[start + i] == Plane(IndexOf(t.planes, names[i]))
  }

  lemma {:induction false} PlanesGathered(t: Topology, leases: seq<Lease>, p: Parse, names: seq<string>)
    requires AddPlanes(t, leases, p, names).error == NoError
    ensures var r := AddPlanes(t, leases, p, names);
      p.ids <= r.ids && |r.ids| == |p.ids| + |names| && PlanesAt(t, r.ids, |p.ids|, names)
    decreases |names|
  {
    hide Leased, IndexOf;
    if names != [] {
      var q, r := AddPlane(t, leases, p, names[0]), AddPlanes(t, leases, p, names);
      PlanesGathered(t, leases, q, names[1..]);
      forall i | 0 <= i < |names| ensures r.ids[|p.ids| + i] == Plane(IndexOf(t.planes, names[i])) {
        assert i > 0 ==> names[1..][i - 1] == names[i] && r.ids[|q.ids| + (i - 1)] == r.ids[|p.ids| + i];
        assert r.ids[|p.ids|] == q.ids[|p.ids|];
      }
    }
  }

  lemma OpenFirst(t: Topology, leases: seq<Lease>, ids: seq<Obj>, names: seq<string>)
    requires names != [] && names[0] in t.planes
    requires var o := Plane(IndexOf(t.planes, names[0])); |ids| < MAX_OBJECTS && !Leased(o, leases, ids)
    ensures PlanesOpen(t, leases, ids, names) <==>
      names[1..] == [] || PlanesOpen(t, leases, ids + [Plane(IndexOf(t.planes, names[0]))], names[1..])
  {
    var ids', rest := ids + [Plane(IndexOf(t.planes, names[0]))], names[1..];
    if names[1..] != [] && PlanesOpen(t, leases, ids', rest) {
      forall i, j | 0 <= i < j < |names| ensures names[i] != names[j] {
        assert names[j] == rest[j - 1];
        assert i > 0 ==> names[i] == rest[i - 1];
      }
      forall i | 0 <= i < |names| ensures names[i] in t.planes && Unleased(Plane(IndexOf(t.planes, names[i])), leases)
        && Plane(IndexOf(t.planes, names[i])) !in ids {
        assert i > 0 ==> names[i] == rest[i - 1];
      }
    }
    if PlanesOpen(t, leases, ids, names) {
      forall i | 0 <= i < |rest| ensures Plane(IndexOf(t.planes, rest[i])) !in ids' {
        assert rest[i] == names[i + 1] && t.planes[IndexOf(t.planes, rest[i])] != names[0];
      }
    }
  }

  /** A named connector is gathered, with the first free CRTC that its encoder may drive, exactly if it is there and free,
      has an encoder with such a CRTC, and both fit. */
  lemma ConnectorGatheredIff(t: Topology, leases: seq<Lease>, p: Parse, name: string)
    requires Encodes(t, p.possible) && p.error == NoError
    ensures var r, n := AddConnector(t, leases, p, name), IndexOf(t.connectors, name);
      && (r.error == NoError <==>
            && |p.ids| < MAX_OBJECTS - 1 && name in t.connectors
            && Unleased(Connector(n), leases) && Connector(n) !in p.ids && t.encoder[n] >= 0
            && exists c: nat :: Drives(t, leases, p, n, c))
      && (r.error == NoError ==> exists c: nat ::
            && Drives(t, leases, p, n, c) && (forall d: nat :: d < c ==> !Drives(t, leases, p, n, d))
            && r.ids == p.ids + [Connector(n), Crtc(c)] && r.possible == p.possible[t.encoder[n] := {c}])
  {
    var r, n := AddConnector(t, leases, p, name), IndexOf(t.connectors, name);
    if |p.ids| < MAX_OBJECTS - 1 && n < |t.connectors| && !Leased(Connector(n), leases, p.ids) && t.encoder[n] >= 0 {
      var c := FirstFree(t.crtcs, p.possible[t.encoder[n]], leases, p.ids, 0);
      assert c < t.crtcs ==> Drives(t, leases, p, n, c);
      forall d: nat | d < c ensures !Drives(t, leases, p, n, d) {
      }
    }
  }

  // The connector's encoder may drive the CRTC, which no lease has, nor this one so far.
  ghost predicate Drives(t: Topology, leases: seq<Lease>, p: Parse, n: nat, c: nat) {
    && n < |t.encoder| && 0 <= t.encoder[n] < |p.possible| && c in p.possible[t.encoder[n]]
    && c < t.crtcs && Unleased(Crtc(c), leases) && Crtc(c) !in p.ids
  }

  // Each connector from `start` on is followed by a CRTC that its encoder could drive.
  ghost predicate CouldDrive(t: Topology, possible: seq<set<nat>>, ids: seq<Obj>, start: nat) {
    forall i {:trigger ids[i]} :: start <= i < |ids| && ids[i].Connector? ==>
      && i + 1 < |ids| && ids[i + 1].Crtc? && ids[i].index < |t.encoder|
      && 0 <= t.encoder[ids[i].index] < |possible| && ids[i + 1].index in possible[t.encoder[ids[i].index]]
  }

  lemma {:induction false} ConnectorsGathered(t: Topology, leases: seq<Lease>, p: Parse, names: seq<string>)
    requires Encodes(t, p.possible) && p.error == NoError && AddConnectors(t, leases, p, names).error == NoError
    ensures var r := AddConnectors(t, leases, p, names);
      && NamesGathered(t, leases, p, names) == |names| && p.ids <= r.ids
      && CouldDrive(t, p.possible, r.ids, |p.ids|)
    decreases |names|
  {
    hide Leased, IndexOf;
    if names != [] {
      var q, r := AddConnector(t, leases, p, names[0]), AddConnectors(t, leases, p, names);
      ConnectorsGathered(t, leases, q, names[1..]);
      assert r.ids[|p.ids|] == q.ids[|p.ids|] && r.ids[|p.ids| + 1] == q.ids[|p.ids| + 1];
    }
  }

  /** On every run, a notification that goes through binds its lease, and a lease that names planes and connectors then
      has, in order, the first plane of each name and, for each connector name, the first connector of that name and a
      CRTC that its encoder could drive.  The other leases stay. */
  lemma NamedAreLeased(t: Topology, k0: Kms, ops: seq<Op>, k: nat)
    requires Fits(t, k0) && k < |Run(t, k0, ops).leases|
    requires var s := Run(t, k0, ops); ParseObjs(t, s.leases, s.leases[k], s.kms.possible).error == NoError
    ensures var s, s' := Run(t, k0, ops), Run(t, k0, ops + [Notify(k, true, false)]);
      var l, l' := s.leases[k], s'.leases[k];
      && |s'.leases| == |s.leases| && (forall j :: 0 <= j < |s.leases| && j != k ==> s'.leases[j] == s.leases[j])
      && l'.bound && l'.planes == l.planes && l'.connectors == l.connectors
      && (!Explicit(l) ==> l'.ids == [])
      && (Explicit(l) ==>
           && |l'.ids| == |l.planes| + 2 * |l.connectors| && PlanesAt(t, l'.ids, 0, l.planes)
           && NamedAt(t, l'.ids, |l.planes|, l.connectors, |l.connectors|)
           && CouldDrive(t, s.kms.possible, l'.ids, |l.planes|))
  {
    hide Fixup, PlanesAt, NamedAt, CouldDrive, AddPlanes, AddConnectors;
    RunSnoc(t, k0, ops, Notify(k, true, false));
    var s := Run(t, k0, ops);
    var l, none := s.leases[k], Parse(NoError, [], s.kms.possible);
    if Explicit(l) {
      var p := AddPlanes(t, s.leases, none, l.planes);
      PlanesGathered(t, s.leases, none, l.planes);
      ConnectorsGathered(t, s.leases, p, l.connectors);
      GatheredAreNamed(t, s.leases, p, l.connectors);
      PlanesStay(t, p.ids, AddConnectors(t, s.leases, p, l.connectors).ids, l.planes);
    }
  }

  lemma PlanesStay(t: Topology, ids: seq<Obj>, ids': seq<Obj>, names: seq<string>)
    requires ids <= ids' && PlanesAt(t, ids, 0, names)
    ensures PlanesAt(t, ids', 0, names)
  {
  }

  /** Removing a lease frees what it had: on every run no lease has it then, and the other leases stay. */
  lemma UnbindFrees(t: Topology, k0: Kms, ops: seq<Op>, k: nat)
    requires Fits(t, k0) && Matching(k0) && k < |Run(t, k0, ops).leases|
    ensures var s, s' := Run(t, k0, ops), Run(t, k0, ops + [Unbind(k)]);
      && (forall o :: o in s.leases[k].ids ==> Unleased(o, s'.leases))
      && s'.leases == s.leases[..k] + s.leases[k + 1..] && s'.kms == s.kms
  {
    hide Matching, Distinct;
    RunSnoc(t, k0, ops, Unbind(k));
    LeasesPartition(t, k0, ops);
    OthersLack(t, Run(t, k0, ops).leases, k);
  }

  lemma OthersLack(t: Topology, leases: seq<Lease>, k: nat)
    requires Partition(t, leases) && k < |leases|
    ensures forall o :: o in leases[k].ids ==> Unleased(o, leases[..k] + leases[k + 1..])
  {
    hide Distinct, IdsFit;
    forall o, j | o in leases[k].ids && 0 <= j < |leases| && j != k ensures o !in leases[j].ids {
      assert if j < k then Apart(leases[j].ids, leases[k].ids) else Apart(leases[k].ids, leases[j].ids);
    }
  }
}
