/**
 The lease allocator of msm-lease/msm_lease_drv.c on values: how a lease device gets its planes, CRTCs and
 connectors when the display comes up, and how primary planes are then handed round.
 */
module LeaseModel {

  const MAX_OBJECTS: nat := 64
  const NONE: int := -1

  datatype PlaneType = Primary | Overlay | Cursor

  // Mode objects by kind and place in the device's list of that kind.
  datatype Obj = Plane(index: nat) | Crtc(index: nat) | Connector(index: nat)

  // The fixed part of the device.  encoder[i] is connector i's first possible encoder, or NONE.
  datatype Topology = Topology(planes: seq<string>, crtcs: nat, connectors: seq<string>, encoder: seq<int>, virtuals: seq<bool>)

  // The part the lease driver rewrites: plane types, each CRTC's primary plane or NONE, and each encoder's
  // possible_crtcs mask as the set of its bits.
  datatype Kms = Kms(types: seq<PlaneType>, primary: seq<int>, possible: seq<set<nat>>)

  // A lease with the names its device tree node lists; `bound` once its minor device exists.
  datatype Lease = Lease(planes: seq<string>, connectors: seq<string>, bound: bool, ids: seq<Obj>)

  ghost predicate Fits(t: Topology, k: Kms) {
    && |k.types| == |t.planes| && |k.primary| == t.crtcs && |k.possible| == |t.virtuals|
    && |t.encoder| == |t.connectors|
    && (forall i :: 0 <= i < |t.encoder| ==> t.encoder[i] < |t.virtuals|)
    && PrimariesFit(k)
  }

  ghost predicate PrimariesFit(k: Kms) {
    forall c :: 0 <= c < |k.primary| ==> k.primary[c] < |k.types|
  }

  // Objects of a lease are the device's.
  predicate InDevice(t: Topology, o: Obj) {
    match o
    case Plane(p) => p < |t.planes|
    case Crtc(c) => c < t.crtcs
    case Connector(n) => n < |t.connectors|
  }

  ghost predicate IdsFit(t: Topology, ids: seq<Obj>) {
    forall i :: 0 <= i < |ids| ==> InDevice(t, ids[i])
  }

  // ----- Searching -----

  function IndexOf<T(==)>(s: seq<T>, x: T): (i: nat)
    ensures i <= |s| && (i < |s| <==> x in s)
    ensures i < |s| ==> s[i] == x
    ensures forall j :: 0 <= j < i ==> s[j] != x
  {
    if s == [] || s[0] == x then 0 else IndexOf(s[1..], x) + 1
  }

  // _obj_is_leased
  predicate Leased(o: Obj, leases: seq<Lease>, mine: seq<Obj>) {
    o in mine || exists k :: 0 <= k < |leases| && o in leases[k].ids
  }

  function FirstFree(crtcs: nat, mask: set<nat>, leases: seq<Lease>, mine: seq<Obj>, c: nat): (r: nat)
    requires c <= crtcs
    ensures c <= r <= crtcs
    ensures r < crtcs ==> r in mask && !Leased(Crtc(r), leases, mine)
    ensures forall j :: c <= j < r ==> j !in mask || Leased(Crtc(j), leases, mine)
    decreases crtcs - c
  {
    if c == crtcs || (c in mask && !Leased(Crtc(c), leases, mine)) then c
    else FirstFree(crtcs, mask, leases, mine, c + 1)
  }

  // ----- Gathering the objects of a lease -----

  datatype Error = NoError | Einval | Ebusy | Enoent

  // object_ids so far, and what gathering did to possible_crtcs
  datatype Parse = Parse(error: Error, ids: seq<Obj>, possible: seq<set<nat>>)

  // msm_lease_add_plane
  function AddPlane(t: Topology, leases: seq<Lease>, p: Parse, name: string): (r: Parse)
    ensures IdsFit(t, p.ids) ==> IdsFit(t, r.ids)
  {
    var i := IndexOf(t.planes, name);
    if |p.ids| >= MAX_OBJECTS then p.(error := Einval)
    else if i == |t.planes| then p.(error := Enoent)
    else if Leased(Plane(i), leases, p.ids) then p.(error := Ebusy)
    else p.(ids := p.ids + [Plane(i)])
  }

  // msm_lease_add_connector
  function AddConnector(t: Topology, leases: seq<Lease>, p: Parse, name: string): (r: Parse)
    requires Encodes(t, p.possible)
    ensures |r.possible| == |p.possible| && (IdsFit(t, p.ids) ==> IdsFit(t, r.ids))
  {
    var i := IndexOf(t.connectors, name);
    if |p.ids| >= MAX_OBJECTS - 1 then p.(error := Einval)
    else if i == |t.connectors| then p.(error := Enoent)
    else if Leased(Connector(i), leases, p.ids) then p.(error := Ebusy)
    else if t.encoder[i] < 0 then p.(error := Enoent)
    else
      var e := t.encoder[i];
      var c := FirstFree(t.crtcs, p.possible[e], leases, p.ids, 0);
      if c == t.crtcs then p.(error := Enoent)
      else p.(ids := p.ids + [Connector(i), Crtc(c)], possible := p.possible[e := {c}])
  }

  ghost predicate Encodes(t: Topology, possible: seq<set<nat>>) {
    |t.encoder| == |t.connectors| && forall i :: 0 <= i < |t.encoder| ==> t.encoder[i] < |possible|
  }

  function AddPlanes(t: Topology, leases: seq<Lease>, p: Parse, names: seq<string>): (r: Parse)
    ensures r.possible == p.possible && (IdsFit(t, p.ids) ==> IdsFit(t, r.ids))
    decreases |names|
  {
    if names == [] || p.error != NoError then p else AddPlanes(t, leases, AddPlane(t, leases, p, names[0]), names[1..])
  }

  function AddConnectors(t: Topology, leases: seq<Lease>, p: Parse, names: seq<string>): (r: Parse)
    requires Encodes(t, p.possible)
    ensures |r.possible| == |p.possible| && (IdsFit(t, p.ids) ==> IdsFit(t, r.ids))
    decreases |names|
  {
    if names == [] || p.error != NoError then p
    else AddConnectors(t, leases, AddConnector(t, leases, p, names[0]), names[1..])
  }

  // msm_lease_parse_objs
  function ParseObjs(t: Topology, leases: seq<Lease>, lease: Lease, possible: seq<set<nat>>): (r: Parse)
    requires Encodes(t, possible)
    ensures |r.possible| == |possible| && IdsFit(t, r.ids)
  {
    var none := Parse(NoError, [], possible);
    if lease.planes == [] then none
    else
      var p := AddPlanes(t, leases, none, lease.planes);
      if p.error != NoError then p
      else if lease.connectors == [] then none
      else if |lease.connectors| > |p.ids| then p.(error := Einval)
      else AddConnectors(t, leases, p, lease.connectors)
  }

  // ----- The remaining objects -----

  function RestPlanes(t: Topology, leases: seq<Lease>, mine: seq<Obj>, i: nat): (r: seq<Obj>)
    requires i <= |t.planes|
    ensures IdsFit(t, mine) ==> IdsFit(t, r)
    decreases |t.planes| - i
  {
    if i == |t.planes| || |mine| >= MAX_OBJECTS then mine
    else RestPlanes(t, leases, if Leased(Plane(i), leases, mine) then mine else mine + [Plane(i)], i + 1)
  }

  // Some real encoder can drive CRTC c and others too.
  predicate Shared(t: Topology, possible: seq<set<nat>>, c: nat)
    requires |possible| == |t.virtuals|
  {
    exists e :: 0 <= e < |possible| && !t.virtuals[e] && c in possible[e] && possible[e] != {c}
  }

  // One pass over the CRTCs: those with a primary plane and, in the first pass, a dedicated encoder.
  function RestCrtcs(t: Topology, k: Kms, leases: seq<Lease>, mine: seq<Obj>, dedicated: bool, c: nat): (r: seq<Obj>)
    requires c <= t.crtcs == |k.primary| && |k.possible| == |t.virtuals|
    ensures IdsFit(t, mine) ==> IdsFit(t, r)
    decreases t.crtcs - c
  {
    if c == t.crtcs || |mine| >= MAX_OBJECTS then mine
    else
      var skip := Leased(Crtc(c), leases, mine) || (dedicated && Shared(t, k.possible, c)) || k.primary[c] < 0;
      RestCrtcs(t, k, leases, if skip then mine else mine + [Crtc(c)], dedicated, c + 1)
  }

  // Some CRTC among the objects is one the mask allows.
  predicate Reaches(mask: set<nat>, objs: seq<Obj>) {
    exists i :: 0 <= i < |objs| && objs[i].Crtc? && objs[i].index in mask
  }

  function RestConnectors(t: Topology, possible: seq<set<nat>>, leases: seq<Lease>, mine: seq<Obj>, upTo: seq<Obj>, i: nat): (r: seq<Obj>)
    requires i <= |t.connectors| && Encodes(t, possible)
    ensures IdsFit(t, mine) ==> IdsFit(t, r)
    decreases |t.connectors| - i
  {
    if i == |t.connectors| || |mine| >= MAX_OBJECTS then mine
    else
      var skip := Leased(Connector(i), leases, mine) || t.encoder[i] < 0 || !Reaches(possible[t.encoder[i]], upTo);
      RestConnectors(t, possible, leases, if skip then mine else mine + [Connector(i)], upTo, i + 1)
  }

  // The last bound lease in the list that got nothing, or NONE.
  function Target(leases: seq<Lease>): (k: int)
    ensures NONE <= k < |leases|
    ensures k >= 0 ==> leases[k].bound && leases[k].ids == []
    ensures forall j :: k < j < |leases| ==> !(leases[j].bound && leases[j].ids == [])
  {
    if leases == [] then NONE
    else
      var last := leases[|leases| - 1];
      if last.bound && last.ids == [] then |leases| - 1 else Target(leases[..|leases| - 1])
  }

  // What msm_lease_parse_remain_objs gathers for its target
  function Gather(t: Topology, k: Kms, leases: seq<Lease>, lease: Lease): (r: Parse)
    requires Fits(t, k)
    ensures |r.possible| == |k.possible| && IdsFit(t, r.ids)
  {
    var none := Parse(NoError, [], k.possible);
    var p := if lease.planes == [] then none.(ids := RestPlanes(t, leases, [], 0))
             else AddPlanes(t, leases, none, lease.planes).(error := NoError);
    if lease.connectors != [] then AddConnectors(t, leases, p, lease.connectors)
    else
      var crtcs := RestCrtcs(t, k, leases, RestCrtcs(t, k, leases, p.ids, true, 0), false, 0);
      p.(ids := RestConnectors(t, k.possible, leases, crtcs, crtcs, 0))
  }

  // ----- Primary planes -----

  function PlanesOf(ids: seq<Obj>): seq<nat> {
    if ids == [] then [] else
    var last := ids[|ids| - 1];
    PlanesOf(ids[..|ids| - 1]) + if last.Plane? then [last.index] else []
  }

  function CrtcsOf(ids: seq<Obj>): seq<nat> {
    if ids == [] then [] else
    var last := ids[|ids| - 1];
    CrtcsOf(ids[..|ids| - 1]) + if last.Crtc? then [last.index] else []
  }

  // A primary plane leaves its CRTC and becomes an overlay.
  function ResetPlane(k: Kms, p: nat): (r: Kms)
    requires p < |k.types|
    ensures |r.types| == |k.types| && |r.primary| == |k.primary| && r.possible == k.possible && (PrimariesFit(k) ==> PrimariesFit(r))
  {
    if k.types[p] != Primary then k
    else
      var c := IndexOf(k.primary, p);
      k.(primary := if c < |k.primary| then k.primary[c := NONE] else k.primary, types := k.types[p := Overlay])
  }

  function Reset(k: Kms, planes: seq<nat>): (r: Kms)
    requires forall i :: 0 <= i < |planes| ==> planes[i] < |k.types|
    ensures |r.types| == |k.types| && |r.primary| == |k.primary| && r.possible == k.possible && (PrimariesFit(k) ==> PrimariesFit(r))
  {
    if planes == [] then k else ResetPlane(Reset(k, planes[..|planes| - 1]), planes[|planes| - 1])
  }

  // CRTC c takes plane p; the plane it had becomes an overlay.
  function TakePlane(k: Kms, c: nat, p: nat): (r: Kms)
    requires c < |k.primary| && p < |k.types| && k.primary[c] < |k.types|
    ensures |r.types| == |k.types| && |r.primary| == |k.primary| && r.possible == k.possible
  {
    var types := if k.primary[c] >= 0 then k.types[k.primary[c] := Overlay] else k.types;
    k.(types := types[p := Primary], primary := k.primary[c := p])
  }

  function Setup(k: Kms, crtcs: seq<nat>, planes: seq<nat>, n: nat): (r: Kms)
    requires n <= |crtcs| && n <= |planes| && PrimariesFit(k)
    requires forall i :: 0 <= i < |planes| ==> planes[i] < |k.types|
    requires forall i :: 0 <= i < |crtcs| ==> crtcs[i] < |k.primary|
    ensures |r.types| == |k.types| && |r.primary| == |k.primary| && r.possible == k.possible && PrimariesFit(r)
  {
    if n == 0 then k else TakePlane(Setup(k, crtcs, planes, n - 1), crtcs[n - 1], planes[n - 1])
  }

  // A CRTC without a primary plane takes the first overlay.
  function FillCrtc(k: Kms, c: nat): (r: Kms)
    requires c < |k.primary|
    ensures |r.types| == |k.types| && |r.primary| == |k.primary| && r.possible == k.possible && (PrimariesFit(k) ==> PrimariesFit(r))
  {
    var p := IndexOf(k.types, Overlay);
    if k.primary[c] >= 0 || p == |k.types| then k
    else k.(primary := k.primary[c := p], types := k.types[p := Primary])
  }

  function Fill(k: Kms, n: nat): (r: Kms)
    requires n <= |k.primary|
    ensures |r.types| == |k.types| && |r.primary| == |k.primary| && r.possible == k.possible && (PrimariesFit(k) ==> PrimariesFit(r))
  {
    if n == 0 then k else FillCrtc(Fill(k, n - 1), n - 1)
  }

  function Min(a: nat, b: nat): nat {
    if a < b then a else b
  }

  ghost predicate InRange(k: Kms, planes: seq<nat>, crtcs: seq<nat>) {
    && (forall i :: 0 <= i < |planes| ==> planes[i] < |k.types|)
    && (forall i :: 0 <= i < |crtcs| ==> crtcs[i] < |k.primary|)
  }

  // msm_lease_fixup_crtc_primary
  function Fixup(k: Kms, ids: seq<Obj>): (r: Kms)
    requires PrimariesFit(k) && InRange(k, PlanesOf(ids), CrtcsOf(ids))
    ensures |r.types| == |k.types| && |r.primary| == |k.primary| && r.possible == k.possible && PrimariesFit(r)
  {
    if ids == [] then k
    else
      var planes, crtcs := PlanesOf(ids), CrtcsOf(ids);
      var k1 := Reset(k, planes);
      Fill(Setup(k1, crtcs, planes, Min(|crtcs|, |planes|)), |k.primary|)
  }

  // ----- The system -----

  datatype Sys = Sys(kms: Kms, leases: seq<Lease>)

  datatype Op =
    | Probe(planes: seq<string>, connectors: seq<string>)
    | Notify(k: nat, alloc: bool, register: bool)   // whether the two DRM core calls succeed
    | Unbind(k: nat)

  lemma {:induction false} OfInRange(t: Topology, k: Kms, ids: seq<Obj>)
    requires Fits(t, k) && IdsFit(t, ids)
    ensures InRange(k, PlanesOf(ids), CrtcsOf(ids))
  {
    if ids != [] {
      OfInRange(t, k, ids[..|ids| - 1]);
    }
  }

  // The objects gathered for lease k take effect: it has them, and primary planes are handed round.
  function Grant(t: Topology, s: Sys, k: nat, p: Parse): (r: Sys)
    requires Fits(t, s.kms) && k < |s.leases| && IdsFit(t, p.ids) && |p.possible| == |s.kms.possible|
    ensures Fits(t, r.kms)
  {
    OfInRange(t, s.kms.(possible := p.possible), p.ids);
    Sys(Fixup(s.kms.(possible := p.possible), p.ids), s.leases[k := s.leases[k].(bound := true, ids := p.ids)])
  }

  // msm_lease_parse_remain_objs
  function GrantRest(t: Topology, s: Sys): (r: Sys)
    requires Fits(t, s.kms)
    ensures Fits(t, r.kms)
  {
    var k := Target(s.leases);
    if k < 0 then s else Grant(t, s, k, Gather(t, s.kms, s.leases, s.leases[k]))
  }

  // msm_lease_notifier on MSM_COMP_OBJECT_CREATED
  function Notified(t: Topology, s: Sys, k: nat, alloc: bool, register: bool): (r: Sys)
    requires Fits(t, s.kms) && k < |s.leases|
    ensures Fits(t, r.kms)
  {
    var p := ParseObjs(t, s.leases, s.leases[k], s.kms.possible);
    if p.error != NoError || !alloc then s.(kms := s.kms.(possible := p.possible))
    else
      var s1 := Grant(t, s, k, p);
      if register then GrantRest(t, s1) else s1
  }

  function Step(t: Topology, s: Sys, op: Op): (r: Sys)
    requires Fits(t, s.kms)
    ensures Fits(t, r.kms)
  {
    match op
    case Probe(planes, connectors) => s.(leases := s.leases + [Lease(planes, connectors, false, [])])
    case Notify(k, alloc, register) => if k < |s.leases| then Notified(t, s, k, alloc, register) else s
    case Unbind(k) => if k < |s.leases| then s.(leases := s.leases[..k] + s.leases[k + 1..]) else s
  }

  function Run(t: Topology, k0: Kms, ops: seq<Op>): (r: Sys)
    requires Fits(t, k0)
    ensures Fits(t, r.kms)
  {
    if ops == [] then Sys(k0, []) else Step(t, Run(t, k0, ops[..|ops| - 1]), ops[|ops| - 1])
  }
}
