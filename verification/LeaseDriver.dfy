/**
 The functions of msm-lease/msm_lease_drv.c in place: loops over the device's objects and the global lease
 list that rewrite plane types, primary planes, possible_crtcs and the leases, each proved to do what the
 allocator on values does.
 */
module LeaseDriver {
  import opened LeaseModel

  class Driver {
    const t: Topology
    var types: seq<PlaneType>
    var primary: seq<int>
    var possible: seq<set<nat>>
    var leases: seq<Lease>

    function Device(): Kms
      reads this
    {
      Kms(types, primary, possible)
    }

    function View(): Sys
      reads this
    {
      Sys(Device(), leases)
    }

    ghost predicate Valid()
      reads this
    {
      Fits(t, Device())
    }

    // _obj_is_leased, with _find_obj_id
    method ObjIsLeased(o: Obj, mine: seq<Obj>) returns (r: bool)
      ensures r == Leased(o, leases, mine)
    {
      var k := 0;
      while k < |leases|
        invariant k <= |leases| && forall j :: 0 <= j < k ==> o !in leases[j].ids
      {
        r := FindObjId(o, leases[k].ids);
        if r { return; }
        k := k + 1;
      }
      r := FindObjId(o, mine);
    }

    static method FindObjId(o: Obj, ids: seq<Obj>) returns (r: bool)
      ensures r == (o in ids)
    {
      var i := 0;
      while i < |ids|
        invariant i <= |ids| && o !in ids[..i]
      {
        if ids[i] == o { return true; }
        i := i + 1;
      }
      return false;
    }

    static method FindName(names: seq<string>, name: string) returns (i: nat)
      ensures i == IndexOf(names, name)
    {
      i := 0;
      while i < |names|
        invariant i <= |names| && forall j :: 0 <= j < i ==> names[j] != name
      {
        if names[i] == name { break; }
        i := i + 1;
      }
    }

    method AddPlane(name: string, ids: seq<Obj>) returns (error: Error, ids': seq<Obj>)
      ensures var r := LeaseModel.AddPlane(t, leases, Parse(NoError, ids, possible), name);
        error == r.error && ids' == r.ids
    {
      ids' := ids;
      if |ids| >= MAX_OBJECTS { return Einval, ids; }
      var i := FindName(t.planes, name);
      if i == |t.planes| { return Enoent, ids; }
      var taken := ObjIsLeased(Plane(i), ids);
      if taken { return Ebusy, ids; }
      return NoError, ids + [Plane(i)];
    }

    method AddConnector(name: string, ids: seq<Obj>) returns (error: Error, ids': seq<Obj>)
      requires Valid()
      modifies this`possible
      ensures Valid()
      ensures var r := LeaseModel.AddConnector(t, leases, Parse(NoError, ids, old(possible)), name);
        error == r.error && ids' == r.ids && possible == r.possible
    {
      if |ids| >= MAX_OBJECTS - 1 { return Einval, ids; }
      var i := FindName(t.connectors, name);
      if i == |t.connectors| { return Enoent, ids; }
      var taken := ObjIsLeased(Connector(i), ids);
      if taken { return Ebusy, ids; }
      var e := t.encoder[i];
      if e < 0 { return Enoent, ids; }
      var c := 0;
      while c < t.crtcs
        invariant possible == old(possible) && c <= t.crtcs
        invariant FirstFree(t.crtcs, possible[e], leases, ids, c) == FirstFree(t.crtcs, possible[e], leases, ids, 0)
      {
        if c in possible[e] {
          taken := ObjIsLeased(Crtc(c), ids);
          if !taken { break; }
        }
        c := c + 1;
      }
      if c == t.crtcs { return Enoent, ids; }
      possible := possible[e := {c}];
      return NoError, ids + [Connector(i), Crtc(c)];
    }

    method AddPlanes(names: seq<string>, ids: seq<Obj>) returns (error: Error, ids': seq<Obj>)
      ensures var r := LeaseModel.AddPlanes(t, leases, Parse(NoError, ids, possible), names);
        error == r.error && ids' == r.ids
    {
      error, ids' := NoError, ids;
      ghost var r := LeaseModel.AddPlanes(t, leases, Parse(NoError, ids, possible), names);
      var i := 0;
      while i < |names| && error == NoError
        invariant i <= |names|
        invariant LeaseModel.AddPlanes(t, leases, Parse(error, ids', possible), names[i..]) == r
      {
        error, ids' := AddPlane(names[i], ids');
        i := i + 1;
      }
    }

    method AddConnectors(names: seq<string>, ids: seq<Obj>) returns (error: Error, ids': seq<Obj>)
      requires Valid()
      modifies this`possible
      ensures Valid()
      ensures var r := LeaseModel.AddConnectors(t, leases, Parse(NoError, ids, old(possible)), names);
        error == r.error && ids' == r.ids && possible == r.possible
    {
      error, ids' := NoError, ids;
      ghost var r := LeaseModel.AddConnectors(t, leases, Parse(NoError, ids, possible), names);
      var i := 0;
      while i < |names| && error == NoError
        invariant i <= |names| && Valid()
        invariant LeaseModel.AddConnectors(t, leases, Parse(error, ids', possible), names[i..]) == r
      {
        error, ids' := AddConnector(names[i], ids');
        i := i + 1;
      }
    }

    method ParseObjs(k: nat) returns (error: Error, ids: seq<Obj>)
      requires Valid() && k < |leases|
      modifies this`possible
      ensures Valid()
      ensures Parse(error, ids, possible) == LeaseModel.ParseObjs(t, leases, leases[k], old(possible))
    {
      error, ids := NoError, [];
      var l := leases[k];
      if l.planes == [] { return; }
      error, ids := AddPlanes(l.planes, ids);
      if error != NoError { return; }
      if l.connectors == [] { return NoError, []; }
      if |l.connectors| > |ids| { return Einval, ids; }
      error, ids := AddConnectors(l.connectors, ids);
    }

    // ----- Primary planes -----

    method ResetPlane(p: nat)
      requires Valid() && p < |types|
      modifies this`types, this`primary
      ensures Valid() && Device() == LeaseModel.ResetPlane(old(Device()), p)
    {
      if types[p] == Primary {
        var c := 0;
        while c < |primary|
          invariant c <= |primary| && forall d :: 0 <= d < c ==> primary[d] != p
        {
          if primary[c] == p { break; }
          c := c + 1;
        }
        if c < |primary| {
          primary := primary[c := NONE];
        }
        types := types[p := Overlay];
      }
    }

    method TakePlane(c: nat, p: nat)
      requires Valid() && c < |primary| && p < |types|
      modifies this`types, this`primary
      ensures Valid() && Device() == LeaseModel.TakePlane(old(Device()), c, p)
    {
      if primary[c] >= 0 {
        types := types[primary[c] := Overlay];
      }
      primary := primary[c := p];
      types := types[p := Primary];
    }

    method FillCrtc(c: nat)
      requires Valid() && c < |primary|
      modifies this`types, this`primary
      ensures Valid() && Device() == LeaseModel.FillCrtc(old(Device()), c)
    {
      if primary[c] >= 0 { return; }
      var p := 0;
      while p < |types|
        invariant p <= |types| && forall q :: 0 <= q < p ==> types[q] != Overlay
      {
        if types[p] == Overlay { break; }
        p := p + 1;
      }
      if p < |types| {
        primary := primary[c := p];
        types := types[p := Primary];
      }
    }

    static method Sort(ids: seq<Obj>) returns (planes: seq<nat>, crtcs: seq<nat>)
      ensures planes == PlanesOf(ids) && crtcs == CrtcsOf(ids)
    {
      planes, crtcs := [], [];
      var i := 0;
      while i < |ids|
        invariant i <= |ids| && planes == PlanesOf(ids[..i]) && crtcs == CrtcsOf(ids[..i])
      {
        assert ids[..i + 1][..i] == ids[..i];
        if ids[i].Plane? {
          planes := planes + [ids[i].index];
        } else if ids[i].Crtc? {
          crtcs := crtcs + [ids[i].index];
        }
        i := i + 1;
      }
      assert ids[..|ids|] == ids;
    }

    // msm_lease_fixup_crtc_primary
    method FixupCrtcPrimary(ids: seq<Obj>)
      requires Valid() && IdsFit(t, ids)
      modifies this`types, this`primary
      ensures Valid() && InRange(old(Device()), PlanesOf(ids), CrtcsOf(ids))
      ensures Device() == Fixup(old(Device()), ids)
    {
      hide LeaseModel.ResetPlane, LeaseModel.TakePlane, LeaseModel.FillCrtc;
      OfInRange(t, Device(), ids);
      if ids == [] { return; }
      var planes, crtcs := Sort(ids);
      ghost var k0 := Device();
      var i := 0;
      while i < |planes|
        invariant i <= |planes| && Valid() && Device() == Reset(k0, planes[..i])
      {
        assert planes[..i + 1][..i] == planes[..i];
        ResetPlane(planes[i]);
        i := i + 1;
      }
      assert planes[..|planes|] == planes;
      ghost var k1 := Device();
      i := 0;
      while i < |crtcs| && i < |planes|
        invariant i <= |planes| && i <= |crtcs| && Valid() && Device() == Setup(k1, crtcs, planes, i)
      {
        TakePlane(crtcs[i], planes[i]);
        i := i + 1;
      }
      ghost var k2 := Device();
      i := 0;
      while i < |primary|
        invariant i <= |primary| == |k2.primary| && Valid() && Device() == Fill(k2, i)
      {
        FillCrtc(i);
        i := i + 1;
      }
    }

    // ----- The remaining objects -----

    method AddRestPlanes(ids: seq<Obj>) returns (ids': seq<Obj>)
      requires Valid()
      ensures ids' == RestPlanes(t, leases, ids, 0)
    {
      ids' := ids;
      var i := 0;
      while i < |t.planes| && |ids'| < MAX_OBJECTS
        invariant i <= |t.planes| && RestPlanes(t, leases, ids', i) == RestPlanes(t, leases, ids, 0)
      {
        var taken := ObjIsLeased(Plane(i), ids');
        if !taken {
          ids' := ids' + [Plane(i)];
        }
        i := i + 1;
      }
    }

    method IsShared(c: nat) returns (found: bool)
      requires Valid()
      ensures found == Shared(t, possible, c)
    {
      var e := 0;
      while e < |possible|
        invariant e <= |possible|
        invariant forall f :: 0 <= f < e ==> t.virtuals[f] || c !in possible[f] || possible[f] == {c}
      {
        if !t.virtuals[e] && c in possible[e] && possible[e] != {c} { return true; }
        e := e + 1;
      }
      return false;
    }

    method AddRestCrtcs(ids: seq<Obj>, dedicated: bool) returns (ids': seq<Obj>)
      requires Valid()
      ensures ids' == RestCrtcs(t, Device(), leases, ids, dedicated, 0)
    {
      ids' := ids;
      var c := 0;
      while c < t.crtcs && |ids'| < MAX_OBJECTS
        invariant c <= t.crtcs
        invariant RestCrtcs(t, Device(), leases, ids', dedicated, c) == RestCrtcs(t, Device(), leases, ids, dedicated, 0)
      {
        var skip := ObjIsLeased(Crtc(c), ids');
        if !skip && dedicated {
          skip := IsShared(c);
        }
        if !skip && primary[c] >= 0 {
          ids' := ids' + [Crtc(c)];
        }
        c := c + 1;
      }
    }

    method AddRestConnectors(ids: seq<Obj>) returns (ids': seq<Obj>)
      requires Valid()
      ensures ids' == RestConnectors(t, possible, leases, ids, ids, 0)
    {
      ids' := ids;
      var i := 0;
      while i < |t.connectors| && |ids'| < MAX_OBJECTS
        invariant i <= |t.connectors|
        invariant RestConnectors(t, possible, leases, ids', ids, i) == RestConnectors(t, possible, leases, ids, ids, 0)
      {
        var taken := ObjIsLeased(Connector(i), ids');
        if !taken && t.encoder[i] >= 0 {
          var found := FindReachable(possible[t.encoder[i]], ids);
          if found {
            ids' := ids' + [Connector(i)];
          }
        }
        i := i + 1;
      }
    }

    static method FindReachable(mask: set<nat>, objs: seq<Obj>) returns (found: bool)
      ensures found == Reaches(mask, objs)
    {
      var i := 0;
      while i < |objs|
        invariant i <= |objs| && forall j :: 0 <= j < i ==> !(objs[j].Crtc? && objs[j].index in mask)
      {
        if objs[i].Crtc? && objs[i].index in mask { return true; }
        i := i + 1;
      }
      return false;
    }

    method FindTarget() returns (target: int)
      ensures target == Target(leases)
    {
      target := NONE;
      var k := 0;
      while k < |leases|
        invariant k <= |leases| && target == Target(leases[..k])
      {
        assert leases[..k + 1][..k] == leases[..k];
        if leases[k].bound && leases[k].ids == [] {
          target := k;
        }
        k := k + 1;
      }
      assert leases[..|leases|] == leases;
    }

    // the gathering part of msm_lease_parse_remain_objs
    method GatherRest(l: Lease) returns (ids: seq<Obj>)
      requires Valid()
      modifies this`possible
      ensures Valid()
      ensures var r := Gather(t, old(Device()), leases, l); ids == r.ids && possible == r.possible
    {
      hide LeaseModel.AddConnectors, LeaseModel.AddPlanes, RestPlanes, RestCrtcs, RestConnectors;
      var error;
      if l.planes != [] {
        error, ids := AddPlanes(l.planes, []);
      } else {
        ids := AddRestPlanes([]);
      }
      if l.connectors != [] {
        error, ids := AddConnectors(l.connectors, ids);
      } else {
        ids := AddRestCrtcs(ids, true);
        ids := AddRestCrtcs(ids, false);
        ids := AddRestConnectors(ids);
      }
    }

    method ParseRemainObjs()
      requires Valid()
      modifies this
      ensures Valid() && View() == GrantRest(t, old(View()))
    {
      hide Gather, Fixup;
      var k := FindTarget();
      if k < 0 { return; }
      var ids := GatherRest(leases[k]);
      leases := leases[k := leases[k].(bound := true, ids := ids)];
      FixupCrtcPrimary(ids);
    }

    // msm_lease_notifier on MSM_COMP_OBJECT_CREATED
    method Notifier(k: nat, alloc: bool, register: bool)
      requires Valid() && k < |leases|
      modifies this
      ensures Valid() && View() == Notified(t, old(View()), k, alloc, register)
    {
      hide LeaseModel.ParseObjs, Fixup, GrantRest;
      var error, ids := ParseObjs(k);
      if error != NoError || !alloc { return; }
      leases := leases[k := leases[k].(bound := true, ids := ids)];
      FixupCrtcPrimary(ids);
      if register {
        ParseRemainObjs();
      }
    }
  }
}
