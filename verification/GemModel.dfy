/**
 Mapping of GEM objects into one SMMU address space (msm/msm_gem.c, msm/msm_gem_vma.c) on values: getting an
 iova, detaching and attaching the domain, and freeing.
 */
module GemModel {

  // The device an imported buffer is attached to: this address space's, the secure display SMMU, or another.
  datatype Home = Here | Secure | Other

  // struct msm_gem_vma: the address space it is for, and its iova, 0 when unmapped
  datatype Vma = Vma(space: nat, iova: nat)

  // The address space that the model is about
  const SPACE: nat := 0

  // struct msm_gem_object
  datatype Obj = Obj(imported: bool, home: Home, ext: bool, sgt: bool, dirty: bool, active: bool, hasAspace: bool, vmas: seq<Vma>)

  // The address space, the objects and its active list.  `leaks` counts references that no unmapping gives
  // back and `deadlock` tells whether list_lock was taken by its holder; both are the model's own.
  datatype Gem = Gem(unsecure: bool, attached: bool, objs: map<nat, Obj>, list: seq<nat>, refs: int, clock: nat,
                     leaks: nat, deadlock: bool)

  // The outcome of the calls outside: importing the buffer, getting its pages, mapping it, and its address.
  datatype Answer = Answer(imports: bool, pages: bool, maps: bool, address: nat)

  type Env = nat -> Answer

  // ----- Getting an iova -----

  datatype Got = Got(ok: bool, obj: Obj, refs: nat, leaks: nat)

  // Re-attaching and importing, before a vma is added.
  function Import(unsecure: bool, o: Obj, a: Answer): (bool, Obj) {
    if o.imported && (o.home != Here || o.dirty) then
      if unsecure && o.home == Secure then (false, o)
      else if a.imports then (true, o.(home := Here, dirty := false, sgt := true))
      else (false, o.(home := Here, dirty := true))
    else if o.ext && !o.sgt then
      if o.imported && a.imports then (true, o.(sgt := true)) else (false, o.(dirty := true))
    else (true, o)
  }

  // Adding a vma and mapping it (smmu_aspace_map_vma takes the reference even when mapping fails).
  function Map(attached: bool, o: Obj, a: Answer): Got {
    var o1 := o.(hasAspace := true);
    if !a.pages then Got(false, o1, 0, 0)
    else
      var o2 := o1.(sgt := true);
      if !attached then Got(false, o2, 0, 0)
      else if !a.maps then Got(false, o2, 1, 1)
      else Got(true, o2.(vmas := o2.vmas + [Vma(SPACE, a.address)]), 1, if a.address == 0 then 1 else 0)
  }

  function Fetch(unsecure: bool, attached: bool, o: Obj, a: Answer): Got {
    var (ok, o') := Import(unsecure, o, a);
    if ok then Map(attached, o', a) else Got(false, o', 0, 0)
  }

  // lookup_vma: the place of the first vma of the address space, or the end of the list
  function Lookup(vmas: seq<Vma>, space: nat): (k: nat)
    ensures k <= |vmas| && (k < |vmas| ==> vmas[k].space == space)
    ensures forall j :: 0 <= j < k ==> vmas[j].space != space
  {
    if vmas == [] || vmas[0].space == space then 0 else Lookup(vmas[1..], space) + 1
  }

  // msm_gem_get_iova_locked; `locked` when the caller holds list_lock.
  function GetIova(g: Gem, id: nat, env: Env, locked: bool): (bool, Gem)
    requires id in g.objs
  {
    var o := g.objs[id];
    var got := if Lookup(o.vmas, SPACE) == |o.vmas| then Fetch(g.unsecure, g.attached, o, env(g.clock)) else Got(true, o, 0, 0);
    var g1 := g.(refs := g.refs + got.refs, leaks := g.leaks + got.leaks, clock := g.clock + 1);
    if got.ok && !o.active then
      (true, g1.(objs := g.objs[id := got.obj.(active := true)], list := g.list + [id], deadlock := g.deadlock || locked))
    else (got.ok, g1.(objs := g.objs[id := got.obj]))
  }

  // ----- Giving it back -----

  // How many of the vmas are mapped.
  function MappedCount(vmas: seq<Vma>): nat {
    if vmas == [] then 0 else MappedCount(vmas[..|vmas| - 1]) + if vmas[|vmas| - 1].iova != 0 then 1 else 0
  }

  // put_iova: every vma is unmapped and deleted.
  function PutIova(g: Gem, id: nat): Gem
    requires id in g.objs
  {
    var o := g.objs[id];
    g.(objs := g.objs[id := o.(vmas := [], hasAspace := o.hasAspace || o.vmas != [])], refs := g.refs - MappedCount(o.vmas))
  }

  // ----- Detaching and attaching the domain -----

  function DetachOne(g: Gem, id: nat): Gem
    requires id in g.objs
  {
    if g.objs[id].imported then
      var g1 := PutIova(g, id);
      g1.(objs := g1.objs[id := g1.objs[id].(dirty := true)])
    else g
  }

  ghost predicate Listed(g: Gem, ids: seq<nat>) {
    forall i :: 0 <= i < |ids| ==> ids[i] in g.objs
  }

  function DetachAll(g: Gem, ids: seq<nat>): (r: Gem)
    requires Listed(g, ids)
    ensures r.objs.Keys == g.objs.Keys && r.list == g.list
  {
    if ids == [] then g else DetachOne(DetachAll(g, ids[..|ids| - 1]), ids[|ids| - 1])
  }

  // sde_kms_mmu_detach for this address space
  function Detach(g: Gem): Gem
    requires Listed(g, g.list)
  {
    DetachAll(g, g.list).(attached := false)
  }

  // Mapping the active objects again, as far as the first failure; list_lock is held.
  function AttachAll(g: Gem, ids: seq<nat>, env: Env): (r: (bool, Gem))
    requires Listed(g, ids)
    ensures r.1.objs.Keys == g.objs.Keys
    decreases |ids|
  {
    if ids == [] then (true, g)
    else
      var (ok, g1) := GetIova(g, ids[0], env, true);
      if ok then AttachAll(g1, ids[1..], env) else (false, g1)
  }

  // sde_kms_mmu_attach for this address space
  function Attach(g: Gem, env: Env): (bool, Gem)
    requires Listed(g, g.list)
  {
    AttachAll(g.(attached := true), g.list, env)
  }

  // ----- Freeing -----

  // smmu_aspace_remove_from_active: the first entry for the object leaves the list.
  function Without(list: seq<nat>, id: nat): seq<nat> {
    if list == [] then [] else if list[0] == id then list[1..] else [list[0]] + Without(list[1..], id)
  }

  // The mapping part of msm_gem_free_object
  function Free(g: Gem, id: nat): Gem
    requires id in g.objs
  {
    var g1 := PutIova(g, id);
    g1.(list := if g1.objs[id].hasAspace then Without(g.list, id) else g.list, objs := g1.objs - {id})
  }

  // ----- Runs -----

  datatype Op =
    | New(id: nat, imported: bool, home: Home, ext: bool, sgt: bool, hasAspace: bool)
    | Get(id: nat)
    | Detaching
    | Attaching
    | Freeing(id: nat)

  function Step(g: Gem, op: Op, env: Env): Gem
    requires Listed(g, g.list)
  {
    match op
    case New(id, imported, home, ext, sgt, hasAspace) =>
      if id in g.objs then g else g.(objs := g.objs[id := Obj(imported, home, ext, sgt, false, false, hasAspace, [])])
    case Get(id) => if id in g.objs then GetIova(g, id, env, false).1 else g
    case Detaching => Detach(g)
    case Attaching => Attach(g, env).1
    case Freeing(id) => if id in g.objs then Free(g, id) else g
  }

  // msm_gem_smmu_address_space_create: one reference, nothing mapped; the domain may be attached already.
  function Created(unsecure: bool, attached: bool): Gem {
    Gem(unsecure, attached, map[], [], 1, 0, 0, false)
  }
}
