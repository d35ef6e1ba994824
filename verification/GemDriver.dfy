/**
 The functions of msm/msm_gem.c and msm/msm_gem_vma.c in place: an object's vma list, attachment and flags,
 the address space's active list and its reference count.
 */
module GemDriver {
  import M = GemModel

  class AddressSpace {
    const unsecure: bool
    var attached: bool
    var objs: map<nat, M.Obj>
    var list: seq<nat>
    var refs: int
    var clock: nat
    var leaks: nat
    var deadlock: bool

    function View(): M.Gem
      reads this
    {
      M.Gem(unsecure, attached, objs, list, refs, clock, leaks, deadlock)
    }

    // lookup_vma: the first vma of the address space in the object's list, if there is one
    method LookupVma(id: nat, space: nat) returns (found: bool, k: nat)
      requires id in objs
      ensures found <==> exists v :: v in objs[id].vmas && v.space == space
      ensures found ==> k < |objs[id].vmas| && objs[id].vmas[k].space == space
      ensures found ==> forall j :: 0 <= j < k ==> objs[id].vmas[j].space != space
      ensures found == (M.Lookup(objs[id].vmas, space) < |objs[id].vmas|)
    {
      var vmas := objs[id].vmas;
      k := 0;
      while k < |vmas|
        invariant k <= |vmas| && forall j :: 0 <= j < k ==> vmas[j].space != space
      {
        if vmas[k].space == space { return true, k; }
        k := k + 1;
      }
      found := false;
    }

    // smmu_aspace_map_vma, for the vma last added to the object
    method MapVma(id: nat, a: M.Answer) returns (ok: bool, iova: nat)
      requires id in objs
      modifies this`refs, this`leaks
      ensures ok == (attached && a.maps) && iova == (if ok then a.address else 0)
      ensures refs == old(refs) + (if attached then 1 else 0)
      ensures leaks == old(leaks) + (if attached && iova == 0 then 1 else 0)
    {
      ok, iova := false, 0;
      if attached {
        ok := a.maps;
        if ok {
          iova := a.address;
        }
        refs := refs + 1;
        if iova == 0 {
          leaks := leaks + 1;
        }
      }
    }

    // the part of msm_gem_get_iova_locked for an object without a vma, up to its import
    method Import(id: nat, a: M.Answer) returns (ok: bool)
      requires id in objs
      modifies this`objs
      ensures var (ok', o') := M.Import(unsecure, old(objs)[id], a);
        ok == ok' && objs == old(objs)[id := o']
    {
      var o := objs[id];
      ok := true;
      var reattach := false;
      if o.imported && (o.home != M.Here || o.dirty) {
        if unsecure && o.home == M.Secure {
          objs := objs[id := o];
          return false;
        }
        o := o.(home := M.Here, dirty := false);
        reattach := true;
      }
      if (o.ext && !o.sgt) || reattach {
        ok := o.imported && a.imports;
        if ok {
          o := o.(sgt := true);
        } else {
          o := o.(dirty := true);
        }
      }
      objs := objs[id := o];
    }

    // the rest of it: adding the vma, getting pages and mapping
    method Map(id: nat, a: M.Answer) returns (ok: bool)
      requires id in objs
      modifies this`objs, this`refs, this`leaks
      ensures var got := M.Map(attached, old(objs)[id], a);
        ok == got.ok && objs == old(objs)[id := got.obj] && refs == old(refs) + got.refs && leaks == old(leaks) + got.leaks
    {
      // add_vma at the tail, and del_vma when a later step fails
      var others := objs[id].vmas;
      var o := objs[id].(hasAspace := true, vmas := others + [M.Vma(M.SPACE, 0)]);
      if !a.pages {
        objs := objs[id := o.(vmas := others)];
        return false;
      }
      o := o.(sgt := true);
      var iova;
      ok, iova := MapVma(id, a);
      objs := objs[id := o.(vmas := if ok then others + [M.Vma(M.SPACE, iova)] else others)];
    }

    // both, for an object without a vma in this address space
    method Fetch(id: nat, a: M.Answer) returns (ok: bool)
      requires id in objs
      modifies this`objs, this`refs, this`leaks
      ensures var got := M.Fetch(unsecure, attached, old(objs)[id], a);
        ok == got.ok && objs == old(objs)[id := got.obj] && refs == old(refs) + got.refs && leaks == old(leaks) + got.leaks
    {
      hide M.Map;
      ok := Import(id, a);
      if ok {
        ok := Map(id, a);
      }
    }

    // smmu_aspace_add_to_active, under list_lock
    method AddToActive(id: nat, locked: bool)
      requires id in objs
      modifies this`deadlock, this`list, this`objs
      ensures deadlock == (old(deadlock) || locked) && list == old(list) + [id]
      ensures objs == old(objs)[id := old(objs)[id].(active := true)]
    {
      deadlock := deadlock || locked;
      list := list + [id];
      objs := objs[id := objs[id].(active := true)];
    }

    // msm_gem_get_iova_locked
    method GetIova(id: nat, env: M.Env, locked: bool) returns (ok: bool)
      requires id in objs
      modifies this
      ensures (ok, View()) == M.GetIova(old(View()), id, env, locked)
    {
      hide M.Fetch, M.Lookup;
      var a := env(clock);
      var found, k := LookupVma(id, M.SPACE);
      ok := true;
      var active := objs[id].active;
      clock := clock + 1;
      if !found {
        ok := Fetch(id, a);
      }
      if ok && !active {
        AddToActive(id, locked);
      }
      assert objs == old(objs)[id := objs[id]];
    }

    // put_iova
    method PutIova(id: nat)
      requires id in objs
      modifies this`objs, this`refs
      ensures View() == M.PutIova(old(View()), id)
    {
      var o := objs[id];
      var i := 0;
      while i < |o.vmas|
        invariant i <= |o.vmas| && o == old(objs[id]) && objs == old(objs)
        invariant refs == old(refs) - M.MappedCount(o.vmas[..i])
      {
        // smmu_aspace_unmap_vma
        assert o.vmas[..i + 1][..i] == o.vmas[..i];
        if o.vmas[i].iova != 0 {
          refs := refs - 1;
        }
        i := i + 1;
      }
      assert o.vmas[..|o.vmas|] == o.vmas;
      objs := objs[id := o.(vmas := [], hasAspace := o.hasAspace || |o.vmas| > 0)];
    }

    method DetachOne(id: nat)
      requires id in objs
      modifies this`objs, this`refs
      ensures View() == M.DetachOne(old(View()), id)
    {
      if objs[id].imported {
        PutIova(id);
        objs := objs[id := objs[id].(dirty := true)];
      }
    }

    // sde_kms_mmu_detach for this address space, with the active buffers unmapped
    method Detach()
      requires M.Listed(View(), list)
      modifies this
      ensures View() == M.Detach(old(View()))
    {
      hide M.DetachOne, M.PutIova, M.MappedCount;
      ghost var g := View();
      var i := 0;
      while i < |list|
        invariant i <= |list| && list == g.list && M.Listed(g, list[..i])
        invariant View() == M.DetachAll(g, list[..i])
        invariant objs.Keys == g.objs.Keys
      {
        assert list[..i + 1][..i] == list[..i] && list[i] in g.objs;
        DetachOne(list[i]);
        i := i + 1;
      }
      assert list[..|list|] == list;
      attached := false;
    }

    // sde_kms_mmu_attach for this address space, with the active buffers mapped
    method Attach(env: M.Env) returns (ok: bool)
      requires M.Listed(View(), list)
      modifies this
      ensures (ok, View()) == M.Attach(old(View()), env)
    {
      hide M.GetIova;
      attached := true;
      ghost var g := View();
      var ids := list;
      var i := 0;
      ok := true;
      while i < |ids| && ok
        invariant i <= |ids| && M.Listed(View(), ids[i..])
        invariant ok ==> M.AttachAll(g, ids, env) == M.AttachAll(View(), ids[i..], env)
        invariant !ok ==> M.AttachAll(g, ids, env) == (false, View())
        invariant objs.Keys == g.objs.Keys
      {
        ghost var before := View();
        SameKeys(before, ids[i], env);
        ok := GetIova(ids[i], env, true);
        i := i + 1;
      }
    }

    lemma SameKeys(g: M.Gem, id: nat, env: M.Env)
      requires id in g.objs
      ensures M.GetIova(g, id, env, true).1.objs.Keys == g.objs.Keys
    {
    }

    // smmu_aspace_remove_from_active
    method RemoveFromActive(id: nat)
      modifies this`list
      ensures list == M.Without(old(list), id)
    {
      ghost var r := M.Without(list, id);
      assert [] + r == r && list[0..] == list;
      var i := 0;
      while i < |list| && list[i] != id
        invariant i <= |list| && r == list[..i] + M.Without(list[i..], id)
      {
        assert list[..i] + ([list[i]] + M.Without(list[i + 1..], id)) == list[..i + 1] + M.Without(list[i + 1..], id);
        i := i + 1;
      }
      if i < |list| {
        list := list[..i] + list[i + 1..];
      } else {
        assert list[..i] + [] == list;
      }
    }

    // the mapping part of msm_gem_free_object
    method Free(id: nat)
      requires id in objs
      modifies this
      ensures View() == M.Free(old(View()), id)
    {
      hide M.Without, M.MappedCount;
      PutIova(id);
      if objs[id].hasAspace {
        RemoveFromActive(id);
      }
      objs := objs - {id};
    }
  }
}
