/**
 What every run of getting iovas, detaching, attaching and freeing keeps: the active flag and the active
 list agree, an object has at most one vma, and references to the address space are accounted for.
 */
module GemProofs {
  import opened GemModel

  // ----- The state of one object -----

  ghost predicate ObjOk(o: Obj) {
    && |o.vmas| <= 1 && (o.vmas != [] ==> o.vmas[0].space == SPACE)
    && (o.active || o.vmas != [] ==> o.hasAspace)
    && ((o.active || o.vmas != []) && o.imported ==> o.home == Here)
    && (o.active && !o.imported ==> o.vmas != [])
  }

  predicate Live(o: Obj) {
    MappedCount(o.vmas) > 0
  }

  // ----- The active list -----

  ghost predicate ListOk(g: Gem) {
    && (forall i, j :: 0 <= i < j < |g.list| ==> g.list[i] != g.list[j])
    && (forall i :: 0 <= i < |g.list| ==> g.list[i] in g.objs && g.objs[g.list[i]].active)
    && (forall id :: id in g.objs && g.objs[id].active ==> id in g.list)
  }

  ghost predicate ObjsOk(objs: map<nat, Obj>) {
    forall id :: id in objs ==> ObjOk(objs[id])
  }

  // ----- References -----

  ghost function LiveSet(objs: map<nat, Obj>): set<nat> {
    set id | id in objs && Live(objs[id])
  }

  ghost predicate RefsOk(g: Gem) {
    g.refs == 1 + |LiveSet(g.objs)| + g.leaks
  }

  ghost predicate Inv(g: Gem) {
    ListOk(g) && ObjsOk(g.objs) && RefsOk(g) && !g.deadlock
  }

  lemma LiveMember(objs: map<nat, Obj>, x: nat)
    ensures x in LiveSet(objs) <==> x in objs && Live(objs[x])
  {
  }

  lemma LiveSetWith(objs: map<nat, Obj>, id: nat, o: Obj)
    ensures LiveSet(objs[id := o]) == if Live(o) then LiveSet(objs) + {id} else LiveSet(objs) - {id}
  {
    hide Live, LiveSet;
    var now, was := LiveSet(objs[id := o]), if Live(o) then LiveSet(objs) + {id} else LiveSet(objs) - {id};
    forall x | x in now ensures x in was {
      LiveMember(objs, x);
      LiveMember(objs[id := o], x);
    }
    forall x | x in was ensures x in now {
      LiveMember(objs, x);
      LiveMember(objs[id := o], x);
    }
  }

  ghost function LiveCount(objs: map<nat, Obj>, id: nat): nat {
    if id in objs && Live(objs[id]) then 1 else 0
  }

  // Changing one object changes the number of mapped objects by that object's share.
  lemma LiveWith(objs: map<nat, Obj>, id: nat, o: Obj)
    ensures |LiveSet(objs[id := o])| == |LiveSet(objs)| - LiveCount(objs, id) + if Live(o) then 1 else 0
  {
    hide Live, LiveSet;
    LiveSetWith(objs, id, o);
    LiveMember(objs, id);
    var live := LiveSet(objs);
    if id in live && !Live(o) {
      assert live == (live - {id}) + {id};
    }
  }

  lemma OneMapped(vmas: seq<Vma>)
    requires |vmas| <= 1
    ensures MappedCount(vmas) == if vmas != [] && vmas[0].iova != 0 then 1 else 0
  {
    if |vmas| == 1 {
      assert MappedCount(vmas[..0]) == 0;
    }
  }

  // ----- Getting an iova -----

  lemma ImportKeeps(unsecure: bool, o: Obj, a: Answer)
    requires ObjOk(o) && o.vmas == []
    ensures var (ok, o') := Import(unsecure, o, a);
      && ObjOk(o') && o'.vmas == [] && o'.active == o.active && o'.imported == o.imported
      && (ok && o.imported ==> o'.home == Here)
  {
  }

  lemma {:induction false} MapKeeps(attached: bool, o: Obj, a: Answer)
    requires ObjOk(o) && o.vmas == [] && (o.imported ==> o.home == Here)
    ensures var got := Map(attached, o, a);
      && ObjOk(got.obj) && got.obj.active == o.active && got.obj.imported == o.imported
      && (got.ok ==> got.obj.vmas == [Vma(SPACE, a.address)] && got.obj.hasAspace && (got.obj.imported ==> got.obj.home == Here))
      && (!got.ok ==> got.obj.vmas == [])
      && got.refs == (if Live(got.obj) then 1 else 0) + got.leaks
  {
    OneMapped([Vma(SPACE, a.address)]);
  }

  // A failed fetch adds no vma, a good one exactly one, and each reference it takes is a mapping or a leak.
  lemma FetchKeeps(unsecure: bool, attached: bool, o: Obj, a: Answer)
    requires ObjOk(o) && o.vmas == []
    ensures var got := Fetch(unsecure, attached, o, a);
      && ObjOk(got.obj) && got.obj.active == o.active && got.obj.imported == o.imported
      && (got.ok ==> got.obj.vmas == [Vma(SPACE, a.address)] && got.obj.hasAspace && (got.obj.imported ==> got.obj.home == Here))
      && (!got.ok ==> got.obj.vmas == [])
      && got.refs == (if Live(got.obj) then 1 else 0) + got.leaks
  {
    hide Import, Map, ObjOk;
    ImportKeeps(unsecure, o, a);
    var (ok, o') := Import(unsecure, o, a);
    if ok {
      MapKeeps(attached, o', a);
    }
  }

  lemma GetKeeps(g: Gem, id: nat, env: Env, locked: bool)
    requires Inv(g) && id in g.objs && (locked ==> g.objs[id].active)
    ensures Inv(GetIova(g, id, env, locked).1)
  {
    hide Fetch, ObjOk, LiveSet;
    var o := g.objs[id];
    var g' := GetIova(g, id, env, locked).1;
    assert ObjOk(o);
    LiveWith(g.objs, id, g'.objs[id]);
    GetObject(g, id, env, locked);
  }

  // What getting an iova does to the object itself.
  lemma {:induction false} GetObject(g: Gem, id: nat, env: Env, locked: bool)
    requires id in g.objs && ObjOk(g.objs[id])
    ensures var (ok, g') := GetIova(g, id, env, locked);
      var o, o' := g.objs[id], g'.objs[id];
      && g'.objs == g.objs[id := o'] && ObjOk(o') && o'.imported == o.imported
      && (ok ==> |o'.vmas| == 1 && o'.active) && (!ok ==> o'.active == o.active && o'.vmas == [])
      && (o.vmas != [] ==> ok && o'.vmas == o.vmas)
      && g'.refs - g.refs == (if Live(o') then 1 else 0) - (if Live(o) then 1 else 0) + (g'.leaks - g.leaks)
      && g'.list == (if o'.active && !o.active then g.list + [id] else g.list)
  {
    var o := g.objs[id];
    if o.vmas == [] {
      FetchKeeps(g.unsecure, g.attached, o, env(g.clock));
    }
  }

  // ----- Giving iovas back -----

  lemma PutObject(g: Gem, id: nat)
    requires id in g.objs && ObjOk(g.objs[id]) && RefsOk(g)
    ensures var g' := PutIova(g, id);
      && (g.objs[id].imported ==> ObjOk(g'.objs[id])) && RefsOk(g') && !Live(g'.objs[id]) && g'.objs[id].vmas == []
      && g'.objs[id].active == g.objs[id].active
  {
    OneMapped(g.objs[id].vmas);
    LiveWith(g.objs, id, PutIova(g, id).objs[id]);
  }

  lemma DetachOneKeeps(g: Gem, id: nat)
    requires Inv(g) && id in g.objs
    ensures var g' := DetachOne(g, id);
      && Inv(g') && g'.list == g.list && g'.objs.Keys == g.objs.Keys
      && (forall i :: i in g.objs && i != id ==> g'.objs[i] == g.objs[i])
      && g'.objs[id].imported == g.objs[id].imported
      && (g.objs[id].imported ==> g'.objs[id].vmas == [] && g'.objs[id].dirty)
  {
    hide LiveSet;
    assert ObjOk(g.objs[id]);
    PutObject(g, id);
    if g.objs[id].imported {
      var g1 := PutIova(g, id);
      LiveWith(g1.objs, id, g1.objs[id].(dirty := true));
    }
  }

  lemma {:induction false} DetachAllKeeps(g: Gem, ids: seq<nat>)
    requires Inv(g) && Listed(g, ids)
    ensures var g' := DetachAll(g, ids);
      && Inv(g') && g'.list == g.list && g'.objs.Keys == g.objs.Keys
      && (forall id :: id in g.objs ==> g'.objs[id].imported == g.objs[id].imported)
      && (forall id :: id in ids && g.objs[id].imported ==> g'.objs[id].vmas == [] && g'.objs[id].dirty)
  {
    hide Inv, DetachOne;
    if ids != [] {
      var init := ids[..|ids| - 1];
      DetachAllKeeps(g, init);
      DetachOneKeeps(DetachAll(g, init), ids[|ids| - 1]);
      assert ids == init + [ids[|ids| - 1]];
    }
  }

  // ----- Attaching -----

  lemma {:induction false} AttachAllKeeps(g: Gem, ids: seq<nat>, env: Env)
    requires Inv(g) && Listed(g, ids) && forall i :: 0 <= i < |ids| ==> g.objs[ids[i]].active
    ensures var (ok, g') := AttachAll(g, ids, env);
      && Inv(g') && g'.list == g.list && g'.attached == g.attached && g'.unsecure == g.unsecure
      && (forall id :: id in g.objs && |g.objs[id].vmas| == 1 ==> g'.objs[id].vmas == g.objs[id].vmas)
      && (ok ==> forall i :: 0 <= i < |ids| ==> |g'.objs[ids[i]].vmas| == 1)
    decreases |ids|
  {
    hide ObjsOk, RefsOk, GetIova, LiveSet;
    if ids != [] {
      var id := ids[0];
      var g1 := GetIova(g, id, env, true).1;
      ActiveIsOk(g, id);
      GetObject(g, id, env, true);
      GetKeeps(g, id, env, true);
      GetSame(g, id, env, true);
      if GetIova(g, id, env, true).0 {
        AttachAllKeeps(g1, ids[1..], env);
      }
    }
  }

  lemma ActiveIsOk(g: Gem, id: nat)
    requires ObjsOk(g.objs) && id in g.objs
    ensures ObjOk(g.objs[id])
  {
  }

  lemma GetSame(g: Gem, id: nat, env: Env, locked: bool)
    requires id in g.objs
    ensures var g' := GetIova(g, id, env, locked).1; g'.attached == g.attached && g'.unsecure == g.unsecure && g'.clock == g.clock + 1
  {
  }

  // When nothing outside fails from here on, an active object gets its iova.
  ghost predicate AllWell(env: Env, from: nat) {
    forall k: nat :: k >= from ==> env(k).imports && env(k).pages && env(k).maps && env(k).address != 0
  }

  lemma ActiveGets(g: Gem, id: nat, env: Env)
    requires id in g.objs && ObjOk(g.objs[id]) && g.objs[id].active && g.attached && AllWell(env, g.clock)
    ensures var (ok, g') := GetIova(g, id, env, true);
      ok && (g.objs[id].vmas == [] ==> Live(g'.objs[id]) && !g'.objs[id].dirty)
  {
    OneMapped([Vma(SPACE, env(g.clock).address)]);
  }

  lemma ActiveGot(g: Gem, id: nat, env: Env)
    requires Inv(g) && id in g.objs && g.objs[id].active && g.attached && AllWell(env, g.clock)
    ensures var (ok, g1) := GetIova(g, id, env, true);
      var o, o' := g.objs[id], g1.objs[id];
      && ok && Inv(g1) && g1.attached && AllWell(env, g1.clock) && g1.objs == g.objs[id := o']
      && o'.active && o'.vmas != [] && (o.vmas == [] ==> Live(o') && !o'.dirty)
      && (o.vmas != [] ==> o'.vmas == o.vmas && o'.dirty == o.dirty)
  {
    hide GetIova, ObjsOk, RefsOk, ListOk, AllWell, Live;
    ActiveIsOk(g, id);
    GetObject(g, id, env, true);
    GetKeeps(g, id, env, true);
    GetSame(g, id, env, true);
    ActiveGets(g, id, env);
    WellLater(env, g.clock);
    if g.objs[id].vmas != [] {
      DirtyStays(g, id, env);
    }
  }

  lemma {:induction false} AttachAllGets(g: Gem, ids: seq<nat>, env: Env)
    requires Inv(g) && Listed(g, ids) && forall i :: 0 <= i < |ids| ==> g.objs[ids[i]].active
    requires g.attached && AllWell(env, g.clock)
    ensures var (ok, g') := AttachAll(g, ids, env);
      && ok
      && (forall id :: id in g.objs && g.objs[id].vmas != [] ==> g'.objs[id].vmas == g.objs[id].vmas && g'.objs[id].dirty == g.objs[id].dirty)
      && (forall id :: id in ids && g.objs[id].vmas == [] ==> Live(g'.objs[id]) && !g'.objs[id].dirty)
    decreases |ids|
  {
    hide Inv, GetIova, AllWell;
    if ids != [] {
      var id := ids[0];
      ActiveGot(g, id, env);
      var g1 := GetIova(g, id, env, true).1;
      AttachAllGets(g1, ids[1..], env);
      assert forall i :: i in ids ==> i == id || i in ids[1..];
    }
  }

  lemma WellLater(env: Env, from: nat)
    requires AllWell(env, from)
    ensures AllWell(env, from + 1)
  {
  }

  lemma DirtyStays(g: Gem, id: nat, env: Env)
    requires id in g.objs && ObjOk(g.objs[id]) && g.objs[id].vmas != []
    ensures GetIova(g, id, env, true).1.objs[id].dirty == g.objs[id].dirty
  {
  }

  // ----- Freeing -----

  lemma {:induction false} WithoutKeeps(list: seq<nat>, id: nat)
    requires forall i, j :: 0 <= i < j < |list| ==> list[i] != list[j]
    ensures var r := Without(list, id);
      && (forall i, j :: 0 <= i < j < |r| ==> r[i] != r[j])
      && (forall x :: x in r <==> x in list && x != id)
  {
    if list != [] {
      WithoutKeeps(list[1..], id);
      var r1 := Without(list[1..], id);
      assert forall x :: x in list <==> x == list[0] || x in list[1..];
      assert list[0] !in list[1..];
      if list[0] != id {
        ConsDistinct(list[0], r1);
      }
    }
  }

  lemma ConsDistinct(x: nat, r: seq<nat>)
    requires x !in r && forall i, j :: 0 <= i < j < |r| ==> r[i] != r[j]
    ensures forall i, j :: 0 <= i < j < |[x] + r| ==> ([x] + r)[i] != ([x] + r)[j]
    ensures forall y :: y in [x] + r <==> y == x || y in r
  {
    assert forall i :: 0 <= i < |r| ==> ([x] + r)[i + 1] == r[i] && r[i] in r;
  }

  lemma DeadRemoved(objs: map<nat, Obj>, id: nat)
    requires id in objs && !Live(objs[id])
    ensures LiveSet(objs - {id}) == LiveSet(objs)
  {
    hide Live, LiveSet;
    var now, was := LiveSet(objs - {id}), LiveSet(objs);
    forall x | x in now ensures x in was {
      LiveMember(objs, x);
      LiveMember(objs - {id}, x);
    }
    forall x | x in was ensures x in now {
      LiveMember(objs, x);
      LiveMember(objs - {id}, x);
    }
  }

  lemma {:induction false} FreedList(g: Gem, id: nat)
    requires ListOk(g) && id in g.objs && ObjOk(g.objs[id])
    ensures ListOk(Free(g, id))
  {
    WithoutKeeps(g.list, id);
    var g' := Free(g, id);
    assert forall x :: x in g'.objs ==> g'.objs[x] == g.objs[x] && x != id;
    assert g'.list == if g.objs[id].hasAspace then Without(g.list, id) else g.list;
    assert !g.objs[id].hasAspace ==> id !in g.list;
    forall i | 0 <= i < |g'.list| ensures g'.list[i] in g'.objs && g'.objs[g'.list[i]].active {
      assert g'.list[i] in g'.list;
    }
  }

  lemma FreeKeeps(g: Gem, id: nat)
    requires Inv(g) && id in g.objs
    ensures Inv(Free(g, id))
  {
    hide LiveSet, ListOk, ObjOk;
    ActiveIsOk(g, id);
    PutObject(g, id);
    FreedList(g, id);
    DeadRemoved(PutIova(g, id).objs, id);
    forall x | x in Free(g, id).objs ensures ObjOk(Free(g, id).objs[x]) {
      ActiveIsOk(g, x);
    }
  }

  // ----- Runs -----

  lemma StepKeeps(g: Gem, op: Op, env: Env)
    requires Inv(g)
    ensures Inv(Step(g, op, env))
  {
    hide LiveSet;
    match op {
      case New(id, imported, home, ext, sgt, hasAspace) =>
        if id !in g.objs {
          LiveWith(g.objs, id, Obj(imported, home, ext, sgt, false, false, hasAspace, []));
        }
      case Get(id) => if id in g.objs { GetKeeps(g, id, env, false); }
      case Detaching =>
        DetachAllKeeps(g, g.list);
        SameButDomain(DetachAll(g, g.list), false);
      case Attaching =>
        SameButDomain(g, true);
        AttachAllKeeps(g.(attached := true), g.list, env);
      case Freeing(id) => if id in g.objs { FreeKeeps(g, id); }
    }
  }

  lemma SameButDomain(g: Gem, attached: bool)
    requires Inv(g)
    ensures Inv(g.(attached := attached))
  {
  }

  lemma InvListed(g: Gem)
    requires Inv(g)
    ensures Listed(g, g.list)
  {
  }

  ghost function Run(unsecure: bool, attached: bool, ops: seq<Op>, env: Env): (g: Gem)
    ensures Inv(g)
  {
    if ops == [] then
      assert LiveSet(map[]) == {};
      Created(unsecure, attached)
    else
      var g := Run(unsecure, attached, ops[..|ops| - 1], env);
      InvListed(g);
      StepKeeps(g, ops[|ops| - 1], env);
      Step(g, ops[|ops| - 1], env)
  }

  /** On every run, the active flag and the active list agree, no object has two vmas, and list_lock is never
      taken by its holder. */
  lemma {:induction false} ActiveListAgrees(unsecure: bool, attached: bool, ops: seq<Op>, env: Env)
    ensures var g := Run(unsecure, attached, ops, env);
      !g.deadlock && forall id :: id in g.objs ==> (g.objs[id].active <==> id in g.list) && |g.objs[id].vmas| <= 1
  {
    var g := Run(unsecure, attached, ops, env);
    assert forall id :: id in g.objs ==> ObjOk(g.objs[id]);
  }

  /** On every run, the references to the address space are one, plus one for each mapped object, exactly when
      nothing leaked. */
  lemma ReferencesAreMappings(unsecure: bool, attached: bool, ops: seq<Op>, env: Env)
    ensures var g := Run(unsecure, attached, ops, env);
      g.refs == 1 + |LiveSet(g.objs)| <==> g.leaks == 0
  {
  }

  /** On every run, looking an object's vma up finds one exactly if the object has any, and then it is its only one. */
  lemma {:induction false} LookupFinds(unsecure: bool, attached: bool, ops: seq<Op>, env: Env, id: nat)
    requires id in Run(unsecure, attached, ops, env).objs
    ensures var vmas := Run(unsecure, attached, ops, env).objs[id].vmas;
      if Lookup(vmas, SPACE) < |vmas| then vmas == [vmas[Lookup(vmas, SPACE)]] else vmas == []
  {
    var g := Run(unsecure, attached, ops, env);
    assert ObjOk(g.objs[id]);
  }

  /** Detaching the domain leaves no imported active object mapped, and marks each to be attached anew. */
  lemma DetachUnmaps(g: Gem, id: nat)
    requires Inv(g) && id in g.list && g.objs[id].imported
    ensures Listed(g, g.list)
    ensures var g' := Detach(g);
      id in g'.objs && g'.objs[id].vmas == [] && g'.objs[id].dirty && id in g'.list && !g'.attached
  {
    InvListed(g);
    DetachAllKeeps(g, g.list);
  }

  /** Attaching it with nothing failing maps every active object: those detached anew, the others as before. */
  lemma AttachMaps(g: Gem, env: Env, id: nat)
    requires Inv(g) && AllWell(env, g.clock) && id in g.list
    ensures Listed(g, g.list)
    ensures var (ok, g') := Attach(g, env);
      && ok && id in g'.objs && g'.attached
      && (g.objs[id].vmas == [] ==> Live(g'.objs[id]) && !g'.objs[id].dirty)
      && (g.objs[id].vmas != [] ==> g'.objs[id].vmas == g.objs[id].vmas)
  {
    InvListed(g);
    SameButDomain(g, true);
    AttachAllGets(g.(attached := true), g.list, env);
    AttachAllKeeps(g.(attached := true), g.list, env);
  }
}
