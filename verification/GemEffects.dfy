/**
 When a GEM object gets an iova, what it looks like then, and which objects never get one; what freeing and a failed
 attach leave alone.
 */
module GemEffects {
  import opened GemModel
  import opened GemProofs

  // The buffer is imported and attached to another device, or was marked when the domain was detached.
  predicate Reattached(o: Obj) {
    o.imported && (o.home != Here || o.dirty)
  }

  // A buffer attached to the secure device, asked for in an unsecure address space.
  predicate Barred(unsecure: bool, o: Obj) {
    unsecure && o.imported && o.home == Secure
  }

  predicate NeedsImport(o: Obj) {
    Reattached(o) || (o.ext && !o.sgt)
  }

  ghost predicate NoVma(o: Obj) {
    forall v :: v in o.vmas ==> v.space != SPACE
  }

  // The import succeeds, or need not.
  predicate Brought(unsecure: bool, o: Obj, a: Answer) {
    !Barred(unsecure, o) && (NeedsImport(o) ==> o.imported && a.imports)
  }

  // Nothing outside refuses the buffer, its pages or its mapping.
  predicate Obtains(unsecure: bool, attached: bool, o: Obj, a: Answer) {
    Brought(unsecure, o, a) && a.pages && attached && a.maps
  }

  // The object with its vma, attached here and clean if it was re-attached.
  function Obtained(o: Obj, a: Answer): Obj {
    o.(home := if Reattached(o) then Here else o.home, dirty := o.dirty && !Reattached(o), sgt := true,
       hasAspace := true, vmas := o.vmas + [Vma(SPACE, a.address)])
  }

  // The object that is not got: it is marked exactly if importing it failed, or it was marked and not re-attached.
  ghost predicate Missed(unsecure: bool, o: Obj, a: Answer, o': Obj) {
    && o'.vmas == o.vmas && o'.active == o.active && o'.imported == o.imported
    && o'.home == (if Reattached(o) && !Barred(unsecure, o) then Here else o.home)
    && (o'.dirty <==> if Barred(unsecure, o) then o.dirty
                      else if NeedsImport(o) && !(o.imported && a.imports) then true else o.dirty && !Reattached(o))
  }

  lemma ImportIs(unsecure: bool, o: Obj, a: Answer)
    ensures var (ok, o') := Import(unsecure, o, a);
      && ok == Brought(unsecure, o, a)
      && (if ok
          then o' == o.(home := if Reattached(o) then Here else o.home, dirty := o.dirty && !Reattached(o),
              sgt := o.sgt || NeedsImport(o))
          else Missed(unsecure, o, a, o'))
  {
  }

  lemma FetchIs(unsecure: bool, attached: bool, o: Obj, a: Answer)
    ensures var got := Fetch(unsecure, attached, o, a);
      && got.ok == Obtains(unsecure, attached, o, a)
      && (if got.ok then got.obj == Obtained(o, a) else Missed(unsecure, o, a, got.obj))
  {
    hide Import, Reattached, NeedsImport, Barred;
    ImportIs(unsecure, o, a);
  }

  /** Without a vma, an iova is got exactly if the buffer is not barred, it can be imported if it has to be, its pages are
      there, the domain is attached and mapping succeeds.  The object then has the vma with the buffer's address and is
      on the active list; otherwise vmas and list stay. */
  lemma GetsIff(g: Gem, id: nat, env: Env, locked: bool)
    requires id in g.objs && NoVma(g.objs[id])
    ensures var o, a := g.objs[id], env(g.clock);
      var (ok, g') := GetIova(g, id, env, locked);
      && ok == Obtains(g.unsecure, g.attached, o, a)
      && (ok ==> g'.objs[id] == Obtained(o, a).(active := true) && g'.list == if o.active then g.list else g.list + [id])
      && (!ok ==> Missed(g.unsecure, o, a, g'.objs[id]) && g'.list == g.list)
  {
    hide Fetch, Obtains, Missed;
    FetchIs(g.unsecure, g.attached, g.objs[id], env(g.clock));
  }

  /** With a vma there is nothing to do but to put the object on the active list. */
  lemma GotAlready(g: Gem, id: nat, env: Env, locked: bool)
    requires id in g.objs && !NoVma(g.objs[id])
    ensures var (ok, g') := GetIova(g, id, env, locked);
      && ok && g'.objs == g.objs[id := g.objs[id].(active := true)]
      && g'.list == (if g.objs[id].active then g.list else g.list + [id])
      && g'.refs == g.refs && g'.leaks == g.leaks
  {
  }

  /** A reference leaks exactly when a mapping into the attached domain fails or yields address 0. */
  lemma LeaksIff(g: Gem, id: nat, env: Env, locked: bool)
    requires id in g.objs
    ensures var o, a := g.objs[id], env(g.clock);
      GetIova(g, id, env, locked).1.leaks != g.leaks <==>
        NoVma(o) && Brought(g.unsecure, o, a) && a.pages && g.attached && (!a.maps || a.address == 0)
  {
    hide Import, Brought;
    ImportIs(g.unsecure, g.objs[id], env(g.clock));
  }

  // ----- Buffers of the secure device -----

  /** A barred buffer without a vma is refused, and neither it nor the references change. */
  lemma BarredRefused(g: Gem, id: nat, env: Env, locked: bool)
    requires id in g.objs && Barred(g.unsecure, g.objs[id]) && NoVma(g.objs[id])
    ensures GetIova(g, id, env, locked) == (false, g.(clock := g.clock + 1))
  {
    assert g.objs[id := g.objs[id]] == g.objs;
  }

  ghost predicate Untouched(g: Gem, id: nat) {
    && id in g.objs && g.objs[id].imported && g.objs[id].home == Secure
    && g.objs[id].vmas == [] && !g.objs[id].active && id !in g.list
  }

  lemma StillUntouched(g: Gem, op: Op, env: Env, id: nat)
    requires Inv(g) && g.unsecure && Untouched(g, id) && op != Freeing(id)
    ensures Listed(g, g.list) && Untouched(Step(g, op, env), id)
  {
    hide RefsOk, LiveSet, GetIova, Free, ObjOk;
    InvListed(g);
    match op {
      case New(_, _, _, _, _, _) =>
      case Get(other) =>
        if other == id {
          BarredRefused(g, id, env, false);
        } else if other in g.objs {
          OtherGets(g, other, env, id, false);
        }
      case Detaching => OthersDetach(g, g.list, id);
      case Attaching => OthersAttach(g.(attached := true), g.list, env, id);
      case Freeing(other) => if other in g.objs { OtherFreed(g, other, id); }
    }
  }

  lemma OtherGets(g: Gem, other: nat, env: Env, id: nat, locked: bool)
    requires other in g.objs && other != id
    ensures var g' := GetIova(g, other, env, locked).1;
      (id in g'.objs <==> id in g.objs) && (id in g.objs ==> g'.objs[id] == g.objs[id]) && (id in g'.list <==> id in g.list)
  {
    hide Fetch, Lookup;
  }

  lemma OtherFreed(g: Gem, other: nat, id: nat)
    requires other in g.objs && other != id && Inv(g)
    ensures var g' := Free(g, other);
      (id in g'.objs <==> id in g.objs) && (id in g.objs ==> g'.objs[id] == g.objs[id]) && (id in g'.list <==> id in g.list)
  {
    hide RefsOk, ObjsOk, LiveSet, MappedCount;
    WithoutKeeps(g.list, other);
  }

  lemma {:induction false} OthersDetach(g: Gem, ids: seq<nat>, id: nat)
    requires Listed(g, ids) && id !in ids
    ensures DetachAll(g, ids).objs.Keys == g.objs.Keys && DetachAll(g, ids).list == g.list
    ensures id in g.objs ==> DetachAll(g, ids).objs[id] == g.objs[id]
  {
    if ids != [] {
      OthersDetach(g, ids[..|ids| - 1], id);
    }
  }

  lemma {:induction false} OthersAttach(g: Gem, ids: seq<nat>, env: Env, id: nat)
    requires Listed(g, ids) && id !in ids && id in g.objs && id !in g.list
    ensures AttachAll(g, ids, env).1.objs[id] == g.objs[id] && id !in AttachAll(g, ids, env).1.list
    decreases |ids|
  {
    hide GetIova;
    if ids != [] {
      var (ok, g1) := GetIova(g, ids[0], env, true);
      OtherGets(g, ids[0], env, id, true);
      GetStays(g, ids[0], env);
      if ok {
        OthersAttach(g1, ids[1..], env, id);
      }
    }
  }

  lemma GetStays(g: Gem, id: nat, env: Env)
    requires id in g.objs
    ensures GetIova(g, id, env, true).1.objs.Keys == g.objs.Keys
  {
    hide Fetch, Lookup;
  }

  lemma {:induction false} SameKind(unsecure: bool, attached: bool, ops: seq<Op>, env: Env)
    ensures Run(unsecure, attached, ops, env).unsecure == unsecure
  {
    if ops != [] {
      SameKind(unsecure, attached, ops[..|ops| - 1], env);
      var g := Run(unsecure, attached, ops[..|ops| - 1], env);
      InvListed(g);
      KindStays(g, ops[|ops| - 1], env);
    }
  }

  lemma KindStays(g: Gem, op: Op, env: Env)
    requires Inv(g) && Listed(g, g.list)
    ensures Step(g, op, env).unsecure == g.unsecure
  {
    match op {
      case Detaching => DetachKind(g, g.list);
      case Attaching =>
        SameButDomain(g, true);
        AttachAllKeeps(g.(attached := true), g.list, env);
      case _ =>
    }
  }

  lemma {:induction false} DetachKind(g: Gem, ids: seq<nat>)
    requires Listed(g, ids)
    ensures DetachAll(g, ids).unsecure == g.unsecure
  {
    if ids != [] {
      DetachKind(g, ids[..|ids| - 1]);
    }
  }

  /** On every run of an unsecure address space, a buffer attached to the secure device has no vma and is not active, and
      this stays so, and it stays attached there, whatever is asked, until it is freed. */
  lemma {:induction false} SecureNeverMapped(attached: bool, ops: seq<Op>, more: seq<Op>, env: Env, id: nat)
    requires var g := Run(true, attached, ops, env); id in g.objs && g.objs[id].imported && g.objs[id].home == Secure
    requires Freeing(id) !in more
    ensures Untouched(Run(true, attached, ops + more, env), id)
    decreases |more|
  {
    hide Run, Step, Untouched, Inv;
    if more == [] {
      assert ops + more == ops;
      SecureUntouched(Run(true, attached, ops, env), id);
    } else {
      var n := |more| - 1;
      SecureNeverMapped(attached, ops, more[..n], env, id);
      assert ops + more == (ops + more[..n]) + [more[n]];
      RunSnoc(true, attached, ops + more[..n], more[n], env);
      SameKind(true, attached, ops + more[..n], env);
      StillUntouched(Run(true, attached, ops + more[..n], env), more[n], env, id);
    }
  }

  lemma SecureUntouched(g: Gem, id: nat)
    requires Inv(g) && id in g.objs && g.objs[id].imported && g.objs[id].home == Secure
    ensures Untouched(g, id)
  {
    hide RefsOk;
    ActiveIsOk(g, id);
  }

  lemma RunSnoc(unsecure: bool, attached: bool, ops: seq<Op>, op: Op, env: Env)
    ensures var g := Run(unsecure, attached, ops, env);
      Listed(g, g.list) && Run(unsecure, attached, ops + [op], env) == Step(g, op, env)
  {
    hide Step, Inv;
    assert (ops + [op])[..|ops|] == ops;
    InvListed(Run(unsecure, attached, ops, env));
  }

  // ----- Freeing and attaching -----

  /** Freeing takes the object off the map and the active list and gives back its reference; no other object changes. */
  lemma FreeRemoves(g: Gem, id: nat)
    requires Inv(g) && id in g.objs
    ensures var g' := Free(g, id);
      && g'.objs == g.objs - {id} && (forall x :: x in g'.list <==> x in g.list && x != id)
      && g'.refs == g.refs - MappedCount(g.objs[id].vmas)
  {
    hide RefsOk, LiveSet, MappedCount;
    ActiveIsOk(g, id);
    WithoutKeeps(g.list, id);
  }

  /** Attaching maps the active objects in order up to the first that fails, and leaves the ones after it alone. */
  lemma {:induction false} AttachStops(g: Gem, ids: seq<nat>, env: Env) returns (n: nat)
    requires Inv(g) && Listed(g, ids) && (forall i :: 0 <= i < |ids| ==> g.objs[ids[i]].active)
    requires forall i, j :: 0 <= i < j < |ids| ==> ids[i] != ids[j]
    ensures var (ok, g') := AttachAll(g, ids, env);
      && n <= |ids| && (ok <==> n == |ids|)
      && (forall i :: 0 <= i < n ==> |g'.objs[ids[i]].vmas| == 1)
      && (n < |ids| ==> g'.objs[ids[n]].vmas == [] && forall i :: n < i < |ids| ==> g'.objs[ids[i]] == g.objs[ids[i]])
    decreases |ids|
  {
    hide Inv, GetIova;
    if ids == [] {
      n := 0;
    } else {
      var id, rest := ids[0], ids[1..];
      var (ok, g1) := GetIova(g, id, env, true);
      AttachedOne(g, id, env);
      if ok {
        var m := AttachStops(g1, rest, env);
        AttachAllKeeps(g1, rest, env);
        n := m + 1;
        forall i | 0 <= i < n ensures |AttachAll(g, ids, env).1.objs[ids[i]].vmas| == 1 {
          assert i > 0 ==> ids[i] == rest[i - 1];
        }
        forall i | n < i < |ids| ensures AttachAll(g, ids, env).1.objs[ids[i]] == g.objs[ids[i]] {
          assert ids[i] == rest[i - 1];
        }
        assert n < |ids| ==> ids[n] == rest[m];
      } else {
        n := 0;
      }
    }
  }

  lemma AttachedOne(g: Gem, id: nat, env: Env)
    requires Inv(g) && id in g.objs && g.objs[id].active
    ensures var (ok, g1) := GetIova(g, id, env, true);
      && Inv(g1) && g1.objs.Keys == g.objs.Keys && g1.objs == g.objs[id := g1.objs[id]] && g1.objs[id].active
      && (ok ==> |g1.objs[id].vmas| == 1) && (!ok ==> g1.objs[id].vmas == [])
  {
    hide GetIova, RefsOk, ListOk, LiveSet;
    ActiveIsOk(g, id);
    GetObject(g, id, env, true);
    GetKeeps(g, id, env, true);
  }
}
