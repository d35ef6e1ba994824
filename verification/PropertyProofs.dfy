/**
 What the dirty list is for: a consumer that copies what it pops stays in step with the values.  And what
 looking up a property depends on, and how blob references are kept.
 */
module PropertyProofs {
  import opened PropertyModel

  // ----- Finding a property -----

  // The index reached after k steps back from i.
  function StepsBack(i: nat, k: nat, n: nat): (r: nat)
    requires i < n
    ensures r < n
    decreases k
  {
    if k == 0 then i else StepsBack(Previous(i, n), k - 1, n)
  }

  // Every index is reached within n steps.
  lemma Reached(i: nat, j: nat, n: nat) returns (k: nat)
    requires i < n && j < n
    ensures k < n && StepsBack(i, k, n) == j && (j == i ==> k == 0)
  {
    k := if j <= i then i - j else n - j + i;
    Stepping(i, k, n);
  }

  lemma {:induction false} Stepping(i: nat, k: nat, n: nat)
    requires i < n && k < n
    ensures StepsBack(i, k, n) == if k <= i then i - k else n + i - k
    decreases k
  {
    if k > 0 {
      if i == 0 {
        SteppingFromEnd(k - 1, n);
      } else {
        Stepping(i - 1, k - 1, n);
      }
    }
  }

  lemma {:induction false} SteppingFromEnd(k: nat, n: nat)
    requires k < n
    ensures StepsBack(n - 1, k, n) == n - 1 - k
  {
    Descending(n - 1, k, n);
  }

  lemma {:induction false} Descending(i: nat, k: nat, n: nat)
    requires k <= i < n
    ensures StepsBack(i, k, n) == i - k
    decreases k
  {
    if k > 0 {
      Descending(i - 1, k - 1, n);
    }
  }

  lemma {:induction false} SearchFinds(properties: seq<nat>, p: nat, i: nat, left: nat, k: nat)
    requires i < |properties| && k < left && properties[StepsBack(i, k, |properties|)] == p
    ensures Search(properties, p, i, left) >= 0
    decreases left
  {
    if properties[i] != p {
      SearchFinds(properties, p, Previous(i, |properties|), left - 1, k - 1);
    }
  }

  /** The search finds a property exactly when it is there, wherever it starts. */
  lemma IndexFinds(properties: seq<nat>, p: nat, recent: nat)
    requires recent < |properties|
    ensures Index(properties, p, recent) >= 0 <==> p in properties
  {
    if j :| 0 <= j < |properties| && properties[j] == p {
      var k := Reached(recent, j, |properties|);
      SearchFinds(properties, p, recent, |properties|, k);
    }
  }

  ghost predicate AtMostOnce(properties: seq<nat>, p: nat) {
    forall i, j :: 0 <= i < j < |properties| ==> properties[i] != p || properties[j] != p
  }

  /** What it finds is independent of where the last search ended exactly when p is there at most once. */
  lemma IndexIgnoresRecentIff(properties: seq<nat>, p: nat)
    requires properties != []
    ensures AtMostOnce(properties, p)
            <==> forall a: nat, b: nat :: a < |properties| && b < |properties| ==> Index(properties, p, a) == Index(properties, p, b)
  {
    if AtMostOnce(properties, p) {
      forall a: nat, b: nat | a < |properties| && b < |properties|
        ensures Index(properties, p, a) == Index(properties, p, b)
      {
        IndexFinds(properties, p, a);
        IndexFinds(properties, p, b);
      }
    } else {
      var i, j :| 0 <= i < j < |properties| && properties[i] == p && properties[j] == p;
      assert Index(properties, p, i) == i && Index(properties, p, j) == j;
    }
  }

  // ----- The consumer's shadow copy -----

  datatype Op =
    | Setting(p: nat, val: nat, recent: nat, blobs: set<nat>)
    | Marking(i: nat)
    | Popping

  // The state, the consumer's copy, every index in the order it was marked, and those popped so far.
  datatype Sys = Sys(state: State, shadow: seq<nat>, marked: seq<nat>, popped: seq<nat>)

  // The consumer pops one index and copies its value.
  function Consume(s: Sys): Sys
    requires |s.shadow| == |s.state.values| && forall i :: 0 <= i < |s.state.dirty| ==> s.state.dirty[i] < |s.shadow|
  {
    var (i, state) := PopDirty(s.state);
    if i < 0 then s
    else Sys(state, s.shadow[i := s.state.values[i].value], s.marked, s.popped + [i])
  }

  ghost predicate Inv(info: Info, s: Sys) {
    && Fits(info, s.state) && |s.shadow| == |s.state.values|
    && (forall i, j :: 0 <= i < j < |s.state.dirty| ==> s.state.dirty[i] != s.state.dirty[j])
    && (forall i :: 0 <= i < |s.shadow| && i !in s.state.dirty ==> s.shadow[i] == s.state.values[i].value)
    && s.marked == s.popped + s.state.dirty
  }

  // What became dirty is recorded as marked.
  function Changed(s: Sys, state: State): Sys {
    s.(state := state, marked := s.marked + if |state.dirty| > |s.state.dirty| then state.dirty[|s.state.dirty|..] else [])
  }

  function Next(info: Info, s: Sys, op: Op): Sys
    requires Inv(info, s)
  {
    match op
    case Setting(p, val, recent, blobs) =>
      if recent < |info.properties| then Changed(s, AtomicSet(info, s.state, recent, p, val, blobs).1.state) else s
    case Marking(i) => Changed(s, SetDirty(s.state, i))
    case Popping => Consume(s)
  }

  lemma MarkKeeps(info: Info, s: Sys, i: nat)
    requires Inv(info, s)
    ensures Inv(info, Changed(s, SetDirty(s.state, i)))
  {
    assert (s.state.dirty + [i])[|s.state.dirty|..] == [i];
    assert s.popped + (s.state.dirty + [i]) == (s.popped + s.state.dirty) + [i];
  }

  lemma StoreKeeps(info: Info, s: Sys, i: nat, v: Value)
    requires Inv(info, s) && i < |s.state.values|
    ensures Inv(info, Changed(s, Store(info, s.state, i, v)))
  {
    assert (s.state.dirty + [i])[|s.state.dirty|..] == [i];
    assert s.popped + (s.state.dirty + [i]) == (s.popped + s.state.dirty) + [i];
  }

  lemma {:induction false} NextKeeps(info: Info, s: Sys, op: Op)
    requires Inv(info, s)
    ensures Inv(info, Next(info, s, op))
  {
    hide Store;
    match op {
      case Setting(p, val, recent, blobs) =>
        if recent < |info.properties| {
          var i := Index(info.properties, p, recent);
          if i >= 0 {
            var v, found := s.state.values[i], Lookup(blobs, val);
            StoreKeeps(info, s, i, Value(0, v.blob));
            StoreKeeps(info, s, i, Value(found, found));
            StoreKeeps(info, s, i, Value(val, v.blob));
          }
        }
      case Marking(i) => MarkKeeps(info, s, i);
      case Popping =>
        if s.state.dirty != [] {
          assert s.popped + s.state.dirty == (s.popped + [s.state.dirty[0]]) + s.state.dirty[1..];
        }
    }
  }

  // The values of a state, as a consumer copies them.
  function ValuesOf(values: seq<Value>): (r: seq<nat>)
    ensures |r| == |values| && forall i :: 0 <= i < |r| ==> r[i] == values[i].value
  {
    seq(|values|, i requires 0 <= i < |values| => values[i].value)
  }

  // From a duplicated state, with the consumer in step
  function Run(info: Info, s0: State, ops: seq<Op>): (s: Sys)
    requires Fits(info, s0)
    ensures Inv(info, s)
  {
    if ops == [] then Sys(Duplicate(s0), ValuesOf(s0.values), [], [])
    else
      var s := Run(info, s0, ops[..|ops| - 1]);
      NextKeeps(info, s, ops[|ops| - 1]);
      Next(info, s, ops[|ops| - 1])
  }

  /** Over every run of setting, marking and popping from a duplicated state: a property that is not on the
      dirty list has the value of the consumer's copy, and none is on the list twice. */
  lemma ShadowInStep(info: Info, s0: State, ops: seq<Op>, i: nat)
    requires Fits(info, s0) && i < |s0.values|
    ensures var s := Run(info, s0, ops);
      && |s.state.values| == |s.shadow| == |s0.values|
      && (i !in s.state.dirty ==> s.shadow[i] == s.state.values[i].value)
      && forall j, k :: 0 <= j < k < |s.state.dirty| ==> s.state.dirty[j] != s.state.dirty[k]
  {
    RunSize(info, s0, ops);
  }

  lemma {:induction false} RunSize(info: Info, s0: State, ops: seq<Op>)
    requires Fits(info, s0)
    ensures |Run(info, s0, ops).shadow| == |s0.values|
  {
    if ops != [] {
      RunSize(info, s0, ops[..|ops| - 1]);
    }
  }

  /** Indices are popped in the order they were marked. */
  lemma PopsInOrder(info: Info, s0: State, ops: seq<Op>)
    requires Fits(info, s0)
    ensures var s := Run(info, s0, ops); s.popped <= s.marked && s.marked == s.popped + s.state.dirty
  {
  }

  function Drain(info: Info, s: Sys): Sys
    requires Inv(info, s)
    decreases |s.state.dirty|
  {
    if s.state.dirty == [] then s
    else
      NextKeeps(info, s, Popping);
      Drain(info, Consume(s))
  }

  /** Popping until nothing is dirty brings the consumer's copy in step with every value. */
  lemma {:induction false} DrainSynchronises(info: Info, s: Sys)
    requires Inv(info, s)
    ensures var d := Drain(info, s); d.shadow == ValuesOf(s.state.values) && d.popped == s.marked && d.state.values == s.state.values
    decreases |s.state.dirty|
  {
    if s.state.dirty != [] {
      NextKeeps(info, s, Popping);
      DrainSynchronises(info, Consume(s));
    } else {
      assert s.shadow == ValuesOf(s.state.values);
      assert s.popped + [] == s.popped;
    }
  }

  // ----- References to a blob -----

  // Whether a value holds blob b.
  function Holds(v: Value, b: nat): nat {
    if b != 0 && v.blob == b then 1 else 0
  }

  function HoldsIn(values: seq<Value>, b: nat): nat {
    if values == [] then 0 else HoldsIn(values[..|values| - 1], b) + Holds(values[|values| - 1], b)
  }

  lemma {:induction false} HoldsWith(values: seq<Value>, i: nat, v: Value, b: nat)
    requires i < |values|
    ensures HoldsIn(values[i := v], b) == HoldsIn(values, b) - Holds(values[i], b) + Holds(v, b)
  {
    var n := |values| - 1;
    if i < n {
      HoldsWith(values[..n], i, v, b);
      assert values[i := v][..n] == values[..n][i := v];
    } else {
      assert values[i := v][..n] == values[..n];
    }
  }

  // The references duplicating takes and destroying puts are one for each value holding the blob.
  lemma {:induction false} ListCounts(values: seq<Value>, b: nat)
    requires b != 0
    ensures multiset(BlobList(values))[b] == HoldsIn(values, b)
  {
    if values != [] {
      ListCounts(values[..|values| - 1], b);
    }
  }

  // A blob property set to an id nobody knows.
  predicate Unresolved(info: Info, i: nat, val: nat, blobs: set<nat>)
    requires i < |info.blobFlag|
  {
    info.blobFlag[i] && i < info.blobCount && val != 0 && Lookup(blobs, val) == 0
  }

  // How setting a property changes the references to blob b that are taken.
  function RefChange(r: Set, b: nat): int {
    Holds(Value(0, r.got), b) as int - Holds(Value(0, r.put), b)
  }

  /** Setting a property changes the references taken to each blob as it changes the values holding it,
      exactly unless an unresolved id meets a property that holds a blob: its reference is given up and
      the blob kept. */
  lemma SetBalancesIff(info: Info, s: State, i: nat, val: nat, blobs: set<nat>)
    requires Fits(info, s) && i < |s.values|
    ensures var r := SetAt(info, s, i, val, blobs);
      (forall b: nat :: HoldsIn(r.state.values, b) == HoldsIn(s.values, b) + RefChange(r, b))
      <==> !(Unresolved(info, i, val, blobs) && s.values[i].blob != 0)
  {
    var r := SetAt(info, s, i, val, blobs);
    var v, v' := s.values[i], r.state.values[i];
    assert r.state.values == s.values[i := v'];
    forall b: nat ensures HoldsIn(r.state.values, b) == HoldsIn(s.values, b) - Holds(v, b) + Holds(v', b) {
      HoldsWith(s.values, i, v', b);
    }
    if Unresolved(info, i, val, blobs) && v.blob != 0 {
      assert RefChange(r, v.blob) == -1;
    }
  }

  // ----- Over several states -----

  function HoldsAll(states: seq<State>, b: nat): nat {
    if states == [] then 0 else HoldsAll(states[..|states| - 1], b) + HoldsIn(states[|states| - 1].values, b)
  }

  // The states alive, and the references to one blob taken for them
  datatype Kept = Kept(states: seq<State>, refs: int)

  datatype Event =
    | Duplicating(k: nat)
    | Destroying(k: nat)
    | SettingIn(k: nat, i: nat, val: nat, blobs: set<nat>)

  ghost predicate AllFit(info: Info, states: seq<State>) {
    forall k :: 0 <= k < |states| ==> Fits(info, states[k])
  }

  // Setting takes effect only where its index and state exist, and by the discipline only when resolved.
  ghost predicate Applies(info: Info, c: Kept, e: Event)
    requires AllFit(info, c.states)
  {
    && e.k < |c.states|
    && (e.SettingIn? ==>
          (e.i < |c.states[e.k].values| && !(Unresolved(info, e.i, e.val, e.blobs) && c.states[e.k].values[e.i].blob != 0)))
  }

  ghost function After(info: Info, c: Kept, e: Event, b: nat): (r: Kept)
    requires AllFit(info, c.states)
    ensures AllFit(info, r.states)
  {
    if !Applies(info, c, e) then c
    else match e
      case Duplicating(k) => Kept(c.states + [Duplicate(c.states[k])], c.refs + HoldsIn(c.states[k].values, b))
      case Destroying(k) => Kept(c.states[..k] + c.states[k + 1..], c.refs - HoldsIn(c.states[k].values, b))
      case SettingIn(k, i, val, blobs) =>
        var r := SetAt(info, c.states[k], i, val, blobs);
        Kept(c.states[k := r.state], c.refs + RefChange(r, b))
  }

  lemma {:induction false} AllSplit(a: seq<State>, b: seq<State>, blob: nat)
    ensures HoldsAll(a + b, blob) == HoldsAll(a, blob) + HoldsAll(b, blob)
  {
    if b == [] {
      assert a + b == a;
    } else {
      assert (a + b)[..|a + b| - 1] == a + b[..|b| - 1];
      AllSplit(a, b[..|b| - 1], blob);
    }
  }

  lemma AllAt(states: seq<State>, k: nat, blob: nat)
    requires k < |states|
    ensures HoldsAll(states, blob) == HoldsAll(states[..k], blob) + HoldsIn(states[k].values, blob)
                                     + HoldsAll(states[k + 1..], blob)
  {
    assert states == states[..k] + ([states[k]] + states[k + 1..]);
    AllSplit(states[..k], [states[k]] + states[k + 1..], blob);
    AllSplit([states[k]], states[k + 1..], blob);
    assert [states[k]][..0] == [];
  }

  lemma AfterCounts(info: Info, c: Kept, e: Event, b: nat)
    requires AllFit(info, c.states) && c.refs == HoldsAll(c.states, b)
    ensures var r := After(info, c, e, b); r.refs == HoldsAll(r.states, b)
  {
    hide HoldsIn, HoldsAll, SetAt;
    if Applies(info, c, e) {
      var k, r := e.k, After(info, c, e, b);
      AllAt(c.states, k, b);
      match e {
        case Duplicating(_) =>
          assert r.states[..|c.states|] == c.states && r.states[|c.states| + 1..] == [];
          AllAt(r.states, |c.states|, b);
          NoneHeld(b);
        case Destroying(_) => AllSplit(c.states[..k], c.states[k + 1..], b);
        case SettingIn(_, i, val, blobs) =>
          SetBalancesIff(info, c.states[k], i, val, blobs);
          AllAt(r.states, k, b);
          assert r.states[..k] == c.states[..k] && r.states[k + 1..] == c.states[k + 1..];
      }
    }
  }

  lemma NoneHeld(b: nat)
    ensures HoldsAll([], b) == 0
  {
  }

  ghost function History(info: Info, s0: State, es: seq<Event>, b: nat): (c: Kept)
    requires Fits(info, s0)
    ensures AllFit(info, c.states)
  {
    if es == [] then Kept([s0], HoldsIn(s0.values, b)) else After(info, History(info, s0, es[..|es| - 1], b),
        es[|es| - 1], b)
  }

  /** Over every run of duplicating, destroying and resolved setting, the references taken to a blob are as
      many as the values of living states that hold it. */
  lemma {:induction false} ReferencesCounted(info: Info, s0: State, es: seq<Event>, b: nat)
    requires Fits(info, s0)
    ensures var c := History(info, s0, es, b); c.refs == HoldsAll(c.states, b)
  {
    if es == [] {
      assert [s0][..0] == [];
    } else {
      ReferencesCounted(info, s0, es[..|es| - 1], b);
      AfterCounts(info, History(info, s0, es[..|es| - 1], b), es[|es| - 1], b);
    }
  }

  // ----- What a set stores -----

  /** Setting a property that is there stores the value; for a blob property the id of the blob, with the blob, or 0
      with the blob it had if the id is not found.  The property is dirty then exactly if it was, its value changed or it
      always is; the others stay. */
  lemma SetStores(info: Info, s: State, recent: nat, p: nat, val: nat, blobs: set<nat>, i: nat)
    requires Fits(info, s) && recent < |info.properties| && i == Index(info.properties, p, recent) && 0 !in blobs
    ensures var (ok, r) := AtomicSet(info, s, recent, p, val, blobs);
      var s', isBlob := r.state, info.blobFlag[i] && i < info.blobCount;
      && ok && |s'.values| == |s.values| && (forall j :: 0 <= j < |s.values| && j != i ==> s'.values[j] == s.values[j])
      && (!isBlob ==> s'.values[i] == Value(val, s.values[i].blob))
      && (isBlob && val % U32 in blobs ==> s'.values[i] == Value(val % U32, val % U32))
      && (isBlob && val == 0 ==> s'.values[i] == Value(0, 0))
      && (isBlob && val != 0 && val % U32 !in blobs ==> s'.values[i] == Value(0, s.values[i].blob))
      && s'.dirty == if i !in s.dirty && (s'.values[i].value != s.values[i].value || info.force[i]) then s.dirty + [i] else s.dirty
  {
  }

  /** Setting a property that is not there fails and changes nothing. */
  lemma SetFailsIff(info: Info, s: State, recent: nat, p: nat, val: nat, blobs: set<nat>)
    requires Fits(info, s) && recent < |info.properties|
    ensures var (ok, r) := AtomicSet(info, s, recent, p, val, blobs);
      (ok <==> p in info.properties) && (!ok ==> r == Set(s, 0, 0))
  {
    IndexFinds(info.properties, p, recent);
  }

  // Going down from i, and on from the end, r is the first place of p.
  ghost predicate Nearest(properties: seq<nat>, p: nat, i: nat, r: nat) {
    && r < |properties| && i < |properties| && properties[r] == p
    && (if r <= i then forall j :: r < j <= i ==> properties[j] != p
        else (forall j :: 0 <= j <= i ==> properties[j] != p) && forall j :: r < j < |properties| ==> properties[j] != p)
  }

  lemma {:induction false} SearchNearest(properties: seq<nat>, p: nat, i: nat, left: nat)
    requires i < |properties| && Search(properties, p, i, left) >= 0
    ensures Nearest(properties, p, i, Search(properties, p, i, left))
    decreases left
  {
    if properties[i] != p {
      SearchNearest(properties, p, Previous(i, |properties|), left - 1);
    }
  }

  /** Of several places of a property, the search finds the first at or below the index found last, going round. */
  lemma IndexIsNearest(properties: seq<nat>, p: nat, recent: nat)
    requires recent < |properties| && p in properties
    ensures var r := Index(properties, p, recent); r >= 0 && Nearest(properties, p, recent, r)
  {
    IndexFinds(properties, p, recent);
    SearchNearest(properties, p, recent, |properties|);
  }
}
