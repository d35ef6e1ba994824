/**
 Properties of msm/msm_prop.c on values: finding a property's index, setting values, and the list of
 properties that changed since the hardware code last looked.
 */
module PropertyModel {

  const U32: nat := 0x1_0000_0000

  // struct msm_property_value; blob 0 is no blob.
  datatype Value = Value(value: nat, blob: nat)

  // struct msm_property_state; dirty holds the indices on the dirty list, oldest first.
  datatype State = State(values: seq<Value>, dirty: seq<nat>)

  // struct msm_property_info: property pointers by index, which are blob properties, which are always dirty.
  datatype Info = Info(properties: seq<nat>, blobFlag: seq<bool>, force: seq<bool>, blobCount: nat)

  ghost predicate Fits(info: Info, s: State) {
    && |info.blobFlag| == |info.force| == |info.properties| == |s.values|
    && (forall i :: 0 <= i < |s.dirty| ==> s.dirty[i] < |s.values|)
  }

  // ----- Finding a property -----

  function Previous(i: nat, n: nat): nat
    requires i < n
  {
    if i == 0 then n - 1 else i - 1
  }

  // The search of msm_property_index: `left` steps backward and round from index i.
  function Search(properties: seq<nat>, p: nat, i: nat, left: nat): (r: int)
    requires i < |properties|
    ensures -1 <= r < |properties| && (r >= 0 ==> properties[r] == p)
    decreases left
  {
    if left == 0 then -1
    else if properties[i] == p then i
    else Search(properties, p, Previous(i, |properties|), left - 1)
  }

  function Index(properties: seq<nat>, p: nat, recent: nat): (r: int)
    requires recent < |properties|
    ensures -1 <= r < |properties| && (r >= 0 ==> properties[r] == p)
  {
    Search(properties, p, recent, |properties|)
  }

  // ----- The dirty list -----

  // _msm_property_set_dirty_no_lock
  function SetDirty(s: State, i: nat): State {
    if i >= |s.values| || i in s.dirty then s else s.(dirty := s.dirty + [i])
  }

  // msm_property_pop_dirty: -1 stands for -EAGAIN.
  function PopDirty(s: State): (int, State) {
    if s.dirty == [] then (-1, s) else (s.dirty[0] as int, s.(dirty := s.dirty[1..]))
  }

  // ----- Setting a value -----

  // The blob drm_property_lookup_blob finds for a 32-bit id, 0 when there is none.
  function Lookup(blobs: set<nat>, val: nat): nat {
    if val % U32 in blobs then val % U32 else 0
  }

  datatype Set = Set(state: State, put: nat, got: nat)    // and the blob references given up and taken

  // msm_property_atomic_set for the property at index i
  function SetAt(info: Info, s: State, i: nat, val: nat, blobs: set<nat>): (r: Set)
    requires Fits(info, s) && i < |s.values|
    ensures Fits(info, r.state)
  {
    var v := s.values[i];
    if info.blobFlag[i] && i < info.blobCount then
      var found := Lookup(blobs, val);
      var v' := if val != 0 && found == 0 then Value(0, v.blob) else Value(found, found);
      Set(Store(info, s, i, v'), v.blob, found)
    else Set(Store(info, s, i, Value(val, v.blob)), 0, 0)
  }

  // The value is stored, and marked dirty if it changed or always is.
  function Store(info: Info, s: State, i: nat, v: Value): State
    requires Fits(info, s) && i < |s.values|
  {
    var changes := s.values[i].value != v.value || info.force[i];
    var s1 := s.(values := s.values[i := v]);
    if changes then SetDirty(s1, i) else s1
  }

  // msm_property_atomic_set; the first component is the return code.
  function AtomicSet(info: Info, s: State, recent: nat, p: nat, val: nat, blobs: set<nat>): (r: (bool, Set))
    requires Fits(info, s) && recent < |info.properties|
    ensures Fits(info, r.1.state)
  {
    var i := Index(info.properties, p, recent);
    if i < 0 then (false, Set(s, 0, 0)) else (true, SetAt(info, s, i, val, blobs))
  }

  // msm_property_duplicate_state
  function Duplicate(s: State): State {
    s.(dirty := [])
  }

  // The blobs that values hold, one for each holder
  function BlobList(values: seq<Value>): seq<nat> {
    if values == [] then []
    else
      var last := values[|values| - 1];
      BlobList(values[..|values| - 1]) + if last.blob != 0 then [last.blob] else []
  }
}
