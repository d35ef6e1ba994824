/**
 The property helpers of msm/msm_prop.c in place: the array of property pointers with the index found last,
 and a state's value array with its dirty list.
 */
module PropertyDriver {
  import M = PropertyModel

  class PropertyState {
    const values: array<M.Value>
    var dirty: seq<nat>

    constructor (n: nat)
      ensures fresh(values) && values.Length == n && dirty == []
    {
      values := new M.Value[n](i => M.Value(0, 0));
      dirty := [];
    }

    function View(): M.State
      reads this, values
    {
      M.State(values[..], dirty)
    }

    // msm_property_pop_dirty
    method PopDirty() returns (rc: int)
      modifies this`dirty
      ensures (rc, View()) == M.PopDirty(old(View()))
    {
      rc := -1;
      if dirty != [] {
        rc := dirty[0];
        dirty := dirty[1..];
      }
    }

    // _msm_property_set_dirty_no_lock
    method SetDirty(i: nat)
      modifies this`dirty
      ensures View() == M.SetDirty(old(View()), i)
    {
      if i >= values.Length { return; }
      if i in dirty { return; }
      dirty := dirty + [i];
    }

    // msm_property_duplicate_state into this state: the values are copied and nothing is dirty.  The
    // result is the blobs that get a reference, in order.
    method DuplicateFrom(other: PropertyState) returns (gets: seq<nat>)
      requires other != this && other.values != values && other.values.Length == values.Length
      modifies this, values
      ensures View() == M.Duplicate(other.View()) && values[..] == other.values[..] && dirty == []
      ensures gets == M.BlobList(values[..])
    {
      dirty := [];
      gets := [];
      var i := 0;
      while i < values.Length
        invariant i <= values.Length && values[..i] == other.values[..i] && dirty == []
        invariant gets == M.BlobList(values[..i])
      {
        values[i] := other.values[i];
        assert values[..i + 1][..i] == values[..i];
        if values[i].blob != 0 {
          gets := gets + [values[i].blob];
        }
        i := i + 1;
      }
      assert values[..] == values[..i] && other.values[..] == other.values[..i];
    }

    // msm_property_destroy_state: the result is the blobs whose reference is put, in order.
    method Destroy() returns (puts: seq<nat>)
      modifies values
      ensures puts == M.BlobList(old(values[..]))
      ensures forall i :: 0 <= i < values.Length ==> values[i] == old(values[i]).(blob := 0)
    {
      puts := [];
      var i := 0;
      while i < values.Length
        invariant i <= values.Length && puts == M.BlobList(old(values[..])[..i])
        invariant forall j :: 0 <= j < i ==> values[j] == old(values[j]).(blob := 0)
        invariant forall j :: i <= j < values.Length ==> values[j] == old(values[j])
      {
        assert old(values[..])[..i + 1][..i] == old(values[..])[..i];
        if values[i].blob != 0 {
          puts := puts + [values[i].blob];
          values[i] := values[i].(blob := 0);
        }
        i := i + 1;
      }
      assert old(values[..])[..i] == old(values[..]);
    }
  }

  class PropertyInfo {
    const properties: array<nat>
    const blobFlag: seq<bool>
    const force: seq<bool>
    const blobCount: nat
    var recent: nat

    ghost predicate Valid()
      reads this
    {
      recent < properties.Length
    }

    function View(): M.Info
      reads this, properties
    {
      M.Info(properties[..], blobFlag, force, blobCount)
    }

    // msm_property_index
    method Index(p: nat) returns (rc: int)
      requires Valid()
      modifies this`recent
      ensures Valid() && rc == M.Index(properties[..], p, old(recent))
      ensures recent == if rc >= 0 then rc else old(recent)
    {
      var idx: nat := recent;
      var count: nat := properties.Length;
      rc := -1;
      while count > 0
        invariant idx < properties.Length && rc == -1 && recent == old(recent)
        invariant M.Search(properties[..], p, idx, count) == M.Search(properties[..], p, old(recent), properties.Length)
      {
        count := count - 1;
        if properties[idx] == p {
          recent := idx;
          rc := idx;
          break;
        }
        if idx == 0 {
          idx := properties.Length - 1;
        } else {
          idx := idx - 1;
        }
      }
    }

    // msm_property_atomic_set; put and got are the blob references given up and taken.
    method AtomicSet(s: PropertyState, p: nat, val: nat, blobs: set<nat>) returns (ok: bool, put: nat, got: nat)
      requires Valid() && M.Fits(View(), s.View())
      modifies this`recent, s, s.values
      ensures Valid()
      ensures (ok, M.Set(s.View(), put, got)) == M.AtomicSet(View(), old(s.View()), old(recent), p, val, blobs)
    {
      put, got := 0, 0;
      ok := false;
      ghost var before := s.View();
      var i := Index(p);
      if i < 0 { return; }
      ok := true;
      var v := s.values[i];
      var stored := M.Value(val, v.blob);
      if blobFlag[i] && i < blobCount {
        put := v.blob;
        var found := M.Lookup(blobs, val);
        got := found;
        stored := if val != 0 && found == 0 then M.Value(0, v.blob) else M.Value(found, found);
      }
      Store(s, i, stored);
    }

    // updating the value and flagging it as dirty
    method Store(s: PropertyState, i: nat, v: M.Value)
      requires M.Fits(View(), s.View()) && i < s.values.Length
      modifies s, s.values
      ensures s.View() == M.Store(View(), old(s.View()), i, v)
    {
      var changes := s.values[i].value != v.value || force[i];
      s.values[i] := v;
      if changes {
        s.SetDirty(i);
      }
    }
  }
}
