/**
 The shared state of `msm_drm_private` that the commit protocol changes in place, with one method per
 critical section of msm/msm_atomic.c.  Each method is proved to be the protocol step of the same name.
 The 32-bit words are the sets of their bit positions: `|=` is union, `&= ~` difference, `&` intersection.
 */
module CommitDriver {
  import opened CommitProtocol

  // An entry of the CRTC part of an atomic state.
  datatype CrtcEntry = CrtcEntry(id: nat, index: nat, oldActive: bool, newActive: bool)

  // A row of priv->disp_thread; `running` is whether its kthread exists.
  datatype DispThread = DispThread(crtcId: nat, running: bool)

  ghost predicate Takes(e: CrtcEntry, d: DispThread) {
    (e.oldActive || e.newActive) && d.crtcId == e.id
  }

  // The CRTC and the table row that dispatch settles on: the first of each that match.
  ghost predicate Settles(entries: seq<CrtcEntry>, table: seq<DispThread>, i: nat, j: nat) {
    && i < |entries| && j < |table|
    && Takes(entries[i], table[j])
    && (forall k :: 0 <= k < j ==> !Takes(entries[i], table[k]))
    && (forall h, k :: 0 <= h < i && 0 <= k < |table| ==> !Takes(entries[h], table[k]))
  }

  class MsmDrmPrivate {
    var pendingCrtcs: set<nat>
    var pendingPlanes: set<nat>
    const table: seq<DispThread>

    constructor (table: seq<DispThread>)
      ensures pendingCrtcs == {} && pendingPlanes == {} && this.table == table
    {
      pendingCrtcs, pendingPlanes := {}, {};
      this.table := table;
    }

    // The driver's words are the protocol's masks.
    ghost predicate Represents(s: State)
      reads this
    {
      pendingCrtcs == s.pendingCrtcs && pendingPlanes == s.pendingPlanes
    }

    // c->crtc_mask |= drm_crtc_mask(crtc), and the same for planes
    method GatherMask(indices: seq<nat>) returns (mask: set<nat>)
      ensures forall i :: i in mask <==> i in indices
    {
      mask := {};
      for k := 0 to |indices|
        invariant forall i :: i in mask <==> i in indices[..k]
      {
        mask := mask + {indices[k]};
        assert indices[..k + 1] == indices[..k] + [indices[k]];
      }
    }

    // One evaluation of the wait condition under the event lock, and the marking when it holds.
    method TryGate(crtcMask: set<nat>, planeMask: set<nat>, ghost s: State, ghost id: nat) returns (passed: bool)
      requires Represents(s) && id in s.commits && s.commits[id].caller == Waiting
      requires crtcMask == s.commits[id].req.crtcs && planeMask == s.commits[id].req.planes
      modifies this
      ensures passed <==> Enabled(s, Gate(id))
      ensures if passed then Represents(Apply(s, Gate(id))) else Represents(s)
    {
      passed := pendingCrtcs !! crtcMask && pendingPlanes !! planeMask;
      if passed {
        pendingCrtcs := pendingCrtcs + crtcMask;
        pendingPlanes := pendingPlanes + planeMask;
      }
    }

    // commit_destroy: the bits are cleared, and then the structure is freed if the commit is nonblocking.
    method CommitDestroy(crtcMask: set<nat>, planeMask: set<nat>, nonblock: bool, ghost s: State, ghost id: nat)
        returns (freed: bool)
      requires Represents(s) && Enabled(s, ClearBits(id)) && nonblock == s.commits[id].req.nonblock
      requires crtcMask == s.commits[id].req.crtcs && planeMask == s.commits[id].req.planes
      modifies this
      ensures Represents(Apply(s, ClearBits(id)))
      ensures Enabled(Apply(s, ClearBits(id)), FinishWork(id))
      ensures Represents(Apply(Apply(s, ClearBits(id)), FinishWork(id)))
      ensures Moved(Apply(s, ClearBits(id)), FinishWork(id)).frees == s.commits[id].frees + if freed then 1 else 0
    {
      pendingCrtcs := pendingCrtcs - crtcMask;
      pendingPlanes := pendingPlanes - planeMask;
      freed := nonblock;
    }

    // msm_atomic_commit_dispatch: the nested search for a display thread.  The commit is queued at
    // most once, on the row the search settles on, and only when that row's thread exists.
    method Dispatch(entries: seq<CrtcEntry>) returns (target: Target)
      ensures forall i: nat, j: nat :: Settles(entries, table, i, j) ==>
        target == if table[j].running then Thread(j) else Fallback
      ensures (forall i: nat, j: nat :: !Settles(entries, table, i, j)) ==> target == Fallback
    {
      target := Fallback;
      var i := 0;
      while i < |entries|
        invariant 0 <= i <= |entries| && target == Fallback
        invariant forall h, k :: 0 <= h < i && 0 <= k < |table| ==> !Takes(entries[h], table[k])
      {
        if entries[i].oldActive || entries[i].newActive {
          var j := 0;
          while j < |table| && table[j].crtcId != entries[i].id
            invariant 0 <= j <= |table|
            invariant forall k :: 0 <= k < j ==> !Takes(entries[i], table[k])
          {
            j := j + 1;
          }
          if j < |table| {
            assert Settles(entries, table, i, j);
            forall h: nat, k: nat | Settles(entries, table, h, k) ensures h == i && k == j {
              SettlesOnce(entries, table, i, j, h, k);
            }
            if table[j].running {
              target := Thread(j);
            }
            return;
          }
        }
        i := i + 1;
      }
    }
  }

  // The search is deterministic: at most one CRTC and row can be settled on.
  lemma {:induction false} SettlesOnce(entries: seq<CrtcEntry>, table: seq<DispThread>, i: nat, j: nat, h: nat, k: nat)
    requires Settles(entries, table, i, j) && Settles(entries, table, h, k)
    ensures i == h && j == k
  {
  }
}
