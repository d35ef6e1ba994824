/**
 Primary planes: handing them round keeps plane types and primary pointers a matching, gives every CRTC a
 primary plane when there are enough planes, and leaves the CRTCs of other leases alone.
 */
module LeasePrimaries {
  import opened LeaseModel

  // Planes of type PRIMARY are in one-to-one correspondence with the CRTCs that have a primary plane.
  ghost predicate Matching(k: Kms) {
    && (forall c :: 0 <= c < |k.primary| && k.primary[c] >= 0 ==>
          k.primary[c] < |k.types| && k.types[k.primary[c]] == Primary)
    && (forall c, d :: 0 <= c < d < |k.primary| && k.primary[c] >= 0 ==> k.primary[c] != k.primary[d])
    && (forall p :: 0 <= p < |k.types| && k.types[p] == Primary ==> Used(k, p))
  }

  ghost predicate Used(k: Kms, p: int) {
    exists c :: 0 <= c < |k.primary| && k.primary[c] == p
  }

  ghost function NonCursor(types: seq<PlaneType>): set<int> {
    set p: int | 0 <= p < |types| && types[p] != Cursor
  }

  // There are planes enough for every CRTC.
  ghost predicate Enough(k: Kms) {
    |NonCursor(k.types)| >= |k.primary|
  }

  ghost predicate Full(k: Kms) {
    forall c :: 0 <= c < |k.primary| ==> k.primary[c] >= 0
  }

  ghost predicate Distinct<T(!new)>(s: seq<T>) {
    forall i, j :: 0 <= i < j < |s| ==> s[i] != s[j]
  }

  // ----- Resetting -----

  lemma ResetPlaneKeeps(k: Kms, p: nat)
    requires p < |k.types| && Matching(k)
    ensures var r := ResetPlane(k, p);
      && Matching(r) && r.types[p] != Primary
      && (forall q :: 0 <= q < |k.types| && k.types[q] != Primary ==> r.types[q] != Primary)
      && (forall c :: 0 <= c < |k.primary| && k.primary[c] != p ==> r.primary[c] == k.primary[c])
      && NonCursor(k.types) <= NonCursor(r.types)
  {
    if k.types[p] == Primary {
      var r, c := ResetPlane(k, p), IndexOf(k.primary, p);
      assert Used(k, p);
      assert c < |k.primary| && k.primary[c] == p;
      forall q | 0 <= q < |r.types| && r.types[q] == Primary ensures Used(r, q) {
        assert Used(k, q);
        var d :| 0 <= d < |k.primary| && k.primary[d] == q;
        assert r.primary[d] == q;
      }
    }
  }

  lemma {:induction false} ResetKeeps(k: Kms, planes: seq<nat>)
    requires (forall i :: 0 <= i < |planes| ==> planes[i] < |k.types|) && Matching(k)
    ensures var r := Reset(k, planes);
      && Matching(r)
      && (forall i :: 0 <= i < |planes| ==> r.types[planes[i]] != Primary)
      && (forall c :: 0 <= c < |k.primary| && k.primary[c] !in planes ==> r.primary[c] == k.primary[c])
      && NonCursor(k.types) <= NonCursor(r.types)
  {
    hide Matching, NonCursor, ResetPlane;
    if planes != [] {
      var init := planes[..|planes| - 1];
      ResetKeeps(k, init);
      ResetPlaneKeeps(Reset(k, init), planes[|planes| - 1]);
      assert forall i :: 0 <= i < |init| ==> planes[i] == init[i];
    }
  }

  // ----- Setting up -----

  lemma TakePlaneKeeps(k: Kms, c: nat, p: nat)
    requires c < |k.primary| && p < |k.types| && Matching(k) && k.types[p] != Primary
    ensures var r := TakePlane(k, c, p);
      && Matching(r) && r.primary == k.primary[c := p]
      && (forall q :: 0 <= q < |k.types| && q != p && k.types[q] != Primary ==> r.types[q] != Primary)
      && NonCursor(k.types) <= NonCursor(r.types)
  {
    var r := TakePlane(k, c, p);
    forall q | 0 <= q < |r.types| && r.types[q] == Primary ensures Used(r, q) {
      if q == p {
        assert r.primary[c] == p;
      } else {
        assert Used(k, q);
        var d :| 0 <= d < |k.primary| && k.primary[d] == q;
        assert d != c;
        assert r.primary[d] == q;
      }
    }
  }

  lemma {:induction false} SetupKeeps(k: Kms, crtcs: seq<nat>, planes: seq<nat>, n: nat)
    requires n <= |crtcs| && n <= |planes| && InRange(k, planes, crtcs) && PrimariesFit(k) && Matching(k)
    requires Distinct(crtcs) && Distinct(planes)
    requires forall i :: 0 <= i < |planes| ==> k.types[planes[i]] != Primary
    ensures var r := Setup(k, crtcs, planes, n);
      && Matching(r)
      && (forall i :: n <= i < |planes| ==> r.types[planes[i]] != Primary)
      && (forall i :: 0 <= i < n ==> r.primary[crtcs[i]] == planes[i])
      && (forall c :: 0 <= c < |k.primary| && c !in crtcs[..n] ==> r.primary[c] == k.primary[c])
      && NonCursor(k.types) <= NonCursor(r.types)
  {
    hide Matching, NonCursor, TakePlane;
    if n > 0 {
      SetupKeeps(k, crtcs, planes, n - 1);
      assert crtcs[..n] == crtcs[..n - 1] + [crtcs[n - 1]];
      TakePlaneKeeps(Setup(k, crtcs, planes, n - 1), crtcs[n - 1], planes[n - 1]);
    }
  }

  // ----- Filling -----

  lemma FillCrtcKeeps(k: Kms, c: nat)
    requires c < |k.primary| && Matching(k)
    ensures var r := FillCrtc(k, c);
      && Matching(r) && NonCursor(k.types) <= NonCursor(r.types)
      && (forall d :: 0 <= d < |k.primary| && k.primary[d] >= 0 ==> r.primary[d] == k.primary[d])
      && (Enough(k) ==> r.primary[c] >= 0)
  {
    var r, p := FillCrtc(k, c), IndexOf(k.types, Overlay);
    if k.primary[c] < 0 {
      if Enough(k) {
        SparePlane(k, c);
      }
      if p < |k.types| {
        forall q | 0 <= q < |r.types| && r.types[q] == Primary ensures Used(r, q) {
          if q == p {
            assert r.primary[c] == p;
          } else {
            assert Used(k, q);
            var d :| 0 <= d < |k.primary| && k.primary[d] == q;
            assert r.primary[d] == q;
          }
        }
      }
    }
  }

  // The planes held as primary.
  ghost function Held(primary: seq<int>): set<int> {
    if primary == [] then {} else
    var last := primary[|primary| - 1];
    Held(primary[..|primary| - 1]) + if last >= 0 then {last} else {}
  }

  lemma {:induction false} HeldSize(primary: seq<int>)
    ensures |Held(primary)| <= |primary|
    ensures (exists c :: 0 <= c < |primary| && primary[c] < 0) ==> |Held(primary)| < |primary|
    ensures forall p :: p in Held(primary) <==> p >= 0 && p in primary
  {
    if primary != [] {
      var init := primary[..|primary| - 1];
      HeldSize(init);
      assert primary == init + [primary[|primary| - 1]];
      if c :| 0 <= c < |primary| && primary[c] < 0 {
        assert c == |init| || init[c] < 0;
      }
    }
  }

  // While a CRTC is without a primary plane, some plane is still an overlay: fewer planes are held as
  // primary than there are CRTCs.
  lemma SparePlane(k: Kms, c: nat)
    requires c < |k.primary| && k.primary[c] < 0 && Matching(k) && Enough(k)
    ensures Overlay in k.types
  {
    if Overlay !in k.types {
      HeldSize(k.primary);
      forall p | p in NonCursor(k.types) ensures p in Held(k.primary) {
        assert k.types[p] == Primary;
        assert Used(k, p);
      }
      SubsetSize(NonCursor(k.types), Held(k.primary));
    }
  }

  lemma SubsetSize(a: set<int>, b: set<int>)
    requires a <= b
    ensures |a| <= |b|
  {
    assert b == a + (b - a);
  }

  lemma EnoughStays(k: Kms, r: Kms)
    requires Enough(k) && NonCursor(k.types) <= NonCursor(r.types) && |r.primary| == |k.primary|
    ensures Enough(r)
  {
    SubsetSize(NonCursor(k.types), NonCursor(r.types));
  }

  lemma {:induction false} FillKeeps(k: Kms, n: nat)
    requires n <= |k.primary| && Matching(k)
    ensures var r := Fill(k, n);
      && Matching(r) && NonCursor(k.types) <= NonCursor(r.types)
      && (forall d :: 0 <= d < |k.primary| && k.primary[d] >= 0 ==> r.primary[d] == k.primary[d])
      && (Enough(k) ==> forall c :: 0 <= c < n ==> r.primary[c] >= 0)
  {
    hide Matching, NonCursor, FillCrtc;
    if n > 0 {
      FillKeeps(k, n - 1);
      FillCrtcKeeps(Fill(k, n - 1), n - 1);
      if Enough(k) {
        EnoughStays(k, Fill(k, n - 1));
      }
    }
  }

  // ----- The whole repair -----

  lemma {:induction false} OfDistinct(ids: seq<Obj>)
    requires Distinct(ids)
    ensures Distinct(PlanesOf(ids)) && Distinct(CrtcsOf(ids))
    ensures forall p: nat :: p in PlanesOf(ids) <==> Plane(p) in ids
    ensures forall c: nat :: c in CrtcsOf(ids) <==> Crtc(c) in ids
  {
    if ids != [] {
      OfDistinct(ids[..|ids| - 1]);
      assert ids == ids[..|ids| - 1] + [ids[|ids| - 1]];
    }
  }

  // The CRTC is granted with a plane.
  ghost predicate Served(ids: seq<Obj>, c: int) {
    c in CrtcsOf(ids)[..Min(|CrtcsOf(ids)|, |PlanesOf(ids)|)]
  }

  /** The repair after granting the objects `ids`: the matching stays one, the i-th CRTC granted has the i-th
      plane granted, CRTCs that got none keep a primary plane that was not granted away, and if there are planes
      enough and anything was granted, every CRTC of the device has a primary plane. */
  lemma FixupKeeps(k: Kms, ids: seq<Obj>)
    requires PrimariesFit(k) && InRange(k, PlanesOf(ids), CrtcsOf(ids)) && Matching(k) && Distinct(ids)
    ensures var r := Fixup(k, ids);
      && Matching(r) && NonCursor(k.types) <= NonCursor(r.types)
      && (forall i :: 0 <= i < |PlanesOf(ids)| && i < |CrtcsOf(ids)| ==> r.primary[CrtcsOf(ids)[i]] == PlanesOf(ids)[i])
      && (forall c :: 0 <= c < |k.primary| && !Served(ids, c) && k.primary[c] >= 0 && k.primary[c] !in PlanesOf(ids)
            ==> r.primary[c] == k.primary[c])
      && (ids != [] && Enough(k) ==> Full(r))
  {
    if ids != [] {
      var planes, crtcs := PlanesOf(ids), CrtcsOf(ids);
      OfDistinct(ids);
      ResetKeeps(k, planes);
      var k1 := Reset(k, planes);
      var n := Min(|crtcs|, |planes|);
      SetupKeeps(k1, crtcs, planes, n);
      var k2 := Setup(k1, crtcs, planes, n);
      FillKeeps(k2, |k.primary|);
      if Enough(k) {
        EnoughStays(k, k2);
      }
    }
  }

  // ----- Which planes it takes -----

  ghost function Cursors(types: seq<PlaneType>): set<int> {
    set p: int | 0 <= p < |types| && types[p] == Cursor
  }

  lemma {:induction false} ResetCursors(k: Kms, planes: seq<nat>)
    requires forall i :: 0 <= i < |planes| ==> planes[i] < |k.types|
    ensures Cursors(Reset(k, planes).types) == Cursors(k.types)
    ensures forall c :: 0 <= c < |k.primary| && k.primary[c] < 0 ==> Reset(k, planes).primary[c] < 0
    ensures var r := Reset(k, planes);
      forall c :: 0 <= c < |k.primary| ==> r.primary[c] == k.primary[c] || r.primary[c] < 0
  {
    if planes != [] {
      ResetCursors(k, planes[..|planes| - 1]);
    }
  }

  lemma {:induction false} SetupCursors(k: Kms, crtcs: seq<nat>, planes: seq<nat>, n: nat)
    requires n <= |crtcs| && n <= |planes| && InRange(k, planes, crtcs) && PrimariesFit(k) && Matching(k)
    requires Distinct(crtcs) && Distinct(planes) && forall i :: 0 <= i < |planes| ==> k.types[planes[i]] != Primary
    ensures var r := Setup(k, crtcs, planes, n);
      forall p :: p in Cursors(r.types) <==> p in Cursors(k.types) && p !in planes[..n]
  {
    hide TakePlane, Matching, Distinct, Cursors;
    if n > 0 {
      SetupCursors(k, crtcs, planes, n - 1);
      SetupKeeps(k, crtcs, planes, n - 1);
      TakePlaneCursors(Setup(k, crtcs, planes, n - 1), crtcs[n - 1], planes[n - 1]);
      assert planes[..n] == planes[..n - 1] + [planes[n - 1]];
    }
  }

  lemma TakePlaneCursors(k: Kms, c: nat, p: nat)
    requires c < |k.primary| && p < |k.types| && Matching(k)
    ensures Cursors(TakePlane(k, c, p).types) == Cursors(k.types) - {p}
  {
    hide Used;
  }

  // Filling gives no CRTC a cursor plane.
  lemma {:induction false} FillCursors(k: Kms, n: nat)
    requires n <= |k.primary|
    ensures Cursors(Fill(k, n).types) == Cursors(k.types)
  {
    if n > 0 {
      FillCursors(k, n - 1);
    }
  }

  // No overlay comes before plane p.
  ghost predicate NoneBefore(types: seq<PlaneType>, p: int) {
    forall q :: 0 <= q < p && q < |types| ==> types[q] != Overlay
  }

  // It gives CRTCs in order the first overlays in order, and leaves the CRTCs from n on alone.
  lemma {:induction false} FillsFirst(k: Kms, n: nat)
    requires n <= |k.primary|
    ensures var r := Fill(k, n);
      && (forall c :: n <= c < |k.primary| ==> r.primary[c] == k.primary[c])
      && (forall c :: 0 <= c < n && k.primary[c] < 0 ==> NoneBefore(r.types, r.primary[c]))
      && (forall c :: 0 <= c < n && k.primary[c] < 0 && r.primary[c] < 0 ==> Overlay !in r.types)
  {
    hide NoneBefore, FillCrtc;
    if n > 0 {
      FillsFirst(k, n - 1);
      FillCrtcFirst(Fill(k, n - 1), n - 1);
    }
  }

  lemma FillCrtcFirst(k: Kms, c: nat)
    requires c < |k.primary|
    ensures var r := FillCrtc(k, c);
      && (forall d :: 0 <= d < |k.primary| && d != c ==> r.primary[d] == k.primary[d])
      && (k.primary[c] < 0 ==> NoneBefore(r.types, r.primary[c]))
      && (forall p :: NoneBefore(k.types, p) ==> NoneBefore(r.types, p))
      && (k.primary[c] < 0 && r.primary[c] < 0 ==> Overlay !in r.types)
      && (Overlay !in k.types ==> Overlay !in r.types)
      && (k.primary[c] < 0 && r.primary[c] >= 0 ==> r.primary[c] < |k.types| && k.types[r.primary[c]] == Overlay)
      && (k.primary[c] < 0 && r.primary[c] >= 0 ==> NoneBefore(r.types, r.primary[c] + 1))
  {
  }

  // The CRTCs filled have planes in their own order.
  lemma {:induction false} FillsInOrder(k: Kms, n: nat)
    requires n <= |k.primary|
    ensures var r := Fill(k, n);
      && (forall c :: 0 <= c < n && k.primary[c] < 0 && r.primary[c] >= 0 ==> NoneBefore(r.types, r.primary[c] + 1))
      && (forall c, d :: 0 <= c < d < n && k.primary[c] < 0 && k.primary[d] < 0 && r.primary[d] >= 0
            ==> 0 <= r.primary[c] < r.primary[d])
  {
    hide FillCrtc;
    if n > 0 {
      var f := Fill(k, n - 1);
      FillsInOrder(k, n - 1);
      FillsFirst(k, n - 1);
      FillCrtcFirst(f, n - 1);
      if k.primary[n - 1] < 0 && FillCrtc(f, n - 1).primary[n - 1] >= 0 {
        forall c | 0 <= c < n - 1 && k.primary[c] < 0 ensures 0 <= f.primary[c] < FillCrtc(f, n - 1).primary[n - 1] {
          assert f.types[FillCrtc(f, n - 1).primary[n - 1]] == Overlay;
        }
      }
    }
  }

  /** Which planes the repair takes.  A cursor plane is left alone unless it is granted to a CRTC, and every CRTC without
      a plane, or whose plane was granted away, takes the first overlay that the CRTCs before it left. */
  lemma FixupTakes(k: Kms, ids: seq<Obj>)
    requires PrimariesFit(k) && InRange(k, PlanesOf(ids), CrtcsOf(ids)) && Matching(k) && Distinct(ids) && ids != []
    ensures var r, n := Fixup(k, ids), Min(|CrtcsOf(ids)|, |PlanesOf(ids)|);
      && (forall p :: p in Cursors(r.types) <==> p in Cursors(k.types) && p !in PlanesOf(ids)[..n])
      && (forall c :: 0 <= c < |k.primary| && Bare(k, ids, c) ==> NoneBefore(r.types, r.primary[c]))
      && (forall c :: 0 <= c < |k.primary| && Bare(k, ids, c) && r.primary[c] < 0 ==> Overlay !in r.types)
      && (forall c, d :: 0 <= c < d < |k.primary| && Bare(k, ids, c) && Bare(k, ids, d) && r.primary[d] >= 0
            ==> 0 <= r.primary[c] < r.primary[d])
  {
    hide Fill, Setup, Reset, NonCursor, NoneBefore;
    var planes, crtcs := PlanesOf(ids), CrtcsOf(ids);
    OfDistinct(ids);
    ResetKeeps(k, planes);
    ResetCursors(k, planes);
    var k1, n := Reset(k, planes), Min(|crtcs|, |planes|);
    SetupKeeps(k1, crtcs, planes, n);
    SetupCursors(k1, crtcs, planes, n);
    var k2 := Setup(k1, crtcs, planes, n);
    FillCursors(k2, |k.primary|);
    FillsFirst(k2, |k.primary|);
    FillsInOrder(k2, |k.primary|);
    forall c | 0 <= c < |k.primary| && Bare(k, ids, c) ensures k2.primary[c] < 0 {
      BareStays(k, k1, planes, c);
    }
  }

  // The CRTC has no plane once the granted planes are taken and handed out.
  ghost predicate Bare(k: Kms, ids: seq<Obj>, c: int)
    requires 0 <= c < |k.primary|
  {
    !Served(ids, c) && (k.primary[c] < 0 || k.primary[c] in PlanesOf(ids))
  }

  lemma BareStays(k: Kms, k1: Kms, planes: seq<nat>, c: nat)
    requires c < |k.primary| == |k1.primary| && (k1.primary[c] == k.primary[c] || k1.primary[c] < 0) && Matching(k1)
    requires forall i :: 0 <= i < |planes| ==> planes[i] < |k1.types| && k1.types[planes[i]] != Primary
    requires k.primary[c] < 0 || k.primary[c] in planes
    ensures k1.primary[c] < 0
  {
  }
}
