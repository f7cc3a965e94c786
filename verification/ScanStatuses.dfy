/** The statuses of a target's assets across one scan: snapshot, normalize, upserts, diff, settle. */
module ScanStatuses {
  import opened Options
  import opened AssetStores
  import opened Diffs
  import Sets

  /** How many assets a snapshot holds at most. */
  const SNAPSHOT_LIMIT: nat := 10000

  /** The snapshot shows the target's rows. */
  ghost predicate Mirrors(m: Snapshot, rows: Rows, target: string) {
    forall k :: (k in m <==> Slot(target, k.value) in rows && rows[Slot(target, k.value)].typ == k.typ)
             && (k in m ==> m[k] == rows[Slot(target, k.value)])
  }

  lemma {:induction false} SnapshotHolds(list: seq<Asset>)
    ensures forall k :: k in SnapshotOf(list) ==> SnapshotOf(list)[k] in list
    ensures forall a :: a in list ==> KeyOf(a) in SnapshotOf(list)
  {
    if list != [] {
      SnapshotHolds(list[..|list| - 1]);
    }
  }

  lemma ListsMirror(list: seq<Asset>, rows: Rows, target: string)
    requires WellKeyed(rows) && Lists(list, rows, target)
    ensures Mirrors(SnapshotOf(list), rows, target)
  {
    SnapshotHolds(list);
    var m := SnapshotOf(list);
    forall k ensures (k in m <==> Slot(target, k.value) in rows && rows[Slot(target, k.value)].typ == k.typ)
                  && (k in m ==> m[k] == rows[Slot(target, k.value)])
    {
      var s := Slot(target, k.value);
      if k in m {
        assert m[k] in list && KeyOf(m[k]) == k;
      }
      if s in rows && rows[s].typ == k.typ {
        assert rows[s] in list && KeyOf(rows[s]) == k;
      }
    }
  }

  /** Rows keep their ids and types. */
  ghost predicate SameIdentity(before: Rows, mid: Rows) {
    forall s :: s in before ==> s in mid && mid[s].id == before[s].id && mid[s].typ == before[s].typ
  }

  /** Everything the diff is computed from. */
  ghost predicate Compared(before: Rows, mid: Rows, target: string, changes: seq<Change>, pre: Snapshot,
                           post: Snapshot) {
    && WellKeyed(before) && WellKeyed(mid) && SameIdentity(before, mid)
    && Mirrors(pre, before, target) && Mirrors(post, mid, target) && Reports(changes, pre, post)
  }

  /** A change names the row it is about. */
  lemma ChangeNamesRow(before: Rows, mid: Rows, target: string, changes: seq<Change>, pre: Snapshot, post: Snapshot,
                       c: Change)
    requires Compared(before, mid, target, changes, pre, post) && c in changes
    ensures var s := Slot(target, c.key.value); s in mid && mid[s].id == c.assetId && mid[s].typ == c.key.typ
  {
    assert Found(c.kind, pre, post, c.key) == Some(c);
  }

  /** Two changes with one id are one change. */
  lemma ChangesAreApart(before: Rows, mid: Rows, target: string, changes: seq<Change>, pre: Snapshot, post: Snapshot,
                        c: Change, d: Change)
    requires Compared(before, mid, target, changes, pre, post) && c in changes && d in changes && c.assetId == d.assetId
    ensures c == d
  {
    ChangeNamesRow(before, mid, target, changes, pre, post, c);
    ChangeNamesRow(before, mid, target, changes, pre, post, d);
    assert c.key == d.key;
  }

  /** The change that concerns a row of the target, if there is one. */
  function ChangeAt(before: Rows, mid: Rows, s: Slot): Option<Kind>
    requires s in mid
  {
    if s !in before then Some(Appeared)
    else if mid[s].lastSeen == before[s].lastSeen then Some(Gone)
    else None
  }

  lemma SettledRow(before: Rows, mid: Rows, target: string, changes: seq<Change>, pre: Snapshot, post: Snapshot,
                   s: Slot)
    requires Compared(before, mid, target, changes, pre, post) && s in mid
    ensures s in SettledByAll(mid, changes)
    ensures SettledByAll(mid, changes)[s] == mid[s].(status :=
      if s.target != target then mid[s].status
      else match ChangeAt(before, mid, s)
           case Some(Appeared) => New
           case Some(_) => Disappeared
           case None => mid[s].status)
  {
    hide Mirrors, Reports, SettledByAll, Found;
    forall c, d | c in changes && d in changes && c.assetId == d.assetId ensures c == d {
      ChangesAreApart(before, mid, target, changes, pre, post, c, d);
    }
    SettlingMeans(mid, changes, s);
    if s.target != target {
      forall c | c in changes ensures c.assetId != mid[s].id {
        ChangeNamesRow(before, mid, target, changes, pre, post, c);
      }
    } else {
      RowHasChange(before, mid, target, changes, pre, post, s);
    }
  }

  lemma RowHasChange(before: Rows, mid: Rows, target: string, changes: seq<Change>, pre: Snapshot, post: Snapshot,
                     s: Slot)
    requires Compared(before, mid, target, changes, pre, post) && s in mid && s.target == target
    ensures match ChangeAt(before, mid, s)
            case Some(kind) => exists c :: c in changes && c.assetId == mid[s].id && c.kind == kind
            case None => forall c :: c in changes && c.assetId == mid[s].id ==> c.kind.Modified?
  {
    var k := Key(mid[s].typ, s.value);
    assert Slot(target, k.value) == s;
    match ChangeAt(before, mid, s)
    case Some(kind) =>
      var c := Found(kind, pre, post, k).value;
      assert c in changes;
    case None =>
      forall c | c in changes && c.assetId == mid[s].id ensures c.kind.Modified? {
        ChangeNamesRow(before, mid, target, changes, pre, post, c);
        assert c.key == k && Found(c.kind, pre, post, k) == Some(c);
      }
  }

  // ----- the whole scan -----

  /** The scan saw the row's asset in another second than the one stored. */
  predicate Touched(before: Rows, os: seq<Sighting>, s: Slot)
    requires s in before
  {
    LastSighting(os, s.value).Some? && LastSighting(os, s.value).value.Second() != before[s].lastSeen
  }

  /**
   Where the scan leaves a row: one the scan did not touch has disappeared, one it did touch has the status the
   tool gave, one it inserted is new, and other targets' rows are as they were.
   */
  ghost predicate EndsAs(before: Rows, after: Rows, target: string, os: seq<Sighting>, s: Slot) {
    if s.target != target then
      (s in after <==> s in before) && (s in before ==> after[s] == before[s])
    else
      && (s in after <==> s in before || Observed(os, s.value))
      && (s in after ==>
            after[s].status ==
            if s !in before then New
            else if Touched(before, os, s) then LastSighting(os, s.value).value.StatusToStore()
            else Disappeared)
  }

  ghost predicate Outcome(before: Rows, after: Rows, target: string, os: seq<Sighting>) {
    forall s :: EndsAs(before, after, target, os, s)
  }

  lemma NormalizedKeepsIds(rows: Rows, target: string, os: seq<Sighting>)
    requires WellKeyed(rows) && FreshIds(rows, os)
    ensures WellKeyed(NormalizedRows(rows, target)) && FreshIds(NormalizedRows(rows, target), os)
  {
    forall id ensures IdTaken(NormalizedRows(rows, target), id) ==> IdTaken(rows, id) {
      if IdTaken(NormalizedRows(rows, target), id) {
        var s :| s in rows && NormalizedRows(rows, target)[s].id == id;
        assert rows[s].id == id;
      }
    }
  }

  /** What the normalization and the upserts leave of a row. */
  lemma MidRow(before: Rows, target: string, os: seq<Sighting>, s: Slot)
    requires WellKeyed(before) && FreshIds(before, os)
    ensures var mid := AllUpserted(NormalizedRows(before, target), target, os);
      var seen := if s.target == target then LastSighting(os, s.value) else None;
      && (s in mid <==> s in before || seen.Some?)
      && (s in before ==> mid[s].id == before[s].id && mid[s].typ == before[s].typ)
      && (s in before && s.target != target ==> mid[s] == before[s])
      && (seen.Some? ==> mid[s].lastSeen == seen.value.Second() && mid[s].status == seen.value.StatusToStore())
      && (seen.None? && s in before ==> mid[s].lastSeen == before[s].lastSeen)
  {
    NormalizedKeepsIds(before, target, os);
    UpsertsMean(NormalizedRows(before, target), target, os);
    hide WellKeyed, FreshIds, IdsAccounted;
    assert UpsertedAt(NormalizedRows(before, target),
                      AllUpserted(NormalizedRows(before, target), target, os), target, os, s);
  }

  /** The outcome follows from the changes reported between the two snapshots, whatever the order of the report. */
  lemma ScanSettles(before: Rows, mid: Rows, target: string, os: seq<Sighting>, changes: seq<Change>, pre: Snapshot,
                    post: Snapshot)
    requires FreshIds(before, os) && mid == AllUpserted(NormalizedRows(before, target), target, os)
    requires Compared(before, mid, target, changes, pre, post)
    ensures Outcome(before, SettledByAll(mid, changes), target, os)
  {
    SettlingKeepsKeys(mid, changes);
    var after := SettledByAll(mid, changes);
    forall s ensures EndsAs(before, after, target, os, s) {
      SettledSlot(before, mid, target, os, changes, pre, post, s);
    }
  }

  lemma SettledSlot(before: Rows, mid: Rows, target: string, os: seq<Sighting>, changes: seq<Change>, pre: Snapshot,
                    post: Snapshot, s: Slot)
    requires FreshIds(before, os) && mid == AllUpserted(NormalizedRows(before, target), target, os)
    requires Compared(before, mid, target, changes, pre, post) && SettledByAll(mid, changes).Keys == mid.Keys
    ensures EndsAs(before, SettledByAll(mid, changes), target, os, s)
  {
    MidRow(before, target, os, s);
    ObservedHasLast(os, s.value);
    hide Mirrors, Reports, SettledByAll, LastSighting, Observed, AllUpserted, NormalizedRows, FreshIds, WellKeyed;
    if s in mid {
      SettledRow(before, mid, target, changes, pre, post, s);
    }
  }

  /** Every tool reports its assets with a live status. */
  ghost predicate LiveSightings(os: seq<Sighting>) {
    forall i :: 0 <= i < |os| ==> os[i].StatusToStore().Live()
  }

  /** Every sighting comes in a later second than the one stored for its asset. */
  ghost predicate LaterSightings(before: Rows, target: string, os: seq<Sighting>) {
    forall i :: 0 <= i < |os| && Slot(target, os[i].value) in before ==>
        os[i].Second() > before[Slot(target, os[i].value)].lastSeen
  }

  /**
   After a scan an asset is live exactly when the scan saw it, in another second than the stored one if it was
   known already, and has disappeared otherwise. When every sighting is in a later second, that is: exactly when
   the scan saw it.
   */
  lemma LiveMeansSeen(before: Rows, after: Rows, target: string, os: seq<Sighting>, s: Slot)
    requires Outcome(before, after, target, os) && LiveSightings(os) && s in after && s.target == target
    ensures after[s].status.Live() <==> s !in before || Touched(before, os, s)
    ensures !after[s].status.Live() ==> after[s].status.Disappeared?
    ensures LaterSightings(before, target, os) ==> (after[s].status.Live() <==> Observed(os, s.value))
  {
    assert EndsAs(before, after, target, os, s);
    ObservedHasLast(os, s.value);
    if Observed(os, s.value) {
      var i :| 0 <= i < |os| && os[i] == LastSighting(os, s.value).value;
      assert os[i].StatusToStore().Live() && Slot(target, os[i].value) == s;
    }
  }

  /** A sighting in the very second already stored goes unnoticed: the asset ends as disappeared. */
  lemma SameSecondIsMissed(before: Rows, after: Rows, target: string, o: Sighting)
    requires Outcome(before, after, target, [o]) && Slot(target, o.value) in before
    requires o.Second() == before[Slot(target, o.value)].lastSeen
    ensures Slot(target, o.value) in after && after[Slot(target, o.value)].status.Disappeared?
  {
    assert EndsAs(before, after, target, [o], Slot(target, o.value));
  }

  /** An asset that stays away is reported as gone by every scan, also when it had disappeared before. */
  lemma AbsenceIsReportedAgain(before: Rows, mid: Rows, target: string, changes: seq<Change>, pre: Snapshot,
                               post: Snapshot, s: Slot)
    requires Compared(before, mid, target, changes, pre, post) && s in before && s.target == target
    ensures mid[s].lastSeen == before[s].lastSeen <==>
              exists c :: c in changes && c.assetId == before[s].id && c.kind.Gone?
  {
    RowHasChange(before, mid, target, changes, pre, post, s);
  }

  /**
   The skeleton of a scan. `os` is what the tools report, `isFirstScan` whether the target was never scanned
   before; nothing is lost to the size of a snapshot.
   */
  method ScanTarget(store: AssetStore, target: string, os: seq<Sighting>, isFirstScan: bool)
    returns (changes: seq<Change>)
    requires WellKeyed(store.rows) && FreshIds(store.rows, os)
    requires |OfTarget(AllUpserted(NormalizedRows(store.rows, target), target, os), target)| <= 10000
    modifies store
    ensures WellKeyed(store.rows)
    ensures !isFirstScan ==> Outcome(old(store.rows), store.rows, target, os)
    ensures !isFirstScan ==>
              exists pre, post ::
                Compared(old(store.rows), AllUpserted(NormalizedRows(old(store.rows), target), target, os), target,
                         changes, pre, post)
    ensures isFirstScan ==> forall s :: s in store.rows && s.target == target ==> store.rows[s].status.New?
    ensures isFirstScan ==> forall s: Slot :: s.target != target ==>
              (s in store.rows <==> s in old(store.rows)) && (s in store.rows ==> store.rows[s] == old(store.rows)[s])
    ensures isFirstScan ==> forall s :: s in store.rows && s.target == target ==>
              var a := store.rows[s]; Change(a.id, Appeared, Info, Key(a.typ, a.value), true) in changes
    ensures isFirstScan ==> forall c :: c in changes ==>
              exists s :: s in store.rows && s.target == target && c.assetId == store.rows[s].id
  {
    ghost var before := store.rows;
    RowsOnlyGrow(before, target, os);
    var preAssets := store.ListAssets(target, SNAPSHOT_LIMIT);
    store.NormalizeAssetStatuses(target);
    ghost var normalized := store.rows;
    for i := 0 to |os|
      invariant store.rows == AllUpserted(normalized, target, os[..i])
    {
      assert os[..i + 1][..i] == os[..i];
      var _ := store.UpsertAsset(target, os[i]);
    }
    assert os[..|os|] == os;
    ghost var mid := store.rows;
    NormalizedKeepsIds(before, target, os);
    UpsertsMean(normalized, target, os);
    var postAssets := store.ListAssets(target, SNAPSHOT_LIMIT);
    changes := ComputeChanges(preAssets, postAssets, isFirstScan);
    ApplyStatusChanges(store, changes);
    if !isFirstScan {
      ListsMirror(preAssets, before, target);
      ListsMirror(postAssets, mid, target);
      IdentityKept(before, mid, target, os);
      ScanSettles(before, mid, target, os, changes, SnapshotOf(preAssets), SnapshotOf(postAssets));
      assert Compared(before, mid, target, changes, SnapshotOf(preAssets), SnapshotOf(postAssets));
    } else {
      BaselineSettles(mid, target, postAssets, changes);
      OthersStay(before, target, os);
    }
  }

  /** A baseline makes every asset of the target new. */
  lemma BaselineSettles(mid: Rows, target: string, list: seq<Asset>, changes: seq<Change>)
    requires WellKeyed(mid) && Lists(list, mid, target)
    requires |changes| == |list| && forall i :: 0 <= i < |changes| ==> changes[i] == BaselineChange(list[i])
    ensures forall s :: s in SettledByAll(mid, changes) && s.target == target ==>
              SettledByAll(mid, changes)[s].status.New?
    ensures forall s :: s in SettledByAll(mid, changes) && s.target == target ==>
              var a := SettledByAll(mid, changes)[s]; Change(a.id, Appeared, Info, Key(a.typ, a.value), true) in changes
    ensures forall c :: c in changes ==>
              exists s :: s in SettledByAll(mid, changes) && s.target == target
                          && c.assetId == SettledByAll(mid, changes)[s].id
    ensures forall s: Slot :: s.target != target ==>
              (s in SettledByAll(mid, changes) <==> s in mid) && (s in mid ==> SettledByAll(mid, changes)[s] == mid[s])
  {
    SettlingKeepsKeys(mid, changes);
    forall c, d | c in changes && d in changes && c.assetId == d.assetId ensures c == d {
      BaselineNamesRow(mid, target, list, changes, c);
      BaselineNamesRow(mid, target, list, changes, d);
    }
    forall s | s in mid && s.target == target
      ensures SettledByAll(mid, changes)[s] == mid[s].(status := New) && BaselineChange(mid[s]) in changes
    {
      assert mid[s] in list;
      var i :| 0 <= i < |list| && list[i] == mid[s];
      assert changes[i] in changes;
      hide SettledByAll, Lists;
      SettlingMeans(mid, changes, s);
    }
    forall s | s in mid && s.target != target ensures SettledByAll(mid, changes)[s] == mid[s] {
      forall c | c in changes ensures c.assetId != mid[s].id {
        BaselineNamesRow(mid, target, list, changes, c);
      }
      hide SettledByAll, Lists;
      SettlingMeans(mid, changes, s);
    }
    forall c | c in changes ensures exists s :: s in mid && s.target == target && c.assetId == mid[s].id {
      BaselineNamesRow(mid, target, list, changes, c);
    }
  }

  /** Normalizing and upserting for a target leaves the other targets' rows. */
  lemma OthersStay(before: Rows, target: string, os: seq<Sighting>)
    requires WellKeyed(before) && FreshIds(before, os)
    ensures var mid := AllUpserted(NormalizedRows(before, target), target, os);
            forall s: Slot :: s.target != target ==> (s in mid <==> s in before) && (s in mid ==> mid[s] == before[s])
  {
    forall s: Slot | s.target != target
      ensures var mid := AllUpserted(NormalizedRows(before, target), target, os);
              (s in mid <==> s in before) && (s in mid ==> mid[s] == before[s])
    {
      MidRow(before, target, os, s);
    }
  }

  lemma BaselineNamesRow(mid: Rows, target: string, list: seq<Asset>, changes: seq<Change>, c: Change)
    requires WellKeyed(mid) && Lists(list, mid, target) && c in changes
    requires |changes| == |list| && forall i :: 0 <= i < |changes| ==> changes[i] == BaselineChange(list[i])
    ensures var s := Slot(target, c.key.value); s in mid && c == BaselineChange(mid[s])
  {
    var i :| 0 <= i < |changes| && changes[i] == c;
    assert list[i] in list;
  }

  lemma IdentityKept(before: Rows, mid: Rows, target: string, os: seq<Sighting>)
    requires WellKeyed(before) && FreshIds(before, os) && mid == AllUpserted(NormalizedRows(before, target), target, os)
    ensures SameIdentity(before, mid)
  {
    forall s | s in before ensures s in mid && mid[s].id == before[s].id && mid[s].typ == before[s].typ {
      MidRow(before, target, os, s);
    }
  }

  lemma RowsOnlyGrow(before: Rows, target: string, os: seq<Sighting>)
    requires WellKeyed(before) && FreshIds(before, os)
    ensures |OfTarget(before, target)| <= |OfTarget(AllUpserted(NormalizedRows(before, target), target, os), target)|
  {
    IdentityKept(before, AllUpserted(NormalizedRows(before, target), target, os), target, os);
    Sets.SmallerThan(OfTarget(before, target),
                     OfTarget(AllUpserted(NormalizedRows(before, target), target, os), target));
  }
}
