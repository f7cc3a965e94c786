/** The assets table: one row per target and value, updated in place. */
module AssetStores {
  import opened Options
  import opened Recurrences

  datatype Status = Active | New | Disappeared | Returned | Inactive | Ignored
  {
    predicate Live() {
      Active? || New? || Returned?
    }
  }

  /** What is unique in the table besides the id. */
  datatype Slot = Slot(target: string, value: string)

  /** Metadata maps each key to its printed value; `lastSeen` is stored in whole seconds. */
  datatype Asset = Asset(id: string, typ: string, value: string, status: Status, metadata: Option<map<string, string>>,
                         lastSeen: int)

  type Rows = map<Slot, Asset>

  /** What a tool reports; an empty status is read as new. */
  datatype Sighting = Sighting(id: string, typ: string, value: string, status: Option<Status>,
                               metadata: Option<map<string, string>>, at: int)
  {
    function StatusToStore(): Status {
      if status.None? then New else status.value
    }

    function Second(): int {
      at / SECOND
    }

    function MetadataToStore(): Option<map<string, string>> {
      if metadata.None? then Some(map[]) else metadata
    }
  }

  ghost predicate WellKeyed(rows: Rows) {
    && (forall s :: s in rows ==> rows[s].value == s.value && rows[s].id != "")
    && (forall s, t :: s in rows && t in rows && rows[s].id == rows[t].id ==> s == t)
  }

  predicate IdTaken(rows: Rows, id: string) {
    exists s :: s in rows && rows[s].id == id
  }

  function NormalizedRows(rows: Rows, target: string): Rows {
    map s | s in rows :: if s.target == target && rows[s].status.New? then rows[s].(status := Active) else rows[s]
  }

  /** An existing row keeps its id and type; an insert fails when another row already has the id. */
  function UpsertedRows(rows: Rows, target: string, o: Sighting): Rows {
    var s := Slot(target, o.value);
    if s in rows then
      rows[s := rows[s].(lastSeen := o.Second(), status := o.StatusToStore(), metadata := o.MetadataToStore())]
    else if IdTaken(rows, o.id) then rows
    else rows[s := Asset(o.id, o.typ, o.value, o.StatusToStore(), o.MetadataToStore(), o.Second())]
  }

  function AllUpserted(rows: Rows, target: string, os: seq<Sighting>): Rows {
    if os == [] then rows else UpsertedRows(AllUpserted(rows, target, os[..|os| - 1]), target, os[|os| - 1])
  }

  function WithStatus(rows: Rows, id: string, status: Status): Rows {
    map s | s in rows :: if rows[s].id == id then rows[s].(status := status) else rows[s]
  }

  /** `list` holds the target's rows, each once, in some order. */
  ghost predicate Lists(list: seq<Asset>, rows: Rows, target: string) {
    && (forall a :: a in list <==> Slot(target, a.value) in rows && rows[Slot(target, a.value)] == a)
    && forall i, j :: 0 <= i < j < |list| ==> list[i].value != list[j].value
  }

  /** Ids being unique, the statement touches one row, or none. */
  lemma StatusWritten(rows: Rows, id: string, status: Status)
    requires WellKeyed(rows)
    ensures WellKeyed(WithStatus(rows, id, status)) && WithStatus(rows, id, status).Keys == rows.Keys
    ensures forall s :: s in rows && rows[s].id == id ==>
              rows[s := rows[s].(status := status)] == WithStatus(rows, id, status)
    ensures !IdTaken(rows, id) ==> WithStatus(rows, id, status) == rows
  {}

  class AssetStore {
    var rows: Rows

    constructor (rows: Rows)
      ensures this.rows == rows
    {
      this.rows := rows;
    }

    method NormalizeAssetStatuses(target: string)
      modifies this
      ensures rows == NormalizedRows(old(rows), target) && rows.Keys == old(rows).Keys
      ensures forall s :: s in rows ==>
                rows[s] == if s.target == target && old(rows)[s].status.New? then old(rows)[s].(status := Active)
                           else old(rows)[s]
    {
      var todo := rows.Keys;
      while todo != {}
        invariant todo <= old(rows).Keys == rows.Keys
        invariant forall s :: s in rows ==>
          rows[s] == if s in todo then old(rows)[s] else NormalizedRows(old(rows), target)[s]
      {
        var s :| s in todo;
        if s.target == target && rows[s].status.New? {
          rows := rows[s := rows[s].(status := Active)];
        }
        todo := todo - {s};
      }
    }

    /** `ok` is false when the id belongs to another row, which leaves the table as it was. */
    method UpsertAsset(target: string, o: Sighting) returns (ok: bool)
      modifies this
      ensures rows == UpsertedRows(old(rows), target, o)
      ensures ok <==> Slot(target, o.value) in old(rows) || forall s :: s in old(rows) ==> old(rows)[s].id != o.id
      ensures !ok ==> rows == old(rows)
      ensures ok ==>
        var s, status := Slot(target, o.value), if o.status.None? then New else o.status.value;
        var metadata := if o.metadata.None? then Some(map[]) else o.metadata;
        rows == old(rows)[s := if s in old(rows)
                               then old(rows)[s].(lastSeen := o.at / SECOND, status := status, metadata := metadata)
                               else Asset(o.id, o.typ, o.value, status, metadata, o.at / SECOND)]
    {
      var s := Slot(target, o.value);
      if s in rows {
        rows := rows[s := rows[s].(lastSeen := o.Second(), status := o.StatusToStore(),
                                   metadata := o.MetadataToStore())];
        return true;
      }
      if IdTaken(rows, o.id) {
        return false;
      }
      rows := rows[s := Asset(o.id, o.typ, o.value, o.StatusToStore(), o.MetadataToStore(), o.Second())];
      ok := true;
    }

    /** `found` is false when no row has the id. */
    method UpdateAssetStatus(id: string, status: Status) returns (found: bool)
      requires WellKeyed(rows)
      modifies this
      ensures WellKeyed(rows) && rows == WithStatus(old(rows), id, status) && rows.Keys == old(rows).Keys
      ensures found <==> exists s :: s in old(rows) && old(rows)[s].id == id
      ensures forall s :: s in rows ==>
                rows[s] == if old(rows)[s].id == id then old(rows)[s].(status := status) else old(rows)[s]
    {
      hide WellKeyed;
      found := IdTaken(rows, id);
      StatusWritten(rows, id, status);
      if found {
        var s :| s in rows && rows[s].id == id;
        rows := rows[s := rows[s].(status := status)];
      }
    }

    /** At most `limit` rows of the target, in whatever order the table yields them. */
    method ListAssets(target: string, limit: nat) returns (list: seq<Asset>)
      requires WellKeyed(rows)
      ensures |OfTarget(rows, target)| <= limit ==> Lists(list, rows, target)
      ensures |list| <= limit
      ensures forall a :: a in list ==> Slot(target, a.value) in rows && rows[Slot(target, a.value)] == a
    {
      hide ListsBut;
      list := [];
      var todo := OfTarget(rows, target);
      NothingListed(rows, target);
      while todo != {} && |list| < limit
        invariant todo <= OfTarget(rows, target) && |list| + |todo| == |OfTarget(rows, target)| && |list| <= limit
        invariant ListsBut(list, rows, target, todo)
        decreases |todo|
      {
        var s :| s in todo;
        ListedNext(list, rows, target, todo, s);
        list := list + [rows[s]];
        todo := todo - {s};
      }
      ListedAll(list, rows, target, todo);
    }
  }

  /** `list` holds the target's rows that are not in `todo`, each once. */
  ghost predicate ListsBut(list: seq<Asset>, rows: Rows, target: string, todo: set<Slot>) {
    && (forall a :: a in list <==>
          Slot(target, a.value) in rows && Slot(target, a.value) !in todo && rows[Slot(target, a.value)] == a)
    && forall i, j :: 0 <= i < j < |list| ==> list[i].value != list[j].value
  }

  lemma NothingListed(rows: Rows, target: string)
    ensures ListsBut([], rows, target, OfTarget(rows, target))
  {}

  lemma ListedNext(list: seq<Asset>, rows: Rows, target: string, todo: set<Slot>, s: Slot)
    requires WellKeyed(rows) && todo <= OfTarget(rows, target) && ListsBut(list, rows, target, todo) && s in todo
    ensures ListsBut(list + [rows[s]], rows, target, todo - {s})
  {
    assert Slot(target, rows[s].value) == s;
    assert forall a :: a in list ==> a.value != s.value;
    forall a ensures a in list + [rows[s]] <==>
      Slot(target, a.value) in rows && Slot(target, a.value) !in todo - {s} && rows[Slot(target, a.value)] == a
    {}
  }

  lemma ListedAll(list: seq<Asset>, rows: Rows, target: string, todo: set<Slot>)
    requires ListsBut(list, rows, target, todo)
    ensures todo == {} ==> Lists(list, rows, target)
    ensures forall a :: a in list ==> Slot(target, a.value) in rows && rows[Slot(target, a.value)] == a
  {}

  function OfTarget(rows: Rows, target: string): set<Slot> {
    set s | s in rows && s.target == target
  }

  // ----- sightings -----

  /** The place of the last sighting of `value`. */
  function LastSighting(os: seq<Sighting>, value: string): Option<Sighting> {
    if os == [] then None
    else if os[|os| - 1].value == value then Some(os[|os| - 1])
    else LastSighting(os[..|os| - 1], value)
  }

  predicate Observed(os: seq<Sighting>, value: string) {
    exists i :: 0 <= i < |os| && os[i].value == value
  }

  /**
   Fresh ids, as random ones are: no row has the id of a sighting, and no two sightings of different values share one.
   */
  ghost predicate FreshIds(rows: Rows, os: seq<Sighting>) {
    && (forall i :: 0 <= i < |os| ==> os[i].id != "" && !IdTaken(rows, os[i].id))
    && (forall i, j :: 0 <= i < |os| && 0 <= j < |os| && os[i].id == os[j].id ==> os[i].value == os[j].value)
  }

  /** Every row is an old one or carries the id of a sighting of its value. */
  ghost predicate IdsAccounted(before: Rows, rows: Rows, target: string, os: seq<Sighting>) {
    forall s :: s in rows ==>
      (s in before && rows[s].id == before[s].id)
      || (s.target == target && exists i :: 0 <= i < |os| && os[i].value == s.value && os[i].id == rows[s].id)
  }

  /** The `i`-th sighting is the first, or the last, of its value. */
  predicate FirstOne(os: seq<Sighting>, i: nat) {
    i < |os| && forall j :: 0 <= j < i ==> os[j].value != os[i].value
  }

  predicate LastOne(os: seq<Sighting>, i: nat) {
    i < |os| && forall j :: i < j < |os| ==> os[j].value != os[i].value
  }

  /** What a run of upserts leaves in one slot: the last sighting, under the id and type that came first. */
  ghost predicate UpsertedAt(before: Rows, rows: Rows, target: string, os: seq<Sighting>, s: Slot) {
    var seen := if s.target == target then LastSighting(os, s.value) else None;
    if seen.None? then (s in rows <==> s in before) && (s in rows ==> rows[s] == before[s])
    else
      s in rows && rows[s].value == s.value
      && rows[s].lastSeen == seen.value.at / SECOND
      && rows[s].status == (if seen.value.status.None? then New else seen.value.status.value)
      && rows[s].metadata == (if seen.value.metadata.None? then Some(map[]) else seen.value.metadata)
      && (s in before ==> rows[s].id == before[s].id && rows[s].typ == before[s].typ)
      && (s !in before ==> exists i: nat :: FirstOne(os, i) && InsertedBy(os[i], rows[s]))
  }

  /** The row carries the sighting's value under its id and type. */
  predicate InsertedBy(o: Sighting, row: Asset) {
    o.value == row.value && row.id == o.id && row.typ == o.typ
  }

  /** The last sighting of a value is the one none follows. */
  lemma {:induction false} LastSightingIsLast(os: seq<Sighting>, value: string)
    ensures LastSighting(os, value).None? <==> forall i :: 0 <= i < |os| ==> os[i].value != value
    ensures LastSighting(os, value).Some? ==>
              exists i: nat :: LastOne(os, i) && os[i].value == value && LastSighting(os, value).value == os[i]
  {
    if os != [] {
      var n := |os| - 1;
      LastSightingIsLast(os[..n], value);
      if os[n].value == value {
        assert LastOne(os, n);
      } else if i: nat :| LastOne(os[..n], i) && os[..n][i].value == value && LastSighting(os[..n],
                                                                                           value).value == os[..n][i] {
        assert LastOne(os, i);
      }
    }
  }

  ghost predicate UpsertedEverywhere(before: Rows, rows: Rows, target: string, os: seq<Sighting>) {
    forall s :: UpsertedAt(before, rows, target, os, s)
  }

  /**
   Upserts one after another: each sighted value's row records its last sighting, under the id and type it
   first got; no other row changes, and ids stay unique.
   */
  lemma {:induction false} UpsertsMean(rows: Rows, target: string, os: seq<Sighting>)
    requires WellKeyed(rows) && FreshIds(rows, os)
    ensures var after := AllUpserted(rows, target, os);
      WellKeyed(after) && IdsAccounted(rows, after, target, os) && UpsertedEverywhere(rows, after, target, os)
  {
    if os != [] {
      var n := |os| - 1;
      var first, o := os[..n], os[n];
      var mid := AllUpserted(rows, target, first);
      assert FreshIds(rows, first);
      UpsertsMean(rows, target, first);
      assert os == first + [o];
      hide WellKeyed, IdsAccounted, UpsertedEverywhere, FreshIds;
      IdIsFree(rows, mid, target, first, o);
      NextIsKeyed(mid, target, o);
      NextIsAccounted(rows, mid, target, first, o);
      NextIsUpserted(rows, mid, target, first, o);
    }
  }

  /** No row has the id of a new value. */
  lemma IdIsFree(before: Rows, mid: Rows, target: string, first: seq<Sighting>, o: Sighting)
    requires FreshIds(before, first + [o]) && IdsAccounted(before, mid, target, first)
    ensures Slot(target, o.value) !in mid ==> !IdTaken(mid, o.id)
    ensures o.id != ""
  {
    var os := first + [o];
    var n := |first|;
    assert os[n] == o;
    if Slot(target, o.value) !in mid {
      forall s | s in mid ensures mid[s].id != o.id {
        if s in before && mid[s].id == before[s].id {
          assert !IdTaken(before, o.id);
        } else {
          var i :| 0 <= i < n && first[i].value == s.value && first[i].id == mid[s].id;
          assert os[i] == first[i];
        }
      }
    }
  }

  lemma NextIsKeyed(mid: Rows, target: string, o: Sighting)
    requires WellKeyed(mid) && o.id != "" && (Slot(target, o.value) !in mid ==> !IdTaken(mid, o.id))
    ensures WellKeyed(UpsertedRows(mid, target, o))
  {}

  lemma NextIsAccounted(before: Rows, mid: Rows, target: string, first: seq<Sighting>, o: Sighting)
    requires IdsAccounted(before, mid, target, first)
    ensures IdsAccounted(before, UpsertedRows(mid, target, o), target, first + [o])
  {
    var os := first + [o];
    var after := UpsertedRows(mid, target, o);
    forall s | s in after
      ensures (s in before && after[s].id == before[s].id)
              || (s.target == target && exists i :: 0 <= i < |os| && os[i].value == s.value && os[i].id == after[s].id)
    {
      if s !in mid {
        assert os[|first|].value == s.value && os[|first|].id == after[s].id;
      } else if !(s in before && mid[s].id == before[s].id) {
        var i :| 0 <= i < |first| && first[i].value == s.value && first[i].id == mid[s].id;
        assert os[i].value == s.value && os[i].id == after[s].id;
      }
    }
  }

  lemma NextIsUpserted(before: Rows, mid: Rows, target: string, first: seq<Sighting>, o: Sighting)
    requires WellKeyed(mid) && UpsertedEverywhere(before, mid, target, first)
    requires Slot(target, o.value) !in mid ==> !IdTaken(mid, o.id)
    ensures UpsertedEverywhere(before, UpsertedRows(mid, target, o), target, first + [o])
  {
    var os, after := first + [o], UpsertedRows(mid, target, o);
    assert os[..|first|] == first;
    forall s ensures UpsertedAt(before, after, target, os, s) {
      assert UpsertedAt(before, mid, target, first, s);
      if s.target == target && s !in before && s in after {
        InsertedFirst(before, mid, target, first, o, s);
      }
    }
  }

  lemma InsertedFirst(before: Rows, mid: Rows, target: string, first: seq<Sighting>, o: Sighting, s: Slot)
    requires UpsertedAt(before, mid, target, first, s) && s.target == target && s !in before
    requires s in UpsertedRows(mid, target, o) && (s !in mid ==> !IdTaken(mid, o.id) && s.value == o.value)
    ensures exists i: nat :: FirstOne(first + [o], i) && InsertedBy((first + [o])[i], UpsertedRows(mid, target, o)[s])
  {
    var os, after := first + [o], UpsertedRows(mid, target, o);
    LastSightingIsLast(first, s.value);
    if s in mid {
      var i: nat :| FirstOne(first, i) && InsertedBy(first[i], mid[s]);
      assert FirstOne(os, i) && InsertedBy(os[i], after[s]);
    } else {
      assert FirstOne(os, |first|) && InsertedBy(os[|first|], after[s]);
    }
  }

  lemma {:induction false} ObservedHasLast(os: seq<Sighting>, value: string)
    ensures Observed(os, value) <==> LastSighting(os, value).Some?
    ensures Observed(os, value) ==> LastSighting(os, value).value in os && LastSighting(os, value).value.value == value
  {
    if os != [] {
      var n := |os| - 1;
      ObservedHasLast(os[..n], value);
      if Observed(os, value) && os[n].value != value {
        var i :| 0 <= i < |os| && os[i].value == value;
        assert os[..n][i].value == value;
      }
      if Observed(os[..n], value) {
        var i :| 0 <= i < n && os[..n][i].value == value;
        assert os[i].value == value;
      }
    }
  }
}
