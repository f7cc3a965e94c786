/** The reap of scans orphaned by a crash: chunked updates of three tables in one transaction. */
module Reaps {
  import opened Options

  /** How many ids one statement binds. */
  const BATCH_SIZE: nat := 500

  const SCAN_ERROR := "orphaned on scheduler restart"

  datatype RunStatus = Pending | Running | Completed | Failed | Cancelled

  datatype ScanRow = ScanRow(status: RunStatus, error: string, finishedAt: Option<int>, updatedAt: int)

  datatype AdHocRow = AdHocRow(scanId: Option<string>, status: RunStatus, completedAt: Option<int>)

  datatype ToolRow = ToolRow(scanId: string, status: RunStatus, error: string, finishedAt: Option<int>, updatedAt: int)

  datatype Db = Db(scans: map<string, ScanRow>, adHoc: map<string, AdHocRow>, tools: map<string, ToolRow>)

  // ----- the three updates -----

  predicate ScanHit(row: ScanRow, id: string, ids: seq<string>) {
    row.status.Running? && id in ids
  }

  predicate AdHocHit(row: AdHocRow, ids: seq<string>) {
    (row.status.Pending? || row.status.Running?) && row.scanId.Some? && row.scanId.value in ids
  }

  predicate ToolHit(row: ToolRow, ids: seq<string>) {
    row.status.Running? && row.scanId in ids
  }

  function ScansFailed(db: Db, ids: seq<string>, finishedAt: int, now: int): Db {
    db.(scans := map i | i in db.scans ::
      if ScanHit(db.scans[i], i, ids) then ScanRow(Failed, SCAN_ERROR, Some(finishedAt), now) else db.scans[i])
  }

  function AdHocFailed(db: Db, ids: seq<string>, finishedAt: int): Db {
    db.(adHoc := map i | i in db.adHoc ::
      if AdHocHit(db.adHoc[i], ids)
      then db.adHoc[i].(status := Failed, completedAt := Some(finishedAt)) else db.adHoc[i])
  }

  function ToolsFailed(db: Db, ids: seq<string>, finishedAt: int, now: int): Db {
    db.(tools := map i | i in db.tools ::
      if ToolHit(db.tools[i], ids)
      then ToolRow(db.tools[i].scanId, Failed, SCAN_ERROR, Some(finishedAt), now) else db.tools[i])
  }

  function HitScans(db: Db, ids: seq<string>): set<string> {
    set i | i in db.scans && ScanHit(db.scans[i], i, ids)
  }

  function HitAdHoc(db: Db, ids: seq<string>): set<string> {
    set i | i in db.adHoc && AdHocHit(db.adHoc[i], ids)
  }

  function HitTools(db: Db, ids: seq<string>): set<string> {
    set i | i in db.tools && ToolHit(db.tools[i], ids)
  }

  /** One of the three tables. */
  datatype Table = Scans | AdHoc | Tools

  function Updated(db: Db, table: Table, ids: seq<string>, finishedAt: int, now: int): Db {
    match table
    case Scans => ScansFailed(db, ids, finishedAt, now)
    case AdHoc => AdHocFailed(db, ids, finishedAt)
    case Tools => ToolsFailed(db, ids, finishedAt, now)
  }

  function Hits(db: Db, table: Table, ids: seq<string>): set<string> {
    match table
    case Scans => HitScans(db, ids)
    case AdHoc => HitAdHoc(db, ids)
    case Tools => HitTools(db, ids)
  }

  lemma ScansCompose(db: Db, ids: seq<string>, more: seq<string>, finishedAt: int, now: int)
    ensures ScansFailed(ScansFailed(db, ids, finishedAt, now), more, finishedAt, now)
            == ScansFailed(db, ids + more, finishedAt, now)
    ensures HitScans(db, ids + more) == HitScans(db, ids) + HitScans(ScansFailed(db, ids, finishedAt, now), more)
    ensures HitScans(db, ids) !! HitScans(ScansFailed(db, ids, finishedAt, now), more)
  {}

  lemma AdHocCompose(db: Db, ids: seq<string>, more: seq<string>, finishedAt: int)
    ensures AdHocFailed(AdHocFailed(db, ids, finishedAt), more, finishedAt) == AdHocFailed(db, ids + more, finishedAt)
    ensures HitAdHoc(db, ids + more) == HitAdHoc(db, ids) + HitAdHoc(AdHocFailed(db, ids, finishedAt), more)
    ensures HitAdHoc(db, ids) !! HitAdHoc(AdHocFailed(db, ids, finishedAt), more)
  {}

  lemma ToolsCompose(db: Db, ids: seq<string>, more: seq<string>, finishedAt: int, now: int)
    ensures ToolsFailed(ToolsFailed(db, ids, finishedAt, now), more, finishedAt, now)
            == ToolsFailed(db, ids + more, finishedAt, now)
    ensures HitTools(db, ids + more) == HitTools(db, ids) + HitTools(ToolsFailed(db, ids, finishedAt, now), more)
    ensures HitTools(db, ids) !! HitTools(ToolsFailed(db, ids, finishedAt, now), more)
  {}

  /** Updating for one list of ids and then for another is updating for both, and no row is counted twice. */
  lemma UpdatesCompose(db: Db, table: Table, ids: seq<string>, more: seq<string>, finishedAt: int, now: int)
    ensures Updated(Updated(db, table, ids, finishedAt, now), table, more, finishedAt, now)
         == Updated(db, table, ids + more, finishedAt, now)
    ensures |Hits(db, table, ids + more)|
            == |Hits(db, table, ids)| + |Hits(Updated(db, table, ids, finishedAt, now), table, more)|
  {
    hide ScansFailed, AdHocFailed, ToolsFailed, HitScans, HitAdHoc, HitTools;
    match table
    case Scans => ScansCompose(db, ids, more, finishedAt, now);
    case AdHoc => AdHocCompose(db, ids, more, finishedAt);
    case Tools => ToolsCompose(db, ids, more, finishedAt, now);
  }

  lemma UpdateNothing(db: Db, table: Table, finishedAt: int, now: int)
    ensures Updated(db, table, [], finishedAt, now) == db && Hits(db, table, []) == {}
  {}

  // ----- chunks -----

  function Flat(chunks: seq<seq<string>>): seq<string> {
    if chunks == [] then [] else Flat(chunks[..|chunks| - 1]) + chunks[|chunks| - 1]
  }

  function ChunkCount(n: nat, size: nat): nat
    requires size > 0
  {
    if n == 0 then 1 else (n - 1) / size + 1
  }

  /** The chunks, put together again, are the list; none is larger than `size`. */
  method ChunkIDs(ids: seq<string>, size: int) returns (out: seq<seq<string>>)
    ensures Flat(out) == ids
    ensures size > 0 ==> forall k :: 0 <= k < |out| ==> |out[k]| <= size
    ensures size > 0 ==> |out| == ChunkCount(|ids|, size) == if ids == [] then 1 else (|ids| - 1) / size + 1
    ensures size <= 0 ==> out == [ids]
    ensures ids != [] ==> forall k :: 0 <= k < |out| ==> out[k] != []
  {
    if size <= 0 || |ids| <= size {
      out := [ids];
      assert out[..0] == [];
      return;
    }
    out := [];
    var i := 0;
    while i < |ids|
      invariant 0 <= i && i == |out| * size && Flat(out) == ids[..if i < |ids| then i else |ids|]
      invariant i < |ids| + size
      invariant forall k :: 0 <= k < |out| ==> |out[k]| <= size && out[k] != []
    {
      var end := i + size;
      if end > |ids| {
        end := |ids|;
      }
      assert (out + [ids[i..end]])[..|out|] == out;
      assert ids[..i] + ids[i..end] == ids[..end];
      OneMore(|out|, size);
      out := out + [ids[i..end]];
      i := i + size;
    }
    assert ids[..|ids|] == ids;
    CountIs(|ids|, size, |out|);
  }

  lemma CountIs(n: nat, size: nat, k: nat)
    requires 0 < n <= k * size < n + size && size > 0
    ensures k == ChunkCount(n, size)
  {
    var q := (n - 1) / size;
    assert n - 1 == q * size + (n - 1) % size;
    assert 0 < (k - q) * size < 2 * size;
    Multiples(k - q, size);
  }

  lemma OneMore(k: nat, size: nat)
    ensures (k + 1) * size == k * size + size
  {}

  lemma Multiples(x: int, size: nat)
    requires size > 0
    ensures x >= 2 ==> x * size >= 2 * size
    ensures x <= 0 ==> x * size <= 0
  {}

  // ----- the transaction -----

  datatype Result<T> = Ok(value: T) | Err

  datatype Report = Report(scans: nat, adHoc: nat, tools: nat)

  class Store {
    var db: Db

    constructor (db: Db)
      ensures this.db == db
    {
      this.db := db;
    }
  }

  /** A transaction sees its own writes; the store sees them on commit. The first `lasts` statements succeed. */
  class ReapTx {
    const store: Store
    const lasts: nat
    var db: Db
    var used: nat

    constructor (store: Store, lasts: nat)
      ensures this.store == store && this.lasts == lasts && db == store.db && used == 0
    {
      this.store, this.lasts, db, used := store, lasts, store.db, 0;
    }

    /** The ids of the running scans, in some order. */
    method ListOrphanedScanIDs() returns (r: Result<seq<string>>)
      modifies this`used
      ensures r.Ok? <==> old(used) < lasts
      ensures r.Ok? ==> used == old(used) + 1 && Orphans(db, r.value)
    {
      if used >= lasts {
        return Err;
      }
      used := used + 1;
      var ids := [];
      var todo := set i | i in db.scans && db.scans[i].status.Running?;
      while todo != {}
        invariant forall i :: i in todo || i in ids <==> i in db.scans && db.scans[i].status.Running?
        invariant forall i :: i in todo ==> i !in ids
        invariant forall k, l :: 0 <= k < l < |ids| ==> ids[k] != ids[l]
      {
        var i :| i in todo;
        ids, todo := ids + [i], todo - {i};
      }
      r := Ok(ids);
    }

    /** One UPDATE over a chunk; `n` is the number of rows it changed. */
    method Exec(table: Table, chunk: seq<string>, finishedAt: int, now: int) returns (r: Result<nat>)
      modifies this`used, this`db
      ensures r.Ok? <==> old(used) < lasts
      ensures r.Ok? ==> used == old(used) + 1
      ensures r.Ok? ==>
                db == Updated(old(db), table, chunk, finishedAt, now) && r.value == |Hits(old(db), table, chunk)|
    {
      if used >= lasts {
        return Err;
      }
      used := used + 1;
      r := Ok(|Hits(db, table, chunk)|);
      db := Updated(db, table, chunk, finishedAt, now);
    }

    /**
     The chunk loop of the three mark operations. When no statement fails it amounts to one update for all the
     ids, and counts every changed row once.
     */
    method Mark(table: Table, ids: seq<string>, finishedAt: int, now: int) returns (r: Result<nat>)
      requires used <= lasts
      modifies this`used, this`db
      ensures r.Ok? <==> old(used) + Statements(|ids|) <= lasts
      ensures r.Ok? ==> used == old(used) + Statements(|ids|)
      ensures r.Ok? ==> db == Updated(old(db), table, ids, finishedAt, now) && r.value == |Hits(old(db), table, ids)|
    {
      hide Updated, Hits;
      UpdateNothing(db, table, finishedAt, now);
      if |ids| == 0 {
        return Ok(0);
      }
      var chunks := ChunkIDs(ids, BATCH_SIZE);
      var total := 0;
      for k := 0 to |chunks|
        invariant used == old(used) + k && (k > 0 ==> used <= lasts)
        invariant db == Updated(old(db), table, Flat(chunks[..k]), finishedAt, now)
        invariant total == |Hits(old(db), table, Flat(chunks[..k]))|
      {
        assert chunks[..k + 1][..k] == chunks[..k];
        UpdatesCompose(old(db), table, Flat(chunks[..k]), chunks[k], finishedAt, now);
        var n := Exec(table, chunks[k], finishedAt, now);
        if n.Err? {
          return Err;
        }
        total := total + n.value;
      }
      assert chunks[..|chunks|] == chunks;
      r := Ok(total);
    }

    method Commit() returns (r: Result<()>)
      modifies store, this`used
      ensures r.Ok? <==> old(used) < lasts
      ensures store.db == if r.Ok? then db else old(store.db)
    {
      if used >= lasts {
        return Err;
      }
      used := used + 1;
      store.db := db;
      r := Ok(());
    }
  }

  /** How many statements a mark operation takes for `n` ids. */
  function Statements(n: nat): nat {
    if n == 0 then 0 else ChunkCount(n, BATCH_SIZE)
  }

  /** `ids` are the running scans, each once. */
  ghost predicate Orphans(db: Db, ids: seq<string>) {
    && (forall i :: i in ids <==> i in db.scans && db.scans[i].status.Running?)
    && forall k, l :: 0 <= k < l < |ids| ==> ids[k] != ids[l]
  }

  /** The clock readings of a reap. */
  datatype Stamps = Stamps(finishedAt: int, scansNow: int, toolsNow: int)

  /** All three tables updated for `ids`. */
  function Reaped(db: Db, ids: seq<string>, t: Stamps): Db {
    ToolsFailed(AdHocFailed(ScansFailed(db, ids, t.finishedAt, t.scansNow), ids, t.finishedAt),
                ids, t.finishedAt, t.toolsNow)
  }

  /**
   The reap succeeds exactly when every one of its statements does; then the store is reaped and the report
   counts the rows changed. On any error the store is as it was.
   */
  method ReapOrphanedScans(store: Store, lasts: nat, t: Stamps) returns (r: Result<Report>, ghost ids: seq<string>)
    modifies store
    ensures Orphans(old(store.db), ids)
    ensures r.Ok? <==> lasts >= 2 + 3 * if ids == [] then 0 else (|ids| - 1) / 500 + 1
    ensures store.db == if r.Ok? then Reaped(old(store.db), ids, t) else old(store.db)
    ensures r.Ok? ==> RowsFailed(old(store.db), store.db, ids, t) && CountsRows(old(store.db), ids, r.value)
  {
    hide ScansFailed, AdHocFailed, ToolsFailed, HitScans, HitAdHoc, HitTools, Statements, Orphans, Reaped;
    hide RowsFailed, CountsRows;
    var tx := new ReapTx(store, lasts);
    ghost var db := store.db;
    ids := SomeOrphans(db);
    StatementsAre(|ids|);
    var listed := tx.ListOrphanedScanIDs();
    if listed.Err? {
      return Err, ids;
    }
    ids := listed.value;
    StatementsAre(|ids|);
    ReapNothing(db, ids, t);
    ReapIs(db, ids, t);
    if |listed.value| == 0 {
      var done := tx.Commit();
      return if done.Ok? then Ok(Report(0, 0, 0)) else Err, ids;
    }
    var scans := tx.Mark(Scans, listed.value, t.finishedAt, t.scansNow);
    if scans.Err? {
      return Err, ids;
    }
    var adHoc := tx.Mark(AdHoc, listed.value, t.finishedAt, t.scansNow);
    if adHoc.Err? {
      return Err, ids;
    }
    var tools := tx.Mark(Tools, listed.value, t.finishedAt, t.toolsNow);
    if tools.Err? {
      return Err, ids;
    }
    OtherTablesStay(db, ids, t);
    InThreeUpdates(db, ids, t);
    var done := tx.Commit();
    if done.Err? {
      return Err, ids;
    }
    r := Ok(Report(scans.value, adHoc.value, tools.value));
  }

  /**
   The running scans, and what is under way for them, are failed with the time and the reason; every other row is as
   it was.
   */
  ghost predicate RowsFailed(db: Db, after: Db, ids: seq<string>, t: Stamps) {
    && after.scans.Keys == db.scans.Keys && after.adHoc.Keys == db.adHoc.Keys && after.tools.Keys == db.tools.Keys
    && (forall i :: i in db.scans ==>
          after.scans[i] == if db.scans[i].status.Running? && i in ids
                            then ScanRow(Failed, "orphaned on scheduler restart", Some(t.finishedAt), t.scansNow)
                            else db.scans[i])
    && (forall i :: i in db.adHoc ==>
          var row := db.adHoc[i];
          after.adHoc[i] == if (row.status.Pending? || row.status.Running?)
            && row.scanId.Some? && row.scanId.value in ids
                            then AdHocRow(row.scanId, Failed, Some(t.finishedAt))
                            else row)
    && (forall i :: i in db.tools ==>
          var row := db.tools[i];
          after.tools[i] == if row.status.Running? && row.scanId in ids
                            then ToolRow(row.scanId, Failed,
                                         "orphaned on scheduler restart", Some(t.finishedAt), t.toolsNow)
                            else row)
  }

  /** The report counts those rows, table by table. */
  ghost predicate CountsRows(db: Db, ids: seq<string>, report: Report) {
    && report.scans == |set i | i in db.scans && db.scans[i].status.Running? && i in ids|
    && report.adHoc == |set i | i in db.adHoc && (db.adHoc[i].status.Pending? || db.adHoc[i].status.Running?)
                              && db.adHoc[i].scanId.Some? && db.adHoc[i].scanId.value in ids|
    && report.tools == |set i | i in db.tools && db.tools[i].status.Running? && db.tools[i].scanId in ids|
  }

  lemma ReapIs(db: Db, ids: seq<string>, t: Stamps)
    ensures RowsFailed(db, Reaped(db, ids, t), ids, t)
    ensures CountsRows(db, ids, Report(|HitScans(db, ids)|, |HitAdHoc(db, ids)|, |HitTools(db, ids)|))
  {
    assert HitScans(db, ids) == set i | i in db.scans && db.scans[i].status.Running? && i in ids;
    assert HitAdHoc(db, ids) == set i | i in db.adHoc && (db.adHoc[i].status.Pending? || db.adHoc[i].status.Running?)
                                        && db.adHoc[i].scanId.Some? && db.adHoc[i].scanId.value in ids;
    assert HitTools(db, ids) == set i | i in db.tools && db.tools[i].status.Running? && db.tools[i].scanId in ids;
  }

  lemma InThreeUpdates(db: Db, ids: seq<string>, t: Stamps)
    ensures Reaped(db, ids, t)
            == ToolsFailed(AdHocFailed(ScansFailed(db, ids, t.finishedAt, t.scansNow), ids, t.finishedAt),
                                              ids, t.finishedAt, t.toolsNow)
  {}

  lemma StatementsAre(n: nat)
    ensures Statements(n) == if n == 0 then 0 else (n - 1) / 500 + 1
  {}

  /** A list of the running scans. */
  ghost function SomeOrphans(db: Db): (ids: seq<string>)
    ensures Orphans(db, ids)
  {
    Listed(set i | i in db.scans && db.scans[i].status.Running?)
  }

  ghost function Listed(s: set<string>): (ids: seq<string>)
    ensures (forall i :: i in ids <==> i in s) && forall k, l :: 0 <= k < l < |ids| ==> ids[k] != ids[l]
  {
    if s == {} then [] else var x :| x in s; Listed(s - {x}) + [x]
  }

  lemma ReapNothing(db: Db, ids: seq<string>, t: Stamps)
    ensures ids == [] ==>
              Reaped(db, ids, t) == db && HitScans(db, ids) == {} && HitAdHoc(db, ids) == {} && HitTools(db, ids) == {}
    ensures Statements(0) == 0
  {}

  /** Each update leaves what the others hit. */
  lemma OtherTablesStay(db: Db, ids: seq<string>, t: Stamps)
    ensures var db1 := ScansFailed(db, ids, t.finishedAt, t.scansNow);
      var db2 := AdHocFailed(db1, ids, t.finishedAt);
      HitAdHoc(db1, ids) == HitAdHoc(db, ids) && HitTools(db2, ids) == HitTools(db, ids)
  {}

  // ----- what a reap means -----

  /**
   After a reap no scan is running, and no tool run or ad-hoc run that refers to a reaped scan is under way; a row
   has changed exactly when it was hit, and then it is failed.
   */
  lemma ReapMeans(db: Db, ids: seq<string>, t: Stamps)
    requires Orphans(db, ids)
    ensures var after := Reaped(db, ids, t);
      && RowsFailed(db, after, ids, t)
      && (forall i :: i in after.scans ==> !after.scans[i].status.Running?)
      && (forall i :: i in after.scans ==> (after.scans[i] != db.scans[i] <==> i in HitScans(db, ids)))
    ensures var after := Reaped(db, ids, t);
      && (forall i :: i in after.adHoc && after.adHoc[i].scanId.Some? && after.adHoc[i].scanId.value in ids
            ==> !after.adHoc[i].status.Running? && !after.adHoc[i].status.Pending?)
      && (forall i :: i in after.adHoc ==> (after.adHoc[i] != db.adHoc[i] <==> i in HitAdHoc(db, ids)))
      && (forall i :: i in after.tools && after.tools[i].scanId in ids ==> !after.tools[i].status.Running?)
      && (forall i :: i in after.tools ==> (after.tools[i] != db.tools[i] <==> i in HitTools(db, ids)))
  {
    ReapIs(db, ids, t);
  }

  /** A second reap finds nothing to do. */
  lemma ReapTwice(db: Db, ids: seq<string>, t: Stamps, again: seq<string>, u: Stamps)
    requires Orphans(db, ids) && Orphans(Reaped(db, ids, t), again)
    ensures again == [] && Reaped(Reaped(db, ids, t), again, u) == Reaped(db, ids, t)
  {
    ReapMeans(db, ids, t);
    hide Reaped, RowsFailed;
    assert forall i :: i !in again;
    EmptyOrNot(again);
    ReapNothing(Reaped(db, ids, t), again, u);
  }

  lemma EmptyOrNot(s: seq<string>)
    ensures s == [] || exists x :: x in s
  {
    if s != [] {
      assert s[0] in s;
    }
  }
}
