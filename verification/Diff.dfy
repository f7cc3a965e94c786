/** The asset diff of a scan: comparing two snapshots, and settling the statuses by the differences. */
module Diffs {
  import opened Options
  import opened AssetStores

  datatype Kind = Appeared | Gone | Modified

  datatype Significance = Critical | High | Medium | Low | Info

  datatype Key = Key(typ: string, value: string)

  datatype Change = Change(assetId: string, kind: Kind, significance: Significance, key: Key, baseline: bool)

  function KeyOf(a: Asset): Key {
    Key(a.typ, a.value)
  }

  function SignificanceOf(kind: Kind, typ: string): Significance {
    match kind
    case Appeared =>
      if typ in {"domain", "subdomain", "port_service"} then Critical
      else if typ in {"ipv4", "ipv6"} then High
      else if typ == "url" then Medium
      else if typ == "technology" then Low
      else Info
    case Gone =>
      if typ in {"domain", "subdomain", "port_service"} then High
      else if typ in {"ipv4", "ipv6"} then Medium
      else Low
    case Modified => Info
  }

  // ----- metadata -----

  /** The metadata keys compared, most important first, and what a change of each means. */
  const COMPARED: seq<(string, Significance)> :=
    [("server", Critical), ("cname", Critical), ("status_code", Medium), ("tls_valid", High), ("title", Info)]

  /** Both sides have the key, with different values. */
  predicate Differs(prev: map<string, string>, curr: map<string, string>, key: string) {
    key in prev && key in curr && prev[key] != curr[key]
  }

  function MetadataChange(prev: Option<map<string, string>>, curr: Option<map<string, string>>): Option<Significance> {
    if prev.None? || curr.None? then None
    else if Differs(prev.value, curr.value, "server") then Some(Critical)
    else if Differs(prev.value, curr.value, "cname") then Some(Critical)
    else if Differs(prev.value, curr.value, "status_code") then Some(Medium)
    else if Differs(prev.value, curr.value, "tls_valid") then Some(High)
    else if Differs(prev.value, curr.value, "title") then Some(Info)
    else None
  }

  /** The `i`-th compared key is the first on which the two differ. */
  predicate FirstDifference(prev: map<string, string>, curr: map<string, string>, i: nat) {
    && i < |COMPARED| && Differs(prev, curr, COMPARED[i].0)
    && forall j :: 0 <= j < i ==> !Differs(prev, curr, COMPARED[j].0)
  }

  /** Five keys are compared, and the first that differs decides. */
  lemma FirstDifferenceDecides(prev: map<string, string>, curr: map<string, string>)
    ensures COMPARED == [("server", Critical), ("cname", Critical),
                         ("status_code", Medium), ("tls_valid", High), ("title", Info)]
    ensures MetadataChange(Some(prev), Some(curr)).Some? <==> exists i: nat :: FirstDifference(prev, curr, i)
    ensures forall i: nat ::
              FirstDifference(prev, curr, i) ==> MetadataChange(Some(prev), Some(curr)) == Some(COMPARED[i].1)
  {
    assert COMPARED[0].0 == "server" && COMPARED[1].0 == "cname" && COMPARED[2].0 == "status_code"
           && COMPARED[3].0 == "tls_valid" && COMPARED[4].0 == "title";
    hide Differs;
    if MetadataChange(Some(prev), Some(curr)).Some? {
      var i := if Differs(prev, curr, COMPARED[0].0) then 0 else if Differs(prev, curr, COMPARED[1].0) then 1
               else if Differs(prev, curr, COMPARED[2].0) then 2
               else if Differs(prev, curr, COMPARED[3].0) then 3 else 4;
      assert FirstDifference(prev, curr, i);
    }
  }

  /** There is a change exactly when one of the five keys is present both times with different values. */
  lemma SomeDifference(prev: map<string, string>, curr: map<string, string>)
    ensures MetadataChange(Some(prev), Some(curr)).Some? <==>
              exists i :: 0 <= i < |COMPARED| && COMPARED[i].0 in prev && COMPARED[i].0 in curr
                          && prev[COMPARED[i].0] != curr[COMPARED[i].0]
  {
    assert COMPARED[0].0 == "server" && COMPARED[1].0 == "cname" && COMPARED[2].0 == "status_code"
           && COMPARED[3].0 == "tls_valid" && COMPARED[4].0 == "title";
  }

  // ----- what is reported -----

  type Snapshot = map<Key, Asset>

  /** Every asset stands under its own key. */
  ghost predicate Keyed(m: Snapshot) {
    forall k :: k in m ==> KeyOf(m[k]) == k
  }

  function SnapshotOf(assets: seq<Asset>): (m: Snapshot)
    ensures Keyed(m)
  {
    if assets == [] then map[]
    else SnapshotOf(assets[..|assets| - 1])[KeyOf(assets[|assets| - 1]) := assets[|assets| - 1]]
  }

  /** The `i`-th asset has the key, and none after it does. */
  predicate LastWithKey(assets: seq<Asset>, i: nat, k: Key) {
    && i < |assets| && Key(assets[i].typ, assets[i].value) == k
    && forall j :: i < j < |assets| ==> Key(assets[j].typ, assets[j].value) != k
  }

  /** The snapshot has exactly the assets' keys, each with the last asset of that key. */
  lemma {:induction false} SnapshotHas(assets: seq<Asset>, k: Key)
    ensures k in SnapshotOf(assets) <==> exists i :: 0 <= i < |assets| && Key(assets[i].typ, assets[i].value) == k
    ensures k in SnapshotOf(assets) ==>
              exists i: nat :: LastWithKey(assets, i, k) && assets[i] == SnapshotOf(assets)[k]
  {
    if assets != [] {
      var n := |assets| - 1;
      var front := assets[..n];
      SnapshotHas(front, k);
      assert forall i :: 0 <= i < n ==> front[i] == assets[i];
      if KeyOf(assets[n]) == k {
        assert LastWithKey(assets, n, k);
      } else if k in SnapshotOf(front) {
        var i: nat :| LastWithKey(front, i, k) && front[i] == SnapshotOf(front)[k];
        assert LastWithKey(assets, i, k) && assets[i] == SnapshotOf(assets)[k];
      }
    }
  }

  /** The change of the given kind at `k`, if there is one. An asset counts as seen when its last-seen second moved. */
  function Found(kind: Kind, pre: Snapshot, post: Snapshot, k: Key): Option<Change> {
    match kind
    case Appeared =>
      if k in post && k !in pre
      then Some(Change(post[k].id, Appeared, SignificanceOf(Appeared, post[k].typ), k, false)) else None
    case Gone =>
      if k in pre && (k !in post || post[k].lastSeen == pre[k].lastSeen)
      then Some(Change(pre[k].id, Gone, SignificanceOf(Gone, pre[k].typ), k, false)) else None
    case Modified =>
      if k in post && k in pre && post[k].lastSeen != pre[k].lastSeen
         && MetadataChange(pre[k].metadata, post[k].metadata).Some?
      then Some(Change(post[k].id, Modified, MetadataChange(pre[k].metadata, post[k].metadata).value, k, false))
      else None
  }

  /** The list holds the changes found at the places in `done`, each once and no two for one key. */
  ghost predicate ReportsOn(changes: seq<Change>, pre: Snapshot, post: Snapshot, done: set<(Kind, Key)>) {
    && (forall c :: c in changes <==> (c.kind, c.key) in done && Found(c.kind, pre, post, c.key) == Some(c))
    && (forall i, j :: 0 <= i < j < |changes| ==> changes[i].key != changes[j].key)
  }

  /** The list holds exactly the changes between the snapshots, and no two for one key. */
  ghost predicate Reports(changes: seq<Change>, pre: Snapshot, post: Snapshot) {
    && (forall c :: c in changes <==> Found(c.kind, pre, post, c.key) == Some(c))
    && (forall i, j :: 0 <= i < j < |changes| ==> changes[i].key != changes[j].key)
  }

  /** The asset at `k` was seen in both snapshots, in different seconds, with metadata both times. */
  predicate SeenAgain(pre: Snapshot, post: Snapshot, k: Key) {
    k in pre && k in post && pre[k].lastSeen != post[k].lastSeen && pre[k].metadata.Some? && post[k].metadata.Some?
  }

  /**
   An asset seen again is reported as modified exactly when a compared key is present both times with different
   values, as significant as the first such key says.
   */
  lemma ModifiedMeans(changes: seq<Change>, pre: Snapshot, post: Snapshot, k: Key)
    requires Reports(changes, pre, post)
    ensures (exists c :: c in changes && c.kind == Modified && c.key == k)
       <==> SeenAgain(pre, post, k)
            && exists i: nat :: FirstDifference(pre[k].metadata.value, post[k].metadata.value, i)
    ensures (exists c :: c in changes && c.kind == Modified && c.key == k)
       <==> SeenAgain(pre, post, k)
            && var prev, curr := pre[k].metadata.value, post[k].metadata.value;
               exists i :: 0 <= i < |COMPARED| && COMPARED[i].0 in prev && COMPARED[i].0 in curr
                           && prev[COMPARED[i].0] != curr[COMPARED[i].0]
    ensures forall c, i: nat :: c in changes && c.kind == Modified && c.key == k
              && FirstDifference(pre[k].metadata.value, post[k].metadata.value, i)
              ==> c.assetId == post[k].id && c.significance == COMPARED[i].1
  {
    if SeenAgain(pre, post, k) {
      FirstDifferenceDecides(pre[k].metadata.value, post[k].metadata.value);
      SomeDifference(pre[k].metadata.value, post[k].metadata.value);
    }
    if Found(Modified, pre, post, k).Some? {
      assert Found(Modified, pre, post, k).value in changes;
    }
  }

  /**
   An asset is reported as appeared exactly when only the later snapshot has it, and as gone exactly when the earlier
   one has it and it was not seen in another second since; how significant that is depends on its type.
   */
  lemma AppearedAndGoneMean(changes: seq<Change>, pre: Snapshot, post: Snapshot, k: Key)
    requires Reports(changes, pre, post)
    ensures (exists c :: c in changes && c.kind == Appeared && c.key == k) <==> k in post && k !in pre
    ensures (exists c :: c in changes && c.kind == Gone && c.key == k)
       <==> k in pre && (k in post ==> post[k].lastSeen == pre[k].lastSeen)
    ensures forall c :: c in changes && c.kind == Appeared && c.key == k ==>
              var typ := post[k].typ;
              && c.assetId == post[k].id && !c.baseline
              && c.significance == if typ == "domain" || typ == "subdomain" || typ == "port_service" then Critical
                                   else if typ == "ipv4" || typ == "ipv6" then High
                                   else if typ == "url" then Medium
                                   else if typ == "technology" then Low else Info
    ensures forall c :: c in changes && c.kind == Gone && c.key == k ==>
              var typ := pre[k].typ;
              && c.assetId == pre[k].id && !c.baseline
              && c.significance == if typ == "domain" || typ == "subdomain" || typ == "port_service" then High
                                   else if typ == "ipv4" || typ == "ipv6" then Medium else Low
  {
    if Found(Appeared, pre, post, k).Some? {
      assert Found(Appeared, pre, post, k).value in changes;
    }
    if Found(Gone, pre, post, k).Some? {
      assert Found(Gone, pre, post, k).value in changes;
    }
  }

  function Extended(changes: seq<Change>, found: Option<Change>): seq<Change> {
    if found.None? then changes else changes + [found.value]
  }

  lemma ReportsNext(changes: seq<Change>, pre: Snapshot, post: Snapshot, done: set<(Kind, Key)>, kind: Kind, k: Key)
    requires ReportsOn(changes, pre, post, done) && (kind, k) !in done
    ensures ReportsOn(Extended(changes, Found(kind, pre, post, k)), pre, post, done + {(kind, k)})
  {
    var found := Found(kind, pre, post, k);
    var longer := Extended(changes, found);
    forall c
      ensures c in longer <==>
              (c.kind, c.key) in done + {(kind, k)} && Found(c.kind, pre, post, c.key) == Some(c) {
      assert found.Some? ==> (c in longer <==> c in changes || c == found.value);
    }
    forall i | 0 <= i < |changes| && found.Some? ensures changes[i].key != k {
      assert changes[i] in changes;
    }
  }

  function Places(kind: Kind, keys: set<Key>): set<(Kind, Key)> {
    set k | k in keys :: (kind, k)
  }

  /** One pass over the keys of a snapshot, in arbitrary order. */
  method Collect(kind: Kind, keys: set<Key>, pre: Snapshot, post: Snapshot, sofar: seq<Change>,
                 ghost done: set<(Kind, Key)>)
    returns (changes: seq<Change>)
    requires ReportsOn(sofar, pre, post, done) && forall k :: (kind, k) !in done
    ensures ReportsOn(changes, pre, post, done + Places(kind, keys))
  {
    hide ReportsOn, Found;
    changes := sofar;
    var todo := keys;
    assert keys - todo == {} && done + Places(kind, {}) == done;
    while todo != {}
      invariant todo <= keys && ReportsOn(changes, pre, post, done + Places(kind, keys - todo))
    {
      var k :| k in todo;
      ReportsNext(changes, pre, post, done + Places(kind, keys - todo), kind, k);
      assert done + Places(kind, keys - todo) + {(kind, k)} == done + Places(kind, keys - (todo - {k}));
      changes := Extended(changes, Found(kind, pre, post, k));
      todo := todo - {k};
    }
    assert keys - todo == keys;
  }

  method BuildAssetMap(assets: seq<Asset>) returns (m: Snapshot)
    ensures m == SnapshotOf(assets)
  {
    m := map[];
    for i := 0 to |assets|
      invariant m == SnapshotOf(assets[..i])
    {
      assert assets[..i + 1][..i] == assets[..i];
      m := m[KeyOf(assets[i]) := assets[i]];
    }
    assert assets[..|assets|] == assets;
  }

  function BaselineChange(a: Asset): Change {
    Change(a.id, Appeared, Info, KeyOf(a), true)
  }

  /** On a first scan every asset is a baseline appearance; later the changes between the snapshots are reported. */
  method ComputeChanges(preAssets: seq<Asset>, postAssets: seq<Asset>, isFirstScan: bool) returns (changes: seq<Change>)
    ensures isFirstScan ==>
              && |changes| == |postAssets|
              && forall i :: 0 <= i < |changes| ==>
                   var a := postAssets[i];
                   changes[i] == BaselineChange(a) == Change(a.id, Appeared, Info, Key(a.typ, a.value), true)
    ensures !isFirstScan ==> Reports(changes, SnapshotOf(preAssets), SnapshotOf(postAssets))
  {
    changes := [];
    if isFirstScan {
      for i := 0 to |postAssets|
        invariant |changes| == i && forall j :: 0 <= j < i ==> changes[j] == BaselineChange(postAssets[j])
      {
        changes := changes + [BaselineChange(postAssets[i])];
      }
      return;
    }
    var pre := BuildAssetMap(preAssets);
    var post := BuildAssetMap(postAssets);
    changes := Collect(Appeared, post.Keys, pre, post, changes, {});
    changes := Collect(Gone, pre.Keys, pre, post, changes, Places(Appeared, post.Keys));
    changes := Collect(Modified, post.Keys, pre, post, changes, Places(Appeared, post.Keys) + Places(Gone, pre.Keys));
    AllPlaces(changes, pre, post);
  }

  lemma AllPlaces(changes: seq<Change>, pre: Snapshot, post: Snapshot)
    requires ReportsOn(changes, pre, post,
                       Places(Appeared, post.Keys) + Places(Gone, pre.Keys) + Places(Modified, post.Keys))
    ensures Reports(changes, pre, post)
  {}

  // ----- settling the statuses -----

  function SettledBy(rows: Rows, c: Change): Rows {
    if c.assetId == "" then rows
    else
      match c.kind
      case Appeared => WithStatus(rows, c.assetId, New)
      case Gone => WithStatus(rows, c.assetId, Disappeared)
      case Modified => rows
  }

  function SettledByAll(rows: Rows, changes: seq<Change>): Rows {
    if changes == [] then rows else SettledBy(SettledByAll(rows, changes[..|changes| - 1]), changes[|changes| - 1])
  }

  method ApplyStatusChanges(store: AssetStore, changes: seq<Change>)
    requires WellKeyed(store.rows)
    modifies store
    ensures WellKeyed(store.rows) && store.rows == SettledByAll(old(store.rows), changes)
  {
    for i := 0 to |changes|
      invariant WellKeyed(store.rows) && store.rows == SettledByAll(old(store.rows), changes[..i])
    {
      assert changes[..i + 1][..i] == changes[..i];
      var c := changes[i];
      if c.assetId != "" {
        match c.kind {
          case Appeared => var _ := store.UpdateAssetStatus(c.assetId, New);
          case Gone => var _ := store.UpdateAssetStatus(c.assetId, Disappeared);
          case Modified =>
        }
      }
    }
    assert changes[..|changes|] == changes;
  }

  /** What a change does to the status of its asset. */
  function StatusAfter(c: Change, status: Status): Status {
    match c.kind
    case Appeared => New
    case Gone => Disappeared
    case Modified => status
  }

  /** The status after all the changes with this id, in order. */
  function StatusAfterAll(changes: seq<Change>, id: string, status: Status): Status {
    if changes == [] then status
    else
      var c := changes[|changes| - 1];
      var sofar := StatusAfterAll(changes[..|changes| - 1], id, status);
      if c.assetId == id then StatusAfter(c, sofar) else sofar
  }

  lemma {:induction false} SettlingIs(rows: Rows, changes: seq<Change>, s: Slot)
    requires s in rows && rows[s].id != ""
    ensures s in SettledByAll(rows, changes)
    ensures SettledByAll(rows, changes)[s] == rows[s].(status := StatusAfterAll(changes, rows[s].id, rows[s].status))
  {
    if changes != [] {
      SettlingIs(rows, changes[..|changes| - 1], s);
    }
  }

  lemma {:induction false} UnnamedKeepsStatus(changes: seq<Change>, id: string, status: Status)
    requires forall c :: c in changes ==> c.assetId != id
    ensures StatusAfterAll(changes, id, status) == status
  {
    if changes != [] {
      UnnamedKeepsStatus(changes[..|changes| - 1], id, status);
    }
  }

  lemma {:induction false} OneChangeDecides(changes: seq<Change>, c: Change, status: Status)
    requires c in changes && forall d :: d in changes && d.assetId == c.assetId ==> d == c
    ensures StatusAfterAll(changes, c.assetId, status) == StatusAfter(c, status)
  {
    var first, last := changes[..|changes| - 1], changes[|changes| - 1];
    if c in first {
      OneChangeDecides(first, c, status);
    } else {
      UnnamedKeepsStatus(first, c.assetId, status);
    }
  }

  /** Each row's status is set by the one change with its id; a row without one keeps its status. */
  lemma SettlingMeans(rows: Rows, changes: seq<Change>, s: Slot)
    requires s in rows && rows[s].id != ""
    requires forall c, d :: c in changes && d in changes && c.assetId == d.assetId ==> c == d
    ensures s in SettledByAll(rows, changes)
    ensures (forall c :: c in changes ==> c.assetId != rows[s].id) ==> SettledByAll(rows, changes)[s] == rows[s]
    ensures forall c :: c in changes && c.assetId == rows[s].id ==>
              SettledByAll(rows, changes)[s] == match c.kind
                                                case Appeared => rows[s].(status := New)
                                                case Gone => rows[s].(status := Disappeared)
                                                case Modified => rows[s]
  {
    hide SettledByAll, StatusAfterAll;
    SettlingIs(rows, changes, s);
    if c :| c in changes && c.assetId == rows[s].id {
      OneChangeDecides(changes, c, rows[s].status);
    } else {
      UnnamedKeepsStatus(changes, rows[s].id, rows[s].status);
    }
  }

  lemma {:induction false} SettlingKeepsKeys(rows: Rows, changes: seq<Change>)
    ensures SettledByAll(rows, changes).Keys == rows.Keys
  {
    if changes != [] {
      SettlingKeepsKeys(rows, changes[..|changes| - 1]);
    }
  }
}
