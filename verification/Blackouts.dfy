/**
 The blackout evaluator: which targets are inside a blackout window at an instant, decided by looking
 back over a bounded stretch of each window's recurrence.
 */
module Blackouts {
  import opened Options
  import opened Recurrences

  /** How far back an occurrence may start and still be considered: seven days. */
  const HORIZON: int := 7 * 24 * 3600 * SECOND

  /** A snapshot older than this is refreshed before it is consulted. */
  const CACHE_TTL: int := 30 * SECOND

  /** The longest duration the HTTP layer accepts, in seconds. */
  const MAX_DURATION_SEC: int := 7 * 24 * 60 * 60

  datatype Scope = Global | Target | UnknownScope

  /** A stored blackout. `rule` is None when its timezone or recurrence text does not parse. */
  datatype Row = Row(id: string, scope: Scope, targetId: Option<string>, enabled: bool,
                     rule: Option<Rule>, durationSec: int)

  /** An enabled window with its parsed recurrence. */
  datatype Window = Window(id: string, rule: Rule, durationSec: int) {
    function Dur(): int { durationSec * SECOND }
  }

  datatype Cache = Cache(global: seq<Window>, perTarget: map<string, seq<Window>>) {
    function ForTarget(target: string): seq<Window> {
      if target in perTarget then perTarget[target] else []
    }

    /** All windows a target is subject to: global ones first. */
    function Applying(target: string): seq<Window> {
      global + ForTarget(target)
    }
  }

  const EMPTY_CACHE := Cache([], map[])

  // ----- what the code computes -----

  /** The first listed start whose window `[t, t + dur)` contains `at`. */
  function FirstCovering(starts: seq<int>, dur: int, at: int): (t: Option<int>)
    ensures t.Some? ==> t.value in starts && t.value <= at < t.value + dur
    ensures t.None? ==> forall x :: x in starts ==> !(x <= at < x + dur)
  {
    if starts == [] then None
    else if starts[0] <= at < starts[0] + dur then Some(starts[0])
    else
      assert forall x :: x in starts <==> x == starts[0] || x in starts[1..];
      FirstCovering(starts[1..], dur, at)
  }

  predicate OccurrenceCovers(w: Window, at: int) {
    w.Dur() > 0 && FirstCovering(Between(w.rule, at - HORIZON, at + 1), w.Dur(), at).Some?
  }

  function ActiveOccurrenceEnd(w: Window, at: int): Option<int> {
    if w.Dur() <= 0 then None
    else
      match FirstCovering(Between(w.rule, at - HORIZON, at + 1), w.Dur(), at)
      case Some(t) => Some(t + w.Dur())
      case None => None
  }

  function FirstActive(ws: seq<Window>, at: int): (w: Option<Window>)
    ensures w.Some? ==> exists i :: 0 <= i < |ws| && ws[i] == w.value && OccurrenceCovers(ws[i], at)
    ensures w.None? ==> forall i :: 0 <= i < |ws| ==> !OccurrenceCovers(ws[i], at)
  {
    if ws == [] then None
    else if OccurrenceCovers(ws[0], at) then
      Some(ws[0])
    else
      var r := FirstActive(ws[1..], at);
      assert r.None? ==> forall i :: 0 < i < |ws| ==> ws[i] == ws[1..][i - 1];
      r
  }

  /** The window that makes `target` inactive at `at`; global windows are asked first. */
  function ActiveWindow(cache: Cache, target: string, at: int): Option<Window> {
    match FirstActive(cache.global, at)
    case Some(w) => Some(w)
    case None => FirstActive(cache.ForTarget(target), at)
  }

  predicate Active(cache: Cache, target: string, at: int) {
    ActiveWindow(cache, target, at).Some?
  }

  /** The end of the active occurrence of the first window with this id. */
  function FirstEndById(ws: seq<Window>, id: string, at: int): Option<int> {
    if ws == [] then None
    else if ws[0].id == id && ActiveOccurrenceEnd(ws[0], at).Some? then ActiveOccurrenceEnd(ws[0], at)
    else FirstEndById(ws[1..], id, at)
  }

  function FindActiveEnd(cache: Cache, target: string, w: Window, at: int): int {
    match FirstEndById(cache.Applying(target), w.id, at)
    case Some(end) => end
    case None => at + SECOND
  }

  function NextWindowEnd(cache: Cache, target: string, at: int): Option<int> {
    match ActiveWindow(cache, target, at)
    case None => None
    case Some(w) => Some(FindActiveEnd(cache, target, w, at))
  }

  /** Seconds as the nanoseconds of a signed 64-bit number. */
  function WrappedNanos(sec: int): int {
    (sec * SECOND + 0x8000_0000_0000_0000) % 0x1_0000_0000_0000_0000 - 0x8000_0000_0000_0000
  }

  /**
   A positive duration is what `Dur` says it is exactly up to 9223372036 seconds, some 292 years; the next second
   turns it negative, and such a window would never be active.
   */
  lemma DurationFits(w: Window)
    requires w.durationSec > 0
    ensures WrappedNanos(w.durationSec) == w.Dur() <==> w.durationSec <= 9_223_372_036
    ensures w.durationSec == 9_223_372_037 ==> WrappedNanos(w.durationSec) < 0
  {
    var x := w.Dur() + 0x8000_0000_0000_0000;
    assert 0 <= x % 0x1_0000_0000_0000_0000 < 0x1_0000_0000_0000_0000;
  }

  // ----- what it means -----

  /** Some occurrence `[t, t + duration)` of the unbounded recurrence contains `at`. */
  ghost predicate Covers(w: Window, at: int) {
    exists t :: Occurs(w.rule, t) && t <= at < t + w.Dur()
  }

  /** The same, by an occurrence no older than the look-back. */
  ghost predicate CoversRecently(w: Window, at: int) {
    exists t :: RecentCover(w, at, t)
  }

  /** The occurrence at `t`, at most seven days old, contains `at`. */
  ghost predicate RecentCover(w: Window, at: int, t: int) {
    Occurs(w.rule, t) && at - 7 * 24 * 3600 * SECOND <= t <= at < t + w.Dur()
  }

  ghost predicate BlackedOut(cache: Cache, target: string, at: int) {
    exists i :: 0 <= i < |cache.Applying(target)| && Covers(cache.Applying(target)[i], at)
  }

  lemma CoversIsRecent(w: Window, at: int)
    ensures OccurrenceCovers(w, at) <==> CoversRecently(w, at)
    ensures ActiveOccurrenceEnd(w, at).Some? <==> CoversRecently(w, at)
    ensures ActiveOccurrenceEnd(w, at).Some? ==>
              var t := ActiveOccurrenceEnd(w, at).value - w.Dur();
              RecentCover(w, at, t)
  {
    var starts := Between(w.rule, at - HORIZON, at + 1);
    var found := FirstCovering(starts, w.Dur(), at);
    if found.Some? {
      assert found.value in starts && RecentCover(w, at, found.value);
    }
    if CoversRecently(w, at) {
      var t :| RecentCover(w, at, t);
      assert t in starts;
    }
  }

  /** The end found is that of the earliest recent occurrence. */
  lemma EndIsEarliest(w: Window, at: int)
    requires ActiveOccurrenceEnd(w, at).Some?
    ensures forall x :: RecentCover(w, at, x) ==> ActiveOccurrenceEnd(w, at).value - w.Dur() <= x
  {
    var starts := Between(w.rule, at - HORIZON, at + 1);
    FirstCoveringIsEarliest(starts, w.Dur(), at);
    forall x | RecentCover(w, at, x) ensures x in starts {}
    hide Between, FirstCovering;
  }

  lemma {:induction false} FirstCoveringIsEarliest(starts: seq<int>, dur: int, at: int)
    requires forall i, j :: 0 <= i < j < |starts| ==> starts[i] < starts[j]
    ensures FirstCovering(starts, dur, at).Some? ==>
              forall x :: x in starts && x <= at < x + dur ==> FirstCovering(starts, dur, at).value <= x
  {
    if starts != [] {
      FirstCoveringIsEarliest(starts[1..], dur, at);
      forall x | x in starts ensures x == starts[0] || (x in starts[1..] && starts[0] < x) {
        var i :| 0 <= i < |starts| && starts[i] == x;
        assert i > 0 ==> starts[1..][i - 1] == x;
      }
    }
  }

  /** Occurrence `n` has a successor at most one nanosecond after its look-back runs out. */
  predicate FollowedClosely(r: Rule, n: nat) {
    r.Has(n + 1) && r.at(n + 1) <= r.at(n) + 7 * 24 * 3600 * SECOND + 1
  }

  ghost predicate Dense(r: Rule) {
    forall n: nat {:trigger FollowedClosely(r, n)} :: r.Has(n) ==> FollowedClosely(r, n)
  }

  /**
   The look-back is exact at every instant precisely for windows no longer than the cap, and for
   longer ones whose occurrences follow each other so closely that a recent one always covers too.
   */
  lemma LookBackExact(w: Window)
    ensures (forall at :: OccurrenceCovers(w, at) <==> Covers(w, at))
            <==> (w.durationSec <= 7 * 24 * 60 * 60 || Dense(w.rule))
  {
    if w.durationSec <= MAX_DURATION_SEC || Dense(w.rule) {
      forall at ensures OccurrenceCovers(w, at) <==> Covers(w, at) {
        LookBackSuffices(w, at);
      }
    } else {
      var n: nat :| w.rule.Has(n) && !FollowedClosely(w.rule, n);
      var at := w.rule.at(n) + HORIZON + 1;
      LookBackMisses(w, n, at);
      CoversIsRecent(w, at);
      assert !(OccurrenceCovers(w, at) <==> Covers(w, at));
    }
  }

  lemma LookBackSuffices(w: Window, at: int)
    requires w.durationSec <= MAX_DURATION_SEC || Dense(w.rule)
    ensures OccurrenceCovers(w, at) <==> Covers(w, at)
  {
    CoversIsRecent(w, at);
    if Covers(w, at) && !CoversRecently(w, at) {
      var t :| Occurs(w.rule, t) && t <= at < t + w.Dur();
      var n: nat :| w.rule.Has(n) && w.rule.at(n) == t;
      var m := LastUpTo(w.rule, at, n);
      assert Occurs(w.rule, w.rule.at(m));
    }
  }

  lemma LookBackMisses(w: Window, n: nat, at: int)
    requires w.durationSec > MAX_DURATION_SEC
    requires w.rule.Has(n) && !FollowedClosely(w.rule, n) && at == w.rule.at(n) + HORIZON + 1
    ensures Covers(w, at) && !CoversRecently(w, at)
  {
    assert Occurs(w.rule, w.rule.at(n));
    if CoversRecently(w, at) {
      var t :| RecentCover(w, at, t);
      var k: nat :| w.rule.Has(k) && w.rule.at(k) == t;
      GapIsEmpty(w.rule, n, k, at);
    }
  }

  lemma GapIsEmpty(r: Rule, n: nat, k: nat, at: int)
    requires r.Has(n) && r.Has(k) && at == r.at(n) + HORIZON + 1
    requires !FollowedClosely(r, n)
    ensures !(at - HORIZON <= r.at(k) <= at)
  {
    if k > n + 1 {
      assert r.at(n + 1) < r.at(k);
    } else if k < n {
      assert r.at(k) < r.at(n);
    }
  }

  /** In a dense rule, the last occurrence not after `at` is recent. */
  lemma LastUpTo(r: Rule, at: int, n: nat) returns (m: nat)
    requires Dense(r) && r.Has(n) && r.at(n) <= at
    ensures r.Has(m) && r.at(n) <= r.at(m) <= at <= r.at(m) + HORIZON
    decreases at - r.at(n)
  {
    if at <= r.at(n) + HORIZON {
      m := n;
    } else {
      assert FollowedClosely(r, n);
      m := LastUpTo(r, at, n + 1);
    }
  }

  ghost predicate AnyRecent(ws: seq<Window>, at: int) {
    exists i :: 0 <= i < |ws| && CoversRecently(ws[i], at)
  }

  lemma FirstActiveMeaning(ws: seq<Window>, at: int)
    ensures FirstActive(ws, at).Some? <==> AnyRecent(ws, at)
  {
    forall i | 0 <= i < |ws| ensures OccurrenceCovers(ws[i], at) <==> CoversRecently(ws[i], at) {
      CoversIsRecent(ws[i], at);
    }
  }

  lemma AnyRecentConcat(a: seq<Window>, b: seq<Window>, at: int)
    ensures AnyRecent(a + b, at) <==> AnyRecent(a, at) || AnyRecent(b, at)
  {
    forall i | 0 <= i < |a| ensures (a + b)[i] == a[i] {}
    forall i | 0 <= i < |b| ensures (a + b)[|a| + i] == b[i] {}
  }

  /** Window `i` covers the instant recently, and none before it does. */
  ghost predicate FirstHit(ws: seq<Window>, i: nat, at: int) {
    i < |ws| && CoversRecently(ws[i], at) && forall j :: 0 <= j < i ==> !CoversRecently(ws[j], at)
  }

  lemma FirstHitOfRest(ws: seq<Window>, k: nat, at: int)
    requires ws != [] && FirstHit(ws[1..], k, at) && !CoversRecently(ws[0], at)
    ensures FirstHit(ws, k + 1, at) && ws[k + 1] == ws[1..][k]
  {
    hide CoversRecently;
    assert forall j :: 0 < j <= k + 1 ==> ws[j] == ws[1..][j - 1];
  }

  lemma FirstHitOfLeft(a: seq<Window>, b: seq<Window>, i: nat, at: int)
    requires FirstHit(a, i, at)
    ensures FirstHit(a + b, i, at) && (a + b)[i] == a[i]
  {
    hide CoversRecently;
    assert forall j :: 0 <= j <= i ==> (a + b)[j] == a[j];
  }

  lemma FirstHitOfRight(a: seq<Window>, b: seq<Window>, k: nat, at: int)
    requires !AnyRecent(a, at) && FirstHit(b, k, at)
    ensures FirstHit(a + b, |a| + k, at) && (a + b)[|a| + k] == b[k]
  {
    hide CoversRecently;
    var ws := a + b;
    assert forall j :: 0 <= j <= |a| + k ==> ws[j] == if j < |a| then a[j] else b[j - |a|];
  }

  lemma {:induction false} FirstActiveIsFirst(ws: seq<Window>, at: int) returns (i: nat)
    requires FirstActive(ws, at).Some?
    ensures FirstHit(ws, i, at) && ws[i] == FirstActive(ws, at).value
  {
    hide OccurrenceCovers, CoversRecently, ActiveOccurrenceEnd, FirstHit;
    CoversIsRecent(ws[0], at);
    if OccurrenceCovers(ws[0], at) {
      HeadIsFirst(ws, at);
      i := 0;
    } else {
      var k := FirstActiveIsFirst(ws[1..], at);
      FirstHitOfRest(ws, k, at);
      i := k + 1;
    }
  }

  lemma HeadIsFirst(ws: seq<Window>, at: int)
    requires ws != [] && CoversRecently(ws[0], at)
    ensures FirstHit(ws, 0, at)
  {}

  /**
   A target is reported active exactly when one of its windows covers the instant recently, and the window named is
   the first that does, the global ones coming first.
   */
  lemma ActiveMeaning(cache: Cache, target: string, at: int)
    ensures Active(cache, target, at) <==> AnyRecent(cache.Applying(target), at)
    ensures cache.Applying(target) == cache.global + if target in cache.perTarget then cache.perTarget[target] else []
    ensures Active(cache, target, at) ==>
              exists i: nat :: FirstHit(cache.Applying(target), i, at) &&
                               cache.Applying(target)[i] == ActiveWindow(cache, target, at).value
  {
    hide FirstActive, CoversRecently, AnyRecent, FirstHit;
    var own := cache.ForTarget(target);
    FirstActiveMeaning(cache.global, at);
    FirstActiveMeaning(own, at);
    AnyRecentConcat(cache.global, own, at);
    if FirstActive(cache.global, at).Some? {
      var i := FirstActiveIsFirst(cache.global, at);
      FirstHitOfLeft(cache.global, own, i, at);
    } else if FirstActive(own, at).Some? {
      var k := FirstActiveIsFirst(own, at);
      FirstHitOfRight(cache.global, own, k, at);
    }
  }

  ghost predicate Capped(cache: Cache, target: string) {
    forall i :: 0 <= i < |cache.Applying(target)| ==>
      cache.Applying(target)[i].durationSec <= 7 * 24 * 60 * 60
  }

  /** With every duration under the cap, the report is the unbounded meaning. */
  lemma ActiveIsBlackedOut(cache: Cache, target: string, at: int)
    requires Capped(cache, target)
    ensures Active(cache, target, at) <==> BlackedOut(cache, target, at)
  {
    ActiveMeaning(cache, target, at);
    var ws := cache.Applying(target);
    forall i | 0 <= i < |ws| ensures CoversRecently(ws[i], at) <==> Covers(ws[i], at) {
      LookBackExact(ws[i]);
      CoversIsRecent(ws[i], at);
    }
  }

  /**
   On one and the same snapshot a target has a window end exactly when it is active, and the end is
   that of a real occurrence covering `at`: neither one-second fallback is ever taken.
   */
  lemma WindowEndIsReal(cache: Cache, target: string, at: int)
    ensures NextWindowEnd(cache, target, at).Some? <==> Active(cache, target, at)
    ensures Active(cache, target, at) ==>
              EndsCover(cache, target, at, NextWindowEnd(cache, target, at).value)
  {
    if Active(cache, target, at) {
      var ws := cache.Applying(target);
      var w := ActiveWindow(cache, target, at).value;
      var i := IndexOfActive(cache, target, at);
      CoversIsRecent(ws[i], at);
      var k := FirstEndByIdFinds(ws, w.id, at, i);
      CoversIsRecent(ws[k], at);
    }
  }

  /**
   More exactly, it is the end of the earliest recent occurrence that covers `at`, of the window that is named: the
   first of the target's windows that has one.
   */
  lemma WindowEndIsFirst(cache: Cache, target: string, at: int)
    requires Active(cache, target, at)
    ensures exists i: nat ::
              FirstHit(cache.Applying(target), i, at)
              && IsEarliestEnd(cache.Applying(target)[i], at, NextWindowEnd(cache, target, at).value)
  {
    hide FirstHit, FirstActive, CoversRecently, OccurrenceCovers, ActiveOccurrenceEnd, RecentCover, AnyRecent;
    hide FirstEndById;
    ActiveMeaning(cache, target, at);
    var ws := cache.Applying(target);
    forall k: nat | FirstHit(ws, k, at) ensures k < |ws| && CoversRecently(ws[k], at) {
      HitCovers(ws, at, k);
    }
    var i: nat :| FirstHit(ws, i, at) && ws[i] == ActiveWindow(cache, target, at).value;
    HitByIdIsFirst(ws, at, i);
    CoversIsRecent(ws[i], at);
    EndIsEarliest(ws[i], at);
  }

  /** `end` is that of the earliest recent occurrence of `w` that contains `at`. */
  ghost predicate IsEarliestEnd(w: Window, at: int, end: int) {
    RecentCover(w, at, end - w.Dur()) && forall x :: RecentCover(w, at, x) ==> end - w.Dur() <= x
  }

  lemma HitCovers(ws: seq<Window>, at: int, i: nat)
    requires FirstHit(ws, i, at)
    ensures i < |ws| && CoversRecently(ws[i], at)
  {}

  /** Looking the first covering window up by its id finds that window, whatever the others' ids are. */
  lemma {:induction false} HitByIdIsFirst(ws: seq<Window>, at: int, i: nat)
    requires FirstHit(ws, i, at)
    ensures ActiveOccurrenceEnd(ws[i], at).Some?
    ensures FirstEndById(ws, ws[i].id, at) == ActiveOccurrenceEnd(ws[i], at)
  {
    hide CoversRecently, ActiveOccurrenceEnd, OccurrenceCovers;
    CoversIsRecent(ws[0], at);
    CoversIsRecent(ws[i], at);
    if i > 0 {
      HitOfRest(ws, at, i);
      HitByIdIsFirst(ws[1..], at, i - 1);
    }
  }

  lemma HitOfRest(ws: seq<Window>, at: int, i: nat)
    requires FirstHit(ws, i, at) && i > 0
    ensures FirstHit(ws[1..], i - 1, at) && !CoversRecently(ws[0], at)
  {
    hide CoversRecently;
    assert forall j :: 0 <= j < i ==> ws[1..][j] == ws[j + 1];
  }

  /** `end` is the end of an occurrence of one of the target's windows that covers `at`. */
  ghost predicate EndsCover(cache: Cache, target: string, at: int, end: int) {
    exists i :: 0 <= i < |cache.Applying(target)| &&
      Occurs(cache.Applying(target)[i].rule, end - cache.Applying(target)[i].Dur()) &&
      end - cache.Applying(target)[i].Dur() <= at < end
  }

  lemma IndexOfActive(cache: Cache, target: string, at: int) returns (i: nat)
    requires Active(cache, target, at)
    ensures i < |cache.Applying(target)|
    ensures cache.Applying(target)[i] == ActiveWindow(cache, target, at).value
    ensures OccurrenceCovers(cache.Applying(target)[i], at)
  {
    if FirstActive(cache.global, at).Some? {
      i :| 0 <= i < |cache.global| && cache.global[i] == ActiveWindow(cache, target, at).value
        && OccurrenceCovers(cache.global[i], at);
    } else {
      var ts := cache.ForTarget(target);
      var j :| 0 <= j < |ts| && ts[j] == ActiveWindow(cache, target, at).value && OccurrenceCovers(ts[j], at);
      i := |cache.global| + j;
    }
  }

  lemma {:induction false} FirstEndByIdFinds(ws: seq<Window>, id: string, at: int, i: nat) returns (k: nat)
    requires i < |ws| && ws[i].id == id && ActiveOccurrenceEnd(ws[i], at).Some?
    ensures k < |ws| && ActiveOccurrenceEnd(ws[k], at).Some?
    ensures FirstEndById(ws, id, at) == ActiveOccurrenceEnd(ws[k], at)
  {
    if ws[0].id == id && ActiveOccurrenceEnd(ws[0], at).Some? {
      k := 0;
    } else {
      k := FirstEndByIdFinds(ws[1..], id, at, i - 1);
      k := k + 1;
    }
  }

  // ----- loading the snapshot from the store -----

  /** What one stored row contributes: disabled, unparsable and ill-scoped rows contribute nothing. */
  function AddRow(cache: Cache, row: Row): Cache {
    if !row.enabled || row.rule.None? then cache
    else
      var w := Window(row.id, row.rule.value, row.durationSec);
      match row.scope
      case Global => cache.(global := cache.global + [w])
      case Target =>
        if row.targetId.None? || row.targetId.value == "" then cache
        else cache.(perTarget := cache.perTarget[row.targetId.value := cache.ForTarget(row.targetId.value) + [w]])
      case UnknownScope => cache
  }

  function CacheOf(rows: seq<Row>): Cache {
    if rows == [] then EMPTY_CACHE else AddRow(CacheOf(rows[..|rows| - 1]), rows[|rows| - 1])
  }

  /** Row `row` is an enabled, well-formed blackout for `target` covering `at` recently. */
  ghost predicate RowSilences(row: Row, target: string, at: int) {
    row.enabled && row.rule.Some? &&
    (row.scope.Global? || (row.scope.Target? && row.targetId == Some(target) && target != "")) &&
    CoversRecently(Window(row.id, row.rule.value, row.durationSec), at)
  }

  lemma AddRowMeaning(cache: Cache, row: Row, target: string, at: int)
    ensures AnyRecent(AddRow(cache, row).Applying(target), at)
            <==> AnyRecent(cache.Applying(target), at) || RowSilences(row, target, at)
  {
    var after := AddRow(cache, row);
    AnyRecentConcat(cache.global, cache.ForTarget(target), at);
    AnyRecentConcat(after.global, after.ForTarget(target), at);
    if row.rule.Some? {
      var w := Window(row.id, row.rule.value, row.durationSec);
      assert [w][0] == w;
      AnyRecentConcat(cache.global, [w], at);
      AnyRecentConcat(cache.ForTarget(target), [w], at);
    }
  }

  /** A refreshed snapshot reports a target inactive exactly when some stored row silences it. */
  lemma {:induction false} RefreshMeaning(rows: seq<Row>, target: string, at: int)
    ensures Active(CacheOf(rows), target, at)
            <==> exists i :: 0 <= i < |rows| && RowSilences(rows[i], target, at)
  {
    ActiveMeaning(CacheOf(rows), target, at);
    if rows != [] {
      var front := rows[..|rows| - 1];
      RefreshMeaning(front, target, at);
      ActiveMeaning(CacheOf(front), target, at);
      AddRowMeaning(CacheOf(front), rows[|rows| - 1], target, at);
      assert forall i :: 0 <= i < |front| ==> front[i] == rows[i];
    }
  }

  /** The rows are loaded in order, each into the list of its scope. */
  lemma LoadedInOrder(rows: seq<Row>, row: Row, target: string)
    ensures CacheOf([]).global == [] && CacheOf([]).ForTarget(target) == []
    ensures var before, after := CacheOf(rows), CacheOf(rows + [row]);
      var loads := row.enabled && row.rule.Some?;
      && after.global == before.global
           + (if loads && row.scope.Global? then [Window(row.id, row.rule.value, row.durationSec)] else [])
      && after.ForTarget(target) == before.ForTarget(target)
           + (if loads && row.scope.Target? && row.targetId == Some(target) && target != ""
              then [Window(row.id, row.rule.value, row.durationSec)] else [])
  {
    assert (rows + [row])[..|rows|] == rows;
  }

  class BlackoutEvaluator {
    var global: seq<Window>
    var perTarget: map<string, seq<Window>>
    var lastRefresh: int
    var refreshErr: bool
    var populatedOK: bool

    function Snapshot(): Cache
      reads this
    {
      Cache(global, perTarget)
    }

    predicate Stale(wall: int)
      reads this
    {
      !populatedOK || wall - lastRefresh > CACHE_TTL
    }

    constructor ()
      ensures Snapshot() == EMPTY_CACHE && !populatedOK && !refreshErr
    {
      global, perTarget := [], map[];
      lastRefresh, refreshErr, populatedOK := 0, false, false;
    }

    /** `listing` is None when the store fails; the previous snapshot then stays in force. */
    method Refresh(listing: Option<seq<Row>>, wall: int) returns (ok: bool)
      modifies this
      ensures ok <==> listing.Some?
      ensures refreshErr <==> !ok
      ensures ok ==> Snapshot() == CacheOf(listing.value) && populatedOK && lastRefresh == wall
      ensures !ok ==>
                Snapshot() == old(Snapshot()) && populatedOK == old(populatedOK) && lastRefresh == old(lastRefresh)
    {
      if listing.None? {
        refreshErr := true;
        return false;
      }
      var rows := listing.value;
      var g: seq<Window>, pt: map<string, seq<Window>> := [], map[];
      for i := 0 to |rows|
        invariant Cache(g, pt) == CacheOf(rows[..i])
      {
        var row := rows[i];
        assert rows[..i + 1][..i] == rows[..i];
        if !row.enabled { continue; }
        if row.rule.None? { continue; }
        var w := Window(row.id, row.rule.value, row.durationSec);
        match row.scope {
          case Global => g := g + [w];
          case Target =>
            if row.targetId.None? || row.targetId.value == "" { continue; }
            var t := row.targetId.value;
            pt := pt[t := (if t in pt then pt[t] else []) + [w]];
          case UnknownScope =>
        }
      }
      assert rows[..|rows|] == rows;
      global, perTarget := g, pt;
      lastRefresh, refreshErr, populatedOK := wall, false, true;
      ok := true;
    }

    /** Answers on the current snapshot, after reloading it when it is stale and the store answers. */
    method IsActive(target: string, at: int, wall: int, listing: Option<seq<Row>>)
      returns (active: bool, w: Option<Window>)
      modifies this
      ensures var stale := old(!populatedOK || wall - lastRefresh > 30 * SECOND);
        Snapshot() == if stale && listing.Some? then CacheOf(listing.value) else old(Snapshot())
      ensures w == ActiveWindow(Snapshot(), target, at) && (active <==> w.Some?)
      ensures active <==> AnyRecent(Snapshot().Applying(target), at)
      ensures active ==> exists i: nat :: FirstHit(Snapshot().Applying(target), i, at) &&
                                          Snapshot().Applying(target)[i] == w.value
    {
      if Stale(wall) {
        var _ := Refresh(listing, wall);
      }
      ActiveMeaning(Snapshot(), target, at);
      w := FirstActive(global, at);
      if w.Some? {
        return true, w;
      }
      w := FirstActive(if target in perTarget then perTarget[target] else [], at);
      active := w.Some?;
    }

    /** The end of a real occurrence covering `at`, or None when no window is active. */
    method NextEnd(target: string, at: int, wall: int, listing: Option<seq<Row>>) returns (end: Option<int>)
      modifies this
      ensures var stale := old(!populatedOK || wall - lastRefresh > 30 * SECOND);
        Snapshot() == if stale && listing.Some? then CacheOf(listing.value) else old(Snapshot())
      ensures end == NextWindowEnd(Snapshot(), target, at)
      ensures end.Some? <==> AnyRecent(Snapshot().Applying(target), at)
      ensures end.Some? ==> EndsCover(Snapshot(), target, at, end.value)
      ensures end.Some? ==>
                exists i: nat :: FirstHit(Snapshot().Applying(target), i, at)
                                 && IsEarliestEnd(Snapshot().Applying(target)[i], at, end.value)
    {
      var active, w := IsActive(target, at, wall, listing);
      WindowEndIsReal(Snapshot(), target, at);
      ActiveMeaning(Snapshot(), target, at);
      if !active || w.None? {
        return None;
      }
      WindowEndIsFirst(Snapshot(), target, at);
      end := Some(FindActiveEnd(Snapshot(), target, w.value, at));
    }
  }
}
