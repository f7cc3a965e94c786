/** The check that a schedule's runs would not overlap those of other schedules of its target. */
module Overlaps {
  import opened Options
  import opened Recurrences

  /** A schedule with its effective rule; None when the configuration, the timezone or the rule is rejected. */
  datatype Plan = Plan(id: string, target: string, rule: Option<Rule>)

  datatype Conflict = Conflict(scheduleId: string, a: int, b: int)

  datatype Result<T> = Ok(value: T) | Err

  function Expand(p: Plan, now: int, horizon: int): Option<seq<int>> {
    if p.rule.None? then None else Some(Between(p.rule.value, now, now + horizon))
  }

  /** `e` is another schedule of the candidate's target. */
  predicate Rivals(candidate: Plan, e: Plan) {
    e.id != candidate.id && e.target == candidate.target
  }

  function Distance(a: int, b: int): nat {
    if a < b then b - a else a - b
  }

  /** The schedule has a run at `a`, within the horizon. */
  ghost predicate RunsAt(p: Plan, now: int, horizon: int, a: int) {
    p.rule.Some? && Occurs(p.rule.value, a) && now <= a <= now + horizon
  }

  /** Some run of the rival comes too close to a run of the candidate. */
  ghost predicate Clashes(candidate: Plan, e: Plan, now: int, horizon: int, d: int, a: int, b: int) {
    Rivals(candidate, e) && RunsAt(candidate, now, horizon, a) && RunsAt(e, now, horizon, b) && Distance(a, b) < d
  }

  /** By the candidate's run first, then by the other's. */
  predicate PairLess(c: Conflict, d: Conflict) {
    c.a < d.a || (c.a == d.a && c.b < d.b)
  }

  predicate Sorted(found: seq<Conflict>) {
    forall i, j :: 0 <= i < j < |found| ==> PairLess(found[i], found[j])
  }

  predicate Rising(xs: seq<int>) {
    forall i, j :: 0 <= i < j < |xs| ==> xs[i] < xs[j]
  }

  /** The occurrences of one rival that come close to one run of the candidate. */
  method CloseTo(id: string, a: int, others: seq<int>, d: int) returns (found: seq<Conflict>)
    ensures forall c :: c in found <==> c.scheduleId == id && c.a == a && c.b in others && Distance(a, c.b) < d
    ensures Rising(others) ==> Sorted(found)
  {
    found := [];
    for k := 0 to |others|
      invariant Rising(others) ==> Sorted(found)
      invariant forall c :: c in found <==> c.scheduleId == id && c.a == a && c.b in others[..k] && Distance(a, c.b) < d
    {
      assert others[..k + 1] == others[..k] + [others[k]];
      var diff := a - others[k];
      if diff < 0 {
        diff := -diff;
      }
      if diff < d {
        assert forall i :: 0 <= i < |found| ==> found[i] in found && found[i].b in others[..k];
        found := found + [Conflict(id, a, others[k])];
      }
    }
    assert others[..|others|] == others;
  }

  /** The conflicts of one rival. */
  method ConflictsWith(id: string, runs: seq<int>, others: seq<int>, d: int) returns (found: seq<Conflict>)
    ensures forall c :: c in found <==> c.scheduleId == id && c.a in runs && c.b in others && Distance(c.a, c.b) < d
    ensures Rising(runs) && Rising(others) ==> Sorted(found)
  {
    found := [];
    for k := 0 to |runs|
      invariant Rising(runs) && Rising(others) ==> Sorted(found)
      invariant forall c ::
                  c in found <==> c.scheduleId == id && c.a in runs[..k] && c.b in others && Distance(c.a, c.b) < d
    {
      assert runs[..k + 1] == runs[..k] + [runs[k]];
      var close := CloseTo(id, runs[k], others, d);
      assert forall i :: 0 <= i < |found| ==> found[i] in found && found[i].a in runs[..k];
      assert forall i :: 0 <= i < |close| ==> close[i] in close;
      found := found + close;
    }
    assert runs[..|runs|] == runs;
  }

  /** A rival that fails to expand makes the check fail, unless the candidate never runs. */
  ghost predicate Fails(candidate: Plan, existing: seq<Plan>, now: int, horizon: int) {
    || candidate.rule.None?
    || ((exists e :: e in existing && Rivals(candidate, e) && e.rule.None?)
        && exists a :: RunsAt(candidate, now, horizon, a))
  }

  /** The conflicts are exactly the clashing pairs. */
  ghost predicate Exactly(found: seq<Conflict>, candidate: Plan, existing: seq<Plan>, now: int, horizon: int, d: int) {
    forall c :: c in found <==>
      exists e :: e in existing && e.id == c.scheduleId && Clashes(candidate, e, now, horizon, d, c.a, c.b)
  }

  predicate DistinctIds(existing: seq<Plan>) {
    forall p, q :: 0 <= p < q < |existing| ==> existing[p].id != existing[q].id
  }

  /** `c` is listed before `d`: by the place of its schedule, then by the pair. */
  predicate Precedes(existing: seq<Plan>, c: Conflict, d: Conflict) {
    forall p, q :: 0 <= p < |existing| && 0 <= q < |existing|
      && existing[p].id == c.scheduleId && existing[q].id == d.scheduleId
      ==> p < q || (p == q && PairLess(c, d))
  }

  /** The list follows the schedules, and for each of them the pairs. */
  predicate InOrder(found: seq<Conflict>, existing: seq<Plan>) {
    forall i, j :: 0 <= i < j < |found| ==> Precedes(existing, found[i], found[j])
  }

  /** No pair is listed twice. */
  predicate EachOnce(found: seq<Conflict>) {
    forall i, j :: 0 <= i < j < |found| ==> found[i] != found[j]
  }

  method ValidateNoOverlapAt(candidate: Plan, existing: seq<Plan>, now: int, horizon: int, d: int)
    returns (r: Result<seq<Conflict>>)
    ensures r.Err? <==> Fails(candidate, existing, now, horizon)
    ensures r.Err? <==>
              || candidate.rule.None?
              || ((exists e :: e in existing && e.id != candidate.id && e.target == candidate.target && e.rule.None?)
                  && exists a :: Occurs(candidate.rule.value, a) && now <= a <= now + horizon)
    ensures r.Ok? ==> Exactly(r.value, candidate, existing, now, horizon, d)
    ensures r.Ok? ==> forall c :: c in r.value <==>
              exists e :: e in existing && e.id == c.scheduleId && e.id != candidate.id && e.target == candidate.target
                          && e.rule.Some? && Occurs(candidate.rule.value, c.a) && now <= c.a <= now + horizon
                          && Occurs(e.rule.value, c.b) && now <= c.b <= now + horizon && -d < c.a - c.b < d
    ensures r.Ok? && DistinctIds(existing) ==> InOrder(r.value, existing) && EachOnce(r.value)
  {
    hide Exactly, InOrder, DistinctIds, EachOnce, Clashes, Fails, Rivals;
    NothingYet(candidate, existing, now, horizon, d);
    FailsPlainly(candidate, existing, now, horizon);
    var runs := Expand(candidate, now, horizon);
    if runs.None? {
      return Err;
    }
    if |runs.value| == 0 {
      assert forall a :: !RunsAt(candidate, now, horizon, a);
      NothingToClash(candidate, existing, now, horizon, d);
      NoRunNoFailure(candidate, existing, now, horizon);
      ExactlyPlainly([], candidate, existing, now, horizon, d);
      return Ok([]);
    }
    assert runs.value[0] in runs.value && RunsAt(candidate, now, horizon, runs.value[0]);
    var conflicts := [];
    for k := 0 to |existing|
      invariant Exactly(conflicts, candidate, existing[..k], now, horizon, d)
      invariant DistinctIds(existing) ==> InOrder(conflicts, existing[..k])
      invariant forall e :: e in existing[..k] && Rivals(candidate, e) ==> e.rule.Some?
    {
      assert existing[..k + 1] == existing[..k] + [existing[k]];
      var e := existing[k];
      ghost var seen := existing[..k];
      if DistinctIds(existing) {
        IdsOfPrefix(existing, k + 1);
        OrderExtends(candidate, seen, e, now, horizon, d, conflicts);
      }
      if !Rivals(candidate, e) {
        NoRival(candidate, seen, e, now, horizon, d, conflicts);
        continue;
      }
      var others := Expand(e, now, horizon);
      if others.None? {
        assert e in existing;
        RivalFails(candidate, existing, now, horizon, e, runs.value[0]);
        return Err;
      }
      var found := ConflictsWith(e.id, runs.value, others.value, d);
      NextRival(candidate, seen, e, now, horizon, d, conflicts, found);
      if DistinctIds(existing) {
        OrderNext(candidate, seen, e, now, horizon, d, conflicts, found);
      }
      conflicts := conflicts + found;
    }
    assert existing[..|existing|] == existing;
    if DistinctIds(existing) {
      OrderedMeansOnce(candidate, existing, now, horizon, d, conflicts);
    }
    NoRivalFails(candidate, existing, now, horizon);
    ExactlyPlainly(conflicts, candidate, existing, now, horizon, d);
    r := Ok(conflicts);
  }

  lemma FailsPlainly(candidate: Plan, existing: seq<Plan>, now: int, horizon: int)
    ensures candidate.rule.None? ==> Fails(candidate, existing, now, horizon)
    ensures Fails(candidate, existing, now, horizon) <==>
              || candidate.rule.None?
              || ((exists e :: e in existing && e.id != candidate.id && e.target == candidate.target && e.rule.None?)
                  && exists a :: Occurs(candidate.rule.value, a) && now <= a <= now + horizon)
  {
    if candidate.rule.Some? {
      if e, a :| e in existing && e.id != candidate.id && e.target == candidate.target && e.rule.None?
                 && Occurs(candidate.rule.value, a) && now <= a <= now + horizon {
        assert Rivals(candidate, e) && RunsAt(candidate, now, horizon, a);
      }
      if e, a :| e in existing && Rivals(candidate, e) && e.rule.None? && RunsAt(candidate, now, horizon, a) {
        assert Occurs(candidate.rule.value, a);
      }
    }
  }

  lemma NoRunNoFailure(candidate: Plan, existing: seq<Plan>, now: int, horizon: int)
    requires candidate.rule.Some? && forall a :: !RunsAt(candidate, now, horizon, a)
    ensures !Fails(candidate, existing, now, horizon)
  {}

  lemma RivalFails(candidate: Plan, existing: seq<Plan>, now: int, horizon: int, e: Plan, a: int)
    requires e in existing && Rivals(candidate, e) && e.rule.None? && RunsAt(candidate, now, horizon, a)
    ensures Fails(candidate, existing, now, horizon)
  {}

  lemma NoRivalFails(candidate: Plan, existing: seq<Plan>, now: int, horizon: int)
    requires candidate.rule.Some? && forall e :: e in existing && Rivals(candidate, e) ==> e.rule.Some?
    ensures !Fails(candidate, existing, now, horizon)
  {}

  lemma ExactlyPlainly(found: seq<Conflict>, candidate: Plan, existing: seq<Plan>, now: int, horizon: int, d: int)
    requires candidate.rule.Some? && Exactly(found, candidate, existing, now, horizon, d)
    ensures forall c :: c in found <==>
              exists e :: e in existing && e.id == c.scheduleId && e.id != candidate.id && e.target == candidate.target
                          && e.rule.Some? && Occurs(candidate.rule.value, c.a) && now <= c.a <= now + horizon
                          && Occurs(e.rule.value, c.b) && now <= c.b <= now + horizon && -d < c.a - c.b < d
  {
    assert forall e, a, b :: Clashes(candidate, e, now, horizon, d, a, b) <==>
      && e.id != candidate.id && e.target == candidate.target && e.rule.Some?
      && Occurs(candidate.rule.value, a) && now <= a <= now + horizon
      && Occurs(e.rule.value, b) && now <= b <= now + horizon && -d < a - b < d;
  }

  lemma NothingYet(candidate: Plan, existing: seq<Plan>, now: int, horizon: int, d: int)
    ensures Exactly([], candidate, existing[..0], now, horizon, d) && InOrder([], existing[..0]) && EachOnce([])
  {}

  lemma NothingToClash(candidate: Plan, existing: seq<Plan>, now: int, horizon: int, d: int)
    requires forall a :: !RunsAt(candidate, now, horizon, a)
    ensures Exactly([], candidate, existing, now, horizon, d) && InOrder([], existing)
  {}

  lemma IdsOfPrefix(existing: seq<Plan>, k: nat)
    requires DistinctIds(existing) && k <= |existing|
    ensures DistinctIds(existing[..k])
  {}

  /** A schedule that is no rival adds nothing. */
  lemma NoRival(candidate: Plan, seen: seq<Plan>, e: Plan, now: int, horizon: int, d: int, before: seq<Conflict>)
    requires Exactly(before, candidate, seen, now, horizon, d) && !Rivals(candidate, e)
    ensures Exactly(before, candidate, seen + [e], now, horizon, d)
  {
    forall c
      ensures c in before <==>
              exists f :: f in seen + [e] && f.id == c.scheduleId && Clashes(candidate, f, now, horizon, d, c.a, c.b)
    {
      if f :| f in seen && f.id == c.scheduleId && Clashes(candidate, f, now, horizon, d, c.a, c.b) {
        assert f in seen + [e];
      }
    }
  }

  lemma IdsSeen(candidate: Plan, seen: seq<Plan>, now: int, horizon: int, d: int, before: seq<Conflict>, i: nat)
    requires Exactly(before, candidate, seen, now, horizon, d) && i < |before|
    ensures exists p :: 0 <= p < |seen| && seen[p].id == before[i].scheduleId
  {
    assert before[i] in before;
  }

  lemma OrderExtends(candidate: Plan, seen: seq<Plan>, e: Plan, now: int, horizon: int, d: int, before: seq<Conflict>)
    requires Exactly(before, candidate, seen, now, horizon, d) && DistinctIds(seen + [e]) && InOrder(before, seen)
    ensures InOrder(before, seen + [e])
  {
    var longer := seen + [e];
    assert longer[|seen|] == e && forall p :: 0 <= p < |seen| ==> longer[p] == seen[p];
    forall i | 0 <= i < |before| ensures before[i].scheduleId != e.id {
      IdsSeen(candidate, seen, now, horizon, d, before, i);
    }
    forall i, j | 0 <= i < j < |before| ensures Precedes(longer, before[i], before[j]) {
      assert Precedes(seen, before[i], before[j]);
    }
  }

  lemma OrderNext(candidate: Plan, seen: seq<Plan>, e: Plan, now: int, horizon: int, d: int,
                  before: seq<Conflict>, found: seq<Conflict>)
    requires Exactly(before, candidate, seen, now, horizon, d) && DistinctIds(seen + [e]) && InOrder(before, seen + [e])
    requires Sorted(found) && forall c :: c in found ==> c.scheduleId == e.id
    ensures InOrder(before + found, seen + [e])
  {
    var longer := seen + [e];
    assert longer[|seen|] == e && forall p :: 0 <= p < |seen| ==> longer[p] == seen[p];
    assert forall i :: 0 <= i < |found| ==> found[i] in found;
    forall i | 0 <= i < |before| ensures before[i].scheduleId != e.id {
      IdsSeen(candidate, seen, now, horizon, d, before, i);
    }
  }

  lemma OrderedMeansOnce(candidate: Plan, existing: seq<Plan>, now: int, horizon: int, d: int, found: seq<Conflict>)
    requires Exactly(found, candidate, existing, now, horizon, d) && InOrder(found, existing)
    ensures EachOnce(found)
  {
    forall i, j | 0 <= i < j < |found| ensures found[i] != found[j] {
      IdsSeen(candidate, existing, now, horizon, d, found, i);
      assert Precedes(existing, found[i], found[j]);
    }
  }

  lemma NextRival(candidate: Plan, seen: seq<Plan>, e: Plan, now: int, horizon: int, d: int,
                  before: seq<Conflict>, found: seq<Conflict>)
    requires Exactly(before, candidate, seen, now, horizon, d) && Rivals(candidate, e)
    requires candidate.rule.Some? && e.rule.Some?
    requires forall c ::
               c in found <==> c.scheduleId == e.id && c.a in Between(candidate.rule.value, now, now + horizon)
                                         && c.b in Between(e.rule.value, now, now + horizon) && Distance(c.a, c.b) < d
    ensures Exactly(before + found, candidate, seen + [e], now, horizon, d)
  {
    forall c
      ensures c in before + found <==>
        exists f :: f in seen + [e] && f.id == c.scheduleId && Clashes(candidate, f, now, horizon, d, c.a, c.b)
    {
      if c in found {
        assert e in seen + [e] && e.id == c.scheduleId && Clashes(candidate, e, now, horizon, d, c.a, c.b);
      }
      if f :| f in seen && f.id == c.scheduleId && Clashes(candidate, f, now, horizon, d, c.a, c.b) {
        assert f in seen + [e];
      }
    }
  }

  // ----- what an empty answer means -----

  predicate During(t: int, a: int, d: int) {
    a <= t < a + d
  }

  /** The run windows [a, a + d) and [b, b + d) share an instant. */
  ghost predicate Meet(a: int, b: int, d: int) {
    exists t :: During(t, a, d) && During(t, b, d)
  }

  lemma CloseMeansMeeting(a: int, b: int, d: int)
    ensures Distance(a, b) < d <==> Meet(a, b, d)
  {
    if Distance(a, b) < d {
      var t := if a < b then b else a;
      assert During(t, a, d) && During(t, b, d);
    }
  }

  /** No run of the candidate in the horizon overlaps one of another schedule of its target. */
  ghost predicate Apart(candidate: Plan, existing: seq<Plan>, now: int, horizon: int, d: int) {
    forall e, a, b ::
      e in existing && Rivals(candidate, e) && RunsAt(candidate, now, horizon, a) && RunsAt(e, now, horizon, b)
      ==> !Meet(a, b, d)
  }

  /** The answer is empty exactly when all the run windows are disjoint. */
  lemma EmptyMeansApart(found: seq<Conflict>, candidate: Plan, existing: seq<Plan>, now: int, horizon: int, d: int)
    requires Exactly(found, candidate, existing, now, horizon, d)
    ensures found == [] <==> Apart(candidate, existing, now, horizon, d)
  {
    if found != [] {
      var c := found[0];
      assert c in found;
      var e :| e in existing && e.id == c.scheduleId && Clashes(candidate, e, now, horizon, d, c.a, c.b);
      CloseMeansMeeting(c.a, c.b, d);
    } else {
      forall e, a, b | e in existing && Rivals(candidate, e)
        && RunsAt(candidate, now, horizon, a) && RunsAt(e, now, horizon, b)
        ensures !Meet(a, b, d)
      {
        CloseMeansMeeting(a, b, d);
        assert Conflict(e.id, a, b) !in found;
      }
    }
  }

  /** Checking p against q finds the pairs that checking q against p finds, turned round. */
  lemma SameVerdict(p: Plan, q: Plan, now: int, horizon: int, d: int, pq: seq<Conflict>, qp: seq<Conflict>)
    requires Exactly(pq, p, [q], now, horizon, d) && Exactly(qp, q, [p], now, horizon, d)
    ensures forall a, b :: Conflict(q.id, a, b) in pq <==> Conflict(p.id, b, a) in qp
    ensures pq == [] <==> qp == []
  {
    forall a, b ensures Conflict(q.id, a, b) in pq <==> Conflict(p.id, b, a) in qp {
      PairFound(p, q, now, horizon, d, pq, a, b);
      PairFound(q, p, now, horizon, d, qp, b, a);
    }
    OnlyNamed(p, q, now, horizon, d, pq);
    OnlyNamed(q, p, now, horizon, d, qp);
  }

  lemma PairFound(p: Plan, q: Plan, now: int, horizon: int, d: int, pq: seq<Conflict>, a: int, b: int)
    requires Exactly(pq, p, [q], now, horizon, d)
    ensures Conflict(q.id, a, b) in pq <==> Clashes(p, q, now, horizon, d, a, b)
  {
    if Clashes(p, q, now, horizon, d, a, b) {
      assert q in [q] && q.id == Conflict(q.id, a, b).scheduleId;
    }
  }

  lemma OnlyNamed(p: Plan, q: Plan, now: int, horizon: int, d: int, pq: seq<Conflict>)
    requires Exactly(pq, p, [q], now, horizon, d)
    ensures pq != [] ==> exists a, b :: Conflict(q.id, a, b) in pq
  {
    if pq != [] {
      var c := pq[0];
      assert c in pq;
      var e :| e in [q] && e.id == c.scheduleId && Clashes(p, e, now, horizon, d, c.a, c.b);
      assert Conflict(q.id, c.a, c.b) in pq;
    }
  }
}
