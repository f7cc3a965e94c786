/** The recomputation of next runs after a template has changed. */
module Recomputes {
  import opened Options
  import opened Recurrences
  import opened Blackouts
  import opened RRuleExpanders
  import opened BlackoutSkips
  import opened Cascades

  /**
   What the schedules of a template are recomputed with. `read` gives the rule of a recurrence text, a timezone and a
   stored start at an instant, or None when they do not parse; `clock` reads the time at each schedule in turn.
   */
  datatype Setup = Setup(defaults: Template, read: (string, string, Option<int>, int) -> Option<Rule>,
                         blackouts: Option<Cache>, clock: nat -> int) {
    /** The rule of a schedule of the template. */
    function RuleOf(template: Template, s: Schedule, now: int): Option<Rule> {
      match Effective(s, Some(template), defaults)
      case None => None
      case Some((rrule, timezone)) => read(rrule, timezone, s.dtStart, now)
    }

    /** `next` is a good next run of `s` at its place in the list. */
    ghost predicate Suits(template: Template, s: Schedule, i: nat, rng: nat -> nat, jitterSeconds: int,
                          next: Option<int>) {
      var rule := RuleOf(template, s, clock(i));
      rule.Some? &&
      GoodNextRun(Problem(rule.value, Known(blackouts), s.target, rng, jitterSeconds, 100), clock(i), next)
    }

    /** The search for `s` ends as it must: without a rule, or by the candidates tried with some draws. */
    ghost predicate Explains(template: Template, s: Schedule, i: nat, rng: nat -> nat, jitterSeconds: int,
                             answer: NextRun) {
      var rule := RuleOf(template, s, clock(i));
      && (answer.Unresolvable? <==> rule.None?)
      && (rule.Some? ==> exists draw: nat ::
            Answered(Problem(rule.value, Known(blackouts), s.target, rng, jitterSeconds, 100), clock(i), draw, answer))
    }
  }

  /** The schedule gets a new next run: it is not passed by, the search succeeds and so does the write. */
  predicate Refreshes(s: Schedule, answer: NextRun, fails: bool) {
    "rrule" !in s.overrides && "timezone" !in s.overrides && (answer.RunAt? || answer.Never?) && !fails
  }

  /** The schedules of the first `n` places that get a new next run. */
  function RefreshedIn(schedules: seq<Schedule>, answers: seq<NextRun>, fails: nat -> bool, n: nat): set<nat>
    requires n <= |schedules| && n <= |answers|
  {
    set i: nat | i < n && Refreshes(schedules[i], answers[i], fails(i))
  }

  /** The refreshed schedules have the next run found for them, and every other next run is as it was. */
  ghost predicate Rewritten(before: map<string, Option<int>>, after: map<string, Option<int>>, schedules: seq<Schedule>,
                         answers: seq<NextRun>, fails: nat -> bool)
    requires |answers| <= |schedules|
  {
    && (forall i :: 0 <= i < |answers| && Refreshes(schedules[i], answers[i], fails(i)) ==>
          && schedules[i].id in after
          && after[schedules[i].id] == if answers[i].RunAt? then Some(answers[i].time) else None)
    && (forall id ::
          (forall i :: 0 <= i < |answers| && schedules[i].id == id ==> !Refreshes(schedules[i], answers[i], fails(i)))
          ==> (id in after <==> id in before) && (id in after ==> after[id] == before[id]))
  }

  /** Every search of a schedule not passed by ends as it must, and if with a next run, then with a good one. */
  ghost predicate Searched(setup: Setup, template: Template, schedules: seq<Schedule>, answers: seq<NextRun>,
                           rng: nat -> nat, jitterSeconds: int)
    requires |answers| <= |schedules|
  {
    forall i :: 0 <= i < |answers| && "rrule" !in schedules[i].overrides && "timezone" !in schedules[i].overrides ==>
      && setup.Explains(template, schedules[i], i, rng, jitterSeconds, answers[i])
      && (ToStore(answers[i]).Some? ==>
            setup.Suits(template, schedules[i], i, rng, jitterSeconds, ToStore(answers[i]).value))
  }

  ghost predicate DistinctIds(schedules: seq<Schedule>) {
    forall i, j :: 0 <= i < j < |schedules| ==> schedules[i].id != schedules[j].id
  }

  /**
   Recomputes the schedules of a template; it fails without an expander, the template or the listing. A schedule that
   overrides its recurrence or its timezone is passed by, and a failed search or write passes over its schedule alone.
   Every next run written is good at its instant, and the count is of those.
   */
  method RecomputeNextRunForTemplate(records: RunRecords, expander: RRuleExpander?, template: Option<Template>,
                                     listing: Option<seq<Schedule>>, setup: Setup, fails: nat -> bool)
    returns (affected: Option<nat>, ghost answers: seq<NextRun>)
    requires listing.Some? ==> DistinctIds(listing.value)
    modifies records, expander
    ensures records.lastRun == old(records.lastRun)
    ensures affected.Some? <==> expander != null && template.Some? && listing.Some?
    ensures affected.None? ==> records.nextRun == old(records.nextRun)
    ensures affected.Some? ==> |answers| == |listing.value|
    ensures affected.Some? ==> affected.value == |RefreshedIn(listing.value, answers, fails, |answers|)|
    ensures affected.Some? ==> Rewritten(old(records.nextRun), records.nextRun, listing.value, answers, fails)
    ensures affected.Some? ==>
              Searched(setup, template.value, listing.value, answers, expander.rng, expander.jitterSeconds)
    ensures affected.Some? ==>
              forall i :: 0 <= i < |answers| && listing.value[i].overrides == [] && answers[i].RunAt? && !fails(i) ==>
                listing.value[i].id in records.nextRun && records.nextRun[listing.value[i].id] == Some(answers[i].time)
  {
    hide Rewritten, Searched, RefreshedIn, Setup.Explains, Setup.Suits;
    answers := [];
    if expander == null || template.None? || listing.None? {
      return None, [];
    }
    var schedules, count := listing.value, 0;
    NothingYet(records.nextRun, setup, template.value, schedules, fails, expander.rng, expander.jitterSeconds);
    for k := 0 to |schedules|
      invariant |answers| == k && records.lastRun == old(records.lastRun)
      invariant count == |RefreshedIn(schedules, answers, fails, k)|
      invariant Rewritten(old(records.nextRun), records.nextRun, schedules, answers, fails)
      invariant Searched(setup, template.value, schedules, answers, expander.rng, expander.jitterSeconds)
    {
      assert schedules[k] == listing.value[k];
      ghost var before := records.nextRun;
      ghost var answer := Unresolvable;
      var s := schedules[k];
      if !Skipped(s) {
        var written;
        answer, written := RecomputeOne(records, expander, template.value, s, setup, k, fails(k));
        if written {
          count := count + 1;
        }
      }
      OneMore(schedules, answers, answer, fails, k);
      OneMoreRewritten(old(records.nextRun), before, records.nextRun, schedules, answers, answer, fails);
      OneMoreSearched(setup, template.value, schedules, answers, answer, expander.rng, expander.jitterSeconds);
      answers := answers + [answer];
    }
    affected := Some(count);
    RewrittenPlainly(old(records.nextRun), records.nextRun, schedules, answers, fails);
  }

  lemma RewrittenPlainly(before: map<string, Option<int>>, after: map<string, Option<int>>, schedules: seq<Schedule>,
                         answers: seq<NextRun>, fails: nat -> bool)
    requires |answers| <= |schedules| && Rewritten(before, after, schedules, answers, fails)
    ensures forall i :: 0 <= i < |answers| && schedules[i].overrides == [] && answers[i].RunAt? && !fails(i) ==>
              schedules[i].id in after && after[schedules[i].id] == Some(answers[i].time)
  {
    forall i | 0 <= i < |answers| && schedules[i].overrides == [] && answers[i].RunAt? && !fails(i)
      ensures Refreshes(schedules[i], answers[i], fails(i))
    {}
  }

  /** One schedule: its rule is resolved and searched, and a next run found is written, unless the write fails. */
  method RecomputeOne(records: RunRecords, expander: RRuleExpander, template: Template, s: Schedule, setup: Setup,
                      i: nat, fails: bool)
    returns (answer: NextRun, written: bool)
    modifies records`nextRun, expander
    ensures written <==> ToStore(answer).Some? && !fails
    ensures records.nextRun == if written then old(records.nextRun)[s.id := ToStore(answer).value]
                               else old(records.nextRun)
    ensures setup.Explains(template, s, i, expander.rng, expander.jitterSeconds, answer)
    ensures ToStore(answer).Some? ==>
              setup.Suits(template, s, i, expander.rng, expander.jitterSeconds, ToStore(answer).value)
  {
    hide GoodNextRun, Effective, Answered;
    var now := setup.clock(i);
    var rule := setup.RuleOf(template, s, now);
    answer := Advance(records, expander, s.id, rule, setup.blackouts, s.target, now, fails);
    written := ToStore(answer).Some? && !fails;
  }

  lemma NothingYet(nextRun: map<string, Option<int>>, setup: Setup, template: Template, schedules: seq<Schedule>,
                   fails: nat -> bool, rng: nat -> nat, jitterSeconds: int)
    ensures |RefreshedIn(schedules, [], fails, 0)| == 0 && Rewritten(nextRun, nextRun, schedules, [], fails)
    ensures Searched(setup, template, schedules, [], rng, jitterSeconds)
  {
    assert RefreshedIn(schedules, [], fails, 0) == {};
  }

  lemma OneMore(schedules: seq<Schedule>, answers: seq<NextRun>, answer: NextRun, fails: nat -> bool, k: nat)
    requires k == |answers| < |schedules|
    ensures |RefreshedIn(schedules, answers + [answer], fails, k + 1)|
         == |RefreshedIn(schedules, answers, fails, k)| + if Refreshes(schedules[k], answer, fails(k)) then 1 else 0
  {
    var before := RefreshedIn(schedules, answers, fails, k);
    var after := RefreshedIn(schedules, answers + [answer], fails, k + 1);
    assert after == if Refreshes(schedules[k], answer, fails(k)) then before + {k} else before;
    assert k !in before;
  }

  lemma OneMoreRewritten(start: map<string, Option<int>>, before: map<string, Option<int>>,
                         after: map<string, Option<int>>, schedules: seq<Schedule>, answers: seq<NextRun>,
                         answer: NextRun, fails: nat -> bool)
    requires |answers| < |schedules| && DistinctIds(schedules) && Rewritten(start, before, schedules, answers, fails)
    requires var s := schedules[|answers|];
             after == if Refreshes(s, answer, fails(|answers|)) then before[s.id := ToStore(answer).value] else before
    ensures Rewritten(start, after, schedules, answers + [answer], fails)
  {
    var longer := answers + [answer];
    assert longer[|answers|] == answer && forall i :: 0 <= i < |answers| ==> longer[i] == answers[i];
  }

  lemma OneMoreSearched(setup: Setup, template: Template, schedules: seq<Schedule>, answers: seq<NextRun>,
                        answer: NextRun, rng: nat -> nat, jitterSeconds: int)
    requires |answers| < |schedules| && Searched(setup, template, schedules, answers, rng, jitterSeconds)
    requires var i := |answers|; "rrule" !in schedules[i].overrides && "timezone" !in schedules[i].overrides ==>
             && setup.Explains(template, schedules[i], i, rng, jitterSeconds, answer)
             && (ToStore(answer).Some? ==>
                   setup.Suits(template, schedules[i], i, rng, jitterSeconds, ToStore(answer).value))
    ensures Searched(setup, template, schedules, answers + [answer], rng, jitterSeconds)
  {
    hide Setup.Explains, Setup.Suits;
  }
}
