/** What a schedule's record becomes after a run, or when a tick finds its target blacked out. */
module BlackoutSkips {
  import opened Options
  import opened Recurrences
  import opened Blackouts
  import opened RRuleExpanders
  import opened Jobs
  import SchedulerSteps

  datatype Outcome = Success | Failed | PausedBlackout | SkippedBlackout

  datatype LastRun = LastRun(outcome: Outcome, at: int)

  /** The schedule store, as far as runs are concerned. */
  class RunRecords {
    var lastRun: map<string, LastRun>
    var nextRun: map<string, Option<int>>

    constructor (lastRun: map<string, LastRun>, nextRun: map<string, Option<int>>)
      ensures this.lastRun == lastRun && this.nextRun == nextRun
    {
      this.lastRun, this.nextRun := lastRun, nextRun;
    }

    method RecordRun(id: string, run: LastRun, fails: bool)
      modifies this`lastRun
      ensures lastRun == if fails then old(lastRun) else old(lastRun)[id := run]
    {
      if !fails {
        lastRun := lastRun[id := run];
      }
    }

    method SetNextRunAt(id: string, next: Option<int>, fails: bool)
      modifies this`nextRun
      ensures nextRun == if fails then old(nextRun) else old(nextRun)[id := next]
    {
      if !fails {
        nextRun := nextRun[id := next];
      }
    }
  }

  /** The next run a search asks to be stored; a search that ends in an error stores nothing. */
  function ToStore(r: NextRun): Option<Option<int>> {
    match r
    case RunAt(t) => Some(Some(t))
    case Never => Some(None)
    case _ => None
  }

  /** Every free occurrence after `now` is the end of some window of the target. */
  ghost predicate OnlyEndsAreFree(p: Problem, now: int) {
    forall x :: Open(p, now, x) ==> exists at :: EndsCover(p.cache, p.target, at, x)
  }

  /**
   What may stand as the next run: an instant after now, outside every window, within the jitter of an occurrence;
   or, without jitter, none at all when nothing but the ends of windows is free.
   */
  ghost predicate GoodNextRun(p: Problem, now: int, next: Option<int>) {
    match next
    case Some(t) => now < t && p.Jittered(now, t) && !Active(p.cache, p.target, t)
    case None => p.jitterSeconds <= 0 ==> OnlyEndsAreFree(p, now)
  }

  /** Computes the next run and stores it; a search that fails, or a failed write, leaves the stored one. */
  method Advance(records: RunRecords, expander: RRuleExpander, id: string, rule: Option<Rule>, blackouts: Option<Cache>,
                 target: string, now: int, setFails: bool)
    returns (answer: NextRun)
    modifies records`nextRun, expander
    ensures records.nextRun == match answer
                               case RunAt(t) => if setFails
                                 then old(records.nextRun) else old(records.nextRun)[id := Some(t)]
                               case Never => if setFails then old(records.nextRun) else old(records.nextRun)[id := None]
                               case _ => old(records.nextRun)
    ensures answer.Unresolvable? <==> rule.None?
    ensures ToStore(answer).Some? ==>
              GoodNextRun(Problem(rule.value, Known(blackouts), target, expander.rng, expander.jitterSeconds, 100),
                          now, ToStore(answer).value)
    ensures rule.Some? ==>
              Answered(Problem(rule.value, Known(blackouts), target, expander.rng, expander.jitterSeconds, 100),
                       now, old(expander.drawn), answer)
  {
    hide Active, SearchFrom, BlackedOut, OnlyEndsAreFree, Answered;
    ghost var draw := expander.drawn;
    answer := expander.ComputeNextRunAt(rule, blackouts, target, now);
    if rule.Some? {
      ghost var p := Problem(rule.value, Known(blackouts), target, expander.rng, expander.jitterSeconds, MAX_SKIPS);
      if blackouts.Some? {
        SearchIsGood(p, now, draw);
      } else {
        NothingIsSilenced(p, now);
      }
    }
    match answer {
      case RunAt(t) => records.SetNextRunAt(id, Some(t), setFails);
      case Never => records.SetNextRunAt(id, None, setFails);
      case _ =>
    }
  }

  /**
   Records the skip and moves the schedule past the blackout. `tickAt` is the tick's time, `now` the expander's
   clock. Whatever next run is stored lies after `now`, outside every window of the snapshot, so the same windows
   do not skip the schedule again; a search that fails leaves the schedule due.
   */
  method HandleBlackoutSkip(records: RunRecords, expander: RRuleExpander, id: string, rule: Option<Rule>, cache: Cache,
                            target: string, tickAt: int, now: int, recordFails: bool, setFails: bool)
    returns (answer: NextRun)
    modifies records, expander
    ensures records.lastRun == if recordFails then old(records.lastRun)
                               else old(records.lastRun)[id := LastRun(SkippedBlackout, tickAt)]
    ensures records.nextRun == match answer
                               case RunAt(t) => if setFails
                                 then old(records.nextRun) else old(records.nextRun)[id := Some(t)]
                               case Never => if setFails then old(records.nextRun) else old(records.nextRun)[id := None]
                               case _ => old(records.nextRun)
    ensures answer.Unresolvable? <==> rule.None?
    ensures ToStore(answer).Some? ==>
              GoodNextRun(Problem(rule.value, cache, target, expander.rng, expander.jitterSeconds, 100),
                          now, ToStore(answer).value)
    ensures rule.Some? ==>
              Answered(Problem(rule.value, cache, target, expander.rng, expander.jitterSeconds, 100),
                       now, old(expander.drawn), answer)
  {
    hide GoodNextRun, Answered;
    records.RecordRun(id, LastRun(SkippedBlackout, tickAt), recordFails);
    answer := Advance(records, expander, id, rule, Some(cache), target, now, setFails);
  }

  /** An outcome of the scheduler's worker as it is stored. */
  function Recorded(outcome: SchedulerSteps.Outcome): Outcome {
    match outcome
    case Succeeded => Success
    case Failed => Outcome.Failed
    case PausedBlackout => Outcome.PausedBlackout
  }

  /**
   After a scheduled scan: the run is recorded with the outcome that the scan's error and its context's first
   cancellation give, and the schedule gets its next run in the same way.
   */
  method FinishRun(records: RunRecords, expander: RRuleExpander, id: string, rule: Option<Rule>,
                   blackouts: Option<Cache>, target: string, err: SchedulerSteps.RunError,
                   cause: SchedulerSteps.Cause, completedAt: int, now: int, recordFails: bool, setFails: bool)
    returns (answer: NextRun)
    modifies records, expander
    ensures records.lastRun ==
            if recordFails then old(records.lastRun)
            else var outcome := if err.NoError? then Success
                                else if err.CanceledError? && cause.BlackoutPause? then Outcome.PausedBlackout
                                else Outcome.Failed;
                 old(records.lastRun)[id := LastRun(outcome, completedAt)]
    ensures !recordFails ==>
              records.lastRun[id].outcome == Recorded(SchedulerSteps.OutcomeOf(ScheduleKey(id), err, cause))
    ensures records.nextRun == match answer
                               case RunAt(t) => if setFails
                                 then old(records.nextRun) else old(records.nextRun)[id := Some(t)]
                               case Never => if setFails then old(records.nextRun) else old(records.nextRun)[id := None]
                               case _ => old(records.nextRun)
    ensures answer.Unresolvable? <==> rule.None?
    ensures ToStore(answer).Some? ==>
              GoodNextRun(Problem(rule.value, Known(blackouts), target, expander.rng, expander.jitterSeconds, 100),
                          now, ToStore(answer).value)
    ensures rule.Some? ==>
              Answered(Problem(rule.value, Known(blackouts), target, expander.rng, expander.jitterSeconds, 100),
                       now, old(expander.drawn), answer)
  {
    hide GoodNextRun, Answered;
    var status := Success;
    if !err.NoError? {
      status := Outcome.Failed;
      if err.CanceledError? && cause.BlackoutPause? {
        status := Outcome.PausedBlackout;
      }
    }
    records.RecordRun(id, LastRun(status, completedAt), recordFails);
    answer := Advance(records, expander, id, rule, blackouts, target, now, setFails);
  }

  lemma SearchIsGood(p: Problem, now: int, draw: nat)
    ensures var answer := SearchFrom(p, now, draw).answer;
            !answer.Unresolvable? && (ToStore(answer).Some? ==> GoodNextRun(p, now, ToStore(answer).value))
  {
    hide Active, OnlyEndsAreFree, SearchFrom;
    ComputedAnswerIsOpen(p, now, draw);
    AnswerIsResolved(p, now, draw);
    if SearchFrom(p, now, draw).answer.Never? && p.jitterSeconds <= 0 {
      NeverLeavesOnlyEnds(p, now, draw);
    }
  }

  lemma NothingIsSilenced(p: Problem, now: int)
    requires p.cache == EMPTY_CACHE
    ensures forall at :: !Active(p.cache, p.target, at)
    ensures (forall o :: Occurs(p.rule, o) ==> o <= now) ==> OnlyEndsAreFree(p, now)
  {}

  lemma AnswerIsResolved(p: Problem, now: int, draw: nat)
    ensures !SearchFrom(p, now, draw).answer.Unresolvable?
  {
    hide Active, NextWindowEnd, After, JitterAt, Skip;
    var first := After(p.rule, now);
    if first.Some? {
      RejectionsAscend(p, first.value + p.Jitter(draw), p.maxSkips, draw + DrawsUsed(p.jitterSeconds));
    }
  }

  /** A search that finds no next run has passed over free occurrences only where its windows ended. */
  lemma NeverLeavesOnlyEnds(p: Problem, now: int, draw: nat)
    requires p.jitterSeconds <= 0 && SearchFrom(p, now, draw).answer.Never?
    ensures OnlyEndsAreFree(p, now)
  {
    hide Active, NextWindowEnd, After, JitterAt, Skip, BlackedOut, EndsCover;
    var first := After(p.rule, now);
    if first.Some? {
      JumpsFromOccurrences(p, first.value, p.maxSkips, draw);
      var s := SearchFrom(p, now, draw);
      forall x | Open(p, now, x) ensures exists at :: EndsCover(p.cache, p.target, at, x) {
        PassedOver(p, first.value, p.maxSkips, draw, x);
        var i :| 0 <= i < |s.ends| && s.ends[i] == x;
        WindowEndIsReal(p.cache, p.target, s.rejected[i]);
      }
    }
  }
}
