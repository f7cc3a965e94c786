/** Cancellation causes, blackout pauses and the walk over the in-flight table. */
module SchedulerPauses {
  import opened Options
  import opened Jobs
  import opened WorkerPools
  import opened SchedulerSteps
  import opened SchedulerSafety
  import opened SchedulerLedger

  /** The job at this place has had a context of its own, unless its configuration failed. */
  predicate Started(s: State, p: Place) {
    p.InPast? || (p.OnLoop? && p.w in s.loops && (s.loops[p.w].InFlight() || s.loops[p.w].Settled()))
  }

  /** Contexts belong to started jobs, and every job in flight has one. */
  ghost predicate ContextsExact(s: State) {
    && (forall p, t: nat :: At(s, p, t) && t in s.causes ==> Started(s, p))
    && (forall w :: w in s.loops && s.loops[w].InFlight() ==> s.loops[w].job.ticket in s.causes)
    && (forall t :: t in s.causes ==> t < s.nextTicket)
    && (s.cancelled ==> forall t :: t in s.causes ==> !s.causes[t].Uncancelled?)
  }

  predicate Paused(s: State, t: nat) {
    t in s.causes && s.causes[t].BlackoutPause?
  }

  /** Some tick judged the job with this ticket to have entered a blackout. */
  predicate Sighted(s: State, t: nat) {
    t in s.past.sightings && Entered(s.past.sightings[t]) && s.past.sightings[t].entry.ticket == t
  }

  /** A pause cause means a judgement was made, and a recorded pause means the cause was a pause. */
  ghost predicate PausesJustified(s: State) {
    && (forall t :: t in s.causes && s.causes[t].BlackoutPause? ==> Sighted(s, t))
    && (forall t :: t in s.past.outcomes && s.past.outcomes[t].PausedBlackout? ==> Paused(s, t))
  }

  lemma LifeKeepsContexts(s: State, step: LifeStep)
    requires Shape(s) && ContextsExact(s) && LifeEnabled(s, step)
    ensures ContextsExact(ApplyLife(s, step))
  {
    var s' := ApplyLife(s, step);
    LifeIsQuiet(s, step);
    LifeLeavesCauses(s, step);
    hide ApplyLife, Shape;
    forall p, t: nat ensures At(s', p, t) <==> At(s, p, t) {}
  }

  lemma LifeLeavesCauses(s: State, step: LifeStep)
    requires LifeEnabled(s, step)
    ensures var s' := ApplyLife(s, step);
      s'.causes.Keys == s.causes.Keys && s'.pool.queue == s.pool.queue
      && (s'.cancelled ==> s.cancelled || forall t :: t in s'.causes ==> !s'.causes[t].Uncancelled?)
      && (s.cancelled ==> forall t :: t in s.causes && !s.causes[t].Uncancelled? ==> s'.causes[t] == s.causes[t])
  {
    hide WithFreshLoops;
  }

  lemma TickKeepsContexts(s: State, step: TickStep)
    requires ContextsExact(s) && TickEnabled(s, step)
    ensures ContextsExact(ApplyTick(s, step))
  {
    var s' := ApplyTick(s, step);
    forall p, t: nat ensures At(s', p, t) <==> At(s, p, t) {}
    assert s'.causes.Keys == s.causes.Keys;
  }

  lemma DispatchKeepsContexts(s: State, a: Actor, step: DispatchStep)
    requires ContextsExact(s) && Enabled(s, Dispatching(a, step))
    ensures ContextsExact(ApplyDispatch(s, a, step))
  {
    var s' := ApplyDispatch(s, a, step);
    DispatchIsQuiet(s, a, step);
    forall p, t: nat ensures At(s', p, t) <==> AtAfter(s, Dispatching(a, step), p, t) {
      DispatchPlaces(s, a, step, p, t);
    }
    assert s'.causes == s.causes;
  }

  lemma CallKeepsContexts(s: State, n: nat, step: CallerStep)
    requires ContextsExact(s) && CallerEnabled(s, n, step)
    ensures ContextsExact(ApplyCaller(s, n, step))
  {
    var s' := ApplyCaller(s, n, step);
    forall p, t: nat ensures At(s', p, t) <==> At(s, p, t) {}
  }

  lemma WorkKeepsContexts(s: State, w: nat, step: WorkStep)
    requires Shape(s) && SoleOwners(s) && TicketsPlaced(s) && ContextsExact(s) && Enabled(s, Working(w, step))
    ensures ContextsExact(ApplyWork(s, w, step))
  {
    var s' := ApplyWork(s, w, step);
    forall p, t: nat | At(s', p, t) && t in s'.causes ensures Started(s', p) {
      WorkKeepsStarted(s, w, step, p, t);
    }
    WorkKeepsCauses(s, w, step);
  }

  lemma WorkKeepsStarted(s: State, w: nat, step: WorkStep, p: Place, t: nat)
    requires Shape(s) && SoleOwners(s) && TicketsPlaced(s) && ContextsExact(s) && Enabled(s, Working(w, step))
    requires At(ApplyWork(s, w, step), p, t) && t in ApplyWork(s, w, step).causes
    ensures Started(ApplyWork(s, w, step), p)
  {
    WorkPlaces(s, w, step, p, t);
    hide Shape, SoleOwners;
    if step.Take? {
      TakeKeepsStarted(s, w, p, t);
    } else {
      OtherWorkKeepsStarted(s, w, step, p, t);
    }
  }

  lemma TakeKeepsStarted(s: State, w: nat, p: Place, t: nat)
    requires ContextsExact(s) && Enabled(s, Working(w, Take))
    requires AtAfter(s, Working(w, Take), p, t) && t in s.causes
    ensures Started(ApplyWork(s, w, Take), p)
  {
    assert At(s, InQueue(s.pool.queue[0]), s.pool.queue[0].ticket);
  }

  lemma OtherWorkKeepsStarted(s: State, w: nat, step: WorkStep, p: Place, t: nat)
    requires TicketsPlaced(s) && ContextsExact(s) && Enabled(s, Working(w, step)) && !step.Take?
    requires AtAfter(s, Working(w, step), p, t) && t in ApplyWork(s, w, step).causes
    ensures Started(ApplyWork(s, w, step), p)
  {
    if s.loops[w].HasJob() {
      assert At(s, OnLoop(w), s.loops[w].job.ticket);
    }
  }

  lemma WorkKeepsCauses(s: State, w: nat, step: WorkStep)
    requires Shape(s) && ContextsExact(s) && WorkEnabled(s, w, step)
    ensures var s' := ApplyWork(s, w, step);
      && (forall v :: v in s'.loops && s'.loops[v].InFlight() ==> s'.loops[v].job.ticket in s'.causes)
      && (forall t :: t in s'.causes ==> t < s'.nextTicket)
      && (s'.cancelled ==> forall t :: t in s'.causes ==> !s'.causes[t].Uncancelled?)
  {}

  lemma LifeKeepsPauses(s: State, step: LifeStep)
    requires PausesJustified(s) && LifeEnabled(s, step)
    ensures PausesJustified(ApplyLife(s, step))
  {}

  lemma TickKeepsPauses(s: State, step: TickStep)
    requires PausesJustified(s) && TickEnabled(s, step)
    ensures PausesJustified(ApplyTick(s, step))
  {}

  lemma DispatchKeepsPauses(s: State, a: Actor, step: DispatchStep)
    requires PausesJustified(s) && DispatchEnabled(s, a, step)
    ensures PausesJustified(ApplyDispatch(s, a, step))
  {}

  lemma WorkKeepsPauses(s: State, w: nat, step: WorkStep)
    requires RecordsExact(s) && ContextsExact(s) && PausesJustified(s) && WorkEnabled(s, w, step)
    ensures PausesJustified(ApplyWork(s, w, step))
  {
    if step.Register? {
      assert At(s, OnLoop(w), s.loops[w].job.ticket);
      assert RecordsAgree(s, OnLoop(w), s.loops[w].job.ticket);
    }
  }

  // ----- the walk -----

  /** The entry the walk has loaded and not judged yet, if any. */
  function InJudgement(t: Tick): Option<Entry> {
    if t.Judging? then Some(t.entry) else None
  }

  /** The walk judged this entry on snapshots it has seen, and if they show a blackout entered, the job is cancelled. */
  predicate Handled(s: State, now: int, walk: Walk, e: Entry) {
    e in walk.judged &&
    var sight := walk.judged[e];
    && sight.entry == e && sight.now == now && sight.cacheNow in walk.seen && sight.cacheThen in walk.seen
    && (Entered(sight) ==> e.ticket in s.causes && !s.causes[e.ticket].Uncancelled?)
  }

  ghost predicate WalkHonest(s: State) {
    s.ticker.Walking? || s.ticker.Judging? ==>
      && (forall t :: t in s.ticker.walk.roster ==> t in s.causes)
      && s.ticker.walk.seen != [] && s.ticker.walk.seen[|s.ticker.walk.seen| - 1] == s.cache
      && forall key :: key in s.inflight && key !in s.ticker.pending && s.inflight[key].ticket in s.ticker.walk.roster
                       && InJudgement(s.ticker) != Some(s.inflight[key])
                       ==> Handled(s, s.ticker.now, s.ticker.walk, s.inflight[key])
  }

  lemma LifeKeepsWalk(s: State, step: LifeStep)
    requires WalkHonest(s) && LifeEnabled(s, step)
    ensures WalkHonest(ApplyLife(s, step))
  {}

  lemma TickKeepsWalk(s: State, step: TickStep)
    requires Shape(s) && TableExact(s) && ContextsExact(s) && WalkHonest(s) && TickEnabled(s, step)
    ensures WalkHonest(ApplyTick(s, step))
  {
    if step.TickBegins? {
      WalkStarts(s, step.now);
    }
    hide TableExact, ContextsExact, Shape;
    if step.WalkJudges? {
      JudgementKeepsWalk(s, step.reloaded);
    } else {
      hide ApplyJudgement, FirstCause, Entered;
    }
  }

  lemma JudgementKeepsWalk(s: State, reloaded: Option<Snapshot>)
    requires WalkHonest(s) && TickEnabled(s, WalkJudges(reloaded))
    ensures WalkHonest(ApplyTick(s, WalkJudges(reloaded)))
  {}

  lemma WalkStarts(s: State, now: int)
    requires Shape(s) && TableExact(s) && ContextsExact(s) && TickEnabled(s, TickBegins(now))
    ensures forall key :: key in s.inflight ==> s.inflight[key].ticket in s.causes
  {
    forall key | key in s.inflight ensures s.inflight[key].ticket in s.causes {
      var w :| Runs(s, w, key);
    }
  }

  lemma DispatchKeepsWalk(s: State, a: Actor, step: DispatchStep)
    requires Shape(s) && WalkHonest(s) && DispatchEnabled(s, a, step)
    ensures WalkHonest(ApplyDispatch(s, a, step))
  {}

  lemma WorkKeepsWalk(s: State, w: nat, step: WorkStep)
    requires ContextsExact(s) && WalkHonest(s) && WorkEnabled(s, w, step)
    ensures WalkHonest(ApplyWork(s, w, step))
  {
    if step.Register? {
      assert At(s, OnLoop(w), s.loops[w].job.ticket);
    }
  }
}
