/** The scheduler's guarantees, in every reachable state and over every step out of one. */
module SchedulerTheorems {
  import opened Options
  import opened Jobs
  import opened WorkerPools
  import opened SchedulerSteps
  import opened SchedulerSafety
  import opened SchedulerLedger
  import opened SchedulerPauses
  import opened SchedulerCounts
  import Sets

  /** Some goroutine has panicked. */
  ghost predicate Panicked(s: State) {
    exists a :: a in s.claims && s.claims[a].stage.Dead?
  }

  /**
   The tick goroutine ends after the start and the cancellation, the queue is closed after that, and only an ad-hoc
   caller has met it closed.
   */
  ghost predicate ClosedLate(s: State) {
    && (s.ticker.Exited? ==> s.cancelled && s.pool.started) && (s.pool.stopped ==> s.ticker.Exited?)
    && forall a :: a in s.claims && s.claims[a].stage.Dead? ==> s.pool.stopped && a.Caller?
  }

  ghost predicate Inv(s: State) {
    && Shape(s) && SoleOwners(s) && LocksOwned(s) && TableExact(s)
    && TicketsPlaced(s) && RecordsExact(s) && ContextsExact(s) && PausesJustified(s)
    && WalkHonest(s) && JobsCounted(s) && LoopsCounted(s) && ClosedLate(s)
  }

  lemma InitialInv(registry: map<Key, string>, cache: Snapshot, size: int)
    ensures Inv(Initial(registry, cache, size))
  {
    var s := Initial(registry, cache, size);
    assert forall o, t :: !Owns(s, o, t);
    assert forall p, t: nat :: !At(s, p, t);
    assert forall w, key :: !Runs(s, w, key);
    assert CountedLoops(s.loops) == {} && BusyLoops(s.loops) == {};
  }

  lemma LifeClosesLate(s: State, step: LifeStep)
    requires ClosedLate(s) && LifeEnabled(s, step)
    ensures ClosedLate(ApplyLife(s, step))
  {}

  lemma TickClosesLate(s: State, step: TickStep)
    requires ClosedLate(s) && TickEnabled(s, step)
    ensures ClosedLate(ApplyTick(s, step))
  {}

  lemma DispatchClosesLate(s: State, a: Actor, step: DispatchStep)
    requires TickerShaped(s) && ClosedLate(s) && Enabled(s, Dispatching(a, step))
    ensures ClosedLate(ApplyDispatch(s, a, step))
  {}

  lemma WorkClosesLate(s: State, w: nat, step: WorkStep)
    requires ClosedLate(s) && WorkEnabled(s, w, step)
    ensures ClosedLate(ApplyWork(s, w, step))
  {}

  lemma CallKeepsRest(s: State, n: nat, step: CallerStep)
    requires Inv(s) && Enabled(s, Calling(n, step))
    ensures var s' := ApplyCaller(s, n, step);
      PausesJustified(s') && WalkHonest(s') && JobsCounted(s') && LoopsCounted(s') && ClosedLate(s')
  {
    assert CallerEnabled(s, n, step);
    InvParts(s);
    hide Inv, ApplyCaller, CallerEnabled, WalkHonest, PausesJustified, JobsCounted, LoopsCounted, ClosedLate;
    CallKeepsWalk(s, n, step);
    CallKeepsCounts(s, n, step);
  }

  lemma CallKeepsWalk(s: State, n: nat, step: CallerStep)
    requires WalkHonest(s) && PausesJustified(s) && CallerEnabled(s, n, step)
    ensures WalkHonest(ApplyCaller(s, n, step)) && PausesJustified(ApplyCaller(s, n, step))
  {}

  lemma CallKeepsCounts(s: State, n: nat, step: CallerStep)
    requires JobsCounted(s) && LoopsCounted(s) && ClosedLate(s) && CallerEnabled(s, n, step)
    ensures JobsCounted(ApplyCaller(s, n, step))
    ensures LoopsCounted(ApplyCaller(s, n, step)) && ClosedLate(ApplyCaller(s, n, step))
  {}

  lemma LifeKeepsInv(s: State, step: LifeStep)
    requires Inv(s) && Enabled(s, Life(step))
    ensures var s' := ApplyLife(s, step);
      ContextsExact(s') && PausesJustified(s') && WalkHonest(s')
        && JobsCounted(s') && LoopsCounted(s') && ClosedLate(s')
  {
    LifeKeepsContexts(s, step);
    LifeKeepsPauses(s, step);
    LifeKeepsWalk(s, step);
    LifeKeepsCounts(s, step);
    LifeClosesLate(s, step);
  }

  lemma TickKeepsInv(s: State, step: TickStep)
    requires Inv(s) && Enabled(s, Ticking(step))
    ensures var s' := ApplyTick(s, step);
      ContextsExact(s') && PausesJustified(s') && WalkHonest(s')
        && JobsCounted(s') && LoopsCounted(s') && ClosedLate(s')
  {
    TickKeepsContexts(s, step);
    TickKeepsPauses(s, step);
    TickKeepsWalk(s, step);
    TickKeepsCounts(s, step);
    TickClosesLate(s, step);
  }

  lemma DispatchKeepsInv(s: State, a: Actor, step: DispatchStep)
    requires Inv(s) && Enabled(s, Dispatching(a, step))
    ensures var s' := ApplyDispatch(s, a, step);
      ContextsExact(s') && PausesJustified(s') && WalkHonest(s')
        && JobsCounted(s') && LoopsCounted(s') && ClosedLate(s')
  {
    DispatchKeepsContexts(s, a, step);
    DispatchKeepsPauses(s, a, step);
    DispatchKeepsWalk(s, a, step);
    DispatchKeepsCounts(s, a, step);
    DispatchClosesLate(s, a, step);
  }

  lemma WorkKeepsInv(s: State, w: nat, step: WorkStep)
    requires Inv(s) && Enabled(s, Working(w, step))
    ensures var s' := ApplyWork(s, w, step);
      TableExact(s') && RecordsExact(s') && ContextsExact(s') && PausesJustified(s')
      && WalkHonest(s') && JobsCounted(s') && LoopsCounted(s') && ClosedLate(s')
  {
    WorkKeepsTable(s, w, step);
    WorkKeepsRecords(s, w, step);
    WorkKeepsContexts(s, w, step);
    WorkKeepsPauses(s, w, step);
    WorkKeepsWalk(s, w, step);
    WorkKeepsJobsCounted(s, w, step);
    WorkKeepsLoopsCounted(s, w, step);
    WorkClosesLate(s, w, step);
  }

  /** Every step keeps all of it. */
  lemma InvKept(s: State, step: Step)
    requires Inv(s) && Enabled(s, step)
    ensures Inv(Apply(s, step))
  {
    hide ApplyLife, ApplyTick, ApplyDispatch, ApplyWork, ApplyCaller;
    hide Shape, SoleOwners, LocksOwned, TableExact, TicketsPlaced, RecordsExact, ContextsExact, PausesJustified;
    hide WalkHonest, JobsCounted, LoopsCounted, ClosedLate;
    ShapeKept(s, step);
    OwnershipKept(s, step);
    TicketsKept(s, step);
    if !step.Working? {
      QuietKeepsTable(s, step);
      QuietKeepsRecords(s, step);
    }
    match step
    case Life(l) => LifeKeepsInv(s, l);
    case Ticking(t) => TickKeepsInv(s, t);
    case Dispatching(a, d) => DispatchKeepsInv(s, a, d);
    case Calling(n, c) => CallKeepsContexts(s, n, c); CallKeepsRest(s, n, c);
    case Working(w, k) => WorkKeepsInv(s, w, k);
  }

  // ----- runs -----

  /** `steps` can be taken one after another from `s`. */
  ghost predicate CanRun(s: State, steps: seq<Step>)
    decreases |steps|
  {
    steps == [] || (Enabled(s, steps[0]) && CanRun(Apply(s, steps[0]), steps[1..]))
  }

  ghost function Run(s: State, steps: seq<Step>): State
    requires CanRun(s, steps)
    decreases |steps|
  {
    if steps == [] then s else Run(Apply(s, steps[0]), steps[1..])
  }

  lemma {:induction false} RunKeepsInv(s: State, steps: seq<Step>)
    requires Inv(s) && CanRun(s, steps)
    ensures Inv(Run(s, steps))
    decreases |steps|
  {
    hide Inv, Enabled, Apply;
    if steps != [] {
      InvKept(s, steps[0]);
      RunKeepsInv(Apply(s, steps[0]), steps[1..]);
    }
  }

  /** Reached by some interleaving of all the actors from a fresh scheduler. */
  ghost predicate Reachable(s: State) {
    exists registry, cache, size, steps {:trigger Run(Initial(registry, cache, size), steps)} ::
      CanRun(Initial(registry, cache, size), steps) && s == Run(Initial(registry, cache, size), steps)
  }

  lemma ReachableInv(s: State)
    requires Reachable(s)
    ensures Inv(s)
  {
    hide Inv;
    var registry, cache, size, steps :|
      CanRun(Initial(registry, cache, size), steps) && s == Run(Initial(registry, cache, size), steps);
    InitialInv(registry, cache, size);
    RunKeepsInv(Initial(registry, cache, size), steps);
  }

  /** A run from a reachable state ends in a reachable state. */
  lemma {:induction false} RunReaches(s: State, steps: seq<Step>)
    requires Reachable(s) && CanRun(s, steps)
    ensures Reachable(Run(s, steps))
    decreases |steps|
  {
    hide Enabled, Apply;
    if steps != [] {
      var registry, cache, size, before :|
        CanRun(Initial(registry, cache, size), before) && s == Run(Initial(registry, cache, size), before);
      RunSnoc(Initial(registry, cache, size), before, steps[0]);
      RunReaches(Apply(s, steps[0]), steps[1..]);
    }
  }

  lemma {:induction false} RunSnoc(s: State, steps: seq<Step>, last: Step)
    requires CanRun(s, steps) && Enabled(Run(s, steps), last)
    ensures CanRun(s, steps + [last]) && Run(s, steps + [last]) == Apply(Run(s, steps), last)
    decreases |steps|
  {
    hide Enabled, Apply;
    if steps == [] {
      assert [] + [last] == [last];
      assert [last][1..] == [];
    } else {
      assert (steps + [last])[1..] == steps[1..] + [last];
      RunSnoc(Apply(s, steps[0]), steps[1..], last);
    }
  }

  lemma {:induction false} RunUnsnoc(s: State, steps: seq<Step>, last: Step)
    requires CanRun(s, steps + [last])
    ensures CanRun(s, steps) && Enabled(Run(s, steps), last)
    ensures Run(s, steps + [last]) == Apply(Run(s, steps), last)
    decreases |steps|
  {
    hide Enabled, Apply;
    if steps == [] {
      assert [] + [last] == [last];
      assert [last][1..] == [];
    } else {
      assert (steps + [last])[1..] == steps[1..] + [last];
      RunUnsnoc(Apply(s, steps[0]), steps[1..], last);
    }
  }

  /** The run over `trace` passes through `s`, `since` steps from its start or later. */
  ghost predicate Visits(start: State, since: nat, trace: seq<Step>, s: State) {
    exists n: nat :: since <= n <= |trace| && CanRun(start, trace[..n]) && s == Run(start, trace[..n])
  }

  lemma VisitsNow(start: State, trace: seq<Step>, since: nat)
    requires CanRun(start, trace) && since <= |trace|
    ensures Visits(start, since, trace, Run(start, trace))
  {
    hide CanRun, Run;
    assert trace[..|trace|] == trace;
  }

  lemma VisitsLater(start: State, since: nat, since': nat, trace: seq<Step>, trace': seq<Step>, s: State)
    requires Visits(start, since', trace, s) && since <= since' && trace <= trace'
    ensures Visits(start, since, trace', s)
  {
    hide CanRun, Run;
    var n: nat :| since' <= n <= |trace| && CanRun(start, trace[..n]) && s == Run(start, trace[..n]);
    assert trace'[..n] == trace[..n];
  }

  // ----- what that gives -----

  /** A target's lock is held exactly when one and only one owner has the target. */
  lemma LockMeansOneOwner(s: State, target: string)
    requires Reachable(s)
    ensures target in s.locks <==> exists o :: Owns(s, o, target)
    ensures forall o1, o2 :: Owns(s, o1, target) && Owns(s, o2, target) ==> o1 == o2
  {
    ReachableInv(s);
  }

  /** The party taking a step, as an owner. */
  function ActorOf(step: Step): Option<Owner> {
    match step
    case Dispatching(a, _) => Some(Dispatcher(a))
    case Working(w, _) => Some(Loop(w))
    case _ => None
  }

  /** A lock is only ever freed by its own owner, and only ever taken when nobody owned the target. */
  lemma ReleaseIsOwn(s: State, step: Step, target: string)
    requires Reachable(s) && Enabled(s, step)
    ensures target in s.locks && target !in Apply(s, step).locks ==>
              ActorOf(step).Some? && Owns(s, ActorOf(step).value, target)
    ensures target !in s.locks && target in Apply(s, step).locks ==>
              step.Dispatching? && forall o :: !Owns(s, o, target)
  {
    hide Apply, Owns;
    ReachableInv(s);
    Moves(s, step);
    ActorOwns(s, step);
  }

  /** No target has two scans in flight, and the in-flight entries belong to distinct, locked targets. */
  lemma OneScanPerTarget(s: State, k1: Key, k2: Key)
    requires Reachable(s) && k1 in s.inflight && k2 in s.inflight
    ensures s.inflight[k1].target in s.locks
    ensures k1 != k2 ==> s.inflight[k1].target != s.inflight[k2].target
    ensures k1 != k2 ==> s.inflight[k1].ticket != s.inflight[k2].ticket
  {
    ReachableInv(s);
    InvParts(s);
    hide Inv, Reachable, Shape, RecordsExact, ContextsExact, WalkHonest, PausesJustified;
    hide JobsCounted, LoopsCounted, ClosedLate;
    var w1 := InFlightOnLoop(s, k1);
    var w2 := InFlightOnLoop(s, k2);
    hide TableExact;
    assert k1 != k2 ==> w1 != w2;
  }

  /** The loop that runs an in-flight job owns its target and has its ticket. */
  lemma InFlightOnLoop(s: State, key: Key) returns (w: nat)
    requires TableExact(s) && key in s.inflight
    ensures Runs(s, w, key) && Owns(s, Loop(w), s.inflight[key].target) && At(s, OnLoop(w), s.inflight[key].ticket)
  {
    w :| Runs(s, w, key);
  }

  /** Every accepted job is in exactly one of queue, loop and past. */
  lemma JobInOnePlace(s: State, ticket: nat)
    requires Reachable(s)
    ensures ticket < s.nextTicket <==> exists p :: At(s, p, ticket)
    ensures forall p, q :: At(s, p, ticket) && At(s, q, ticket) ==> p == q
    ensures s.nextTicket == |s.past.finished| + |s.pool.queue| + |BusyLoops(s.loops)|
  {
    ReachableInv(s);
    assert ticket < s.nextTicket ==> Placed(s, ticket);
  }

  function Rank(p: Place): nat {
    match p
    case InQueue(_) => 0
    case OnLoop(_) => 1
    case InPast(_) => 2
  }

  /** A job moves only forward, from queue to loop to past, and never between loops: it is run once. */
  lemma JobMovesForward(s: State, step: Step, ticket: nat, p: Place, q: Place)
    requires Reachable(s) && Enabled(s, step) && At(s, p, ticket) && At(Apply(s, step), q, ticket)
    ensures Rank(p) < Rank(q) || p == q
    ensures Rank(q) <= Rank(p) + 1
  {
    hide Apply, Enabled, Inv;
    ReachableInv(s);
    InvParts(s);
    Places(s, step, q, ticket);
    ActorPlaces(s, step);
  }

  lemma InvParts(s: State)
    requires Inv(s)
    ensures Shape(s) && SoleOwners(s) && LocksOwned(s) && TableExact(s) && TicketsPlaced(s) && RecordsExact(s)
    ensures ContextsExact(s) && PausesJustified(s) && WalkHonest(s)
    ensures JobsCounted(s) && LoopsCounted(s) && ClosedLate(s)
  {}

  /**
   A loop about to settle a job can always do so: the ad-hoc result channel is empty and the job's
   context exists. A finished job has its outcome, and an ad-hoc one has sent exactly one result.
   */
  lemma ResultsNeverBlock(s: State, w: nat)
    requires Reachable(s) && w in s.loops
    ensures s.loops[w].Resolving? ==> Enabled(s, Working(w, ConfigFails)) && WorkEnabled(s, w, ConfigFails)
    ensures s.loops[w].Returned? ==> Enabled(s, Working(w, Report)) && WorkEnabled(s, w, Report)
    ensures s.loops[w].HasJob() && !s.loops[w].Settled() ==> s.loops[w].job.ticket !in s.past.sent
  {
    ReachableInv(s);
    hide Inv;
    LoopCanSettle(s, w);
  }

  lemma LoopCanSettle(s: State, w: nat)
    requires Inv(s) && w in s.loops
    ensures s.loops[w].Resolving? ==> Enabled(s, Working(w, ConfigFails)) && WorkEnabled(s, w, ConfigFails)
    ensures s.loops[w].Returned? ==> Enabled(s, Working(w, Report)) && WorkEnabled(s, w, Report)
    ensures s.loops[w].HasJob() && !s.loops[w].Settled() ==> s.loops[w].job.ticket !in s.past.sent
  {
    if s.loops[w].HasJob() {
      assert At(s, OnLoop(w), s.loops[w].job.ticket);
      assert RecordsAgree(s, OnLoop(w), s.loops[w].job.ticket);
    }
  }

  lemma FinishedMeansReported(s: State, job: Job)
    requires Reachable(s) && job in s.past.finished
    ensures job.ticket in s.past.outcomes
    ensures job.key.AdHocKey? <==> job.ticket in s.past.sent
  {
    ReachableInv(s);
    assert At(s, InPast(job), job.ticket);
    assert RecordsAgree(s, InPast(job), job.ticket);
  }

  /** A recorded pause was caused by a tick that saw the target blacked out then and not at the job's start. */
  lemma PauseWasSeen(s: State, ticket: nat)
    requires Reachable(s) && ticket in s.past.outcomes && s.past.outcomes[ticket].PausedBlackout?
    ensures ticket in s.causes && s.causes[ticket].BlackoutPause?
    ensures ticket in s.past.sightings
    ensures var e := s.past.sightings[ticket];
            e.entry.ticket == ticket && (e.entry.target, e.now) in e.cacheNow
            && (e.entry.target, e.entry.acquiredAt) !in e.cacheThen
  {
    ReachableInv(s);
  }

  ghost predicate CauseStays(s: State, s': State, ticket: nat) {
    ticket in s.causes && !s.causes[ticket].Uncancelled? ==>
        ticket in s'.causes && s'.causes[ticket] == s.causes[ticket]
  }

  lemma LifeKeepsCause(s: State, step: LifeStep, ticket: nat)
    requires LifeEnabled(s, step)
    ensures CauseStays(s, ApplyLife(s, step), ticket) && ApplyLife(s, step).claims == s.claims
    ensures ApplyLife(s, step).registry == s.registry
  {}

  lemma TickKeepsCause(s: State, step: TickStep, ticket: nat)
    requires TickEnabled(s, step)
    ensures CauseStays(s, ApplyTick(s, step), ticket) && ApplyTick(s, step).claims == s.claims
    ensures ApplyTick(s, step).registry == s.registry
  {}

  lemma DispatchKeepsCause(s: State, a: Actor, step: DispatchStep, ticket: nat)
    requires DispatchEnabled(s, a, step)
    ensures CauseStays(s, ApplyDispatch(s, a, step), ticket)
    ensures ApplyDispatch(s, a, step).registry == s.registry
  {}

  lemma CallKeepsCause(s: State, n: nat, step: CallerStep, ticket: nat)
    requires CallerEnabled(s, n, step)
    ensures CauseStays(s, ApplyCaller(s, n, step), ticket) && ApplyCaller(s, n, step).claims == s.claims
    ensures ApplyCaller(s, n, step).registry == s.registry
  {}

  lemma WorkKeepsCause(s: State, w: nat, step: WorkStep, ticket: nat)
    requires ContextsExact(s) && WorkEnabled(s, w, step)
    ensures CauseStays(s, ApplyWork(s, w, step), ticket) && ApplyWork(s, w, step).claims == s.claims
    ensures ApplyWork(s, w, step).registry == s.registry
  {
    if step.Register? {
      assert At(s, OnLoop(w), s.loops[w].job.ticket);
    }
  }

  /** The first cancellation is final. */
  lemma FirstCauseStays(s: State, step: Step, ticket: nat)
    requires Reachable(s) && Enabled(s, step) && ticket in s.causes && !s.causes[ticket].Uncancelled?
    ensures ticket in Apply(s, step).causes && Apply(s, step).causes[ticket] == s.causes[ticket]
  {
    hide ApplyLife, ApplyTick, ApplyDispatch, ApplyCaller, ApplyWork, Inv;
    ReachableInv(s);
    InvParts(s);
    match step
    case Life(l) => LifeKeepsCause(s, l, ticket);
    case Ticking(t) => TickKeepsCause(s, t, ticket);
    case Dispatching(a, d) => DispatchKeepsCause(s, a, d, ticket);
    case Calling(n, c) => CallKeepsCause(s, n, c, ticket);
    case Working(w, k) => WorkKeepsCause(s, w, k, ticket);
  }

  /** When a walk ends, every job on its roster that is still registered was judged in it. */
  lemma WalkHandles(s: State, key: Key)
    requires Reachable(s) && Enabled(s, Ticking(WalkEnds))
    requires key in s.inflight && s.inflight[key].ticket in s.ticker.walk.roster
    ensures Handled(s, s.ticker.now, s.ticker.walk, s.inflight[key])
  {
    ReachableInv(s);
  }

  /**
   A step keeps a walk going unless it ends the round, and adds nothing to what it has seen but the current snapshot.
   */
  lemma StepSees(s: State, step: Step)
    requires Enabled(s, step)
    ensures var s' := Apply(s, step);
      && s.past.rounds <= s'.past.rounds
      && (Walks(s) && s'.past.rounds == s.past.rounds ==>
            && Walks(s') && s'.ticker.now == s.ticker.now && s'.ticker.walk.roster == s.ticker.walk.roster
            && forall c :: c in s'.ticker.walk.seen ==> c in s.ticker.walk.seen || c == s'.cache)
  {
    hide ApplyLife, ApplyTick, ApplyDispatch, ApplyCaller, ApplyWork;
    match step
    case Life(l) => LifeSees(s, l);
    case Ticking(t) => TickSees(s, t);
    case Dispatching(a, d) => DispatchSees(s, a, d);
    case Calling(n, c) => CallSees(s, n, c);
    case Working(w, k) => WorkSees(s, w, k);
  }

  predicate Walks(s: State) {
    s.ticker.Walking? || s.ticker.Judging?
  }

  lemma LifeSees(s: State, step: LifeStep)
    requires LifeEnabled(s, step)
    ensures var s' := ApplyLife(s, step);
      && s'.past.rounds == s.past.rounds
      && (Walks(s) ==>
            && Walks(s') && s'.ticker.now == s.ticker.now && s'.ticker.walk.roster == s.ticker.walk.roster
            && forall c :: c in s'.ticker.walk.seen ==> c in s.ticker.walk.seen || c == s'.cache)
  {
    hide WithFreshLoops, ResizedPool, StartedPool, Spawned, Dropped;
  }

  lemma TickSees(s: State, step: TickStep)
    requires TickEnabled(s, step)
    ensures var s' := ApplyTick(s, step);
      && s.past.rounds <= s'.past.rounds
      && (Walks(s) && s'.past.rounds == s.past.rounds ==>
            && Walks(s') && s'.ticker.now == s.ticker.now && s'.ticker.walk.roster == s.ticker.walk.roster
            && forall c :: c in s'.ticker.walk.seen ==> c in s.ticker.walk.seen || c == s'.cache)
  {
    hide FirstCause, Entered;
  }

  lemma DispatchSees(s: State, a: Actor, step: DispatchStep)
    requires DispatchEnabled(s, a, step)
    ensures ApplyDispatch(s, a, step).past == s.past
    ensures Walks(s) ==> ApplyDispatch(s, a, step).ticker == s.ticker
  {}

  lemma CallSees(s: State, n: nat, step: CallerStep)
    requires CallerEnabled(s, n, step)
    ensures ApplyCaller(s, n, step).past == s.past && ApplyCaller(s, n, step).ticker == s.ticker
  {}

  lemma WorkSees(s: State, w: nat, step: WorkStep)
    requires WorkEnabled(s, w, step)
    ensures ApplyWork(s, w, step).past.rounds == s.past.rounds && ApplyWork(s, w, step).ticker == s.ticker
  {}

  /** What a walk has seen since some point of a run are the snapshots of the states passed through. */
  lemma {:induction false} SeenAreVisited(start: State, since: nat, trace: seq<Step>)
    requires CanRun(start, trace) && since <= |trace| && CanRun(start, trace[..since])
    requires var s0, s := Run(start, trace[..since]), Run(start, trace); Walks(s0) && s.past.rounds == s0.past.rounds
    ensures var s0, s := Run(start, trace[..since]), Run(start, trace);
      && Walks(s) && s.ticker.now == s0.ticker.now && s.ticker.walk.roster == s0.ticker.walk.roster
      && forall c :: c in s.ticker.walk.seen ==>
           c in s0.ticker.walk.seen || exists v :: Visits(start, since, trace, v) && v.cache == c
    decreases |trace|
  {
    hide Apply, Enabled, CanRun, Run, Walks, Visits;
    if |trace| == since {
      assert trace[..since] == trace;
    } else {
      var n := |trace| - 1;
      var front, last := trace[..n], trace[n];
      assert trace == front + [last] && trace[..since] == front[..since];
      RunUnsnoc(start, front, last);
      var s := Run(start, front);
      StepSees(s, last);
      RoundsGrow(start, since, front);
      SeenAreVisited(start, since, front);
      VisitsNow(start, trace, since);
      forall v | Visits(start, since, front, v) ensures Visits(start, since, trace, v) {
        VisitsLater(start, since, since, front, trace, v);
      }
    }
  }

  lemma {:induction false} RoundsGrow(start: State, since: nat, trace: seq<Step>)
    requires CanRun(start, trace) && since <= |trace|
    ensures CanRun(start, trace[..since]) && Run(start, trace[..since]).past.rounds <= Run(start, trace).past.rounds
    decreases |trace|
  {
    hide Apply, Enabled, CanRun, Run, Walks;
    if |trace| == since {
      assert trace[..since] == trace;
    } else {
      var n := |trace| - 1;
      var front, last := trace[..n], trace[n];
      assert trace == front + [last] && trace[..since] == front[..since];
      RunUnsnoc(start, front, last);
      StepSees(Run(start, front), last);
      RoundsGrow(start, since, front);
    }
  }

  /**
   A walk cancels: take a run in which it begins after `since` steps and is about to end. A job registered all the
   while, whose target every snapshot current meanwhile says is blacked out at the tick and was not at the job's
   start, has a cancelled context.
   */
  lemma WalkIsComplete(start: State, since: nat, trace: seq<Step>, now: int, key: Key)
    requires Reachable(start) && CanRun(start, trace) && since < |trace| && trace[since] == Ticking(TickBegins(now))
    requires CanRun(start, trace[..since])
    requires var before, s := Run(start, trace[..since]), Run(start, trace);
      && s.past.rounds == before.past.rounds && Enabled(s, Ticking(WalkEnds))
      && key in before.inflight && key in s.inflight && s.inflight[key].ticket == before.inflight[key].ticket
    requires var e := Run(start, trace).inflight[key];
      forall v :: Visits(start, since, trace, v) ==> (e.target, now) in v.cache && (e.target, e.acquiredAt) !in v.cache
    ensures var s := Run(start, trace);
      s.inflight[key].ticket in s.causes && !s.causes[s.inflight[key].ticket].Uncancelled?
  {
    hide CanRun, Run, Reachable, Visits;
    var before, s := Run(start, trace[..since]), Run(start, trace);
    var first := trace[..since + 1];
    assert first == trace[..since] + [trace[since]] && first[..since] == trace[..since];
    RoundsGrow(start, since + 1, trace);
    RunUnsnoc(start, trace[..since], trace[since]);
    WalkBegins(before, now);
    RunUnsnocKeeps(start, since, trace);
    SeenAreVisited(start, since + 1, trace);
    RunReaches(start, trace);
    WalkHandles(s, key);
    var e := s.inflight[key];
    forall c | c in s.ticker.walk.seen ensures (e.target, now) in c && (e.target, e.acquiredAt) !in c {
      SnapshotWasCurrent(start, since, trace, before, c);
    }
    hide Enabled, Apply;
    assert Entered(s.ticker.walk.judged[e]);
  }

  lemma WalkBegins(s: State, now: int)
    requires Enabled(s, Ticking(TickBegins(now)))
    ensures var s' := Apply(s, Ticking(TickBegins(now)));
      && Walks(s') && s'.ticker.now == now && s'.ticker.walk.seen == [s.cache] && s'.past == s.past
      && forall key :: key in s.inflight ==> s.inflight[key].ticket in s'.ticker.walk.roster
  {}

  lemma RunUnsnocKeeps(start: State, since: nat, trace: seq<Step>)
    requires CanRun(start, trace) && since < |trace|
    ensures CanRun(start, trace[..since]) && CanRun(start, trace[..since + 1])
  {
    RoundsGrow(start, since, trace);
    RoundsGrow(start, since + 1, trace);
  }

  lemma SnapshotWasCurrent(start: State, since: nat, trace: seq<Step>, before: State, c: Snapshot)
    requires CanRun(start, trace) && since < |trace|
    requires CanRun(start, trace[..since]) && before == Run(start, trace[..since])
    requires c == before.cache || exists v :: Visits(start, since + 1, trace, v) && v.cache == c
    ensures exists v :: Visits(start, since, trace, v) && v.cache == c
  {
    hide CanRun, Run;
    if c == before.cache {
      assert Visits(start, since, trace, before);
    } else {
      var v :| Visits(start, since + 1, trace, v) && v.cache == c;
      VisitsLater(start, since, since + 1, trace, trace, v);
    }
  }

  /** On an unchanged snapshot, every such job that it says has entered a blackout has a cancelled context. */
  lemma SteadyWalkIsComplete(s: State, key: Key)
    requires Reachable(s) && Enabled(s, Ticking(WalkEnds)) && |s.ticker.walk.seen| == 1
    requires key in s.inflight && s.inflight[key].ticket in s.ticker.walk.roster
    ensures var e := s.inflight[key];
      (e.target, s.ticker.now) in s.cache && (e.target, e.acquiredAt) !in s.cache ==>
        e.ticket in s.causes && !s.causes[e.ticket].Uncancelled?
  {
    WalkHandles(s, key);
    assert s.ticker.walk.seen == [s.cache] by {
      ReachableInv(s);
      assert WalkHonest(s);
    }
    hide Reachable, Enabled, Apply;
  }

  /** A sighting is made by a judgement, on the snapshots current then, of the entry the walk had loaded. */
  lemma SightingsAreReal(s: State, step: Step, t: nat)
    requires Enabled(s, step)
    requires t in Apply(s, step).past.sightings
    requires t in s.past.sightings ==> Apply(s, step).past.sightings[t] != s.past.sightings[t]
    ensures step.Ticking? && step.tick.WalkJudges? && s.ticker.Judging? && t == s.ticker.entry.ticket
    ensures Apply(s, step).past.sightings[t] == Sighting(s.ticker.now, s.cache, Apply(s, step).cache, s.ticker.entry)
  {
    hide ApplyLife, ApplyTick, ApplyDispatch, ApplyCaller, ApplyWork;
    match step
    case Life(l) => LifeKeepsSightings(s, l);
    case Ticking(k) => TickSights(s, k);
    case Dispatching(a, d) => DispatchSees(s, a, d);
    case Calling(n, c) => CallSees(s, n, c);
    case Working(w, k) => WorkKeepsSightings(s, w, k);
  }

  lemma TickSights(s: State, step: TickStep)
    requires TickEnabled(s, step)
    ensures !step.WalkJudges? ==> ApplyTick(s, step).past.sightings == s.past.sightings
    ensures step.WalkJudges? ==>
              s.ticker.Judging? &&
              var e, s' := s.ticker.entry, ApplyTick(s, step);
              s'.past.sightings == s.past.sightings
              || s'.past.sightings == s.past.sightings[e.ticket := Sighting(s.ticker.now, s.cache, s'.cache, e)]
  {
    hide FirstCause, Entered;
  }

  lemma LifeKeepsSightings(s: State, step: LifeStep)
    requires LifeEnabled(s, step)
    ensures ApplyLife(s, step).past.sightings == s.past.sightings
  {}

  lemma WorkKeepsSightings(s: State, w: nat, step: WorkStep)
    requires WorkEnabled(s, w, step)
    ensures ApplyWork(s, w, step).past.sightings == s.past.sightings
  {}

  /**
   The outcome recorded for a scan: success exactly without an error, and a pause exactly for a schedule whose scan was
   cancelled with the blackout pause as its context's first cancellation.
   */
  lemma OutcomeIsRecorded(s: State, w: nat)
    requires Reachable(s) && w in s.loops && s.loops[w].Returned?
    ensures Enabled(s, Working(w, Report)) && s.loops[w].job.ticket in s.causes
    ensures var job, outcomes := s.loops[w].job, Apply(s, Working(w, Report)).past.outcomes;
      && job.ticket in outcomes && outcomes == s.past.outcomes[job.ticket := outcomes[job.ticket]]
      && (outcomes[job.ticket] == Succeeded <==> s.loops[w].err.NoError?)
      && (outcomes[job.ticket] == PausedBlackout <==>
            job.key.ScheduleKey? && s.loops[w].err.CanceledError? && s.causes[job.ticket].BlackoutPause?)
  {
    ResultsNeverBlock(s, w);
    hide Reachable, ApplyLife, ApplyTick, ApplyDispatch, ApplyCaller;
  }

  /** The result of an ad-hoc run reaches the caller that waits for it, once. */
  lemma ResultReachesCaller(s: State, w: nat, n: nat)
    requires Reachable(s) && w in s.loops && s.loops[w].Returned? && s.loops[w].job.key.AdHocKey?
    requires n in s.waiting && s.waiting[n] == s.loops[w].job.ticket
    ensures Enabled(s, Working(w, Report)) && var s' := Apply(s, Working(w, Report));
      && s.loops[w].job.ticket !in s.results && s.loops[w].job.ticket in s'.results
      && Enabled(s', Calling(n, Receive)) && var s'' := Apply(s', Calling(n, Receive));
      n !in s''.waiting && s''.results == s.results
  {
    ResultsNeverBlock(s, w);
    hide Reachable, ApplyLife, ApplyTick, ApplyDispatch;
  }

  /** And it is never changed afterwards. */
  lemma OutcomesStay(s: State, step: Step, t: nat)
    requires Reachable(s) && Enabled(s, step) && t in s.past.outcomes
    ensures t in Apply(s, step).past.outcomes && Apply(s, step).past.outcomes[t] == s.past.outcomes[t]
  {
    hide ApplyLife, ApplyTick, ApplyDispatch, ApplyCaller, ApplyWork, Inv, Reachable;
    ReachableInv(s);
    InvParts(s);
    match step
    case Life(l) => LifeKeepsOutcomes(s, l);
    case Ticking(k) => TickKeepsOutcomes(s, k);
    case Dispatching(a, d) => DispatchSees(s, a, d);
    case Calling(n, c) => CallSees(s, n, c);
    case Working(w, k) => WorkKeepsOutcomes(s, w, k, t);
  }

  lemma LifeKeepsOutcomes(s: State, step: LifeStep)
    requires LifeEnabled(s, step)
    ensures ApplyLife(s, step).past.outcomes == s.past.outcomes
  {}

  lemma TickKeepsOutcomes(s: State, step: TickStep)
    requires TickEnabled(s, step)
    ensures ApplyTick(s, step).past.outcomes == s.past.outcomes
  {}

  lemma WorkKeepsOutcomes(s: State, w: nat, step: WorkStep, t: nat)
    requires RecordsExact(s) && WorkEnabled(s, w, step) && t in s.past.outcomes
    ensures t in ApplyWork(s, w, step).past.outcomes && ApplyWork(s, w, step).past.outcomes[t] == s.past.outcomes[t]
  {
    if s.loops[w].HasJob() {
      assert At(s, OnLoop(w), s.loops[w].job.ticket);
      assert RecordsAgree(s, OnLoop(w), s.loops[w].job.ticket);
    }
    hide RecordsExact, RecordsAgree;
  }

  /** A goroutine panics exactly on a send that meets the closed queue, and such a send is an ad-hoc caller's. */
  lemma PanicIsACaller(s: State, step: Step)
    requires Reachable(s) && Enabled(s, step)
    ensures Panicked(Apply(s, step)) <==> Panicked(s) || (step.Dispatching? && step.dispatch.Send? && s.pool.stopped)
    ensures step.Dispatching? && step.dispatch.Send? && s.pool.stopped ==> step.actor.Caller?
  {
    hide Apply, Inv, Panicked;
    ReachableInv(s);
    PanicsOnClosedQueue(s, step);
  }

  lemma PanicsOnClosedQueue(s: State, step: Step)
    requires Inv(s) && Enabled(s, step)
    ensures Panicked(Apply(s, step)) <==> Panicked(s) || (step.Dispatching? && step.dispatch.Send? && s.pool.stopped)
    ensures step.Dispatching? && step.dispatch.Send? && s.pool.stopped ==> step.actor.Caller?
  {
    hide ApplyLife, ApplyTick, ApplyDispatch, ApplyCaller, ApplyWork, Inv;
    InvParts(s);
    match step
    case Life(l) => LifeKeepsCause(s, l, 0);
    case Ticking(t) => TickKeepsCause(s, t, 0);
    case Dispatching(a, d) => DispatchPanics(s, a, d); TickerSendsEarly(s, a, d);
    case Calling(n, c) => CallKeepsCause(s, n, c, 0);
    case Working(w, k) => WorkKeepsCause(s, w, k, 0);
  }

  lemma DispatchPanics(s: State, a: Actor, step: DispatchStep)
    requires DispatchEnabled(s, a, step)
    ensures Panicked(ApplyDispatch(s, a, step)) <==> Panicked(s) || (step.Send? && s.pool.stopped)
  {
    var s' := ApplyDispatch(s, a, step);
    ClaimAfter(s, a, step);
    hide ApplyDispatch, DispatchEnabled;
    if b :| b in s.claims && s.claims[b].stage.Dead? {
      assert b != a && s'.claims[b].stage.Dead?;
    }
  }

  /**
   A dispatch step is for a living dispatcher; it leaves the others' claims alone and kills its own on a closed queue.
   */
  lemma ClaimAfter(s: State, a: Actor, step: DispatchStep)
    requires DispatchEnabled(s, a, step)
    ensures var s' := ApplyDispatch(s, a, step);
      && (a in s.claims ==> !s.claims[a].stage.Dead?)
      && (forall b :: b != a ==> (b in s.claims <==> b in s'.claims) && (b in s.claims ==> s'.claims[b] == s.claims[b]))
      && (a in s'.claims && s'.claims[a].stage.Dead? <==> step.Send? && s.pool.stopped)
  {}

  /** The claim of a dispatcher that has panicked is never given up. */
  lemma {:induction false} DeadForGood(s: State, a: Actor, steps: seq<Step>)
    requires Inv(s) && CanRun(s, steps) && a in s.claims && s.claims[a].stage.Dead?
    ensures Inv(Run(s, steps)) && a in Run(s, steps).claims && Run(s, steps).claims[a] == s.claims[a]
    ensures Run(s, steps).registry == s.registry
    decreases |steps|
  {
    hide Inv, Apply, Enabled;
    if steps != [] {
      var step, next := steps[0], Apply(s, steps[0]);
      InvKept(s, step);
      RegistryIsFixed(s, step);
      if step.Dispatching? {
        StepsApart(s, step);
        ClaimAfter(s, step.actor, step.dispatch);
      } else {
        OthersLeaveClaims(s, step);
      }
      DeadForGood(next, a, steps[1..]);
    }
  }

  lemma StepsApart(s: State, step: Step)
    requires Enabled(s, step) && step.Dispatching?
    ensures DispatchEnabled(s, step.actor, step.dispatch)
    ensures Apply(s, step) == ApplyDispatch(s, step.actor, step.dispatch)
  {
    hide ApplyDispatch, DispatchEnabled;
  }

  lemma OthersLeaveClaims(s: State, step: Step)
    requires Inv(s) && Enabled(s, step) && !step.Dispatching?
    ensures Apply(s, step).claims == s.claims
  {
    hide ApplyLife, ApplyTick, ApplyDispatch, ApplyCaller, ApplyWork, Inv;
    InvParts(s);
    match step
    case Life(l) => LifeKeepsCause(s, l, 0);
    case Ticking(t) => TickKeepsCause(s, t, 0);
    case Calling(n, c) => CallKeepsCause(s, n, c, 0);
    case Working(w, k) => WorkKeepsCause(s, w, k, 0);
  }

  /** A caller that has panicked keeps its target locked in every state from then on, against everybody else. */
  lemma PanicLeaksTheLock(s: State, a: Actor, steps: seq<Step>)
    requires Reachable(s) && CanRun(s, steps) && a in s.claims && s.claims[a].stage.Dead?
    ensures s.claims[a].key in s.registry && s.registry[s.claims[a].key] in Run(s, steps).locks
    ensures forall o :: Owns(Run(s, steps), o, s.registry[s.claims[a].key]) ==> o == Dispatcher(a)
  {
    hide Apply, Enabled, CanRun, Run, Inv;
    ReachableInv(s);
    DeadForGood(s, a, steps);
    InvParts(s);
    ClaimHoldsLock(Run(s, steps), a);
  }

  lemma ClaimHoldsLock(s: State, a: Actor)
    requires Inv(s) && a in s.claims && s.claims[a].key in s.registry
    ensures ClaimTarget(s, a) in s.locks
    ensures forall o :: Owns(s, o, ClaimTarget(s, a)) ==> o == Dispatcher(a)
  {
    assert Owns(s, Dispatcher(a), ClaimTarget(s, a));
  }

  /** A run of one more step at its front. */
  lemma RunCons(s: State, step: Step, rest: seq<Step>)
    requires Enabled(s, step) && CanRun(Apply(s, step), rest)
    ensures CanRun(s, [step] + rest) && Run(s, [step] + rest) == Run(Apply(s, step), rest)
  {
    hide Apply, Enabled;
    assert ([step] + rest)[1..] == rest;
  }

  /** A caller past the stopped check, about to send a job for `key`. */
  function MidSend(registry: map<Key, string>, cache: Snapshot, size: int, key: Key): State
    requires key in registry
  {
    Initial(registry, cache, size).(locks := {registry[key]}, claims := map[Caller(0) := Claim(key, Sending)])
  }

  const FIRST_HALF := [Life(StartPool)] + ([Life(Cancel)] + [])
  const SECOND_HALF := [Ticking(TickerExits)] + ([Life(StopPool)] + ([Dispatching(Caller(0), Send)] + []))

  /** The scheduler starts and is cancelled. */
  lemma StartAndCancel(s: State)
    requires !s.pool.started && !s.pool.stopped && !s.cancelled
    ensures CanRun(s, FIRST_HALF) && var s' := Run(s, FIRST_HALF);
      && s'.pool.started && !s'.pool.stopped && s'.cancelled && s'.ticker == s.ticker && s'.claims == s.claims
      && s'.registry == s.registry
  {
    var s1 := Apply(s, Life(StartPool));
    assert s1.pool == StartedPool(s.pool) && s1.ticker == s.ticker && s1.claims == s.claims && !s1.cancelled;
    assert s1.registry == s.registry;
    var s2 := Apply(s1, Life(Cancel));
    assert s2.pool == s1.pool && s2.ticker == s.ticker && s2.claims == s.claims
           && s2.cancelled && s2.registry == s.registry;
    assert CanRun(s2, []);
    hide Apply, Enabled, CanRun, Run;
    RunCons(s1, Life(Cancel), []);
    RunCons(s, Life(StartPool), [Life(Cancel)] + []);
    assert Run(s2, []) == s2 by { EmptyRun(s2); }
  }

  lemma EmptyRun(s: State)
    ensures CanRun(s, []) && Run(s, []) == s
  {}

  /** The tick goroutine ends, the queue is closed, and the send of a caller past the check meets it. */
  lemma SendComesLate(s: State)
    requires s.pool.started && !s.pool.stopped && s.cancelled && s.ticker.Waiting? && Claims(s, Caller(0), Sending)
    ensures CanRun(s, SECOND_HALF) && Panicked(Run(s, SECOND_HALF))
  {
    var s1 := Apply(s, Ticking(TickerExits));
    assert s1 == s.(ticker := Exited);
    var s2 := Apply(s1, Life(StopPool));
    assert s2 == s1.(pool := s.pool.(stopped := true));
    assert Enabled(s2, Dispatching(Caller(0), Send));
    var s3 := Apply(s2, Dispatching(Caller(0), Send));
    assert s3.claims[Caller(0)].stage.Dead?;
    EmptyRun(s3);
    hide Apply, Enabled, CanRun, Run;
    RunCons(s2, Dispatching(Caller(0), Send), []);
    RunCons(s1, Life(StopPool), [Dispatching(Caller(0), Send)] + []);
    RunCons(s, Ticking(TickerExits), [Life(StopPool)] + ([Dispatching(Caller(0), Send)] + []));
  }

  lemma {:induction false} RunAppends(s: State, xs: seq<Step>, ys: seq<Step>)
    requires CanRun(s, xs) && CanRun(Run(s, xs), ys)
    ensures CanRun(s, xs + ys) && Run(s, xs + ys) == Run(Run(s, xs), ys)
    decreases |xs|
  {
    hide Enabled, Apply;
    if xs == [] {
      assert xs + ys == ys;
    } else {
      assert (xs + ys)[1..] == xs[1..] + ys;
      RunAppends(Apply(s, xs[0]), xs[1..], ys);
    }
  }

  /** The scheduler starts and shuts down meanwhile, and the send meets the closed queue. */
  lemma ShutdownOvertakes(registry: map<Key, string>, cache: Snapshot, size: int, key: Key)
    requires key in registry && key.AdHocKey?
    ensures CanRun(MidSend(registry, cache, size, key), FIRST_HALF + SECOND_HALF)
    ensures Panicked(Run(MidSend(registry, cache, size, key), FIRST_HALF + SECOND_HALF))
  {
    hide Apply, Enabled, CanRun, Run, Panicked, FIRST_HALF, SECOND_HALF;
    var s := MidSend(registry, cache, size, key);
    StartAndCancel(s);
    SendComesLate(Run(s, FIRST_HALF));
    RunAppends(s, FIRST_HALF, SECOND_HALF);
  }

  /** An ad-hoc dispatch that races the shutdown can panic, whatever the snapshot was at first. */
  lemma ACallerCanPanic(registry: map<Key, string>, cache: Snapshot, size: int, key: Key)
    requires key in registry && key.AdHocKey? && registry[key] != ""
    ensures exists steps ::
              CanRun(Initial(registry, cache, size), steps) && Panicked(Run(Initial(registry, cache, size), steps))
  {
    hide Apply, Enabled, CanRun, Run, MidSend, Initial, Panicked, FIRST_HALF, SECOND_HALF;
    var a, s := Caller(0), Initial(registry, cache, size);
    var none: Snapshot := iset{};
    ShutdownOvertakes(registry, none, size, key);
    CallerArrives(registry, none, size, key, 0);
    SnapshotAtFirst(registry, cache, none, size);
    RunFirstThree(Initial(registry, none, size), Dispatching(a, Acquire(key)), Dispatching(a, CheckBlackout(0)),
                  Dispatching(a, Offer), FIRST_HALF + SECOND_HALF);
    var steps :| CanRun(Initial(registry, none, size), steps) && Panicked(Run(Initial(registry, none, size), steps));
    RunCons(s, Life(RefreshCache(none)), steps);
  }

  lemma SnapshotAtFirst(registry: map<Key, string>, cache: Snapshot, cache': Snapshot, size: int)
    ensures Enabled(Initial(registry, cache, size), Life(RefreshCache(cache')))
    ensures Apply(Initial(registry, cache, size), Life(RefreshCache(cache'))) == Initial(registry, cache', size)
  {}

  lemma RunFirstThree(s: State, x: Step, y: Step, z: Step, rest: seq<Step>)
    requires Enabled(s, x) && Enabled(Apply(s, x), y) && Enabled(Apply(Apply(s, x), y), z)
    requires CanRun(Apply(Apply(Apply(s, x), y), z), rest)
    ensures exists steps :: CanRun(s, steps) && Run(s, steps) == Run(Apply(Apply(Apply(s, x), y), z), rest)
  {
    hide Apply, Enabled, CanRun, Run;
    RunCons(Apply(Apply(s, x), y), z, rest);
    RunCons(Apply(s, x), y, [z] + rest);
    RunCons(s, x, [y] + ([z] + rest));
  }

  lemma CallerArrives(registry: map<Key, string>, cache: Snapshot, size: int, key: Key, at: int)
    requires key in registry && key.AdHocKey? && registry[key] != "" && (registry[key], at) !in cache
    ensures var a, s := Caller(0), Initial(registry, cache, size);
      && Enabled(s, Dispatching(a, Acquire(key)))
      && var s1 := Apply(s, Dispatching(a, Acquire(key)));
      && Enabled(s1, Dispatching(a, CheckBlackout(at)))
      && var s2 := Apply(s1, Dispatching(a, CheckBlackout(at)));
      && Enabled(s2, Dispatching(a, Offer))
      && Apply(s2, Dispatching(a, Offer)) == MidSend(registry, cache, size, key)
  {
    hide ApplyLife, ApplyTick, ApplyCaller, ApplyWork;
    var a, s := Caller(0), Initial(registry, cache, size);
    var s1 := Apply(s, Dispatching(a, Acquire(key)));
    assert s1 == s.(locks := {registry[key]}, claims := map[a := Claim(key, Checking)]);
    var s2 := Apply(s1, Dispatching(a, CheckBlackout(at)));
    assert s2 == s1.(claims := map[a := Claim(key, Offering)]);
  }

  /** A run that panics had an ad-hoc run with a target to dispatch. */
  lemma {:induction false} PanicNeedsAdHoc(s: State, steps: seq<Step>)
    requires Inv(s) && !Panicked(s) && CanRun(s, steps) && Panicked(Run(s, steps))
    ensures exists key :: key in s.registry && key.AdHocKey? && s.registry[key] != ""
    decreases |steps|
  {
    hide Enabled, Apply, Inv, Panicked;
    var next := Apply(s, steps[0]);
    if Panicked(next) {
      PanicsOnClosedQueue(s, steps[0]);
      PanickerHasTarget(s, steps[0].actor);
    } else {
      InvKept(s, steps[0]);
      RegistryIsFixed(s, steps[0]);
      PanicNeedsAdHoc(next, steps[1..]);
    }
  }

  lemma PanickerHasTarget(s: State, a: Actor)
    requires Inv(s) && a.Caller? && Enabled(s, Dispatching(a, Send))
    ensures exists key :: key in s.registry && key.AdHocKey? && s.registry[key] != ""
  {
    InvParts(s);
    hide Inv;
    assert s.claims[a].key in s.registry;
  }

  lemma RegistryIsFixed(s: State, step: Step)
    requires Inv(s) && Enabled(s, step)
    ensures Apply(s, step).registry == s.registry
  {
    hide ApplyLife, ApplyTick, ApplyDispatch, ApplyCaller, ApplyWork, Inv;
    InvParts(s);
    match step
    case Life(l) => LifeKeepsCause(s, l, 0);
    case Ticking(t) => TickKeepsCause(s, t, 0);
    case Dispatching(a, d) => DispatchKeepsCause(s, a, d, 0);
    case Calling(n, c) => CallKeepsCause(s, n, c, 0);
    case Working(w, k) => WorkKeepsCause(s, w, k, 0);
  }

  /** Some run of the scheduler panics exactly when there is an ad-hoc run with a target to dispatch. */
  lemma PanicCondition(registry: map<Key, string>, cache: Snapshot, size: int)
    ensures (exists steps ::
               CanRun(Initial(registry, cache, size), steps) && Panicked(Run(Initial(registry, cache, size), steps)))
            <==> exists key :: key in registry && key.AdHocKey? && registry[key] != ""
  {
    var s := Initial(registry, cache, size);
    InitialInv(registry, cache, size);
    assert !Panicked(s) && s.registry == registry;
    hide Inv, CanRun, Run, Initial, Panicked;
    if steps :| CanRun(s, steps) && Panicked(Run(s, steps)) {
      PanicNeedsAdHoc(s, steps);
    }
    if key :| key in registry && key.AdHocKey? && registry[key] != "" {
      ACallerCanPanic(registry, cache, size, key);
    }
  }

  /** The tick goroutine dispatches only while it is looping, when the queue cannot have been closed. */
  lemma TickerSendsEarly(s: State, a: Actor, step: DispatchStep)
    requires ClosedLate(s) && Enabled(s, Dispatching(a, step))
    ensures a.Ticker? && step.Send? ==> !s.pool.stopped
  {}

  // ----- how much runs at once -----

  /**
   Between start and shutdown the pool has `size` loops, plus pending and lost tokens, minus the tokens
   queued before the start. So it falls below `size` exactly when more tokens were queued early than are
   pending or lost, and never otherwise; the jobs being run never exceed the loops.
   */
  lemma LoopsMatchSize(s: State)
    requires Reachable(s) && s.pool.started && !s.pool.stopped && !s.cancelled
    ensures |s.loops.Keys| + s.past.early == s.pool.size + s.pool.tokens + s.past.lost
    ensures |s.loops.Keys| < s.pool.size <==> s.pool.tokens + s.past.lost < s.past.early
    ensures s.pool.active <= |BusyLoops(s.loops)| <= |s.loops.Keys|
  {
    ReachableInv(s);
    Sets.SmallerThan(CountedLoops(s.loops), BusyLoops(s.loops));
    Sets.SmallerThan(BusyLoops(s.loops), s.loops.Keys);
  }

  ghost predicate NoResize(steps: seq<Step>) {
    forall i :: 0 <= i < |steps| ==> !(steps[i].Life? && steps[i].life.Resize?)
  }

  lemma {:induction false} SizeIsKept(s: State, steps: seq<Step>)
    requires Inv(s) && NeverResized(s) && CanRun(s, steps) && NoResize(steps)
    ensures NeverResized(Run(s, steps)) && Run(s, steps).pool.size == s.pool.size && Inv(Run(s, steps))
    decreases |steps|
  {
    hide Inv, Enabled, Apply, NeverResized;
    if steps != [] {
      InvKept(s, steps[0]);
      StepKeepsSize(s, steps[0]);
      SizeIsKept(Apply(s, steps[0]), steps[1..]);
    }
  }

  lemma StepKeepsSize(s: State, step: Step)
    requires Inv(s) && NeverResized(s) && Enabled(s, step) && !(step.Life? && step.life.Resize?)
    ensures NeverResized(Apply(s, step)) && Apply(s, step).pool.size == s.pool.size
  {
    hide ApplyLife, ApplyTick, ApplyDispatch, ApplyWork, NeverResized;
    match step
    case Life(l) => LifeKeepsSize(s, l);
    case Ticking(t) => TickKeepsSize(s, t);
    case Dispatching(a, d) => DispatchKeepsSize(s, a, d);
    case Calling(n, c) => CallKeepsSize(s, n, c);
    case Working(w, k) => WorkKeepsSize(s, w, k);
  }

  lemma CallKeepsSize(s: State, n: nat, step: CallerStep)
    requires NeverResized(s) && CallerEnabled(s, n, step)
    ensures NeverResized(ApplyCaller(s, n, step)) && ApplyCaller(s, n, step).pool.size == s.pool.size
  {}

  /** Without a resize at most `size` jobs run and at most twice that many accepted jobs are unfinished. */
  lemma BoundedConcurrency(registry: map<Key, string>, cache: Snapshot, size: int, steps: seq<Step>)
    requires CanRun(Initial(registry, cache, size), steps) && NoResize(steps)
    ensures var s := Run(Initial(registry, cache, size), steps);
      s.pool.size == Normalized(size) && |BusyLoops(s.loops)| <= Normalized(size)
      && s.nextTicket - |s.past.finished| <= 2 * Normalized(size)
  {
    var s0 := Initial(registry, cache, size);
    InitialInv(registry, cache, size);
    assert |s0.loops.Keys| == 0;
    SizeIsKept(s0, steps);
    var s := Run(s0, steps);
    Sets.SmallerThan(BusyLoops(s.loops), s.loops.Keys);
  }
}
