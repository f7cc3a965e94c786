/** What every step of the scheduler keeps: lock ownership, the in-flight table, tickets and results. */
module SchedulerSafety {
  import opened Options
  import opened Jobs
  import opened WorkerPools
  import opened SchedulerSteps

  // ----- well-formedness -----

  predicate Known(s: State, j: Job) {
    j.key in s.registry && s.registry[j.key] == j.target
  }

  ghost predicate ClaimsShaped(s: State) {
    forall a :: a in s.claims ==>
      s.claims[a].key in s.registry && (a.Caller? ==> s.claims[a].key.AdHocKey? && s.registry[s.claims[a].key] != "")
  }

  ghost predicate TickerShaped(s: State) {
    && (s.ticker.Looping? ==> s.ticker.dispatched <= s.ticker.free)
    && (s.ticker.Looping? ==> forall k :: k in s.ticker.due ==> k.ScheduleKey? && k in s.registry)
    && (Ticker in s.claims ==>
          s.ticker.Looping? && s.ticker.due != [] && s.ticker.due[0] == s.claims[Ticker].key
          && s.ticker.dispatched < s.ticker.free)
  }

  ghost predicate JobsShaped(s: State) {
    && (forall j :: j in s.pool.queue ==> Known(s, j))
    && (forall w :: w in s.loops && s.loops[w].HasJob() ==> Known(s, s.loops[w].job))
  }

  ghost predicate PoolShaped(s: State) {
    && s.pool.size > 0 && s.pool.capacity > 0 && |s.pool.queue| <= s.pool.capacity
    && (forall j :: j in s.pool.queue ==> j.ticket < s.nextTicket)
    && (forall w :: w in s.loops && s.loops[w].HasJob() ==> s.loops[w].job.ticket < s.nextTicket)
    && (forall w :: w in s.loops ==> w < s.nextLoop)
  }

  ghost predicate Shape(s: State) {
    ClaimsShaped(s) && TickerShaped(s) && JobsShaped(s) && PoolShaped(s)
  }

  lemma LifeKeepsShape(s: State, step: LifeStep)
    requires Shape(s) && LifeEnabled(s, step)
    ensures Shape(ApplyLife(s, step))
  {
    LifeKeepsJobs(s, step);
    hide WithFreshLoops, JobsShaped, PoolShaped;
  }

  lemma LifeKeepsJobs(s: State, step: LifeStep)
    requires JobsShaped(s) && PoolShaped(s) && LifeEnabled(s, step)
    ensures JobsShaped(ApplyLife(s, step)) && PoolShaped(ApplyLife(s, step))
  {
    hide Numbers;
  }

  lemma TickKeepsShape(s: State, step: TickStep)
    requires Shape(s) && TickEnabled(s, step)
    ensures Shape(ApplyTick(s, step))
  {
    TickKeepsRest(s, step);
    hide JobsShaped, PoolShaped;
  }

  lemma TickKeepsRest(s: State, step: TickStep)
    requires JobsShaped(s) && PoolShaped(s) && TickEnabled(s, step)
    ensures JobsShaped(ApplyTick(s, step)) && PoolShaped(ApplyTick(s, step))
  {}

  lemma DispatchKeepsJobs(s: State, a: Actor, step: DispatchStep)
    requires JobsShaped(s) && PoolShaped(s) && DispatchEnabled(s, a, step)
    ensures JobsShaped(ApplyDispatch(s, a, step)) && PoolShaped(ApplyDispatch(s, a, step))
  {}

  lemma DispatchKeepsClaims(s: State, a: Actor, step: DispatchStep)
    requires ClaimsShaped(s) && TickerShaped(s) && DispatchEnabled(s, a, step)
    ensures ClaimsShaped(ApplyDispatch(s, a, step)) && TickerShaped(ApplyDispatch(s, a, step))
  {}

  lemma WorkKeepsJobs(s: State, w: nat, step: WorkStep)
    requires JobsShaped(s) && WorkEnabled(s, w, step)
    ensures JobsShaped(ApplyWork(s, w, step))
  {
    if step.Take? {
      assert forall j :: j in s.pool.queue[1..] ==> j in s.pool.queue;
      assert s.pool.queue[0] in s.pool.queue;
    }
  }

  lemma WorkKeepsPool(s: State, w: nat, step: WorkStep)
    requires PoolShaped(s) && WorkEnabled(s, w, step)
    ensures PoolShaped(ApplyWork(s, w, step))
  {
    if step.Take? {
      assert forall j :: j in s.pool.queue[1..] ==> j in s.pool.queue;
      assert s.pool.queue[0] in s.pool.queue;
    }
  }

  lemma WorkKeepsRest(s: State, w: nat, step: WorkStep)
    requires WorkEnabled(s, w, step)
    ensures ClaimsShaped(s) ==> ClaimsShaped(ApplyWork(s, w, step))
    ensures TickerShaped(s) ==> TickerShaped(ApplyWork(s, w, step))
  {}

  lemma ShapeKept(s: State, step: Step)
    requires Shape(s) && Enabled(s, step)
    ensures Shape(Apply(s, step))
  {
    hide ApplyLife, ApplyTick, ApplyDispatch, ApplyWork, ClaimsShaped, TickerShaped, JobsShaped, PoolShaped;
    match step
    case Life(l) => LifeKeepsShape(s, l);
    case Ticking(t) => TickKeepsShape(s, t);
    case Dispatching(a, d) => DispatchKeepsJobs(s, a, d); DispatchKeepsClaims(s, a, d);
    case Calling(n, c) => CallKeepsShape(s, n, c);
    case Working(w, k) => WorkKeepsJobs(s, w, k); WorkKeepsPool(s, w, k); WorkKeepsRest(s, w, k);
  }

  lemma CallKeepsShape(s: State, n: nat, step: CallerStep)
    requires Shape(s) && CallerEnabled(s, n, step)
    ensures Shape(ApplyCaller(s, n, step))
  {}

  // ----- who owns a target's lock -----

  /** A dispatcher mid-dispatch, a queued job, or a worker loop running a job. */
  datatype Owner = Dispatcher(a: Actor) | QueuedJob(job: Job) | Loop(w: nat)

  predicate Owns(s: State, o: Owner, target: string) {
    match o
    case Dispatcher(a) => a in s.claims && s.claims[a].key in s.registry && ClaimTarget(s, a) == target
    case QueuedJob(j) => j in s.pool.queue && j.target == target
    case Loop(w) => w in s.loops && s.loops[w].Locking() && s.loops[w].job.target == target
  }

  /** No two places in the queue share a target. */
  ghost predicate QueueApart(s: State) {
    forall i, j :: 0 <= i < j < |s.pool.queue| ==> s.pool.queue[i].target != s.pool.queue[j].target
  }

  /** No two owners share a target. */
  ghost predicate SoleOwners(s: State) {
    QueueApart(s) && forall o1, o2, t :: Owns(s, o1, t) && Owns(s, o2, t) ==> o1 == o2
  }

  /** A target's lock is held exactly when the target has an owner. */
  ghost predicate LocksOwned(s: State) {
    && (forall o, t :: Owns(s, o, t) ==> t in s.locks)
    && (forall t :: t in s.locks ==> exists o :: Owns(s, o, t))
  }

  /**
   Who owns what after a step. Taking a lock creates a title, an accepted send passes the dispatcher's on
   to the queued job, a take passes the job's on to the loop, and the three releases end their own actor's.
   */
  predicate OwnsAfter(s: State, step: Step, o: Owner, target: string)
    requires Enabled(s, step)
  {
    match step
    case Dispatching(a, Acquire(key)) => Owns(s, o, target) || (o == Dispatcher(a) && target == s.registry[key])
    case Dispatching(a, Refuse) => Owns(s, o, target) && o != Dispatcher(a)
    case Dispatching(a, Bounce) => Owns(s, o, target) && o != Dispatcher(a)
    case Dispatching(a, Send) =>
      if Accepted(s) then
        (Owns(s, o, target) && o != Dispatcher(a)) || (o == QueuedJob(NextJob(s, a)) && target == ClaimTarget(s, a))
      else Owns(s, o, target)
    case Working(w, Take) =>
      (Owns(s, o, target) && o != QueuedJob(s.pool.queue[0])) || (o == Loop(w) && target == s.pool.queue[0].target)
    case Working(w, Unlock) => Owns(s, o, target) && o != Loop(w)
    case _ => Owns(s, o, target)
  }

  lemma LifeTitles(s: State, step: LifeStep, o: Owner, target: string)
    requires Shape(s) && Enabled(s, Life(step))
    ensures Owns(ApplyLife(s, step), o, target) <==> OwnsAfter(s, Life(step), o, target)
  {}

  lemma TickTitles(s: State, step: TickStep, o: Owner, target: string)
    requires Enabled(s, Ticking(step))
    ensures Owns(ApplyTick(s, step), o, target) <==> OwnsAfter(s, Ticking(step), o, target)
  {}

  lemma DispatchTitles(s: State, a: Actor, step: DispatchStep, o: Owner, target: string)
    requires Enabled(s, Dispatching(a, step))
    ensures Owns(ApplyDispatch(s, a, step), o, target) <==> OwnsAfter(s, Dispatching(a, step), o, target)
  {}

  lemma WorkTitles(s: State, w: nat, step: WorkStep, o: Owner, target: string)
    requires Shape(s) && SoleOwners(s) && Enabled(s, Working(w, step))
    ensures Owns(ApplyWork(s, w, step), o, target) <==> OwnsAfter(s, Working(w, step), o, target)
  {
    hide Shape, SoleOwners, OwnsAfter, Owns, ApplyWork, WorkEnabled;
    if step.Take? {
      TakeTitles(s, w, o, target);
    } else {
      OtherWorkTitles(s, w, step, o, target);
    }
  }

  lemma OtherWorkTitles(s: State, w: nat, step: WorkStep, o: Owner, target: string)
    requires Enabled(s, Working(w, step)) && !step.Take?
    ensures Owns(ApplyWork(s, w, step), o, target) <==> OwnsAfter(s, Working(w, step), o, target)
  {}

  lemma TakeTitles(s: State, w: nat, o: Owner, target: string)
    requires Shape(s) && SoleOwners(s) && Enabled(s, Working(w, Take))
    ensures Owns(ApplyWork(s, w, Take), o, target) <==> OwnsAfter(s, Working(w, Take), o, target)
  {
    assert forall j :: j in s.pool.queue <==> j == s.pool.queue[0] || j in s.pool.queue[1..];
    if o.QueuedJob? && o.job in s.pool.queue[1..] {
      assert o.job != s.pool.queue[0];
    }
  }

  lemma Titles(s: State, step: Step, o: Owner, target: string)
    requires Shape(s) && SoleOwners(s) && Enabled(s, step)
    ensures Owns(Apply(s, step), o, target) <==> OwnsAfter(s, step, o, target)
  {
    hide ApplyLife, ApplyTick, ApplyDispatch, ApplyWork, OwnsAfter, Owns;
    match step
    case Life(l) => LifeTitles(s, l, o, target);
    case Ticking(t) => TickTitles(s, t, o, target);
    case Dispatching(a, d) => DispatchTitles(s, a, d, o, target);
    case Calling(n, c) => CallTitles(s, n, c, o, target);
    case Working(w, k) => WorkTitles(s, w, k, o, target);
  }

  lemma CallTitles(s: State, n: nat, step: CallerStep, o: Owner, target: string)
    requires Enabled(s, Calling(n, step))
    ensures Owns(ApplyCaller(s, n, step), o, target) <==> OwnsAfter(s, Calling(n, step), o, target)
  {}

  /** The set of taken locks after a step. */
  function LocksAfter(s: State, step: Step): set<string>
    requires Enabled(s, step)
  {
    match step
    case Dispatching(a, Acquire(key)) => s.locks + {s.registry[key]}
    case Dispatching(a, Refuse) => s.locks - {ClaimTarget(s, a)}
    case Dispatching(a, Bounce) => s.locks - {ClaimTarget(s, a)}
    case Working(w, Unlock) => s.locks - {s.loops[w].job.target}
    case _ => s.locks
  }

  /** The job queue after a step. */
  function QueueAfter(s: State, step: Step): seq<Job>
    requires Enabled(s, step)
  {
    match step
    case Dispatching(a, Send) => if Accepted(s) then s.pool.queue + [NextJob(s, a)] else s.pool.queue
    case Working(w, Take) => s.pool.queue[1..]
    case _ => s.pool.queue
  }

  /** The step puts a job into the queue. */
  predicate Accepts(s: State, step: Step) {
    step.Dispatching? && step.dispatch.Send? && Accepted(s)
  }

  /** Tickets are numbered without gaps: a step accepts one job or none. */
  ghost predicate Moved(s: State, step: Step, s': State)
    requires Enabled(s, step)
  {
    && s'.locks == LocksAfter(s, step)
    && s'.pool.queue == QueueAfter(s, step)
    && s'.nextTicket == s.nextTicket + (if Accepts(s, step) then 1 else 0)
  }

  lemma LifeMoves(s: State, step: LifeStep)
    requires Enabled(s, Life(step))
    ensures Moved(s, Life(step), ApplyLife(s, step))
  {}

  lemma TickMoves(s: State, step: TickStep)
    requires Enabled(s, Ticking(step))
    ensures Moved(s, Ticking(step), ApplyTick(s, step))
  {}

  lemma DispatchMoves(s: State, a: Actor, step: DispatchStep)
    requires Enabled(s, Dispatching(a, step))
    ensures Moved(s, Dispatching(a, step), ApplyDispatch(s, a, step))
  {}

  lemma CallMoves(s: State, n: nat, step: CallerStep)
    requires Enabled(s, Calling(n, step))
    ensures Moved(s, Calling(n, step), ApplyCaller(s, n, step))
  {}

  lemma WorkMoves(s: State, w: nat, step: WorkStep)
    requires Enabled(s, Working(w, step))
    ensures Moved(s, Working(w, step), ApplyWork(s, w, step))
  {}

  lemma Moves(s: State, step: Step)
    requires Enabled(s, step)
    ensures Moved(s, step, Apply(s, step))
  {
    hide ApplyLife, ApplyTick, ApplyDispatch, ApplyWork, ApplyCaller, Moved;
    match step
    case Life(l) => LifeMoves(s, l);
    case Ticking(t) => TickMoves(s, t);
    case Dispatching(a, d) => DispatchMoves(s, a, d);
    case Calling(n, c) => CallMoves(s, n, c);
    case Working(w, k) => WorkMoves(s, w, k);
  }

  lemma QueueApartKept(s: State, step: Step)
    requires Shape(s) && SoleOwners(s) && Enabled(s, step)
    ensures QueueApart(Apply(s, step))
  {
    hide Apply;
    Moves(s, step);
    if step.Dispatching? && step.dispatch.Send? {
      ActorOwns(s, step);
      forall i | 0 <= i < |s.pool.queue| ensures s.pool.queue[i].target != ClaimTarget(s, step.actor) {
        var j := s.pool.queue[i];
        assert Owns(s, QueuedJob(j), j.target);
      }
    }
  }

  /** Ownership stays exclusive and the taken locks stay exactly the owned targets, whatever step comes next. */
  lemma OwnershipKept(s: State, step: Step)
    requires Shape(s) && SoleOwners(s) && LocksOwned(s) && Enabled(s, step)
    ensures SoleOwners(Apply(s, step)) && LocksOwned(Apply(s, step))
  {
    hide Apply, Owns;
    var s' := Apply(s, step);
    QueueApartKept(s, step);
    Moves(s, step);
    forall o, t ensures Owns(s', o, t) <==> OwnsAfter(s, step, o, t) {
      Titles(s, step, o, t);
    }
    ActorOwns(s, step);
    forall t | t in s'.locks ensures exists o :: Owns(s', o, t) {
      var heir := Heir(s, step, t);
      if t in s.locks && step.Dispatching? && !step.dispatch.Acquire? && OwnerOf(s, t) == Dispatcher(step.actor) {
        OwnsOne(s, OwnerOf(s, t), t, ClaimTarget(s, step.actor));
      }
      if t in s.locks && step.Working? && step.work.Unlock? && OwnerOf(s, t) == Loop(step.w) {
        OwnsOne(s, OwnerOf(s, t), t, s.loops[step.w].job.target);
      }
      if t in s.locks && step.Working? && step.work.Take? && OwnerOf(s, t) == QueuedJob(s.pool.queue[0]) {
        OwnsOne(s, OwnerOf(s, t), t, s.pool.queue[0].target);
      }
      assert OwnsAfter(s, step, heir, t);
    }
  }

  lemma OwnsOne(s: State, o: Owner, t1: string, t2: string)
    requires Owns(s, o, t1) && Owns(s, o, t2)
    ensures t1 == t2
  {}

  /** The titles the acting party itself has before its step. */
  lemma ActorOwns(s: State, step: Step)
    requires Enabled(s, step)
    ensures step.Dispatching? && !step.dispatch.Acquire? ==> Owns(s, Dispatcher(step.actor), ClaimTarget(s, step.actor))
    ensures step.Working? && step.work.Take? ==> Owns(s, QueuedJob(s.pool.queue[0]), s.pool.queue[0].target)
    ensures step.Working? && step.work.Unlock? ==> Owns(s, Loop(step.w), s.loops[step.w].job.target)
  {}

  /** Who owns target `t` after the step, given that its lock is then taken. */
  ghost function Heir(s: State, step: Step, t: string): (heir: Owner)
    requires Enabled(s, step) && LocksOwned(s) && t in LocksAfter(s, step)
  {
    match step
    case Dispatching(a, Acquire(key)) =>
      if t == s.registry[key] then Dispatcher(a) else OwnerOf(s, t)
    case Dispatching(a, Send) =>
      if Accepted(s) && OwnerOf(s, t) == Dispatcher(a) then QueuedJob(NextJob(s, a)) else OwnerOf(s, t)
    case Working(w, Take) => if OwnerOf(s, t) == QueuedJob(s.pool.queue[0]) then Loop(w) else OwnerOf(s, t)
    case _ => OwnerOf(s, t)
  }

  ghost function OwnerOf(s: State, t: string): (o: Owner)
    requires LocksOwned(s) && t in s.locks
    ensures Owns(s, o, t)
  {
    var o :| Owns(s, o, t);
    o
  }
}
