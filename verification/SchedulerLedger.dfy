/** What every step of the scheduler keeps, continued: the in-flight table, the tickets and the counts. */
module SchedulerLedger {
  import opened Options
  import opened Jobs
  import opened WorkerPools
  import opened SchedulerSteps
  import opened SchedulerSafety

  // ----- the in-flight table -----

  predicate Runs(s: State, w: nat, key: Key) {
    w in s.loops && s.loops[w].InFlight() && s.loops[w].job.key == key
  }

  /** Every registered loop has its entry, and every entry has its loop. */
  ghost predicate TableExact(s: State) {
    && (forall w, key :: Runs(s, w, key) ==>
          key in s.inflight && s.inflight[key].ticket == s.loops[w].job.ticket
            && s.inflight[key].target == s.loops[w].job.target)
    && (forall key :: key in s.inflight ==> exists w :: Runs(s, w, key))
  }

  /** Loops that still hold their lock have different keys. */
  lemma KeysApart(s: State, v: nat, w: nat)
    requires Shape(s) && SoleOwners(s)
    requires v in s.loops && w in s.loops && s.loops[v].Locking() && s.loops[w].Locking()
    requires s.loops[v].job.key == s.loops[w].job.key
    ensures v == w
  {
    assert Owns(s, Loop(v), s.loops[v].job.target) && Owns(s, Loop(w), s.loops[w].job.target);
  }

  lemma RegisterKeepsTable(s: State, w: nat, at: int)
    requires Shape(s) && SoleOwners(s) && TableExact(s) && WorkEnabled(s, w, Register(at))
    ensures TableExact(ApplyWork(s, w, Register(at)))
  {
    var s' := ApplyWork(s, w, Register(at));
    var mine := s.loops[w].job.key;
    forall v, key | v != w ensures (Runs(s', v, key) <==> Runs(s, v, key)) && !Runs(s, v, mine) {
      if Runs(s, v, mine) {
        KeysApart(s, v, w);
      }
    }
    assert Runs(s', w, mine);
  }

  lemma UnregisterKeepsTable(s: State, w: nat)
    requires Shape(s) && SoleOwners(s) && TableExact(s) && WorkEnabled(s, w, Unregister)
    ensures TableExact(ApplyWork(s, w, Unregister))
  {
    var s' := ApplyWork(s, w, Unregister);
    var mine := s.loops[w].job.key;
    forall v, key | v != w ensures (Runs(s', v, key) <==> Runs(s, v, key)) && !Runs(s, v, mine) {
      if Runs(s, v, mine) {
        KeysApart(s, v, w);
      }
    }
    assert Runs(s, w, mine);
  }

  lemma OtherWorkKeepsTable(s: State, w: nat, step: WorkStep)
    requires TableExact(s) && WorkEnabled(s, w, step) && !step.Register? && !step.Unregister?
    ensures TableExact(ApplyWork(s, w, step))
  {
    hide Runs;
    var s' := ApplyWork(s, w, step);
    forall v, key ensures Runs(s', v, key) <==> Runs(s, v, key)
                  ensures Runs(s, v, key) ==>
                            v in s.loops && v in s'.loops && s.loops[v].HasJob()
                              && s'.loops[v].HasJob() && s'.loops[v].job == s.loops[v].job
    {
      WorkKeepsRun(s, w, step, v, key);
    }
    assert s'.inflight == s.inflight;
    hide ApplyWork;
  }

  lemma WorkKeepsTable(s: State, w: nat, step: WorkStep)
    requires Shape(s) && SoleOwners(s) && TableExact(s) && WorkEnabled(s, w, step)
    ensures TableExact(ApplyWork(s, w, step))
  {
    hide TableExact, Shape, SoleOwners, ApplyWork;
    if step.Register? {
      RegisterKeepsTable(s, w, step.at);
    } else if step.Unregister? {
      UnregisterKeepsTable(s, w);
    } else {
      OtherWorkKeepsTable(s, w, step);
    }
  }

  lemma WorkKeepsRun(s: State, w: nat, step: WorkStep, v: nat, key: Key)
    requires WorkEnabled(s, w, step) && !step.Register? && !step.Unregister?
    ensures Runs(ApplyWork(s, w, step), v, key) <==> Runs(s, v, key)
    ensures Runs(s, v, key) ==>
      v in s.loops && v in ApplyWork(s, w, step).loops && s.loops[v].HasJob() && ApplyWork(s, w, step).loops[v].HasJob()
      && ApplyWork(s, w, step).loops[v].job == s.loops[v].job
  {}

  // ----- tickets -----

  /** The stations of an accepted job. */
  datatype Place = InQueue(job: Job) | OnLoop(w: nat) | InPast(job: Job)

  predicate At(s: State, p: Place, ticket: nat) {
    match p
    case InQueue(j) => j in s.pool.queue && j.ticket == ticket
    case OnLoop(w) => w in s.loops && s.loops[w].HasJob() && s.loops[w].job.ticket == ticket
    case InPast(j) => j in s.past.finished && j.ticket == ticket
  }

  ghost predicate Placed(s: State, ticket: nat) {
    exists p :: At(s, p, ticket)
  }

  /** Every accepted ticket is in exactly one place, and nothing else is anywhere. */
  ghost predicate TicketsPlaced(s: State) {
    && (forall p, t: nat :: At(s, p, t) ==> t < s.nextTicket)
    && (forall t: nat {:trigger Placed(s, t)} :: t < s.nextTicket ==> Placed(s, t))
    && (forall p, q, t: nat :: At(s, p, t) && At(s, q, t) ==> p == q)
  }

  /** Where a ticket is after a step: accepted into the queue, taken by a loop, finished, or where it was. */
  predicate AtAfter(s: State, step: Step, p: Place, ticket: nat)
    requires Enabled(s, step)
  {
    match step
    case Dispatching(a, Send) =>
      At(s, p, ticket) || (Accepted(s) && p == InQueue(NextJob(s, a)) && ticket == s.nextTicket)
    case Working(w, Take) =>
      (At(s, p, ticket) && p != InQueue(s.pool.queue[0])) || (p == OnLoop(w) && ticket == s.pool.queue[0].ticket)
    case Working(w, End) =>
      (At(s, p, ticket) && p != OnLoop(w)) || (p == InPast(s.loops[w].job) && ticket == s.loops[w].job.ticket)
    case _ => At(s, p, ticket)
  }

  lemma LifePlaces(s: State, step: LifeStep, p: Place, t: nat)
    requires Shape(s) && Enabled(s, Life(step))
    ensures At(ApplyLife(s, step), p, t) <==> AtAfter(s, Life(step), p, t)
  {}

  lemma TickPlaces(s: State, step: TickStep, p: Place, t: nat)
    requires Enabled(s, Ticking(step))
    ensures At(ApplyTick(s, step), p, t) <==> AtAfter(s, Ticking(step), p, t)
  {}

  lemma DispatchPlaces(s: State, a: Actor, step: DispatchStep, p: Place, t: nat)
    requires Enabled(s, Dispatching(a, step))
    ensures At(ApplyDispatch(s, a, step), p, t) <==> AtAfter(s, Dispatching(a, step), p, t)
  {}

  lemma CallPlaces(s: State, n: nat, step: CallerStep, p: Place, t: nat)
    requires Enabled(s, Calling(n, step))
    ensures At(ApplyCaller(s, n, step), p, t) <==> AtAfter(s, Calling(n, step), p, t)
  {}

  lemma WorkPlaces(s: State, w: nat, step: WorkStep, p: Place, t: nat)
    requires QueueApart(s) && Enabled(s, Working(w, step))
    ensures At(ApplyWork(s, w, step), p, t) <==> AtAfter(s, Working(w, step), p, t)
  {
    if step.Take? && p.InQueue? {
      assert forall j :: j in s.pool.queue <==> j == s.pool.queue[0] || j in s.pool.queue[1..];
    }
  }

  lemma Places(s: State, step: Step, p: Place, t: nat)
    requires Shape(s) && SoleOwners(s) && Enabled(s, step)
    ensures At(Apply(s, step), p, t) <==> AtAfter(s, step, p, t)
  {
    hide ApplyLife, ApplyTick, ApplyDispatch, ApplyWork, ApplyCaller, AtAfter, At;
    match step
    case Life(l) => LifePlaces(s, l, p, t);
    case Ticking(k) => TickPlaces(s, k, p, t);
    case Dispatching(a, d) => DispatchPlaces(s, a, d, p, t);
    case Calling(n, c) => CallPlaces(s, n, c, p, t);
    case Working(w, k) => WorkPlaces(s, w, k, p, t);
  }

  lemma PlaceOf(s: State, t: nat) returns (p: Place)
    requires TicketsPlaced(s) && t < s.nextTicket
    ensures At(s, p, t)
  {
    assert Placed(s, t);
    p :| At(s, p, t);
  }

  lemma TicketsKept(s: State, step: Step)
    requires Shape(s) && SoleOwners(s) && TicketsPlaced(s) && Enabled(s, step)
    ensures TicketsPlaced(Apply(s, step))
  {
    hide Apply, At;
    var s' := Apply(s, step);
    Moves(s, step);
    forall p, t ensures At(s', p, t) <==> AtAfter(s, step, p, t) {
      Places(s, step, p, t);
    }
    ActorPlaces(s, step);
    forall t: nat {:trigger Placed(s', t)} | t < s'.nextTicket ensures Placed(s', t) {
      if t == s.nextTicket {
        assert At(s', InQueue(NextJob(s, step.actor)), t);
      } else {
        var p := PlaceOf(s, t);
        if step.Working? && step.work.Take? && p == InQueue(s.pool.queue[0]) {
          AtOne(s, p, t, s.pool.queue[0].ticket);
          assert AtAfter(s, step, OnLoop(step.w), t);
        } else if step.Working? && step.work.End? && p == OnLoop(step.w) {
          AtOne(s, p, t, s.loops[step.w].job.ticket);
          assert AtAfter(s, step, InPast(s.loops[step.w].job), t);
        } else {
          assert AtAfter(s, step, p, t);
        }
      }
    }
  }

  lemma AtOne(s: State, p: Place, t: nat, u: nat)
    requires At(s, p, t) && At(s, p, u)
    ensures t == u
  {}

  /** Where the acting loop finds its job before its step. */
  lemma ActorPlaces(s: State, step: Step)
    requires Enabled(s, step)
    ensures step.Working? && step.work.Take? ==>
              At(s, InQueue(s.pool.queue[0]), s.pool.queue[0].ticket) && forall t :: !At(s, OnLoop(step.w), t)
    ensures step.Working? && step.work.End? ==> At(s, OnLoop(step.w), s.loops[step.w].job.ticket)
  {}

  // ----- outcomes and results -----

  /** The job at this place has had its outcome recorded. */
  predicate Done(s: State, p: Place) {
    p.InPast? || (p.OnLoop? && p.w in s.loops && s.loops[p.w].Settled())
  }

  predicate AdHocAt(s: State, p: Place) {
    match p
    case InQueue(j) => j.key.AdHocKey?
    case OnLoop(w) => w in s.loops && s.loops[w].HasJob() && s.loops[w].job.key.AdHocKey?
    case InPast(j) => j.key.AdHocKey?
  }

  /** What the records say of the job at `p` is what its place says. */
  predicate RecordsAgree(s: State, p: Place, ticket: nat) {
    (ticket in s.past.outcomes <==> Done(s, p)) && (ticket in s.past.sent <==> Done(s, p) && AdHocAt(s, p))
  }

  /** An outcome is recorded exactly for the jobs past that point, and a result sent exactly for the ad-hoc ones. */
  ghost predicate RecordsExact(s: State) {
    && (forall p, t: nat :: At(s, p, t) ==> RecordsAgree(s, p, t))
    && (forall t :: t in s.past.outcomes || t in s.past.sent ==> t < s.nextTicket)
    && s.results <= s.past.sent
  }

  ghost predicate SameRecords(s: State, s': State) {
    s'.inflight == s.inflight && s'.past.outcomes == s.past.outcomes
      && s'.past.sent == s.past.sent && s'.past.finished == s.past.finished
    && s'.results <= s.results && s.nextTicket <= s'.nextTicket
    && forall w :: (w in s.loops ==> w in s'.loops && s'.loops[w] == s.loops[w])
                && (w in s'.loops && w !in s.loops ==> s'.loops[w].Idle?)
  }

  lemma LifeIsQuiet(s: State, step: LifeStep)
    requires Shape(s) && LifeEnabled(s, step)
    ensures SameRecords(s, ApplyLife(s, step))
  {}

  lemma TickIsQuiet(s: State, step: TickStep)
    requires TickEnabled(s, step)
    ensures SameRecords(s, ApplyTick(s, step))
  {}

  lemma DispatchIsQuiet(s: State, a: Actor, step: DispatchStep)
    requires DispatchEnabled(s, a, step)
    ensures SameRecords(s, ApplyDispatch(s, a, step))
  {}

  lemma CallIsQuiet(s: State, n: nat, step: CallerStep)
    requires CallerEnabled(s, n, step)
    ensures SameRecords(s, ApplyCaller(s, n, step))
  {}

  /** Only worker loops write the records and the in-flight table. */
  lemma OthersAreQuiet(s: State, step: Step)
    requires Shape(s) && Enabled(s, step) && !step.Working?
    ensures SameRecords(s, Apply(s, step))
  {
    hide ApplyLife, ApplyTick, ApplyDispatch, ApplyCaller, SameRecords;
    match step
    case Life(l) => LifeIsQuiet(s, l);
    case Ticking(t) => TickIsQuiet(s, t);
    case Dispatching(a, d) => DispatchIsQuiet(s, a, d);
    case Calling(n, c) => CallIsQuiet(s, n, c);
  }

  lemma QuietKeepsTable(s: State, step: Step)
    requires Shape(s) && TableExact(s) && Enabled(s, step) && !step.Working?
    ensures TableExact(Apply(s, step))
  {
    hide Apply, Enabled;
    var s' := Apply(s, step);
    OthersAreQuiet(s, step);
    forall w, key ensures Runs(s', w, key) <==> Runs(s, w, key) {}
  }

  lemma QuietKeepsRecords(s: State, step: Step)
    requires Shape(s) && SoleOwners(s) && RecordsExact(s) && Enabled(s, step) && !step.Working?
    ensures RecordsExact(Apply(s, step))
  {
    hide Apply, Enabled;
    var s' := Apply(s, step);
    OthersAreQuiet(s, step);
    forall p, t: nat | At(s', p, t) ensures RecordsAgree(s', p, t) {
      Places(s, step, p, t);
    }
  }

  /** Writing one job's outcome says nothing about any other job. */
  lemma WorkKeepsRecord(s: State, w: nat, step: WorkStep, p: Place, t: nat)
    requires WorkEnabled(s, w, step) && RecordsAgree(s, p, t) && p != OnLoop(w)
    requires s.loops[w].HasJob() ==> s.loops[w].job.ticket != t
    ensures RecordsAgree(ApplyWork(s, w, step), p, t)
  {}

  lemma WorkKeepsOwnRecord(s: State, w: nat, step: WorkStep, t: nat)
    requires Shape(s) && RecordsExact(s) && WorkEnabled(s, w, step)
    requires At(ApplyWork(s, w, step), OnLoop(w), t)
    ensures RecordsAgree(ApplyWork(s, w, step), OnLoop(w), t)
  {
    if step.Take? {
      assert At(s, InQueue(s.pool.queue[0]), t);
    } else {
      assert At(s, OnLoop(w), t);
    }
  }

  lemma WorkKeepsRecords(s: State, w: nat, step: WorkStep)
    requires Shape(s) && SoleOwners(s) && TicketsPlaced(s) && RecordsExact(s) && Enabled(s, Working(w, step))
    ensures RecordsExact(ApplyWork(s, w, step))
  {
    var s' := ApplyWork(s, w, step);
    WorkBounds(s, w, step);
    ActorPlaces(s, Working(w, step));
    hide ApplyWork, At, RecordsAgree;
    forall p, t: nat | At(s', p, t) ensures RecordsAgree(s', p, t) {
      WorkPlaces(s, w, step, p, t);
      if p == OnLoop(w) {
        WorkKeepsOwnRecord(s, w, step, t);
      } else if step.End? && p == InPast(s.loops[w].job) {
        EndKeepsRecord(s, w, t);
      } else {
        OtherTicket(s, w, p, t);
        WorkKeepsRecord(s, w, step, p, t);
      }
    }
  }

  lemma OtherTicket(s: State, w: nat, p: Place, t: nat)
    requires TicketsPlaced(s) && w in s.loops && At(s, p, t) && p != OnLoop(w)
    ensures s.loops[w].HasJob() ==> s.loops[w].job.ticket != t
  {
    if s.loops[w].HasJob() {
      assert At(s, OnLoop(w), s.loops[w].job.ticket);
    }
  }

  lemma EndKeepsRecord(s: State, w: nat, t: nat)
    requires RecordsExact(s) && WorkEnabled(s, w, End) && t == s.loops[w].job.ticket
    ensures RecordsAgree(ApplyWork(s, w, End), InPast(s.loops[w].job), t)
  {
    assert At(s, OnLoop(w), t);
  }

  lemma WorkBounds(s: State, w: nat, step: WorkStep)
    requires Shape(s) && RecordsExact(s) && WorkEnabled(s, w, step)
    ensures var s' := ApplyWork(s, w, step);
            s'.results <= s'.past.sent && forall t :: t in s'.past.outcomes || t in s'.past.sent ==> t < s'.nextTicket
  {}
}
