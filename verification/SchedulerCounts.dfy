/** How many loops, jobs and tokens there are. */
module SchedulerCounts {
  import opened Options
  import opened Jobs
  import opened WorkerPools
  import opened SchedulerSteps
  import opened SchedulerSafety
  import opened SchedulerLedger

  function CountedLoops(loops: map<nat, Phase>): set<nat> {
    set w | w in loops && loops[w].Counted()
  }

  function BusyLoops(loops: map<nat, Phase>): set<nat> {
    set w | w in loops && loops[w].HasJob()
  }

  function One(b: bool): nat { if b then 1 else 0 }

  lemma CountedMove(loops: map<nat, Phase>, w: nat, p: Phase)
    requires w in loops
    ensures CountedLoops(loops[w := p]) == if p.Counted() then CountedLoops(loops) + {w} else CountedLoops(loops) - {w}
    ensures w in CountedLoops(loops) <==> loops[w].Counted()
  {}

  lemma BusyMove(loops: map<nat, Phase>, w: nat, p: Phase)
    requires w in loops
    ensures BusyLoops(loops[w := p]) == if p.HasJob() then BusyLoops(loops) + {w} else BusyLoops(loops) - {w}
    ensures w in BusyLoops(loops) <==> loops[w].HasJob()
  {}

  lemma CountMove(loops: map<nat, Phase>, w: nat, p: Phase)
    requires w in loops
    ensures |CountedLoops(loops[w := p])| == |CountedLoops(loops)| - One(loops[w].Counted()) + One(p.Counted())
    ensures |BusyLoops(loops[w := p])| == |BusyLoops(loops)| - One(loops[w].HasJob()) + One(p.HasJob())
    ensures |loops[w := p].Keys| == |loops.Keys|
  {
    hide CountedLoops, BusyLoops;
    CountedMove(loops, w, p);
    BusyMove(loops, w, p);
    OneMoreOrLess(CountedLoops(loops), w);
    OneMoreOrLess(BusyLoops(loops), w);
    assert loops[w := p].Keys == loops.Keys;
  }

  lemma OneMoreOrLess(xs: set<nat>, w: nat)
    ensures |xs + {w}| == |xs| + One(w !in xs) && |xs - {w}| == |xs| - One(w in xs)
  {
    if w in xs {
      assert xs + {w} == xs;
    } else {
      assert xs - {w} == xs;
    }
  }

  lemma CountLeave(loops: map<nat, Phase>, w: nat)
    requires w in loops && !loops[w].HasJob()
    ensures CountedLoops(loops - {w}) == CountedLoops(loops) && BusyLoops(loops - {w}) == BusyLoops(loops)
    ensures |(loops - {w}).Keys| == |loops.Keys| - 1
  {
    assert (loops - {w}).Keys == loops.Keys - {w};
  }

  lemma CountFresh(s: State, n: nat)
    requires PoolShaped(s)
    ensures var after := WithFreshLoops(s, n);
            CountedLoops(after) == CountedLoops(s.loops) && BusyLoops(after) == BusyLoops(s.loops)
            && |after.Keys| == |s.loops.Keys| + n
  {
    hide Numbers;
    var after := WithFreshLoops(s, n);
    assert after.Keys == s.loops.Keys + Numbers(s.nextLoop, n);
    assert s.loops.Keys * Numbers(s.nextLoop, n) == {};
  }

  ghost predicate JobsCounted(s: State) {
    && s.pool.active == |CountedLoops(s.loops)|
    && s.nextTicket == |s.past.finished| + |s.pool.queue| + |BusyLoops(s.loops)|
  }

  /**
   Between start and shutdown the loops are accounted for: those alive, plus the tokens queued too early,
   are the pool's size plus the tokens still pending plus the tokens lost.
   */
  ghost predicate LoopsCounted(s: State) {
    && s.pool.workers == |s.loops.Keys| + s.exiting
    && (!s.pool.started ==> |s.loops.Keys| == 0)
    && (s.pool.started && !s.pool.stopped && !s.cancelled ==>
          |s.loops.Keys| + s.past.early == s.pool.size + s.pool.tokens + s.past.lost)
  }

  lemma StartKeepsCounts(s: State)
    requires PoolShaped(s) && JobsCounted(s) && LoopsCounted(s) && LifeEnabled(s, StartPool)
    ensures JobsCounted(ApplyLife(s, StartPool)) && LoopsCounted(ApplyLife(s, StartPool))
  {
    CountFresh(s, s.pool.size);
    hide WithFreshLoops, CountedLoops, BusyLoops;
  }

  lemma ResizeBalances(p: Pool, newSize: int)
    ensures var n := Normalized(newSize); var q := ResizedPool(p, newSize);
      q == p.(size := n, workers := p.workers + Spawned(p, n), tokens := p.tokens + Queued(p, n))
      && (p.started && !p.stopped ==> p.size + Spawned(p, n) == n + Queued(p, n) + Dropped(p, n))
      && (!p.started ==> Spawned(p, n) == 0)
  {}

  lemma ResizeKeepsCounts(s: State, n: int)
    requires PoolShaped(s) && JobsCounted(s) && LoopsCounted(s) && LifeEnabled(s, Resize(n))
    ensures JobsCounted(ApplyLife(s, Resize(n))) && LoopsCounted(ApplyLife(s, Resize(n)))
  {
    CountFresh(s, Spawned(s.pool, Normalized(n)));
    ResizeBalances(s.pool, n);
    hide WithFreshLoops, CountedLoops, BusyLoops, ResizedPool, Spawned, Queued, Dropped, Normalized, PoolShaped;
  }

  lemma LifeKeepsCounts(s: State, step: LifeStep)
    requires PoolShaped(s) && JobsCounted(s) && LoopsCounted(s) && LifeEnabled(s, step)
    ensures JobsCounted(ApplyLife(s, step)) && LoopsCounted(ApplyLife(s, step))
  {
    hide WithFreshLoops;
    if step.StartPool? {
      StartKeepsCounts(s);
    } else if step.Resize? {
      ResizeKeepsCounts(s, step.newSize);
    }
  }

  lemma TickKeepsCounts(s: State, step: TickStep)
    requires JobsCounted(s) && LoopsCounted(s) && TickEnabled(s, step)
    ensures JobsCounted(ApplyTick(s, step)) && LoopsCounted(ApplyTick(s, step))
  {}

  lemma DispatchKeepsCounts(s: State, a: Actor, step: DispatchStep)
    requires JobsCounted(s) && LoopsCounted(s) && DispatchEnabled(s, a, step)
    ensures JobsCounted(ApplyDispatch(s, a, step)) && LoopsCounted(ApplyDispatch(s, a, step))
  {}

  /** How a loop's step changes what is counted. */
  lemma WorkCounts(s: State, w: nat, step: WorkStep)
    requires WorkEnabled(s, w, step)
    ensures var s' := ApplyWork(s, w, step);
      && s'.loops == (if step.StepDown? || step.Quit? then s.loops - {w} else s.loops[w := s'.loops[w]])
      && (step.StepDown? || step.Quit? ==> !s.loops[w].HasJob())
      && s'.nextTicket == s.nextTicket
      && s'.pool.queue == (if step.Take? then s.pool.queue[1..] else s.pool.queue)
      && (step.Take? ==> s.pool.queue != [])
      && (step.End? ==> s.loops[w].HasJob())
      && s'.past.finished == (if step.End? then s.past.finished + {s.loops[w].job} else s.past.finished)
      && (!step.StepDown? && !step.Quit? ==>
            && s'.pool.active == s.pool.active - One(s.loops[w].Counted()) + One(s'.loops[w].Counted())
            && One(s'.loops[w].HasJob()) == One(s.loops[w].HasJob()) + One(step.Take?) - One(step.End?))
      && (step.StepDown? || step.Quit? ==> s'.pool.active == s.pool.active)
  {}

  lemma WorkKeepsJobsCounted(s: State, w: nat, step: WorkStep)
    requires TicketsPlaced(s) && JobsCounted(s) && WorkEnabled(s, w, step)
    ensures JobsCounted(ApplyWork(s, w, step))
  {
    var s' := ApplyWork(s, w, step);
    WorkCounts(s, w, step);
    assert w in s.loops;
    hide TicketsPlaced, CountedLoops, BusyLoops, ApplyWork, WorkEnabled;
    if step.StepDown? || step.Quit? {
      CountLeave(s.loops, w);
    } else {
      CountMove(s.loops, w, s'.loops[w]);
    }
    if step.End? {
      NotDoneYet(s, w);
    }
  }

  lemma NotDoneYet(s: State, w: nat)
    requires TicketsPlaced(s) && w in s.loops && s.loops[w].HasJob()
    ensures s.loops[w].job !in s.past.finished
  {
    var j := s.loops[w].job;
    assert At(s, OnLoop(w), j.ticket);
    assert j in s.past.finished ==> At(s, InPast(j), j.ticket);
  }

  lemma WorkKeepsLoopsCounted(s: State, w: nat, step: WorkStep)
    requires LoopsCounted(s) && WorkEnabled(s, w, step)
    ensures LoopsCounted(ApplyWork(s, w, step))
  {
    var s' := ApplyWork(s, w, step);
    if step.StepDown? || step.Quit? {
      CountLeave(s.loops, w);
    } else {
      CountMove(s.loops, w, s'.loops[w]);
    }
  }

  // ----- a pool that is never resized -----

  ghost predicate NeverResized(s: State) {
    s.pool.size == s.pool.capacity && s.pool.tokens == 0 && |s.loops.Keys| <= s.pool.size
    && (!s.pool.started ==> |s.loops.Keys| == 0)
  }

  lemma LifeKeepsSize(s: State, step: LifeStep)
    requires PoolShaped(s) && NeverResized(s) && LifeEnabled(s, step) && !step.Resize?
    ensures NeverResized(ApplyLife(s, step)) && ApplyLife(s, step).pool.size == s.pool.size
  {
    if step.StartPool? {
      CountFresh(s, s.pool.size);
    }
  }

  lemma TickKeepsSize(s: State, step: TickStep)
    requires NeverResized(s) && TickEnabled(s, step)
    ensures NeverResized(ApplyTick(s, step)) && ApplyTick(s, step).pool.size == s.pool.size
  {}

  lemma DispatchKeepsSize(s: State, a: Actor, step: DispatchStep)
    requires NeverResized(s) && DispatchEnabled(s, a, step)
    ensures NeverResized(ApplyDispatch(s, a, step)) && ApplyDispatch(s, a, step).pool.size == s.pool.size
  {}

  lemma WorkKeepsSize(s: State, w: nat, step: WorkStep)
    requires NeverResized(s) && WorkEnabled(s, w, step)
    ensures NeverResized(ApplyWork(s, w, step)) && ApplyWork(s, w, step).pool.size == s.pool.size
  {
    var s' := ApplyWork(s, w, step);
    if step.StepDown? || step.Quit? {
      CountLeave(s.loops, w);
    } else {
      CountMove(s.loops, w, s'.loops[w]);
    }
  }
}
