/** When the worker pool falls below its size. */
module SchedulerShrink {
  import opened Options
  import opened Jobs
  import opened WorkerPools
  import opened SchedulerSteps
  import opened SchedulerSafety
  import opened SchedulerLedger
  import opened SchedulerCounts
  import opened SchedulerTheorems

  /** The pool is at work: started, and nothing has begun to shut down. */
  predicate Live(s: State) {
    s.pool.started && !s.pool.stopped && !s.cancelled
  }

  predicate Below(s: State) {
    Live(s) && |s.loops.Keys| < s.pool.size
  }

  /** Some continuation takes the pool below its size. */
  ghost predicate Sinks(s: State) {
    exists steps :: CanRun(s, steps) && Below(Run(s, steps))
  }

  /** There is something the scheduler can ever dispatch. */
  predicate Dispatchable(s: State, key: Key) {
    key in s.registry && (key.AdHocKey? ==> s.registry[key] != "")
  }

  // ----- no further than the tokens queued early -----

  /** After the start the early tokens are settled, and lost ones stay lost. */
  ghost predicate LateTokens(s: State, s': State) {
    && s'.pool.started && s'.past.early == s.past.early && s'.past.lost >= s.past.lost
    && (s.cancelled ==> s'.cancelled) && (s.pool.stopped ==> s'.pool.stopped)
  }

  lemma LifeKeepsTokens(s: State, step: LifeStep)
    requires s.pool.started && LifeEnabled(s, step)
    ensures LateTokens(s, ApplyLife(s, step))
  {}

  lemma TickKeepsTokens(s: State, step: TickStep)
    requires s.pool.started && TickEnabled(s, step)
    ensures LateTokens(s, ApplyTick(s, step))
    ensures ApplyTick(s, step).pool == s.pool && ApplyTick(s, step).past.lost == s.past.lost
    ensures ApplyTick(s, step).cancelled == s.cancelled
  {}

  lemma DispatchKeepsTokens(s: State, a: Actor, step: DispatchStep)
    requires s.pool.started && DispatchEnabled(s, a, step)
    ensures LateTokens(s, ApplyDispatch(s, a, step))
    ensures ApplyDispatch(s, a, step).pool.tokens == s.pool.tokens && ApplyDispatch(s, a, step).past.lost == s.past.lost
    ensures ApplyDispatch(s, a, step).pool.stopped == s.pool.stopped
    ensures ApplyDispatch(s, a, step).cancelled == s.cancelled
  {}

  lemma CallKeepsTokens(s: State, n: nat, step: CallerStep)
    requires s.pool.started && CallerEnabled(s, n, step)
    ensures LateTokens(s, ApplyCaller(s, n, step))
  {}

  lemma WorkKeepsTokens(s: State, w: nat, step: WorkStep)
    requires s.pool.started && WorkEnabled(s, w, step)
    ensures LateTokens(s, ApplyWork(s, w, step)) && ApplyWork(s, w, step).past.lost == s.past.lost
    ensures ApplyWork(s, w, step).pool.tokens == s.pool.tokens - if step.StepDown? then 1 else 0
    ensures ApplyWork(s, w, step).pool.stopped == s.pool.stopped && ApplyWork(s, w, step).cancelled == s.cancelled
  {}

  lemma StepKeepsTokens(s: State, step: Step)
    requires s.pool.started && Enabled(s, step)
    ensures LateTokens(s, Apply(s, step))
  {
    hide ApplyLife, ApplyTick, ApplyDispatch, ApplyCaller, ApplyWork, LateTokens;
    match step
    case Life(l) => LifeKeepsTokens(s, l);
    case Ticking(t) => TickKeepsTokens(s, t);
    case Dispatching(a, d) => DispatchKeepsTokens(s, a, d);
    case Calling(n, c) => CallKeepsTokens(s, n, c);
    case Working(w, k) => WorkKeepsTokens(s, w, k);
  }

  lemma {:induction false} RunKeepsTokens(s: State, steps: seq<Step>)
    requires s.pool.started && CanRun(s, steps)
    ensures LateTokens(s, Run(s, steps))
    decreases |steps|
  {
    hide Apply, Enabled;
    if steps != [] {
      StepKeepsTokens(s, steps[0]);
      RunKeepsTokens(Apply(s, steps[0]), steps[1..]);
    }
  }

  /** The pool never has fewer workers than its size while no more tokens were queued early than have been lost. */
  lemma SinkingNeedsEarlyTokens(s: State)
    requires Inv(s) && s.pool.started && Sinks(s)
    ensures s.past.early > s.past.lost
  {
    var steps :| CanRun(s, steps) && Below(Run(s, steps));
    RunKeepsTokens(s, steps);
    RunKeepsInv(s, steps);
    BelowMeansEarly(Run(s, steps));
  }

  lemma BelowMeansEarly(s: State)
    requires Inv(s) && Live(s)
    ensures |s.loops.Keys| < s.pool.size <==> s.pool.tokens + s.past.lost < s.past.early
    ensures s.pool.size > 0
  {
    InvParts(s);
    assert LoopsCounted(s);
  }

  // ----- and no less far -----

  /** A live state with early tokens not made up for by lost ones, and something to dispatch. */
  ghost predicate Ready(s: State, key: Key) {
    Inv(s) && Live(s) && s.past.early > s.past.lost && Dispatchable(s, key)
  }

  predicate Calm(step: Step) {
    (step.Life? ==> step.life.RefreshCache?) && !step.Calling?
  }

  /** A step short of shutdown and resizing keeps the state ready, and only a worker stepping down uses up a token. */
  lemma CalmKeeps(s: State, step: Step, key: Key)
    requires Ready(s, key) && Enabled(s, step) && Calm(step)
    ensures Ready(Apply(s, step), key)
    ensures Apply(s, step).pool.tokens == s.pool.tokens - if step.Working? && step.work.StepDown? then 1 else 0
  {
    hide ApplyLife, ApplyTick, ApplyDispatch, ApplyCaller, ApplyWork, Inv;
    InvKept(s, step);
    RegistryIsFixed(s, step);
    match step
    case Life(l) => RefreshKeepsTokens(s, l);
    case Ticking(t) => TickKeepsTokens(s, t);
    case Dispatching(a, d) => DispatchKeepsTokens(s, a, d);
    case Working(w, k) => WorkKeepsTokens(s, w, k);
  }

  lemma RefreshKeepsTokens(s: State, step: LifeStep)
    requires s.pool.started && step.RefreshCache?
    ensures ApplyLife(s, step) == s.(cache := step.cache, ticker := Noticing(s.ticker, step.cache))
    ensures LateTokens(s, ApplyLife(s, step))
  {}

  lemma SinksAfter(s: State, step: Step)
    requires Enabled(s, step) && Sinks(Apply(s, step))
    ensures Sinks(s)
  {
    hide Apply, Enabled;
    var steps :| CanRun(Apply(s, step), steps) && Below(Run(Apply(s, step), steps));
    RunCons(s, step, steps);
  }

  /** How many steps a loop is away from asking for a token. */
  function StepsLeft(p: Phase): nat {
    match p
    case Idle => 0
    case Stepping => 0
    case Unlocked(_) => 1
    case Unregistered(_) => 2
    case Reported(_) => 3
    case Returned(_, _) => 4
    case Scanning(_) => 5
    case Resolving(_) => 6
    case Got(_) => 7
  }

  function NextWork(p: Phase): WorkStep {
    match p
    case Got(_) => Begin
    case Resolving(_) => ConfigFails
    case Scanning(_) => RunnerReturns(NoError)
    case Returned(_, _) => Report
    case Reported(_) => Unregister
    case Unregistered(_) => Unlock
    case Unlocked(_) => End
    case _ => StepDown
  }

  lemma LoopMoves(s: State, w: nat)
    requires w in s.loops && !s.loops[w].Idle? && (s.loops[w].Stepping? ==> s.pool.tokens > 0)
    requires s.loops[w].Resolving? ==> Enabled(s, Working(w, ConfigFails))
    requires s.loops[w].Returned? ==> Enabled(s, Working(w, Report))
    ensures Enabled(s, Working(w, NextWork(s.loops[w])))
    ensures var next := Apply(s, Working(w, NextWork(s.loops[w])));
      !s.loops[w].Stepping? ==>
          w in next.loops && !next.loops[w].Idle? && StepsLeft(next.loops[w]) < StepsLeft(s.loops[w])
  {
    var step := NextWork(s.loops[w]);
    assert WorkEnabled(s, w, step);
    PhaseMoves(s, w);
    hide WorkEnabled, ApplyWork, ApplyLife, ApplyTick, ApplyDispatch, ApplyCaller;
  }

  lemma PhaseMoves(s: State, w: nat)
    requires w in s.loops && !s.loops[w].Idle? && WorkEnabled(s, w, NextWork(s.loops[w]))
    ensures var next := ApplyWork(s, w, NextWork(s.loops[w]));
      !s.loops[w].Stepping? ==>
          w in next.loops && !next.loops[w].Idle? && StepsLeft(next.loops[w]) < StepsLeft(s.loops[w])
  {
    hide ApplyWork, WorkEnabled;
    match s.loops[w]
    case Got(_) => PickupMoves(s, w);
    case Resolving(_) => PickupMoves(s, w);
    case Scanning(_) => ScanMoves(s, w);
    case Returned(_, _) => ScanMoves(s, w);
    case Stepping =>
    case _ => SettledMoves(s, w);
  }

  lemma PickupMoves(s: State, w: nat)
    requires w in s.loops
    ensures s.loops[w].Got? ==> ApplyWork(s, w, Begin).loops == s.loops[w := Resolving(s.loops[w].job)]
    ensures s.loops[w].Resolving? && WorkEnabled(s, w, ConfigFails) ==>
              ApplyWork(s, w, ConfigFails).loops == s.loops[w := Unregistered(s.loops[w].job)]
  {}

  lemma ScanMoves(s: State, w: nat)
    requires w in s.loops
    ensures s.loops[w].Scanning? ==>
              ApplyWork(s, w, RunnerReturns(NoError)).loops == s.loops[w := Returned(s.loops[w].job, NoError)]
    ensures s.loops[w].Returned? && WorkEnabled(s, w, Report) ==>
              ApplyWork(s, w, Report).loops == s.loops[w := Reported(s.loops[w].job)]
  {}

  lemma SettledMoves(s: State, w: nat)
    requires w in s.loops
    ensures s.loops[w].Reported? ==> ApplyWork(s, w, Unregister).loops == s.loops[w := Unregistered(s.loops[w].job)]
    ensures s.loops[w].Unregistered? ==> ApplyWork(s, w, Unlock).loops == s.loops[w := Unlocked(s.loops[w].job)]
    ensures s.loops[w].Unlocked? ==> ApplyWork(s, w, End).loops == s.loops[w := Stepping]
  {}

  /** Some loop is there, and none is doing anything. */
  predicate Resting(s: State) {
    s.loops.Keys != {} && forall w :: w in s.loops ==> s.loops[w].Idle?
  }

  /** A loop at work is driven to the token it finds at the end. */
  lemma {:induction false} DriveLoop(s: State, w: nat, key: Key)
    requires Ready(s, key) && w in s.loops && !s.loops[w].Idle? && s.pool.tokens > 0
    ensures Sinks(s)
    decreases s.pool.tokens, 0, StepsLeft(s.loops[w])
  {
    hide Inv, Apply, Enabled, Sinks;
    LoopCanSettle(s, w);
    LoopMoves(s, w);
    var step := Working(w, NextWork(s.loops[w]));
    CalmKeeps(s, step, key);
    var next := Apply(s, step);
    if s.loops[w].Stepping? {
      WillSink(next, key);
    } else {
      DriveLoop(next, w, key);
    }
    SinksAfter(s, step);
  }

  lemma TakeMoves(s: State, w: nat)
    requires w in s.loops && s.loops[w].Idle? && s.pool.queue != []
    ensures Enabled(s, Working(w, Take))
    ensures var next := Apply(s, Working(w, Take)); w in next.loops && next.loops[w].Got?
  {
    hide ApplyLife, ApplyTick, ApplyDispatch, ApplyCaller;
  }

  lemma TakeAndDrive(s: State, key: Key)
    requires Ready(s, key) && Resting(s) && s.pool.queue != [] && s.pool.tokens > 0
    ensures Sinks(s)
    decreases s.pool.tokens, 0, 20
  {
    hide Inv, Apply, Enabled, Sinks;
    var w :| w in s.loops;
    TakeMoves(s, w);
    CalmKeeps(s, Working(w, Take), key);
    DriveLoop(Apply(s, Working(w, Take)), w, key);
    SinksAfter(s, Working(w, Take));
  }

  // ----- a dispatch with nothing in its way -----

  function StageRank(stage: Stage): nat {
    match stage
    case Checking => 3
    case Offering => 2
    case Sending => 1
    case _ => 0
  }

  predicate Onward(s: State, a: Actor) {
    a in s.claims && StageRank(s.claims[a].stage) > 0
  }

  /** While the pool is at work no dispatcher is dead. */
  lemma ClaimIsReal(s: State, a: Actor)
    requires Inv(s) && Live(s) && a in s.claims
    ensures Claims(s, a, s.claims[a].stage) && !s.claims[a].stage.Dead?
  {}

  /** The same loops and queue, and the claim at another stage. */
  predicate Moved(s: State, next: State, a: Actor, stage: Stage) {
    next.loops == s.loops && next.pool == s.pool && a in next.claims && next.claims[a].stage == stage
  }

  lemma CheckPasses(s: State, a: Actor)
    requires Claims(s, a, Checking) && s.cache == iset{}
    ensures Enabled(s, Dispatching(a, CheckBlackout(0)))
    ensures Moved(s, Apply(s, Dispatching(a, CheckBlackout(0))), a, Offering)
  {
    hide ApplyLife, ApplyTick, ApplyCaller, ApplyWork;
  }

  lemma CacheCleared(s: State, a: Actor)
    requires Claims(s, a, Checking)
    ensures Enabled(s, Life(RefreshCache(iset{})))
    ensures var next := Apply(s, Life(RefreshCache(iset{}))); Moved(s, next, a, Checking) && next.cache == iset{}
  {
    hide ApplyTick, ApplyDispatch, ApplyCaller, ApplyWork;
  }

  lemma OfferPasses(s: State, a: Actor)
    requires Claims(s, a, Offering) && !s.pool.stopped
    ensures Enabled(s, Dispatching(a, Offer)) && Moved(s, Apply(s, Dispatching(a, Offer)), a, Sending)
  {
    hide ApplyLife, ApplyTick, ApplyCaller, ApplyWork;
  }

  lemma SendPasses(s: State, a: Actor)
    requires Claims(s, a, Sending) && !s.pool.stopped && s.pool.queue == [] && s.pool.capacity > 0
    ensures Enabled(s, Dispatching(a, Send))
    ensures var next := Apply(s, Dispatching(a, Send)); next.loops == s.loops && next.pool.queue != []
  {
    hide ApplyLife, ApplyTick, ApplyCaller, ApplyWork;
  }

  /** A dispatcher past the check is driven to hand its job over. */
  lemma {:induction false} DriveClear(s: State, a: Actor, key: Key)
    requires Ready(s, key) && Resting(s) && s.pool.queue == [] && s.pool.tokens > 0
    requires Onward(s, a) && !s.claims[a].stage.Checking?
    ensures Sinks(s)
    decreases s.pool.tokens, 0, 20 + StageRank(s.claims[a].stage)
  {
    ClaimIsReal(s, a);
    assert s.pool.capacity > 0 by { InvParts(s); }
    hide Inv, Apply, Enabled, Sinks, Claims, Dispatchable;
    if s.claims[a].stage.Offering? {
      OfferPasses(s, a);
      CalmKeeps(s, Dispatching(a, Offer), key);
      DriveClear(Apply(s, Dispatching(a, Offer)), a, key);
      SinksAfter(s, Dispatching(a, Offer));
    } else {
      SendPasses(s, a);
      CalmKeeps(s, Dispatching(a, Send), key);
      TakeAndDrive(Apply(s, Dispatching(a, Send)), key);
      SinksAfter(s, Dispatching(a, Send));
    }
  }

  /** A dispatcher with a lock is driven past the blackout check, on a snapshot without blackouts. */
  lemma {:induction false} DriveClaim(s: State, a: Actor, key: Key)
    requires Ready(s, key) && Resting(s) && s.pool.queue == [] && Onward(s, a) && s.pool.tokens > 0
    ensures Sinks(s)
    decreases s.pool.tokens, 0, 23 + StageRank(s.claims[a].stage)
  {
    ClaimIsReal(s, a);
    hide Inv, Apply, Enabled, Sinks, Claims, Dispatchable;
    if s.claims[a].stage.Checking? {
      var clear := Life(RefreshCache(iset{}));
      CacheCleared(s, a);
      CalmKeeps(s, clear, key);
      CheckAndDrive(Apply(s, clear), a, key);
      SinksAfter(s, clear);
    } else {
      DriveClear(s, a, key);
    }
  }

  lemma CheckAndDrive(s: State, a: Actor, key: Key)
    requires Ready(s, key) && Resting(s) && s.pool.queue == [] && s.pool.tokens > 0
    requires a in s.claims && s.claims[a].stage.Checking? && s.cache == iset{}
    ensures Sinks(s)
    decreases s.pool.tokens, 0, 24
  {
    ClaimIsReal(s, a);
    hide Inv, Apply, Enabled, Sinks, Claims, Dispatchable;
    CheckPasses(s, a);
    CalmKeeps(s, Dispatching(a, CheckBlackout(0)), key);
    DriveClear(Apply(s, Dispatching(a, CheckBlackout(0))), a, key);
    SinksAfter(s, Dispatching(a, CheckBlackout(0)));
  }

  lemma ClaimEnds(s: State, a: Actor)
    requires a in s.claims && Claims(s, a, s.claims[a].stage)
    requires s.claims[a].stage.Refusing? || s.claims[a].stage.Bounced?
    ensures var step := Dispatching(a, if s.claims[a].stage == Refusing then Refuse else Bounce);
      Enabled(s, step) && var next := Apply(s, step);
      next.loops == s.loops && next.pool == s.pool && next.claims == s.claims - {a}
  {
    hide ApplyLife, ApplyTick, ApplyCaller, ApplyWork;
  }

  /** With the pool at rest and nothing queued, a job is brought in. */
  lemma {:induction false} BringJob(s: State, key: Key)
    requires Ready(s, key) && Resting(s) && s.pool.queue == [] && s.pool.tokens > 0
    ensures Sinks(s)
    decreases s.pool.tokens, 1, |s.claims|, 0
  {
    if a :| Onward(s, a) {
      DriveClaim(s, a, key);
    } else if a :| a in s.claims {
      ClaimIsReal(s, a);
      assert !Onward(s, a) && StageRank(s.claims[a].stage) == 0;
      hide Inv, Apply, Enabled, Sinks;
      ClaimEnds(s, a);
      var step := Dispatching(a, if s.claims[a].stage == Refusing then Refuse else Bounce);
      CalmKeeps(s, step, key);
      assert Apply(s, step).claims.Keys == s.claims.Keys - {a};
      BringJob(Apply(s, step), key);
      SinksAfter(s, step);
    } else {
      NewJob(s, key);
    }
  }

  // ----- a new dispatch -----

  lemma NothingOwned(s: State)
    requires Inv(s) && Resting(s) && s.pool.queue == [] && s.claims.Keys == {}
    ensures s.locks == {} && s.inflight.Keys == {} && FreeSlots(s.pool) > 0
  {
    InvParts(s);
    assert forall o, t :: !Owns(s, o, t);
    assert forall w, key :: !Runs(s, w, key);
    assert CountedLoops(s.loops) == {};
  }

  lemma {:induction false} FreshNumber(used: set<nat>) returns (n: nat)
    ensures n !in used
  {
    n := 0;
    if used != {} {
      Greatest(used);
      var top :| top in used && forall m :: m in used ==> m <= top;
      n := top + 1;
    }
  }

  lemma {:induction false} Greatest(used: set<nat>)
    requires used != {}
    ensures exists n :: n in used && forall m :: m in used ==> m <= n
  {
    var x :| x in used;
    var top := x;
    if used != {x} {
      assert used - {x} != {} by {
        assert used == {x} + (used - {x});
      }
      Greatest(used - {x});
      var y :| y in used - {x} && forall m :: m in used - {x} ==> m <= y;
      top := if x < y then y else x;
    }
    assert top in used && forall m :: m in used ==> m == x || m in used - {x};
  }

  lemma AcquireMoves(s: State, a: Actor, key: Key)
    requires Enabled(s, Dispatching(a, Acquire(key)))
    ensures var next := Apply(s, Dispatching(a, Acquire(key))); Moved(s, next, a, Checking)
  {
    hide ApplyLife, ApplyTick, ApplyCaller, ApplyWork;
  }

  lemma {:induction false} AcquireAndDrive(s: State, a: Actor, due: Key, key: Key)
    requires Ready(s, key) && Resting(s) && s.pool.queue == [] && s.pool.tokens > 0
    requires Enabled(s, Dispatching(a, Acquire(due)))
    ensures Sinks(s)
    decreases s.pool.tokens, 0, 30
  {
    hide Inv, Apply, Enabled, Sinks;
    AcquireMoves(s, a, due);
    CalmKeeps(s, Dispatching(a, Acquire(due)), key);
    DriveClaim(Apply(s, Dispatching(a, Acquire(due))), a, key);
    SinksAfter(s, Dispatching(a, Acquire(due)));
  }

  /** How far the tick goroutine is from a due row it may dispatch. */
  function TickerRank(t: Tick): nat {
    match t
    case Looping(_, due, free, dispatched) => if due != [] && dispatched < free then 0 else 6
    case Listing(_, free) => if free > 0 then 1 else 6
    case Counting(_) => 2
    case Walking(_, pending, _) => 3 + 2 * |pending|
    case Judging(_, pending, _, _) => 4 + 2 * |pending|
    case Waiting => 5
    case Exited => 0
  }

  /** The ticker's next step, once no job is in flight: it leads nearer to a due row. */
  predicate Nearer(s: State, step: TickStep) {
    Enabled(s, Ticking(step)) && var next := Apply(s, Ticking(step));
    next.loops == s.loops && next.pool == s.pool && next.claims == s.claims
      && TickerRank(next.ticker) < TickerRank(s.ticker)
  }

  lemma WalkMoves(s: State) returns (step: TickStep)
    requires s.inflight.Keys == {} && (s.ticker.Walking? || s.ticker.Judging?)
    ensures Nearer(s, step)
  {
    if s.ticker.Judging? {
      step := WalkJudges(None);
      JudgeMoves(s);
    } else if s.ticker.pending == {} {
      step := WalkEnds;
      hide ApplyLife, ApplyDispatch, ApplyCaller, ApplyWork, ApplyJudgement;
    } else {
      var k :| k in s.ticker.pending;
      step := WalkMisses(k);
      assert k !in s.inflight.Keys;
      MissMoves(s, k);
    }
  }

  lemma JudgeMoves(s: State)
    requires s.ticker.Judging?
    ensures Nearer(s, WalkJudges(None))
  {
    hide ApplyLife, ApplyDispatch, ApplyCaller, ApplyWork, FirstCause, Entered;
  }

  lemma MissMoves(s: State, k: Key)
    requires s.ticker.Walking? && k in s.ticker.pending && k !in s.inflight
    ensures Nearer(s, WalkMisses(k))
  {
    hide ApplyLife, ApplyDispatch, ApplyCaller, ApplyWork, ApplyJudgement;
    assert |s.ticker.pending - {k}| == |s.ticker.pending| - 1;
  }

  lemma RoundMoves(s: State, key: Key) returns (step: TickStep)
    requires s.pool.started && s.claims.Keys == {} && s.inflight.Keys == {} && FreeSlots(s.pool) > 0
    requires s.ticker.Waiting? || s.ticker.Counting? || s.ticker.Listing? || (s.ticker.Looping? && !TickerFree(s))
    requires key in s.registry && key.ScheduleKey?
    ensures Nearer(s, step)
  {
    hide ApplyLife, ApplyDispatch, ApplyCaller, ApplyWork;
    assert Ticker !in s.claims.Keys;
    step := match s.ticker
      case Waiting => TickBegins(0)
      case Counting(_) => CountFree
      case Listing(_, free) => if free > 0 then ListDue([key]) else ListNothing
      case _ => LoopEnds;
  }

  lemma TickerMoves(s: State, key: Key) returns (step: TickStep)
    requires s.pool.started && s.claims.Keys == {} && s.inflight.Keys == {} && FreeSlots(s.pool) > 0
    requires !s.ticker.Exited? && !TickerFree(s) && key in s.registry && key.ScheduleKey?
    ensures Nearer(s, step)
  {
    hide Nearer;
    if s.ticker.Walking? || s.ticker.Judging? {
      step := WalkMoves(s);
    } else {
      step := RoundMoves(s, key);
    }
  }

  /** The tick goroutine is driven to dispatch a schedule. */
  lemma {:induction false} DriveTicker(s: State, key: Key)
    requires Ready(s, key) && Resting(s) && s.pool.queue == []
    requires s.claims.Keys == {} && key.ScheduleKey? && s.pool.tokens > 0
    ensures Sinks(s)
    decreases s.pool.tokens, 0, 100 + TickerRank(s.ticker)
  {
    NothingOwned(s);
    InvParts(s);
    if TickerFree(s) {
      DueIsKnown(s);
      AcquireAndDrive(s, Ticker, s.ticker.due[0], key);
    } else {
      hide Inv, Apply, Enabled, Sinks;
      var step := TickerMoves(s, key);
      CalmKeeps(s, Ticking(step), key);
      DriveTicker(Apply(s, Ticking(step)), key);
      SinksAfter(s, Ticking(step));
    }
  }

  lemma DueIsKnown(s: State)
    requires Inv(s) && TickerFree(s) && s.locks == {}
    ensures Enabled(s, Dispatching(Ticker, Acquire(s.ticker.due[0])))
  {
    InvParts(s);
    assert s.ticker.due[0] in s.ticker.due;
  }

  lemma {:induction false} NewJob(s: State, key: Key)
    requires Ready(s, key) && Resting(s) && s.pool.queue == [] && s.claims.Keys == {} && s.pool.tokens > 0
    ensures Sinks(s)
    decreases s.pool.tokens, 0, 101 + TickerRank(s.ticker)
  {
    hide Sinks;
    if key.ScheduleKey? {
      DriveTicker(s, key);
    } else {
      NothingOwned(s);
      var n := FreshNumber(s.waiting.Keys);
      AcquireAndDrive(s, Caller(n), key, key);
    }
  }

  /** With more early tokens than lost ones and something to dispatch, the pool can be taken below its size. */
  lemma {:induction false} WillSink(s: State, key: Key)
    requires Ready(s, key)
    ensures Sinks(s)
    decreases s.pool.tokens, 2
  {
    BelowMeansEarly(s);
    if Below(s) {
      assert CanRun(s, []) && Run(s, []) == s;
    } else {
      hide Inv, Sinks;
      assert s.loops.Keys != {};
      if w :| w in s.loops && !s.loops[w].Idle? {
        DriveLoop(s, w, key);
      } else if s.pool.queue != [] {
        TakeAndDrive(s, key);
      } else {
        BringJob(s, key);
      }
    }
  }

  /**
   From a pool at work, some continuation takes it below its size exactly when more shrink tokens were queued
   before the start than have been lost since.
   */
  lemma SinksIffEarly(s: State, key: Key)
    requires Reachable(s) && Live(s) && Dispatchable(s, key)
    ensures Sinks(s) <==> s.past.early > s.past.lost
  {
    ReachableInv(s);
    hide Inv, Sinks;
    if Sinks(s) {
      SinkingNeedsEarlyTokens(s);
    }
    if s.past.early > s.past.lost {
      WillSink(s, key);
    }
  }

  // ----- what a caller can see -----

  /** Some resize among the steps lowers the pool's size. */
  ghost predicate Shrinks(s: State, steps: seq<Step>)
    requires CanRun(s, steps)
    decreases |steps|
  {
    steps != [] && ((steps[0].Life? && steps[0].life.Resize? && Normalized(steps[0].life.newSize) < s.pool.size)
                    || Shrinks(Apply(s, steps[0]), steps[1..]))
  }

  lemma TickLeavesPool(s: State, step: TickStep)
    requires TickEnabled(s, step)
    ensures ApplyTick(s, step).pool == s.pool && ApplyTick(s, step).loops == s.loops
  {}

  lemma DispatchLeavesTokens(s: State, a: Actor, step: DispatchStep)
    requires DispatchEnabled(s, a, step)
    ensures var s' := ApplyDispatch(s, a, step);
      s'.pool.tokens == s.pool.tokens && s'.pool.started == s.pool.started && s'.loops == s.loops
  {}

  /** Tokens there are only after a shrink, and before the start nothing takes one. */
  lemma ShrinkQueues(s: State, step: Step)
    requires Enabled(s, step) && !Apply(s, step).pool.started && s.loops.Keys == {}
    ensures !s.pool.started && Apply(s, step).loops.Keys == {}
    ensures Apply(s, step).pool.tokens > 0 <==>
              s.pool.tokens > 0 || (step.Life? && step.life.Resize? && Normalized(step.life.newSize) < s.pool.size)
  {
    hide ApplyLife, ApplyTick, ApplyDispatch, ApplyWork;
    match step
    case Life(l) => LifeQueues(s, l);
    case Ticking(t) => TickLeavesPool(s, t);
    case Dispatching(a, d) => DispatchLeavesTokens(s, a, d);
    case Calling(_, _) =>
    case Working(w, _) => assert false;
  }

  lemma LifeQueues(s: State, step: LifeStep)
    requires LifeEnabled(s, step) && !ApplyLife(s, step).pool.started && s.loops.Keys == {}
    ensures !s.pool.started && ApplyLife(s, step).loops.Keys == {}
    ensures ApplyLife(s, step).pool.tokens > 0 <==>
              s.pool.tokens > 0 || (step.Resize? && Normalized(step.newSize) < s.pool.size)
  {}

  lemma {:induction false} TokensMeanShrink(s: State, steps: seq<Step>)
    requires CanRun(s, steps) && !Run(s, steps).pool.started && s.loops.Keys == {}
    ensures Run(s, steps).pool.tokens > 0 <==> s.pool.tokens > 0 || Shrinks(s, steps)
    decreases |steps|
  {
    hide Apply, Enabled;
    if steps != [] {
      StartedStays(Apply(s, steps[0]), steps[1..]);
      ShrinkQueues(s, steps[0]);
      TokensMeanShrink(Apply(s, steps[0]), steps[1..]);
    }
  }

  lemma StartedStays(s: State, steps: seq<Step>)
    requires CanRun(s, steps) && !Run(s, steps).pool.started
    ensures !s.pool.started
  {
    if s.pool.started {
      RunKeepsTokens(s, steps);
    }
  }

  lemma StartSettlesTokens(s: State)
    requires Inv(s) && Enabled(s, Life(StartPool))
    ensures var started := Apply(s, Life(StartPool));
      Inv(started) && started.pool.started && started.past.early == s.pool.tokens && started.past.lost == 0
      && started.registry == s.registry && (!s.cancelled ==> Live(started)) && !s.pool.started
  {
    InvKept(s, Life(StartPool));
    hide Inv, ApplyTick, ApplyDispatch, ApplyCaller, ApplyWork, WithFreshLoops;
  }

  lemma BeforeTheStart(registry: map<Key, string>, cache: Snapshot, size: int, before: seq<Step>)
    requires CanRun(Initial(registry, cache, size), before)
    ensures var s := Run(Initial(registry, cache, size), before);
      Inv(s) && s.registry == registry
      && (!s.pool.started ==> (s.pool.tokens > 0 <==> Shrinks(Initial(registry, cache, size), before)))
  {
    var s0 := Initial(registry, cache, size);
    assert s0.loops.Keys == {} && s0.pool.tokens == 0 && s0.registry == registry;
    InitialInv(registry, cache, size);
    hide Inv, Apply, Enabled, Initial, CanRun, Run, Shrinks;
    RunKeepsInv(s0, before);
    RegistryStays(s0, before);
    if !Run(s0, before).pool.started {
      TokensMeanShrink(s0, before);
    }
  }

  /**
   A pool that is started can at some time be taken below its size exactly when a resize before the start had
   lowered the size.
   */
  lemma EarlyShrinkDecides(registry: map<Key, string>, cache: Snapshot, size: int, before: seq<Step>, key: Key)
    requires CanRun(Initial(registry, cache, size), before)
    requires var s := Run(Initial(registry, cache, size), before); Enabled(s, Life(StartPool)) && !s.cancelled
    requires key in registry && (key.AdHocKey? ==> registry[key] != "")
    ensures Sinks(Apply(Run(Initial(registry, cache, size), before), Life(StartPool)))
            <==> Shrinks(Initial(registry, cache, size), before)
  {
    hide Inv, Sinks, Apply, Enabled, Initial, CanRun, Run, Shrinks;
    var s := Run(Initial(registry, cache, size), before);
    BeforeTheStart(registry, cache, size, before);
    StartSettlesTokens(s);
    var started := Apply(s, Life(StartPool));
    if Sinks(started) {
      SinkingNeedsEarlyTokens(started);
    }
    if started.past.early > 0 {
      WillSink(started, key);
    }
  }

  /** What a caller can rely on: with no shrink before the start, no run afterwards takes the pool below its size. */
  lemma NoEarlyShrinkNeverBelow(registry: map<Key, string>, cache: Snapshot, size: int, before: seq<Step>,
                                after: seq<Step>)
    requires CanRun(Initial(registry, cache, size), before) && !Shrinks(Initial(registry, cache, size), before)
    requires Enabled(Run(Initial(registry, cache, size), before), Life(StartPool))
    requires CanRun(Apply(Run(Initial(registry, cache, size), before), Life(StartPool)), after)
    ensures !Below(Run(Apply(Run(Initial(registry, cache, size), before), Life(StartPool)), after))
  {
    hide Inv, Apply, Enabled, Initial, CanRun, Run, Shrinks, Below;
    var s := Run(Initial(registry, cache, size), before);
    BeforeTheStart(registry, cache, size, before);
    StartSettlesTokens(s);
    if Below(Run(Apply(s, Life(StartPool)), after)) {
      SinkingNeedsEarlyTokens(Apply(s, Life(StartPool)));
    }
  }

  lemma ResizedToOne(registry: map<Key, string>, cache: Snapshot)
    ensures var s0 := Initial(registry, cache, 2);
      Enabled(s0, Life(Resize(1))) && var s1 := Apply(s0, Life(Resize(1)));
      Enabled(s1, Life(StartPool)) && !s1.cancelled && CanRun(s1, [])
      && CanRun(s0, [Life(Resize(1))] + []) && Run(s0, [Life(Resize(1))] + []) == s1
      && Shrinks(s0, [Life(Resize(1))] + [])
  {
    var s0 := Initial(registry, cache, 2);
    var s1 := Apply(s0, Life(Resize(1)));
    assert s1.pool.size == 1 && Enabled(s1, Life(StartPool)) && !s1.cancelled;
    assert CanRun(s1, []) && Run(s1, []) == s1;
    RunCons(s0, Life(Resize(1)), []);
    hide Apply, Enabled, WithFreshLoops;
  }

  /**
   A pool made for two, resized to one and then started falls below its size in some run, if anything can be dispatched.
   */
  lemma AResizedPoolSinks(registry: map<Key, string>, cache: Snapshot, key: Key)
    requires key in registry && (key.AdHocKey? ==> registry[key] != "")
    ensures exists steps ::
      CanRun(Initial(registry, cache, 2), [Life(Resize(1))] + ([Life(StartPool)] + steps))
      && Below(Run(Initial(registry, cache, 2), [Life(Resize(1))] + ([Life(StartPool)] + steps)))
  {
    hide Apply, Enabled, CanRun, Run, Below, Shrinks, Initial;
    ResizedToOne(registry, cache);
    EarlyShrinkDecides(registry, cache, 2, [Life(Resize(1))] + [], key);
    var s0 := Initial(registry, cache, 2);
    var s1 := Apply(s0, Life(Resize(1)));
    var steps :| CanRun(Apply(s1, Life(StartPool)), steps) && Below(Run(Apply(s1, Life(StartPool)), steps));
    RunCons(s1, Life(StartPool), steps);
    RunCons(s0, Life(Resize(1)), [Life(StartPool)] + steps);
  }

  lemma {:induction false} RegistryStays(s: State, steps: seq<Step>)
    requires Inv(s) && CanRun(s, steps)
    ensures Run(s, steps).registry == s.registry
    decreases |steps|
  {
    hide Apply, Enabled, Inv;
    if steps != [] {
      RegistryIsFixed(s, steps[0]);
      InvKept(s, steps[0]);
      RegistryStays(Apply(s, steps[0]), steps[1..]);
    }
  }
}
