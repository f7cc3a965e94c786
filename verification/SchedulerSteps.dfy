/**
 The scheduler as a step system. The tick goroutine, any number of ad-hoc callers and the pool's worker
 loops interleave; every step is one action on shared state (a lock, the queue, the in-flight table, a
 counter, a context). A step carries whatever its actor reads from the outside world.
 */
module SchedulerSteps {
  import opened Options
  import opened Jobs
  import opened WorkerPools

  /** A blackout snapshot by what it answers: the targets and instants it reports active. */
  type Snapshot = iset<(string, int)>

  /** Rows requested beyond the free slots. */
  const LIST_DUE_OVERHEAD: nat := 5

  datatype Actor = Ticker | Caller(n: nat)

  /**
   Where a dispatcher stands between taking a target's lock and handing it over. A dispatcher whose send met the
   closed queue has panicked: it is dead and takes no further step, while the process goes on.
   */
  datatype Stage = Checking | Refusing | Offering | Sending | Bounced | Dead

  datatype Claim = Claim(key: Key, stage: Stage)

  datatype RunError = NoError | CanceledError | OtherError

  datatype Outcome = Succeeded | Failed | PausedBlackout

  /** The first cancellation a job's context received. */
  datatype Cause = Uncancelled | BlackoutPause | Shutdown | JobEnded

  /** A worker loop's position. Every phase but the first and last carries the job in hand. */
  datatype Phase =
    | Idle
    | Got(job: Job)
    | Resolving(job: Job)
    | Scanning(job: Job)
    | Returned(job: Job, err: RunError)
    | Reported(job: Job)
    | Unregistered(job: Job)
    | Unlocked(job: Job)
    | Stepping
  {
    predicate HasJob() { !Idle? && !Stepping? }

    /** The job's target lock has not been released yet. */
    predicate Locking() { HasJob() && !Unlocked? }

    /** Counted in the pool's `active`. */
    predicate Counted() { HasJob() && !Got? }

    /** Present in the in-flight table. */
    predicate InFlight() { Scanning? || Returned? || Reported? }

    /** The job's outcome has been recorded, and an ad-hoc result sent. */
    predicate Settled() { Reported? || Unregistered? || Unlocked? }
  }

  datatype Entry = Entry(ticket: nat, target: string, acquiredAt: int)

  /** How a walk over the in-flight table goes on. Nothing but statements about it depends on this record. */
  datatype Walk = Walk(
    /** The tickets registered when the walk began. */
    roster: set<nat>,
    /** The judgements made so far. */
    judged: map<Entry, Sighting>,
    /** The snapshots that have been current since it began, in order. */
    seen: seq<Snapshot>)

  /** The tick goroutine. While walking, `pending` are the in-flight keys not visited yet. */
  datatype Tick =
    | Waiting
    | Walking(now: int, pending: set<Key>, walk: Walk)
    | Judging(now: int, pending: set<Key>, walk: Walk, entry: Entry)
    | Counting(now: int)
    | Listing(now: int, free: nat)
    | Looping(now: int, due: seq<Key>, free: nat, dispatched: nat)
    | Exited

  /** A tick judged a job's target blacked out at `now` and not at the job's start. */
  datatype Sighting = Sighting(now: int, cacheNow: Snapshot, cacheThen: Snapshot, entry: Entry)

  /**
   What has happened so far: ad-hoc results sent, outcomes recorded, jobs done, blackout judgements made,
   shrink tokens queued before the start, shrink tokens dropped on a full channel since, and completed
   rounds over the in-flight table.
   */
  datatype Past = Past(sent: set<nat>, outcomes: map<nat, Outcome>, finished: set<Job>,
                       sightings: map<nat, Sighting>, early: nat, lost: nat, rounds: nat)

  /**
   `registry` gives the target of every schedule and ad-hoc run. `waiting` maps callers to the ticket
   whose result they await, and `results` are the one-slot channels holding an undelivered result.
   */
  datatype State = State(
    registry: map<Key, string>,
    cache: Snapshot,
    locks: set<string>,
    pool: Pool,
    loops: map<nat, Phase>,
    nextLoop: nat,
    exiting: nat,
    inflight: map<Key, Entry>,
    causes: map<nat, Cause>,
    claims: map<Actor, Claim>,
    ticker: Tick,
    waiting: map<nat, nat>,
    results: set<nat>,
    nextTicket: nat,
    cancelled: bool,
    past: Past)

  function Initial(registry: map<Key, string>, cache: Snapshot, size: int): State {
    State(registry, cache, {}, NewPool(size), map[], 0, 0, map[], map[], map[], Waiting, map[], {}, 0,
          false, Past({}, map[], {}, map[], 0, 0, 0))
  }

  /** The life of the pool, and snapshots reloaded by anyone. */
  datatype LifeStep =
    | StartPool
    | Cancel
    | StopPool
    | Resize(newSize: int)
    | LoopExits
    | RefreshCache(cache: Snapshot)

  /** The tick goroutine outside a dispatch. */
  datatype TickStep =
    | TickBegins(now: int)
    | WalkLoads(key: Key)
    | WalkMisses(key: Key)
    | WalkJudges(reloaded: Option<Snapshot>)
    | WalkEnds
    | CountFree
    | ListDue(due: seq<Key>)
    | ListNothing
    | DueBusy
    | LoopEnds
    | TickerExits

  /** A dispatch, by the tick goroutine or an ad-hoc caller. */
  datatype DispatchStep = Acquire(key: Key) | CheckBlackout(at: int) | Refuse | Offer | Send | Bounce

  /** An ad-hoc caller's wait for its result. */
  datatype CallerStep = Receive | GiveUp

  /** A worker loop. */
  datatype WorkStep =
    | Take
    | Begin
    | ConfigFails
    | Register(at: int)
    | RunnerReturns(err: RunError)
    | Report
    | Unregister
    | Unlock
    | End
    | StepDown
    | Stay
    | Quit

  datatype Step =
    | Life(life: LifeStep)
    | Ticking(tick: TickStep)
    | Dispatching(actor: Actor, dispatch: DispatchStep)
    | Calling(n: nat, call: CallerStep)
    | Working(w: nat, work: WorkStep)

  /** The outcome of a finished run: a pause needs both the error and the context's first cause. */
  function OutcomeOf(key: Key, err: RunError, cause: Cause): Outcome {
    if err.NoError? then Succeeded
    else if key.ScheduleKey? && err.CanceledError? && cause.BlackoutPause? then PausedBlackout
    else Failed
  }

  // ----- which steps can happen -----

  /** The actor has a claim at this stage, and the tick goroutine only while it is looping over due rows. */
  predicate Claims(s: State, a: Actor, stage: Stage) {
    a in s.claims && s.claims[a].stage == stage && s.claims[a].key in s.registry &&
    (a.Ticker? ==> s.ticker.Looping? && s.ticker.due != [])
  }

  function ClaimTarget(s: State, a: Actor): string
    requires a in s.claims && s.claims[a].key in s.registry
  {
    s.registry[s.claims[a].key]
  }

  predicate TickerFree(s: State) {
    s.ticker.Looping? && Ticker !in s.claims && s.ticker.due != [] && s.ticker.dispatched < s.ticker.free
  }

  /** Sending an ad-hoc result blocks while its one-slot channel is occupied. */
  predicate CanSend(s: State, job: Job) {
    job.key.AdHocKey? ==> job.ticket !in s.results
  }

  predicate LifeEnabled(s: State, step: LifeStep) {
    match step
    case StartPool => !s.pool.started && !s.pool.stopped
    case Cancel => !s.cancelled
    case StopPool => s.cancelled && s.ticker.Exited? && !s.pool.stopped
    case Resize(_) => true
    case LoopExits => s.exiting > 0
    case RefreshCache(_) => true
  }

  predicate TickEnabled(s: State, step: TickStep) {
    match step
    case TickBegins(_) => s.pool.started && s.ticker.Waiting?
    case WalkLoads(key) => s.ticker.Walking? && key in s.inflight
    case WalkMisses(key) => s.ticker.Walking? && key in s.ticker.pending && key !in s.inflight
    case WalkJudges(_) => s.ticker.Judging?
    case WalkEnds => s.ticker.Walking? && s.ticker.pending == {}
    case CountFree => s.ticker.Counting?
    case ListDue(due) =>
      s.ticker.Listing? && 0 < |due| <= s.ticker.free + LIST_DUE_OVERHEAD &&
      forall k :: k in due ==> k.ScheduleKey? && k in s.registry
    case ListNothing => s.ticker.Listing?
    case DueBusy => TickerFree(s) && s.ticker.due[0] in s.registry && s.registry[s.ticker.due[0]] in s.locks
    case LoopEnds => s.ticker.Looping? && Ticker !in s.claims && !TickerFree(s)
    case TickerExits => s.pool.started && s.ticker.Waiting? && s.cancelled
  }

  predicate DispatchEnabled(s: State, a: Actor, step: DispatchStep) {
    match step
    case Acquire(key) =>
      a !in s.claims && key in s.registry && s.registry[key] !in s.locks &&
      (match a
       case Ticker => TickerFree(s) && s.ticker.due[0] == key
       case Caller(n) => key.AdHocKey? && s.registry[key] != "" && n !in s.waiting)
    case CheckBlackout(_) => Claims(s, a, Checking)
    case Refuse => Claims(s, a, Refusing)
    case Offer => Claims(s, a, Offering)
    case Send => Claims(s, a, Sending)
    case Bounce => Claims(s, a, Bounced)
  }

  predicate CallerEnabled(s: State, n: nat, step: CallerStep) {
    n in s.waiting && (step.Receive? ==> s.waiting[n] in s.results)
  }

  predicate WorkEnabled(s: State, w: nat, step: WorkStep) {
    w in s.loops &&
    var p := s.loops[w];
    match step
    case Take => p.Idle? && s.pool.queue != []
    case Begin => p.Got?
    case ConfigFails => p.Resolving? && CanSend(s, p.job)
    case Register(_) => p.Resolving?
    case RunnerReturns(_) => p.Scanning?
    case Report => p.Returned? && CanSend(s, p.job) && p.job.ticket in s.causes
    case Unregister => p.Reported?
    case Unlock => p.Unregistered?
    case End => p.Unlocked?
    case StepDown => p.Stepping? && s.pool.tokens > 0
    case Stay => p.Stepping? && s.pool.tokens == 0
    case Quit => p.Idle? && (s.cancelled || (s.pool.stopped && s.pool.queue == []))
  }

  predicate Enabled(s: State, step: Step) {
    match step
    case Life(l) => LifeEnabled(s, l)
    case Ticking(t) => TickEnabled(s, t)
    case Dispatching(a, d) => DispatchEnabled(s, a, d)
    case Calling(n, c) => CallerEnabled(s, n, c)
    case Working(w, k) => WorkEnabled(s, w, k)
  }

  // ----- what they do -----

  function Apply(s: State, step: Step): State
    requires Enabled(s, step)
  {
    match step
    case Life(l) => ApplyLife(s, l)
    case Ticking(t) => ApplyTick(s, t)
    case Dispatching(a, d) => ApplyDispatch(s, a, d)
    case Calling(n, c) => ApplyCaller(s, n, c)
    case Working(w, k) => ApplyWork(s, w, k)
  }

  function ApplyLife(s: State, step: LifeStep): State
    requires LifeEnabled(s, step)
  {
    match step
    case StartPool =>
      s.(pool := StartedPool(s.pool), loops := WithFreshLoops(s, s.pool.size), nextLoop := s.nextLoop + s.pool.size,
         past := s.past.(early := s.pool.tokens, lost := 0))
    case Cancel =>
      s.(cancelled := true,
         causes := map t | t in s.causes :: if s.causes[t].Uncancelled? then Shutdown else s.causes[t])
    case StopPool => s.(pool := s.pool.(stopped := true))
    case Resize(newSize) =>
      var n := Normalized(newSize);
      s.(pool := ResizedPool(s.pool, newSize), loops := WithFreshLoops(s, Spawned(s.pool, n)),
         nextLoop := s.nextLoop + Spawned(s.pool, n), past := s.past.(lost := s.past.lost + Dropped(s.pool, n)))
    case LoopExits => s.(exiting := s.exiting - 1, pool := s.pool.(workers := s.pool.workers - 1))
    case RefreshCache(c) => s.(cache := c, ticker := Noticing(s.ticker, c))
  }

  /** The `n` loop numbers from `lo` on. */
  function Numbers(lo: nat, n: nat): (ws: set<nat>)
    ensures forall w :: w in ws <==> lo <= w < lo + n
    ensures |ws| == n
  {
    if n == 0 then {} else Numbers(lo, n - 1) + {lo + n - 1}
  }

  /** The loops together with `n` fresh, idle ones. */
  function WithFreshLoops(s: State, n: nat): map<nat, Phase> {
    s.loops + map w | w in Numbers(s.nextLoop, n) :: Idle
  }

  /** Shrink tokens a resize to `n` loses on a full channel. */
  function Dropped(p: Pool, n: nat): nat {
    if n < p.size then p.size - n - Queued(p, n) else 0
  }

  /** A walk under way notices a new snapshot. */
  function Noticing(t: Tick, c: Snapshot): Tick {
    if t.Walking? || t.Judging? then t.(walk := t.walk.(seen := t.walk.seen + [c])) else t
  }

  function Tickets(inflight: map<Key, Entry>): set<nat> {
    set k | k in inflight :: inflight[k].ticket
  }

  function ApplyTick(s: State, step: TickStep): State
    requires TickEnabled(s, step)
  {
    var t := s.ticker;
    match step
    case TickBegins(now) =>
      s.(ticker := Walking(now, s.inflight.Keys, Walk(Tickets(s.inflight), map[], [s.cache])))
    case WalkLoads(key) => s.(ticker := Judging(t.now, t.pending - {key}, t.walk, s.inflight[key]))
    case WalkMisses(key) => s.(ticker := Walking(t.now, t.pending - {key}, t.walk))
    case WalkJudges(reloaded) => ApplyJudgement(s, reloaded)
    case WalkEnds => s.(ticker := Counting(t.now), past := s.past.(rounds := s.past.rounds + 1))
    case CountFree => s.(ticker := if FreeSlots(s.pool) <= 0 then Waiting else Listing(t.now, FreeSlots(s.pool)))
    case ListDue(due) => s.(ticker := Looping(t.now, due, t.free, 0))
    case ListNothing => s.(ticker := Waiting)
    case DueBusy => s.(ticker := t.(due := t.due[1..]))
    case LoopEnds => s.(ticker := Waiting)
    case TickerExits => s.(ticker := Exited)
  }

  /** The first cancellation of a context is the one that counts. */
  function FirstCause(causes: map<nat, Cause>, ticket: nat, cause: Cause): map<nat, Cause> {
    if ticket in causes && causes[ticket].Uncancelled? then causes[ticket := cause] else causes
  }

  /** The judgement that cancels: blacked out now, and not when the job started. */
  predicate Entered(sight: Sighting) {
    (sight.entry.target, sight.now) in sight.cacheNow &&
    (sight.entry.target, sight.entry.acquiredAt) !in sight.cacheThen
  }

  /** One entry of the walk. The snapshot may be `reloaded` between the two questions asked of it. */
  function ApplyJudgement(s: State, reloaded: Option<Snapshot>): State
    requires s.ticker.Judging?
  {
    var t := s.ticker;
    var sight := Sighting(t.now, s.cache, if reloaded.Some? then reloaded.value else s.cache, t.entry);
    var seen := if reloaded.Some? then t.walk.seen + [reloaded.value] else t.walk.seen;
    s.(cache := sight.cacheThen,
       ticker := Walking(t.now, t.pending, t.walk.(judged := t.walk.judged[t.entry := sight], seen := seen)),
       causes := if Entered(sight) then FirstCause(s.causes, t.entry.ticket, BlackoutPause) else s.causes,
       past := if Entered(sight) then s.past.(sightings := s.past.sightings[t.entry.ticket := sight]) else s.past)
  }

  function ApplyDispatch(s: State, a: Actor, step: DispatchStep): State
    requires DispatchEnabled(s, a, step)
  {
    match step
    case Acquire(key) => s.(locks := s.locks + {s.registry[key]}, claims := s.claims[a := Claim(key, Checking)])
    case CheckBlackout(at) =>
      AtStage(s, a, if (ClaimTarget(s, a), at) in s.cache then Refusing else Offering)
    case Refuse =>
      s.(locks := s.locks - {ClaimTarget(s, a)}, claims := s.claims - {a},
         ticker := if a.Ticker? then s.ticker.(due := s.ticker.due[1..]) else s.ticker)
    case Offer => AtStage(s, a, if s.pool.stopped then Bounced else Sending)
    case Send => ApplySend(s, a)
    case Bounce =>
      s.(locks := s.locks - {ClaimTarget(s, a)}, claims := s.claims - {a},
         ticker := if a.Ticker? then Waiting else s.ticker)
  }

  function AtStage(s: State, a: Actor, stage: Stage): State
    requires a in s.claims
  {
    s.(claims := s.claims[a := s.claims[a].(stage := stage)])
  }

  /** The job an accepted dispatch of `a` would put into the queue. */
  function NextJob(s: State, a: Actor): Job
    requires a in s.claims && s.claims[a].key in s.registry
  {
    Job(s.nextTicket, s.claims[a].key, ClaimTarget(s, a))
  }

  /** A send on the closed queue panics, and one to a full queue bounces the job. */
  predicate Accepted(s: State) {
    !s.pool.stopped && HasRoom(s.pool)
  }

  function ApplySend(s: State, a: Actor): State
    requires Claims(s, a, Sending)
  {
    var ok := Accepted(s);
    s.(pool := if ok then s.pool.(queue := s.pool.queue + [NextJob(s, a)]) else s.pool,
       claims := if ok then s.claims - {a}
                 else s.claims[a := s.claims[a].(stage := if s.pool.stopped then Dead else Bounced)],
       nextTicket := if ok then s.nextTicket + 1 else s.nextTicket,
       ticker := if ok && a.Ticker? then s.ticker.(due := s.ticker.due[1..], dispatched := s.ticker.dispatched + 1)
                 else s.ticker,
       waiting := if ok && a.Caller? then s.waiting[a.n := s.nextTicket] else s.waiting)
  }

  function ApplyCaller(s: State, n: nat, step: CallerStep): State
    requires CallerEnabled(s, n, step)
  {
    match step
    case Receive => s.(waiting := s.waiting - {n}, results := s.results - {s.waiting[n]})
    case GiveUp => s.(waiting := s.waiting - {n})
  }

  function ApplyWork(s: State, w: nat, step: WorkStep): State
    requires WorkEnabled(s, w, step)
  {
    var p := s.loops[w];
    match step
    case Take => s.(pool := s.pool.(queue := s.pool.queue[1..]), loops := s.loops[w := Got(s.pool.queue[0])])
    case Begin => s.(pool := s.pool.(active := s.pool.active + 1), loops := s.loops[w := Resolving(p.job)])
    case ConfigFails =>
      s.(results := ResultsWith(s.results, p.job), past := Settled(s.past, p.job, Failed),
         loops := s.loops[w := Unregistered(p.job)])
    case Register(at) =>
      s.(inflight := s.inflight[p.job.key := Entry(p.job.ticket, p.job.target, at)],
         causes := s.causes[p.job.ticket := if s.cancelled then Shutdown else Uncancelled],
         loops := s.loops[w := Scanning(p.job)])
    case RunnerReturns(err) => s.(loops := s.loops[w := Returned(p.job, err)])
    case Report =>
      s.(results := ResultsWith(s.results, p.job),
         past := Settled(s.past, p.job, OutcomeOf(p.job.key, p.err, s.causes[p.job.ticket])),
         loops := s.loops[w := Reported(p.job)])
    case Unregister =>
      s.(inflight := s.inflight - {p.job.key}, causes := FirstCause(s.causes, p.job.ticket, JobEnded),
         loops := s.loops[w := Unregistered(p.job)])
    case Unlock => s.(locks := s.locks - {p.job.target}, loops := s.loops[w := Unlocked(p.job)])
    case End =>
      s.(pool := s.pool.(active := s.pool.active - 1), past := s.past.(finished := s.past.finished + {p.job}),
         loops := s.loops[w := Stepping])
    case StepDown =>
      s.(pool := s.pool.(tokens := s.pool.tokens - 1), loops := s.loops - {w}, exiting := s.exiting + 1)
    case Stay => s.(loops := s.loops[w := Idle])
    case Quit => s.(loops := s.loops - {w}, exiting := s.exiting + 1)
  }

  /** An ad-hoc job sends its result; a scheduled one has nobody to send it to. */
  function ResultsWith(tickets: set<nat>, job: Job): set<nat> {
    if job.key.AdHocKey? then tickets + {job.ticket} else tickets
  }

  function Settled(past: Past, job: Job, outcome: Outcome): Past {
    past.(outcomes := past.outcomes[job.ticket := outcome], sent := ResultsWith(past.sent, job))
  }
}
