/**
 The scheduler's own methods over its real fields. Each method performs actions of the step system, with
 arbitrary steps of the other goroutines in between, so an object that is valid is always in a state the
 step system reaches.
 */
module Schedulers {
  import opened Options
  import opened Jobs
  import opened TargetLocks
  import opened WorkerPools
  import opened SchedulerSteps
  import opened SchedulerSafety
  import opened SchedulerLedger
  import opened SchedulerPauses
  import opened SchedulerTheorems

  /** What became of a dispatch. */
  datatype Dispatched = HandedOver(ticket: nat) | TargetRequired | TargetBusy | InBlackout | PoolFull | Panicked

  /** A goroutine: the ticker or a caller, or a worker loop. */
  datatype Party = Sender(a: Actor) | LoopParty(w: nat)

  predicate SameOutcome(s: State, s': State, ticket: nat) {
    ticket in s.past.outcomes ==> ticket in s'.past.outcomes && s'.past.outcomes[ticket] == s.past.outcomes[ticket]
  }

  /** The job has been accepted: it is queued, in a loop's hands or done. */
  ghost predicate Held(s: State, j: Job) {
    || j in s.pool.queue
    || (exists w :: w in s.loops && s.loops[w].HasJob() && s.loops[w].job == j)
    || j in s.past.finished
  }

  /** No accepted job gets lost or changes. */
  ghost predicate KeepsJobs(s: State, s': State) {
    forall j :: Held(s, j) ==> Held(s', j)
  }

  /** The other goroutines leave `me` where it stands and lose no job. */
  ghost predicate Undisturbed(me: Party, s: State, s': State) {
    KeepsJobs(s, s') && Unmoved(me, s, s')
  }

  /** The tick goroutine stands where it stood; a walk under way may have seen new snapshots. */
  predicate SeenMore(t: Tick, t': Tick) {
    if t.Walking? || t.Judging? then
      (t'.Walking? || t'.Judging?) && t.walk.seen <= t'.walk.seen && t' == t.(walk := t.walk.(seen := t'.walk.seen))
    else t' == t
  }

  /** `me` stands where it stood; at most the blackout snapshot was replaced. */
  predicate Unmoved(me: Party, s: State, s': State) {
    match me
    case Sender(a) =>
      && (a in s.claims <==> a in s'.claims) && (a in s.claims ==> s'.claims[a] == s.claims[a])
      && (a.Ticker? ==> SeenMore(s.ticker, s'.ticker) && s'.past.rounds == s.past.rounds)
      && (a.Caller? ==> (a.n in s.waiting <==> a.n in s'.waiting))
      && (s.pool.started ==> s'.pool.started)
    case LoopParty(w) =>
      && w in s.loops && w in s'.loops && s'.loops[w] == s.loops[w]
      && (s.loops[w].HasJob() ==> SameOutcome(s, s', s.loops[w].job.ticket))
  }

  /** Why a dispatch ends as it does, in the state in which that is decided. */
  predicate Decides(s: State, r: Dispatched, target: string, at: int) {
    match r
    case HandedOver(ticket) => Accepted(s) && ticket == s.nextTicket
    case TargetRequired => target == ""
    case TargetBusy => target in s.locks
    case InBlackout => (target, at) in s.cache
    case PoolFull => !Accepted(s)
    case Panicked => s.pool.stopped
  }

  /** Some state passed through meanwhile decides the dispatch, and none is offered to the pool unchecked. */
  ghost predicate Explained(start: State, since: nat, trace: seq<Step>, r: Dispatched, target: string, at: int) {
    && (exists s :: Visits(start, since, trace, s) && Decides(s, r, target, at))
    && (r.HandedOver? || r.PoolFull? || r.Panicked? ==>
          exists s :: Visits(start, since, trace, s) && (target, at) !in s.cache)
  }

  /** Where a dispatch leaves its dispatcher: done, or dead with its claim. */
  predicate LeftBy(s: State, a: Actor, r: Dispatched) {
    if r.Panicked? then a.Caller? && a in s.claims && s.claims[a].stage.Dead? && s.pool.stopped else a !in s.claims
  }

  class Scheduler {
    const registry: map<Key, string>
    const locks: TargetLockIndex
    const pool: WorkerPool
    var cache: Snapshot
    var inflight: map<Key, Entry>
    var contexts: map<nat, Cause>
    var nextTicket: nat
    var cancelled: bool

    /** The state of the step system this object is in, and the steps that led there. */
    ghost var view: State
    ghost var trace: seq<Step>
    ghost const start: State

    ghost predicate Valid()
      reads this, locks, pool
    {
      && locks.Valid()
      && view.registry == registry && view.cache == cache && view.locks == locks.Held() && view.pool == pool.View()
      && view.inflight == inflight && view.causes == contexts
      && view.nextTicket == nextTicket && view.cancelled == cancelled
      && Reachable(start) && CanRun(start, trace) && view == Run(start, trace)
    }

    constructor (registry: map<Key, string>, cache: Snapshot, maxConcurrent: int)
      ensures Valid() && fresh(locks) && fresh(pool)
      ensures view == start == Initial(registry, cache, maxConcurrent)
    {
      this.registry, this.cache := registry, cache;
      locks := new TargetLockIndex();
      pool := new WorkerPool(maxConcurrent);
      inflight, contexts, nextTicket, cancelled := map[], map[], 0, false;
      view := Initial(registry, cache, maxConcurrent);
      start := Initial(registry, cache, maxConcurrent);
      trace := [];
      InitialReachable(registry, cache, maxConcurrent);
    }

    /** The step system takes `step` along with the object. */
    ghost method Record(step: Step)
      requires Enabled(view, step) && (step.Life? ==> step.life.RefreshCache?)
      requires CanRun(start, trace) && view == Run(start, trace)
      modifies this`view, this`trace
      ensures view == Apply(old(view), step) && CanRun(start, trace) && view == Run(start, trace)
      ensures KeepsJobs(old(view), view) && trace == old(trace) + [step]
    {
      RunSnoc(start, trace, step);
      StepLosesNoJob(view, step);
      view := Apply(view, step);
      trace := trace + [step];
    }

    /**
     The other goroutines may take any steps here. Callers rely on this contract alone: whatever happened,
     the object is still in a reachable state and `me` has not been moved.
     */
    method Interfere(ghost me: Party)
      requires Valid() && (me.LoopParty? ==> me.w in view.loops)
      modifies this, locks, pool
      ensures Valid() && Undisturbed(me, old(view), view) && old(trace) <= trace
    {}

    /** Loads the blackout windows anew; when that fails the old snapshot stays in force. */
    method RefreshBlackouts(reload: Option<Snapshot>)
      requires Valid()
      modifies this
      ensures Valid() && KeepsJobs(old(view), view) && old(trace) <= trace
      ensures cache == if reload.Some? then reload.value else old(cache)
      ensures view == old(view).(cache := cache, ticker := view.ticker) && SeenMore(old(view).ticker, view.ticker)
      ensures Visits(start, |old(trace)|, trace, view) && view.cache == cache
    {
      hide CanRun, Run, Reachable, Apply, Enabled;
      if reload.Some? {
        RefreshEffect(view, reload.value);
        cache := reload.value;
        Record(Life(RefreshCache(reload.value)));
      } else {
        assert view == view.(cache := cache, ticker := view.ticker);
      }
      VisitsNow(start, trace, |old(trace)|);
    }

    /** The walk meets `key`: its entry, unless the job has ended since the walk began. */
    method LoadEntry(key: Key) returns (job: Option<Entry>)
      requires Valid() && view.ticker.Walking? && key in view.ticker.pending
      modifies this
      ensures Valid() && old(trace) <= trace && job == if key in old(inflight) then Some(old(inflight)[key]) else None
      ensures WalkMoved(old(view), view, key)
      ensures job.Some? ==> view.ticker.Judging? && view.ticker.entry == job.value
      ensures job.None? ==> view.ticker.Walking?
    {
      hide CanRun, Run, Reachable, Apply, Enabled;
      LoadEffect(view, key);
      if key in inflight {
        job := Some(inflight[key]);
        Record(Ticking(WalkLoads(key)));
      } else {
        job := None;
        Record(Ticking(WalkMisses(key)));
      }
    }

    /** Cancels a job's context; only the first cancellation leaves its cause. */
    method CancelContext(ticket: nat, cause: Cause)
      modifies this`contexts
      ensures contexts == FirstCause(old(contexts), ticket, cause)
      ensures contexts == if ticket in old(contexts) && old(contexts)[ticket].Uncancelled?
                          then old(contexts)[ticket := cause] else old(contexts)
    {
      if ticket in contexts && contexts[ticket].Uncancelled? {
        contexts := contexts[ticket := cause];
      }
    }

    /**
     The walk judges the entry it loaded, and cancels the job's context on a blackout it has entered. A snapshot
     grown stale meanwhile is reloaded before the second question.
     */
    method JudgeEntry(job: Entry, now: int)
      requires Valid() && view.ticker.Judging? && view.ticker.entry == job && view.ticker.now == now
      modifies this
      ensures Valid() && view.ticker.Walking? && view.ticker.now == now && old(trace) <= trace
      ensures view.ticker.pending == old(view).ticker.pending && view.claims == old(view).claims
      ensures view.pool == old(view).pool && view.past.rounds == old(view).past.rounds
      ensures var sight := Sighting(now, old(cache), cache, job);
        && view.ticker.walk.roster == old(view).ticker.walk.roster
        && view.ticker.walk.judged == old(view).ticker.walk.judged[job := sight]
        && old(view).ticker.walk.seen <= view.ticker.walk.seen
      ensures contexts == if (job.target, now) in old(cache) && (job.target, job.acquiredAt) !in cache
                             && job.ticket in old(contexts) && old(contexts)[job.ticket].Uncancelled?
                          then old(contexts)[job.ticket := BlackoutPause] else old(contexts)
    {
      hide CanRun, Run, Reachable, Apply, Enabled;
      var activeNow := (job.target, now) in cache;
      var reloaded: Option<Snapshot> := *;
      JudgeEffect(view, reloaded);
      if reloaded.Some? {
        cache := reloaded.value;
      }
      var activeThen := (job.target, job.acquiredAt) in cache;
      if activeNow && !activeThen {
        CancelContext(job.ticket, BlackoutPause);
      }
      Record(Ticking(WalkJudges(reloaded)));
    }

    /**
     One round over the in-flight table. Every job that was in flight when it began and still is was judged, on
     snapshots that were current during the walk; if those show that it has entered a blackout since its start, it
     ends with a cancelled context.
     */
    method EvaluateInFlightBlackouts(now: int) returns (ghost walk: Walk)
      requires Valid() && view.ticker.Waiting? && view.pool.started && Ticker !in view.claims
      modifies this, locks, pool
      ensures Valid() && view.ticker == Counting(now) && view.pool.started && Ticker !in view.claims
      ensures view.past.rounds == old(view).past.rounds + 1
      ensures walk.roster == Tickets(old(inflight)) && [old(cache)] <= walk.seen && old(trace) <= trace
      ensures WalkAchieved(view, now, walk)
      ensures forall key :: key in old(inflight) && key in inflight && inflight[key].ticket == old(inflight)[key].ticket
                            && EnteredAllAlong(start, |old(trace)|, trace, inflight[key], now) ==>
                inflight[key].ticket in contexts && !contexts[inflight[key].ticket].Uncancelled?
    {
      hide CanRun, Run, Reachable, Apply, Enabled, WalkAchieved, EnteredAllAlong;
      PlainTick(view, TickBegins(now));
      Record(Ticking(TickBegins(now)));
      ghost var begun := trace;
      var pending := inflight.Keys;
      while pending != {}
        invariant Valid() && view.ticker.Walking? && view.ticker.now == now && view.ticker.pending == pending
        invariant Ticker !in view.claims && view.pool.started && view.past.rounds == old(view).past.rounds
        invariant view.ticker.walk.roster == Tickets(old(inflight)) && [old(cache)] <= view.ticker.walk.seen
        invariant begun <= trace
        decreases |pending|
      {
        Interfere(Sender(Ticker));
        var key :| key in pending;
        pending := pending - {key};
        VisitEntry(key, now);
      }
      ghost var path := trace;
      walk := EndWalk();
      WalkCancels(start, old(trace), path, trace, now);
    }

    /** The walk has visited everything. */
    method EndWalk() returns (ghost walk: Walk)
      requires Valid() && view.ticker.Walking? && view.ticker.pending == {}
      modifies this
      ensures Valid() && view.ticker == Counting(old(view).ticker.now) && view.claims == old(view).claims
      ensures view.pool == old(view).pool && view.past.rounds == old(view).past.rounds + 1
      ensures trace == old(trace) + [Ticking(WalkEnds)] && inflight == old(inflight) && contexts == old(contexts)
      ensures walk == old(view).ticker.walk && WalkAchieved(view, old(view).ticker.now, walk)
    {
      hide CanRun, Run, Reachable, Apply;
      PlainTick(view, WalkEnds);
      RunReaches(start, trace);
      walk := view.ticker.walk;
      WalkAchieves(view);
      Record(Ticking(WalkEnds));
    }

    /** One key of the walk: loaded and judged, unless its job has ended. */
    method VisitEntry(key: Key, now: int)
      requires Valid() && view.ticker.Walking? && key in view.ticker.pending && view.ticker.now == now
      requires Ticker !in view.claims && view.pool.started
      modifies this, locks, pool
      ensures Valid() && view.ticker.Walking? && view.ticker.now == now
      ensures view.ticker.pending == old(view).ticker.pending - {key}
      ensures view.ticker.walk.roster == old(view).ticker.walk.roster
      ensures old(view).ticker.walk.seen <= view.ticker.walk.seen && old(trace) <= trace
      ensures Ticker !in view.claims && view.pool.started && view.past.rounds == old(view).past.rounds
    {
      hide CanRun, Run, Reachable, Apply, Enabled;
      var job := LoadEntry(key);
      if job.Some? {
        Interfere(Sender(Ticker));
        JudgeEntry(job.value, now);
      }
    }

    /** Takes the target's lock for a dispatch of `key`, unless somebody has it. */
    method TakeLock(a: Actor, key: Key) returns (ok: bool)
      requires Valid() && a !in view.claims && key in registry
      requires a.Ticker? ==> TickerFree(view) && view.ticker.due[0] == key
      requires a.Caller? ==> key.AdHocKey? && registry[key] != "" && a.n !in view.waiting
      modifies this, locks
      ensures Valid() && (ok <==> registry[key] !in old(view.locks))
      ensures KeepsJobs(old(view), view) && old(trace) <= trace
      ensures ok ==> view == Apply(old(view), Dispatching(a, Acquire(key)))
      ensures !ok ==> view == if a.Ticker? then Apply(old(view), Ticking(DueBusy)) else old(view)
    {
      hide CanRun, Run, Reachable, Apply, Enabled;
      StepEffects(view, a, key);
      ok := locks.TryAcquire(registry[key]);
      if ok {
        Record(Dispatching(a, Acquire(key)));
      } else if a.Ticker? {
        Record(Ticking(DueBusy));
      }
    }

    method CheckTarget(a: Actor, target: string, at: int) returns (active: bool)
      requires Valid() && Claims(view, a, Checking) && target == ClaimTarget(view, a)
      modifies this
      ensures Valid() && view == Apply(old(view), Dispatching(a, CheckBlackout(at)))
      ensures KeepsJobs(old(view), view) && old(trace) <= trace
      ensures active <==> (target, at) in old(cache)
    {
      hide CanRun, Run, Reachable, ApplyLife, ApplyTick, ApplyCaller, ApplyWork;
      active := (target, at) in cache;
      Record(Dispatching(a, CheckBlackout(at)));
    }

    /** Gives the lock back, after a blackout or a full pool. */
    method GiveBack(a: Actor, target: string)
      requires Valid() && (Claims(view, a, Refusing) || Claims(view, a, Bounced)) && target == ClaimTarget(view, a)
      modifies this, locks
      ensures Valid() && KeepsJobs(old(view), view) && old(trace) <= trace
      ensures view == Apply(old(view), Dispatching(a, if old(view).claims[a].stage == Refusing then Refuse else Bounce))
    {
      hide CanRun, Run, Reachable, ApplyLife, ApplyTick, ApplyCaller, ApplyWork;
      locks.Release(target);
      Record(Dispatching(a, if view.claims[a].stage == Refusing then Refuse else Bounce));
    }

    /** Asks whether the pool still takes jobs. */
    method AskPool(a: Actor) returns (open: bool)
      requires Valid() && Claims(view, a, Offering)
      modifies this
      ensures Valid() && KeepsJobs(old(view), view) && old(trace) <= trace
      ensures open <==> !old(view).pool.stopped
      ensures view == AtStage(old(view), a, if open then Sending else Bounced)
    {
      hide CanRun, Run, Reachable, Apply, Enabled, AtStage;
      OfferEffect(view, a);
      open := pool.IsOpen();
      Record(Dispatching(a, Offer));
    }

    /** Sends the job to the queue, which a caller, but not the tick goroutine, can find closed after all. */
    method SendJob(a: Actor, key: Key, target: string) returns (r: Sent)
      requires Valid() && Claims(view, a, Sending) && view.claims[a].key == key && target == ClaimTarget(view, a)
      modifies this, pool
      ensures Valid() && KeepsJobs(old(view), view) && old(trace) <= trace
      ensures view == ApplySend(old(view), a)
      ensures r.Panicked? <==> old(view).pool.stopped
      ensures r.Panicked? ==> a.Caller?
      ensures r.Taken? <==> Accepted(old(view))
      ensures nextTicket == old(nextTicket) + if r.Taken? then 1 else 0
      ensures r.Taken? ==> Held(view, Job(old(nextTicket), key, target))
    {
      hide CanRun, Run, Reachable, Apply, Enabled, ApplySend, Accepted;
      SendEffect(view, a);
      RunReaches(start, trace);
      SenderIsCaller(view, a);
      r := pool.TrySend(Job(nextTicket, key, target));
      if r.Taken? {
        nextTicket := nextTicket + 1;
      }
      Record(Dispatching(a, Send));
    }

    /** The send in terms of the dispatch: what it means for the dispatcher, and why. */
    method SendOffer(a: Actor, key: Key, target: string, ghost at: int) returns (r: Dispatched)
      requires Valid() && Claims(view, a, Sending) && view.claims[a].key == key && target == ClaimTarget(view, a)
      modifies this, pool
      ensures Valid() && KeepsJobs(old(view), view) && old(trace) <= trace
      ensures view.pool.started == old(view).pool.started && (r.HandedOver? || r.PoolFull? || r.Panicked?)
      ensures exists s :: Visits(start, |old(trace)|, trace, s) && Decides(s, r, target, at)
      ensures if r.PoolFull? then Claims(view, a, Bounced) && view.claims[a].key == key else LeftBy(view, a, r)
      ensures r.HandedOver? ==> Held(view, Job(r.ticket, key, target))
      ensures view.past.rounds == old(view).past.rounds
      ensures a.Ticker? ==>
                view.ticker == if r.PoolFull? then old(view).ticker else TickerAfter(old(view).ticker, r)
      ensures a.Caller? ==>
                if r.HandedOver? then WaitsFor(view, a.n, r) else view.waiting == old(view).waiting
    {
      hide CanRun, Run, Reachable, Apply, Enabled, AtStage, ApplySend, TickerAfter, Visits, Accepted, Held, KeepsJobs;
      HandEffect(view, a);
      VisitsNow(start, trace, |trace|);
      ghost var met, path := view, trace;
      var sent := SendJob(a, key, target);
      VisitsLater(start, |path|, |path|, path, trace, met);
      r := match sent
        case Taken => HandedOver(nextTicket - 1)
        case Full => PoolFull
        case Panicked => Dispatched.Panicked;
      assert Decides(met, r, target, at);
    }

    /** Offers the job to the pool. The pool can be stopped between the question and the send. */
    method HandOver(a: Actor, key: Key, target: string, ghost at: int) returns (r: Dispatched)
      requires Valid() && Claims(view, a, Offering) && view.claims[a].key == key && target == ClaimTarget(view, a)
      modifies this, locks, pool
      ensures Valid() && KeepsJobs(old(view), view) && old(trace) <= trace
      ensures (old(view).pool.started ==> view.pool.started) && (r.HandedOver? || r.PoolFull? || r.Panicked?)
      ensures exists s :: Visits(start, |old(trace)|, trace, s) && Decides(s, r, target, at)
      ensures if r.PoolFull? then Claims(view, a, Bounced) && view.claims[a].key == key else LeftBy(view, a, r)
      ensures r.HandedOver? ==> Held(view, Job(r.ticket, key, target))
      ensures a.Ticker? ==> view.past.rounds == old(view).past.rounds
      ensures a.Ticker? ==>
                view.ticker == if r.PoolFull? then old(view).ticker else TickerAfter(old(view).ticker, r)
      ensures a.Caller? ==>
                WaitsFor(view, a.n, r) || (!r.HandedOver? && (a.n in view.waiting <==> a.n in old(view).waiting))
    {
      hide CanRun, Run, Reachable, Apply, Enabled, AtStage, TickerAfter, Visits, Accepted, Held, LeftBy, Decides;
      AskEffect(view, a);
      VisitsNow(start, trace, |trace|);
      ghost var asked := view;
      var open := AskPool(a);
      if !open {
        VisitsLater(start, |old(trace)|, |old(trace)|, old(trace), trace, asked);
        ClosedTakesNothing(asked, target, at);
        return PoolFull;
      }
      Interfere(Sender(a));
      ghost var since := |trace|;
      r := SendOffer(a, key, target, at);
      ghost var met :| Visits(start, since, trace, met) && Decides(met, r, target, at);
      VisitsLater(start, |old(trace)|, since, trace, trace, met);
    }

    /** A dispatch past the blackout check: hands the job over, or gives the lock back. */
    method DispatchCleared(a: Actor, key: Key, target: string, ghost at: int) returns (r: Dispatched)
      requires Valid() && Claims(view, a, Offering) && view.claims[a].key == key && target == ClaimTarget(view, a)
      modifies this, locks, pool
      ensures Valid() && LeftBy(view, a, r) && (r.HandedOver? || r.PoolFull? || r.Panicked?)
      ensures KeepsJobs(old(view), view) && (r.HandedOver? ==> Held(view, Job(r.ticket, key, target)))
      ensures old(trace) <= trace && exists s :: Visits(start, |old(trace)|, trace, s) && Decides(s, r, target, at)
      ensures old(view).pool.started ==> view.pool.started
      ensures a.Ticker? ==>
                view.ticker == TickerAfter(old(view).ticker, r) && view.past.rounds == old(view).past.rounds
      ensures a.Caller? ==>
                WaitsFor(view, a.n, r) || (!r.HandedOver? && (a.n in view.waiting <==> a.n in old(view).waiting))
    {
      hide CanRun, Run, Reachable, Apply, Enabled, TickerAfter, Visits, Decides, Held;
      r := HandOver(a, key, target, at);
      if r.PoolFull? {
        ghost var s :| Visits(start, |old(trace)|, trace, s) && Decides(s, r, target, at);
        ghost var path := trace;
        Interfere(Sender(a));
        BackEffect(view, a);
        GiveBack(a, target);
        VisitsLater(start, |old(trace)|, |old(trace)|, path, trace, s);
      }
    }

    /** A dispatch that holds the target's lock. */
    method DispatchLocked(a: Actor, key: Key, target: string, at: int) returns (r: Dispatched)
      requires Valid() && Claims(view, a, Checking) && view.claims[a].key == key && target == ClaimTarget(view, a)
      modifies this, locks, pool
      ensures Valid() && LeftBy(view, a, r) && !r.TargetRequired? && !r.TargetBusy?
      ensures KeepsJobs(old(view), view) && (r.HandedOver? ==> Held(view, Job(r.ticket, key, target)))
      ensures old(trace) <= trace && Explained(start, |old(trace)|, trace, r, target, at)
      ensures old(view).pool.started ==> view.pool.started
      ensures a.Ticker? ==>
                view.ticker == TickerAfter(old(view).ticker, r) && view.past.rounds == old(view).past.rounds
      ensures a.Caller? ==>
                WaitsFor(view, a.n, r) || (!r.HandedOver? && (a.n in view.waiting <==> a.n in old(view).waiting))
    {
      hide CanRun, Run, Reachable, Apply, Enabled, TickerAfter, Visits, Explained, Held;
      Interfere(Sender(a));
      CheckEffect(view, a, at);
      VisitsNow(start, trace, |old(trace)|);
      ghost var checked, path := view, trace;
      var active := CheckTarget(a, target, at);
      Interfere(Sender(a));
      ghost var later := trace;
      if active {
        BackEffect(view, a);
        GiveBack(a, target);
        r := InBlackout;
      } else {
        r := DispatchCleared(a, key, target, at);
      }
      VisitsLater(start, |old(trace)|, |old(trace)|, path, trace, checked);
      Explain(start, |old(trace)|, |later|, trace, checked, r, target, at);
    }

    /**
     A whole dispatch, with the other goroutines running between its actions: the lock, the blackout check,
     the hand-over, and the lock given back whenever the job was not handed over.
     */
    method DispatchJob(a: Actor, key: Key, at: int) returns (r: Dispatched)
      requires Valid() && a !in view.claims && key in registry
      requires a.Ticker? ==> TickerFree(view) && view.ticker.due[0] == key
      requires a.Caller? ==> key.AdHocKey? && registry[key] != "" && a.n !in view.waiting
      modifies this, locks, pool
      ensures Valid() && LeftBy(view, a, r) && r != TargetRequired
      ensures r.TargetBusy? <==> registry[key] in old(view.locks)
      ensures KeepsJobs(old(view), view) && (r.HandedOver? ==> Held(view, Job(r.ticket, key, registry[key])))
      ensures old(trace) <= trace && Explained(start, |old(trace)|, trace, r, registry[key], at)
      ensures old(view).pool.started ==> view.pool.started
      ensures a.Ticker? ==>
                view.ticker == TickerAfter(old(view).ticker, r) && view.past.rounds == old(view).past.rounds
      ensures a.Caller? ==> WaitsFor(view, a.n, r)
    {
      hide CanRun, Run, Reachable, Apply, Enabled, TickerAfter, Visits, Explained, Held;
      StepEffects(view, a, key);
      VisitsNow(start, trace, |trace|);
      ghost var before, path := view, trace;
      var locked := TakeLock(a, key);
      if !locked {
        VisitsLater(start, |path|, |path|, path, trace, before);
        Explain(start, |path|, |trace|, trace, before, TargetBusy, registry[key], at);
        return TargetBusy;
      }
      ghost var later := trace;
      r := DispatchLocked(a, key, registry[key], at);
      ExplainedLater(start, |path|, |later|, trace, trace, r, registry[key], at);
    }

    /** Dispatches an ad-hoc run for caller `n`, or says why not; the caller then waits for the ticket's result. */
    method DispatchAdHoc(n: nat, run: Key, now: int) returns (r: Dispatched)
      requires Valid() && run.AdHocKey? && run in registry
      requires Caller(n) !in view.claims && n !in view.waiting
      modifies this, locks, pool
      ensures Valid() && LeftBy(view, Caller(n), r)
      ensures r.TargetRequired? <==> registry[run] == ""
      ensures r.TargetBusy? <==> registry[run] != "" && registry[run] in old(view).locks
      ensures Explained(start, |old(trace)|, trace, r, registry[run], now)
      ensures WaitsFor(view, n, r)
      ensures r.HandedOver? ==> Held(view, Job(r.ticket, run, registry[run]))
    {
      if registry[run] == "" {
        VisitsNow(start, trace, |trace|);
        Explain(start, |trace|, |trace|, trace, view, TargetRequired, "", now);
        return TargetRequired;
      }
      r := DispatchJob(Caller(n), run, now);
    }

    /**
     One dispatch round. `reload` is what the blackout reload at its start finds, `store` lists due rows, oldest first,
     up to the limit it is asked for; `free` are the slots counted, `due` the rows the round went through and `results`
     what became of them, in their order.
     */
    method Tick(now: int, reload: Option<Snapshot>, store: nat -> seq<Key>)
      returns (free: nat, due: seq<Key>, results: seq<Dispatched>)
      requires Valid() && view.ticker.Waiting? && view.pool.started && Ticker !in view.claims
      requires forall limit: nat :: |store(limit)| <= limit
      requires forall limit: nat, k :: k in store(limit) ==> k.ScheduleKey? && k in registry
      modifies this, locks, pool
      ensures Valid() && view.ticker.Waiting? && view.pool.started && Ticker !in view.claims
      ensures view.past.rounds == old(view).past.rounds + 1
      ensures reload.Some? ==> exists s :: Visits(start, |old(trace)|, trace, s) && s.cache == reload.value
      ensures exists s :: Visits(start, |old(trace)|, trace, s) && free == SlotsOf(s)
      ensures WentThrough(store(free + 5), free, due, results)
      ensures Accounted(view, start, |old(trace)|, trace, registry, due, results, now)
    {
      hide Apply, Enabled, Valid, WentThrough, AllHeld, AllExplained, Undisturbed;
      due, results := [], [];
      RefreshBlackouts(reload);
      ghost var loaded, path := view, trace;
      InterfereAsTicker(Waiting);
      ghost var _ := EvaluateInFlightBlackouts(now);
      InterfereAsTicker(Counting(now));
      ghost var since := |trace|;
      free := CountSlots(now);
      VisitsLater(start, |old(trace)|, |old(trace)|, path, trace, loaded);
      path := trace;
      ghost var counted :| Visits(start, since, path, counted) && free == SlotsOf(counted);
      VisitsLater(start, |old(trace)|, since, path, path, counted);
      if free <= 0 {
        NothingDispatched(view, registry, store(LIST_DUE_OVERHEAD));
        return;
      }
      InterfereAsTicker(Listing(now, free));
      since := |trace|;
      due, results := DispatchListed(now, store(free + LIST_DUE_OVERHEAD), free);
      VisitsLater(start, |old(trace)|, |old(trace)|, path, trace, counted);
      VisitsLater(start, |old(trace)|, |old(trace)|, path, trace, loaded);
      AllExplainedStill(start, |old(trace)|, since, trace, trace, registry, due, results, now);
    }

    /** The others run while the tick goroutine stands at `at`, between two rows. */
    method InterfereAsTicker(ghost at: Tick)
      requires Valid() && Ticker !in view.claims && view.pool.started
      requires view.ticker == at && !at.Walking? && !at.Judging?
      modifies this, locks, pool
      ensures Valid() && Ticker !in view.claims && view.pool.started && view.ticker == at
      ensures view.past.rounds == old(view).past.rounds && KeepsJobs(old(view), view) && old(trace) <= trace
    {
      hide Valid;
      Interfere(Sender(Ticker));
    }

    method CountSlots(now: int) returns (free: nat)
      requires Valid() && view.ticker == Counting(now)
      modifies this
      ensures Valid() && free == FreeSlots(view.pool)
      ensures exists s :: Visits(start, |old(trace)|, trace, s) && free == SlotsOf(s)
      ensures view.ticker == if free <= 0 then Waiting else Listing(now, free)
      ensures view.claims == old(view).claims && view.pool == old(view).pool && view.past == old(view).past
      ensures old(trace) <= trace
    {
      hide CanRun, Run, Reachable, Apply, Enabled;
      free := pool.Free();
      VisitsNow(start, trace, |trace|);
      ghost var counted, path := view, trace;
      PlainTick(view, CountFree);
      Record(Ticking(CountFree));
      VisitsLater(start, |path|, |path|, path, trace, counted);
    }

    method DispatchListed(now: int, listed: seq<Key>, free: nat) returns (due: seq<Key>, results: seq<Dispatched>)
      requires Valid() && view.ticker == Listing(now, free) && view.pool.started && Ticker !in view.claims
      requires |listed| <= free + LIST_DUE_OVERHEAD && forall k :: k in listed ==> k.ScheduleKey? && k in registry
      modifies this, locks, pool
      ensures Valid() && view.ticker.Waiting? && view.pool.started && Ticker !in view.claims
      ensures view.past.rounds == old(view).past.rounds
      ensures WentThrough(listed, free, due, results) && old(trace) <= trace
      ensures Accounted(view, start, |old(trace)|, trace, registry, due, results, now)
    {
      hide CanRun, Run, Reachable, Apply, Enabled, WentThrough, AllHeld;
      due, results := [], [];
      if listed == [] {
        PlainTick(view, ListNothing);
        Record(Ticking(ListNothing));
        NothingDispatched(view, registry, listed);
        EmptyWentThrough(free);
        return;
      }
      PlainTick(view, ListDue(listed));
      Record(Ticking(ListDue(listed)));
      ghost var since := |trace|;
      results := DispatchDue(now, listed, free);
      WentThroughLength(listed, free, results);
      due := listed[..|results|];
      AllExplainedStill(start, |old(trace)|, since, trace, trace, registry, due, results, now);
    }

    /**
     The loop over the due rows, in order: it ends at the number of free slots, at the end of the rows, or when the
     pool is full. `results` says what became of each row it went through.
     */
    method DispatchDue(now: int, due: seq<Key>, free: nat) returns (results: seq<Dispatched>)
      requires Valid() && view.ticker == Looping(now, due, free, 0) && view.pool.started && Ticker !in view.claims
      requires forall k :: k in due ==> k in registry
      modifies this, locks, pool
      ensures Valid() && view.ticker.Waiting? && view.pool.started && Ticker !in view.claims
      ensures view.past.rounds == old(view).past.rounds
      ensures |results| <= |due| && WentThrough(due, free, due[..|results|], results) && old(trace) <= trace
      ensures Accounted(view, start, |old(trace)|, trace, registry, due[..|results|], results, now)
    {
      hide Valid, Apply, Enabled, Accounted, KeepsJobs, Held;
      var dispatched, i := 0, 0;
      results := [];
      assert due[..0] == [] && due[0..] == due;
      ghost var since := |trace|;
      NothingDispatched(view, registry, due);
      while i < |due| && dispatched < free
        invariant 0 <= i == |results| <= |due| && dispatched == Handed(results) <= free
        invariant Valid() && view.pool.started && Ticker !in view.claims && view.past.rounds == old(view).past.rounds
        invariant view.ticker == Looping(now, due[i..], free, dispatched)
        invariant forall k :: 0 <= k < |results| ==> !results[k].PoolFull?
        invariant Accounted(view, start, since, trace, registry, due[..i], results, now)
        invariant since <= |trace| && old(trace) <= trace
      {
        var r := DispatchRow(now, due, free, i, dispatched, results, since);
        results := results + [r];
        i := i + 1;
        if r.PoolFull? {
          return;
        }
        if r.HandedOver? {
          dispatched := dispatched + 1;
        }
      }
      ghost var before, path := view, trace;
      EndRound();
      assert Accounted(view, start, since, trace, registry, due[..i], results, now) by {
        AccountedStill(before, view, start, since, path, trace, registry, due[..i], results, now);
      }
    }

    /** One row of the round, the other goroutines running before it. */
    method DispatchRow(now: int, due: seq<Key>, free: nat, i: nat, dispatched: nat,
                       ghost results: seq<Dispatched>, ghost since: nat)
      returns (r: Dispatched)
      requires Valid() && i < |due| && dispatched < free && view.pool.started && Ticker !in view.claims
      requires view.ticker == Looping(now, due[i..], free, dispatched) && due[i] in registry && since <= |trace|
      requires Accounted(view, start, since, trace, registry, due[..i], results, now)
      modifies this, locks, pool
      ensures Valid() && view.pool.started && Ticker !in view.claims && view.past.rounds == old(view).past.rounds
      ensures view.ticker == if r.PoolFull? then Waiting
                             else Looping(now, due[i + 1..], free, dispatched + if r.HandedOver? then 1 else 0)
      ensures old(trace) <= trace && Accounted(view, start, since, trace, registry, due[..i + 1], results + [r], now)
    {
      hide Valid, Apply, Enabled, Undisturbed, Accounted, Explained, Held, KeepsJobs;
      ghost var before, path := view, trace;
      InterfereAsTicker(Looping(now, due[i..], free, dispatched));
      AccountedStill(before, view, start, since, path, trace, registry, due[..i], results, now);
      before, path := view, trace;
      assert due[i..][1..] == due[i + 1..] && due[..i + 1] == due[..i] + [due[i]];
      r := DispatchJob(Ticker, due[i], now);
      AccountedMore(before, view, start, since, path, trace, registry, due[..i], results, due[i], r, now);
    }

    method EndRound()
      requires Valid() && TickEnabled(view, LoopEnds)
      modifies this
      ensures Valid() && view == Apply(old(view), Ticking(LoopEnds))
      ensures view.ticker.Waiting? && view.claims == old(view).claims && view.pool == old(view).pool
      ensures view.past.rounds == old(view).past.rounds && KeepsJobs(old(view), view) && old(trace) <= trace
    {
      hide CanRun, Run, Reachable, Apply, Enabled;
      PlainTick(view, LoopEnds);
      Record(Ticking(LoopEnds));
    }

    /** Puts the job into the in-flight table under a context of its own. */
    method RegisterJob(w: nat, job: Job, at: int)
      requires Valid() && w in view.loops && view.loops[w] == Resolving(job)
      modifies this
      ensures Valid() && view == Apply(old(view), Working(w, Register(at)))
      ensures inflight == old(inflight)[job.key := Entry(job.ticket, job.target, at)]
      ensures contexts == old(contexts)[job.ticket := if cancelled then Shutdown else Uncancelled]
      ensures w in view.loops && view.loops[w] == Scanning(job)
    {
      hide CanRun, Run, Reachable, Apply, Enabled;
      WorkEffect(view, w, Register(at));
      inflight := inflight[job.key := Entry(job.ticket, job.target, at)];
      contexts := contexts[job.ticket := if cancelled then Shutdown else Uncancelled];
      Record(Working(w, Register(at)));
    }

    /** The scan returns, with or without an error. */
    method AwaitRunner(w: nat, job: Job, err: RunError)
      requires Valid() && w in view.loops && view.loops[w] == Scanning(job)
      modifies this
      ensures Valid() && view == Apply(old(view), Working(w, RunnerReturns(err)))
      ensures w in view.loops && view.loops[w] == Returned(job, err)
    {
      hide CanRun, Run, Reachable, Apply, Enabled;
      WorkEffect(view, w, RunnerReturns(err));
      Record(Working(w, RunnerReturns(err)));
    }

    /** Records the outcome by the error and the context's cause, and sends an ad-hoc caller its result. */
    method ReportJob(w: nat, job: Job, err: RunError)
      requires Valid() && w in view.loops && view.loops[w] == Returned(job, err)
      modifies this
      ensures Valid() && w in view.loops && view.loops[w] == Reported(job)
      ensures job.ticket in old(contexts) && job.ticket in view.past.outcomes
      ensures view.past.outcomes[job.ticket] == if err.NoError? then Succeeded
                                                else if job.key.ScheduleKey? && err.CanceledError?
                                                        && old(contexts)[job.ticket].BlackoutPause? then PausedBlackout
                                                else SchedulerSteps.Outcome.Failed
    {
      hide CanRun, Run, Reachable, Apply, Enabled;
      RunReaches(start, trace);
      ResultsNeverBlock(view, w);
      WorkEffect(view, w, Report);
      Record(Working(w, Report));
    }

    method UnregisterJob(w: nat, job: Job)
      requires Valid() && w in view.loops && view.loops[w] == Reported(job)
      modifies this
      ensures Valid() && view == Apply(old(view), Working(w, Unregister))
      ensures inflight == old(inflight) - {job.key}
      ensures w in view.loops && view.loops[w] == Unregistered(job) && view.past == old(view).past
    {
      hide CanRun, Run, Reachable, Apply, Enabled;
      WorkEffect(view, w, Unregister);
      inflight := inflight - {job.key};
      CancelContext(job.ticket, JobEnded);
      Record(Working(w, Unregister));
    }

    method UnlockTarget(w: nat, job: Job)
      requires Valid() && w in view.loops && view.loops[w] == Unregistered(job)
      modifies this, locks
      ensures Valid() && view == Apply(old(view), Working(w, Unlock))
      ensures w in view.loops && view.loops[w] == Unlocked(job) && view.past == old(view).past
      ensures job.target !in view.locks
    {
      hide CanRun, Run, Reachable, Apply, Enabled;
      WorkEffect(view, w, Unlock);
      locks.Release(job.target);
      Record(Working(w, Unlock));
    }

    /** The scan itself, between registration and the end of the registration. */
    method RunScan(w: nat, job: Job, at: int, err: RunError)
      requires Valid() && w in view.loops && view.loops[w] == Resolving(job)
      modifies this, locks, pool
      ensures Valid() && w in view.loops && view.loops[w] == Unregistered(job) && job.ticket in view.past.outcomes
      ensures view.past.outcomes[job.ticket].Succeeded? <==> err.NoError?
      ensures view.past.outcomes[job.ticket].PausedBlackout? ==> err.CanceledError? && job.key.ScheduleKey?
    {
      hide Valid, Apply;
      RegisterJob(w, job, at);
      Interfere(LoopParty(w));
      AwaitRunner(w, job, err);
      Interfere(LoopParty(w));
      ReportJob(w, job, err);
      Interfere(LoopParty(w));
      UnregisterJob(w, job);
    }

    /**
     What a worker loop does with a job in hand. Whichever way it goes, the outcome is recorded, nothing of
     the job is left in the in-flight table, and the target's lock is released.
     */
    method RunJob(w: nat, job: Job, configResolves: bool, at: int, err: RunError)
      requires Valid() && w in view.loops && view.loops[w] == Resolving(job)
      modifies this, locks, pool
      ensures Valid() && w in view.loops && view.loops[w] == Unlocked(job) && job.ticket in view.past.outcomes
      ensures job.target !in view.locks && job.key !in inflight
      ensures view.past.outcomes[job.ticket].Succeeded? <==> configResolves && err.NoError?
      ensures view.past.outcomes[job.ticket].PausedBlackout? ==>
        configResolves && err.CanceledError? && job.key.ScheduleKey?
    {
      hide CanRun, Run, Reachable, Apply, Enabled;
      if configResolves {
        RunScan(w, job, at, err);
      } else {
        RunReaches(start, trace);
        ResultsNeverBlock(view, w);
        WorkEffect(view, w, ConfigFails);
        Record(Working(w, ConfigFails));
      }
      Interfere(LoopParty(w));
      RunReaches(start, trace);
      JobIsKnown(view, w);
      UnlockTarget(w, job);
      RunReaches(start, trace);
      FreeMeansUnregistered(view, job.key);
    }
  }

  /** The worker slots that are free: the size less the active ones, if it is more. */
  function SlotsOf(s: State): nat {
    if s.pool.active >= s.pool.size then 0 else s.pool.size - s.pool.active
  }

  /** How many of the results are hand-overs. */
  function Handed(results: seq<Dispatched>): nat {
    if results == [] then 0 else Handed(results[..|results| - 1]) + if results[|results| - 1].HandedOver? then 1 else 0
  }

  /**
   A round over the listed rows went through a prefix of them: all of them, unless it ran out of free slots or the
   pool was full.
   */
  predicate WentThrough(listed: seq<Key>, free: nat, due: seq<Key>, results: seq<Dispatched>) {
    && |results| == |due| && due <= listed && Handed(results) <= free
    && (|due| < |listed| ==> Handed(results) == free || (results != [] && results[|results| - 1].PoolFull?))
    && forall k :: 0 <= k < |results| - 1 ==> !results[k].PoolFull?
  }

  /** Every row handed over has its job accepted. */
  ghost predicate AllHeld(s: State, registry: map<Key, string>, due: seq<Key>, results: seq<Dispatched>) {
    |results| == |due| &&
    forall k :: 0 <= k < |due| && results[k].HandedOver? ==>
      due[k] in registry && Held(s, Job(results[k].ticket, due[k], registry[due[k]]))
  }

  lemma AllHeldStill(s: State, s': State, registry: map<Key, string>, due: seq<Key>, results: seq<Dispatched>)
    requires AllHeld(s, registry, due, results) && KeepsJobs(s, s')
    ensures AllHeld(s', registry, due, results)
  {
    hide Held;
  }

  lemma AllHeldMore(s: State, registry: map<Key, string>, due: seq<Key>, results: seq<Dispatched>, key: Key,
                    r: Dispatched)
    requires AllHeld(s, registry, due, results) && key in registry
    requires r.HandedOver? ==> Held(s, Job(r.ticket, key, registry[key]))
    ensures AllHeld(s, registry, due + [key], results + [r])
  {
    hide Held;
  }

  /** For every row gone through, some state passed through meanwhile decides what became of it. */
  ghost predicate AllExplained(start: State, since: nat, trace: seq<Step>, registry: map<Key, string>, due: seq<Key>,
                               results: seq<Dispatched>, at: int) {
    |results| == |due| &&
    forall k :: 0 <= k < |due| ==>
      due[k] in registry && Explained(start, since, trace, results[k], registry[due[k]], at)
  }

  lemma AllExplainedStill(start: State, since: nat, since': nat, t: seq<Step>, t': seq<Step>,
                          registry: map<Key, string>, due: seq<Key>, results: seq<Dispatched>, at: int)
    requires AllExplained(start, since', t, registry, due, results, at) && since <= since' && t <= t'
    ensures AllExplained(start, since, t', registry, due, results, at)
  {
    hide Explained;
    forall k | 0 <= k < |due| ensures Explained(start, since, t', results[k], registry[due[k]], at) {
      ExplainedLater(start, since, since', t, t', results[k], registry[due[k]], at);
    }
  }

  lemma AllExplainedMore(start: State, since: nat, since': nat, t: seq<Step>, t': seq<Step>, registry: map<Key, string>,
                         due: seq<Key>, results: seq<Dispatched>, key: Key, r: Dispatched, at: int)
    requires AllExplained(start, since, t, registry, due, results, at) && t <= t' && key in registry
    requires Explained(start, since', t', r, registry[key], at) && since <= since'
    ensures AllExplained(start, since, t', registry, due + [key], results + [r], at)
  {
    hide Explained;
    AllExplainedStill(start, since, since, t, t', registry, due, results, at);
    ExplainedLater(start, since, since', t', t', r, registry[key], at);
  }

  /** Every row handed over has its job accepted, and what became of each row is explained. */
  ghost predicate Accounted(s: State, start: State, since: nat, trace: seq<Step>, registry: map<Key, string>,
                            due: seq<Key>, results: seq<Dispatched>, at: int) {
    AllHeld(s, registry, due, results) && AllExplained(start, since, trace, registry, due, results, at)
  }

  lemma AccountedStill(s: State, s': State, start: State, since: nat, t: seq<Step>, t': seq<Step>,
                       registry: map<Key, string>, due: seq<Key>, results: seq<Dispatched>, at: int)
    requires Accounted(s, start, since, t, registry, due, results, at) && KeepsJobs(s, s') && t <= t'
    ensures Accounted(s', start, since, t', registry, due, results, at)
  {
    hide AllHeld, AllExplained, KeepsJobs;
    AllHeldStill(s, s', registry, due, results);
    AllExplainedStill(start, since, since, t, t', registry, due, results, at);
  }

  lemma AccountedMore(s: State, s': State, start: State, since: nat, t: seq<Step>, t': seq<Step>,
                      registry: map<Key, string>, due: seq<Key>, results: seq<Dispatched>, key: Key,
                      r: Dispatched, at: int)
    requires Accounted(s, start, since, t, registry, due, results, at) && KeepsJobs(s, s') && t <= t'
    requires since <= |t| && key in registry && Explained(start, |t|, t', r, registry[key], at)
    requires r.HandedOver? ==> Held(s', Job(r.ticket, key, registry[key]))
    ensures Accounted(s', start, since, t', registry, due + [key], results + [r], at)
  {
    hide AllHeld, AllExplained, KeepsJobs, Held, Explained;
    AllHeldStill(s, s', registry, due, results);
    AllHeldMore(s', registry, due, results, key, r);
    AllExplainedMore(start, since, |t|, t, t', registry, due, results, key, r, at);
  }

  lemma ExplainedLater(start: State, since: nat, since': nat, trace: seq<Step>, trace': seq<Step>,
                       r: Dispatched, target: string, at: int)
    requires Explained(start, since', trace, r, target, at) && since <= since' && trace <= trace'
    ensures Explained(start, since, trace', r, target, at)
  {
    hide Visits, Decides;
    var s :| Visits(start, since', trace, s) && Decides(s, r, target, at);
    VisitsLater(start, since, since', trace, trace', s);
    if r.HandedOver? || r.PoolFull? || r.Panicked? {
      var c :| Visits(start, since', trace, c) && (target, at) !in c.cache;
      VisitsLater(start, since, since', trace, trace', c);
    }
  }

  /** A dispatch decided at `s`, or one cleared at `s` and decided later. */
  lemma Explain(start: State, since: nat, later: nat, trace: seq<Step>, s: State, r: Dispatched, target: string,
                at: int)
    requires Visits(start, since, trace, s) && since <= later
    requires if r.HandedOver? || r.PoolFull? || r.Panicked?
             then (target, at) !in s.cache && exists d :: Visits(start, later, trace, d) && Decides(d, r, target, at)
             else Decides(s, r, target, at)
    ensures Explained(start, since, trace, r, target, at)
  {
    hide Visits, Decides;
    if r.HandedOver? || r.PoolFull? || r.Panicked? {
      var d :| Visits(start, later, trace, d) && Decides(d, r, target, at);
      VisitsLater(start, since, later, trace, trace, d);
    }
  }

  lemma ClosedTakesNothing(s: State, target: string, at: int)
    requires s.pool.stopped
    ensures Decides(s, PoolFull, target, at)
  {}

  lemma NothingDispatched(s: State, registry: map<Key, string>, listed: seq<Key>)
    ensures WentThrough(listed, 0, [], [])
    ensures forall start, since, trace, at :: Accounted(s, start, since, trace, registry, [], [], at)
  {}

  lemma EmptyWentThrough(free: nat)
    ensures WentThrough([], free, [], [])
  {}

  lemma WentThroughLength(listed: seq<Key>, free: nat, results: seq<Dispatched>)
    requires |results| <= |listed|
    ensures |listed[..|results|]| == |results|
  {}

  lemma TickLosesNoJob(s: State, step: TickStep)
    requires TickEnabled(s, step)
    ensures KeepsJobs(s, ApplyTick(s, step))
  {
    assert ApplyTick(s, step).pool == s.pool && ApplyTick(s, step).loops == s.loops
           && ApplyTick(s, step).past.finished == s.past.finished;
    hide ApplyTick, TickEnabled;
  }

  lemma DispatchLosesNoJob(s: State, a: Actor, step: DispatchStep)
    requires DispatchEnabled(s, a, step)
    ensures KeepsJobs(s, ApplyDispatch(s, a, step))
  {
    assert ApplyDispatch(s, a, step).loops == s.loops && ApplyDispatch(s, a, step).past.finished == s.past.finished
           && s.pool.queue <= ApplyDispatch(s, a, step).pool.queue;
    hide ApplyDispatch, DispatchEnabled;
    forall j | j in s.pool.queue ensures j in ApplyDispatch(s, a, step).pool.queue {
      var i :| 0 <= i < |s.pool.queue| && s.pool.queue[i] == j;
      assert ApplyDispatch(s, a, step).pool.queue[i] == j;
    }
  }

  /** Where a loop's step leaves the jobs: the head of the queue in its hands, its own where it was or done. */
  lemma WorkMovesJobs(s: State, w: nat, step: WorkStep)
    requires WorkEnabled(s, w, step)
    ensures var s' := ApplyWork(s, w, step);
      && (forall v :: v in s.loops && v != w ==> v in s'.loops && s'.loops[v] == s.loops[v])
      && s.past.finished <= s'.past.finished
      && (if step.Take? then s'.pool.queue == s.pool.queue[1..] && w in s'.loops && s'.loops[w] == Got(s.pool.queue[0])
          else s'.pool.queue == s.pool.queue)
      && (s.loops[w].HasJob() && !step.End? ==>
            w in s'.loops && s'.loops[w].HasJob() && s'.loops[w].job == s.loops[w].job)
      && (step.End? ==> s.loops[w].job in s'.past.finished)
      && (step.Take? ==> !s.loops[w].HasJob())
  {}

  lemma WorkLosesNoJob(s: State, w: nat, step: WorkStep)
    requires WorkEnabled(s, w, step)
    ensures KeepsJobs(s, ApplyWork(s, w, step))
  {
    WorkMovesJobs(s, w, step);
    var s' := ApplyWork(s, w, step);
    assert w in s.loops && (s.loops[w].HasJob() || !step.End?);
    hide ApplyWork, WorkEnabled;
    forall j | Held(s, j) ensures Held(s', j) {
      if j in s.pool.queue && step.Take? && j != s.pool.queue[0] {
        assert j in s.pool.queue[1..];
      } else if v :| v in s.loops && s.loops[v].HasJob() && s.loops[v].job == j {
        assert v != w ==> v in s'.loops && s'.loops[v].job == j;
      } else if j in s.pool.queue && step.Take? {
        assert s'.loops[w].job == j;
      }
    }
  }

  lemma StepLosesNoJob(s: State, step: Step)
    requires Enabled(s, step) && (step.Life? ==> step.life.RefreshCache?)
    ensures KeepsJobs(s, Apply(s, step))
  {
    hide ApplyLife, ApplyTick, ApplyDispatch, ApplyWork, KeepsJobs;
    match step
    case Life(l) => RefreshLosesNoJob(s, l);
    case Ticking(t) => TickLosesNoJob(s, t);
    case Dispatching(a, d) => DispatchLosesNoJob(s, a, d);
    case Calling(n, c) => CallLosesNoJob(s, n, c);
    case Working(w, k) => WorkLosesNoJob(s, w, k);
  }

  lemma RefreshLosesNoJob(s: State, step: LifeStep)
    requires LifeEnabled(s, step) && step.RefreshCache?
    ensures KeepsJobs(s, ApplyLife(s, step))
  {
    assert ApplyLife(s, step).pool == s.pool && ApplyLife(s, step).loops == s.loops
           && ApplyLife(s, step).past.finished == s.past.finished;
    hide ApplyLife, LifeEnabled;
  }

  lemma RefreshEffect(s: State, c: Snapshot)
    ensures Enabled(s, Life(RefreshCache(c)))
    ensures var s' := Apply(s, Life(RefreshCache(c)));
            s' == s.(cache := c, ticker := s'.ticker) && SeenMore(s.ticker, s'.ticker)
  {
    hide ApplyTick, ApplyDispatch, ApplyCaller, ApplyWork;
  }

  lemma CallLosesNoJob(s: State, n: nat, step: CallerStep)
    requires CallerEnabled(s, n, step)
    ensures KeepsJobs(s, ApplyCaller(s, n, step))
  {
    assert ApplyCaller(s, n, step).pool == s.pool && ApplyCaller(s, n, step).loops == s.loops
           && ApplyCaller(s, n, step).past.finished == s.past.finished;
    hide ApplyCaller, CallerEnabled;
  }

  /**
   The jobs on the walk's roster that are still in flight were judged by it, and cancelled if they entered a blackout.
   */
  ghost predicate WalkAchieved(s: State, now: int, walk: Walk) {
    forall key :: key in s.inflight && s.inflight[key].ticket in walk.roster ==> Handled(s, now, walk, s.inflight[key])
  }

  /**
   Every snapshot current meanwhile says that the entry's target is blacked out now and was not at the job's start.
   */
  ghost predicate EnteredAllAlong(start: State, since: nat, trace: seq<Step>, e: Entry, now: int) {
    forall v :: Visits(start, since, trace, v) ==> (e.target, now) in v.cache && (e.target, e.acquiredAt) !in v.cache
  }

  /** The walk from the end of `before` on has cancelled what entered a blackout. */
  lemma WalkCancels(start: State, before: seq<Step>, path: seq<Step>, trace: seq<Step>, now: int)
    requires Reachable(start) && CanRun(start, trace) && trace == path + [Ticking(WalkEnds)]
    requires before + [Ticking(TickBegins(now))] <= path && CanRun(start, before)
    requires Run(start, trace).past.rounds == Run(start, before).past.rounds + 1
    ensures var s0, s := Run(start, before), Run(start, trace);
      forall key :: key in s0.inflight && key in s.inflight && s.inflight[key].ticket == s0.inflight[key].ticket
                    && EnteredAllAlong(start, |before|, trace, s.inflight[key], now) ==>
        s.inflight[key].ticket in s.causes && !s.causes[s.inflight[key].ticket].Uncancelled?
  {
    hide CanRun, Run, Reachable, Visits, Apply, Enabled;
    RunUnsnoc(start, path, Ticking(WalkEnds));
    assert path[..|before|] == before && path[|before|] == Ticking(TickBegins(now));
    var s0, s, last := Run(start, before), Run(start, trace), Run(start, path);
    WalkEndsQuietly(last);
    forall key | key in s0.inflight && key in s.inflight && s.inflight[key].ticket == s0.inflight[key].ticket
                 && EnteredAllAlong(start, |before|, trace, s.inflight[key], now)
      ensures s.inflight[key].ticket in s.causes && !s.causes[s.inflight[key].ticket].Uncancelled?
    {
      forall v | Visits(start, |before|, path, v)
        ensures (s.inflight[key].target, now) in v.cache
        ensures (s.inflight[key].target, s.inflight[key].acquiredAt) !in v.cache
      {
        VisitsLater(start, |before|, |before|, path, trace, v);
      }
      WalkIsComplete(start, |before|, path, now, key);
    }
  }

  lemma WalkEndsQuietly(s: State)
    requires Enabled(s, Ticking(WalkEnds))
    ensures var s' := Apply(s, Ticking(WalkEnds));
            s'.inflight == s.inflight && s'.causes == s.causes && s'.past.rounds == s.past.rounds + 1
  {}

  lemma WalkAchieves(s: State)
    requires Reachable(s) && Enabled(s, Ticking(WalkEnds))
    ensures WalkAchieved(Apply(s, Ticking(WalkEnds)), s.ticker.now, s.ticker.walk)
  {
    assert s.ticker.Walking?;
    assert Apply(s, Ticking(WalkEnds)).inflight == s.inflight && Apply(s, Ticking(WalkEnds)).causes == s.causes;
    hide Reachable, Enabled, Apply;
    forall key | key in s.inflight && s.inflight[key].ticket in s.ticker.walk.roster
      ensures Handled(s, s.ticker.now, s.ticker.walk, s.inflight[key])
    {
      WalkHandles(s, key);
    }
  }

  /** The job in a loop's hands is for its key's target. */
  lemma JobIsKnown(s: State, w: nat)
    requires Reachable(s) && w in s.loops && s.loops[w].HasJob()
    ensures var j := s.loops[w].job; j.key in s.registry && s.registry[j.key] == j.target
  {
    hide Reachable, Inv, Shape;
    ReachableInv(s);
    InvParts(s);
    LoopKnowsJob(s, w);
  }

  lemma InFlightMeansLocked(s: State, key: Key)
    requires Reachable(s) && key in s.registry && key in s.inflight
    ensures s.registry[key] in s.locks
  {
    hide Inv, Reachable, TableExact, Shape;
    ReachableInv(s);
    InvParts(s);
    var w := InFlightOnLoop(s, key);
    LoopKnowsJob(s, w);
    LockMeansOneOwner(s, s.registry[key]);
  }

  lemma LoopKnowsJob(s: State, w: nat)
    requires Shape(s) && w in s.loops && s.loops[w].HasJob()
    ensures Known(s, s.loops[w].job)
  {}

  /** Nothing is in flight for a key whose target is not locked. */
  lemma FreeMeansUnregistered(s: State, key: Key)
    requires Reachable(s) && key in s.registry && s.registry[key] !in s.locks
    ensures key !in s.inflight
  {
    hide Reachable;
    if key in s.inflight {
      InFlightMeansLocked(s, key);
    }
  }

  /** What the steps of a running job change. */
  lemma WorkEffect(s: State, w: nat, step: WorkStep)
    requires WorkEnabled(s, w, step) && s.loops[w].HasJob() && !step.Begin? && !step.End?
    ensures Enabled(s, Working(w, step)) && var s' := Apply(s, Working(w, step));
      var j := s.loops[w].job;
      s'.registry == s.registry && s'.cache == s.cache && s'.pool == s.pool && s'.nextTicket == s.nextTicket
      && s'.cancelled == s.cancelled && w in s'.loops
      && s'.locks == (if step.Unlock? then s.locks - {j.target} else s.locks)
      && match step
         case Register(at) =>
           s'.inflight == s.inflight[j.key := Entry(j.ticket, j.target, at)] && s'.loops[w] == Scanning(j)
           && s'.causes == s.causes[j.ticket := if s.cancelled then Shutdown else Uncancelled]
         case Unregister =>
           s'.inflight == s.inflight - {j.key} && s'.loops[w] == Unregistered(j) && s'.past == s.past
           && s'.causes == FirstCause(s.causes, j.ticket, JobEnded)
         case _ => s'.inflight == s.inflight && s'.causes == s.causes
    ensures var s' := Apply(s, Working(w, step));
      var j := s.loops[w].job;
      match step
      case RunnerReturns(err) => s'.loops[w] == Returned(j, err) && s'.past == s.past
      case ConfigFails =>
        s'.loops[w] == Unregistered(j) && j.ticket in s'.past.outcomes && s'.past.outcomes[j.ticket] == Failed
      case Report =>
        s'.loops[w] == Reported(j) && j.ticket in s'.past.outcomes
        && s'.past.outcomes[j.ticket] == OutcomeOf(j.key, s.loops[w].err, s.causes[j.ticket])
      case Unlock => s'.loops[w] == Unlocked(j) && s'.past == s.past
      case _ => true
  {
    hide ApplyLife, ApplyTick, ApplyDispatch, ApplyCaller;
  }

  /** Caller `n` waits exactly when its job was handed over, and then for that job's ticket. */
  predicate WaitsFor(s: State, n: nat, r: Dispatched) {
    (n in s.waiting <==> r.HandedOver?) && (r.HandedOver? ==> s.waiting[n] == r.ticket)
  }

  /** The tick loop's bookkeeping after one dispatch: the row is used up, and a full pool ends the round. */
  function TickerAfter(t: Tick, r: Dispatched): Tick
    requires t.Looping? && t.due != []
  {
    match r
    case HandedOver(_) => Looping(t.now, t.due[1..], t.free, t.dispatched + 1)
    case PoolFull => Waiting
    case _ => Looping(t.now, t.due[1..], t.free, t.dispatched)
  }

  lemma StepEffects(s: State, a: Actor, key: Key)
    requires a !in s.claims && key in s.registry
    requires a.Ticker? ==> TickerFree(s) && s.ticker.due[0] == key
    requires a.Caller? ==> key.AdHocKey? && s.registry[key] != "" && a.n !in s.waiting
    ensures s.registry[key] in s.locks && a.Ticker? ==>
      Enabled(s, Ticking(DueBusy)) && var s' := Apply(s, Ticking(DueBusy));
      s'.claims == s.claims && s'.ticker == TickerAfter(s.ticker, TargetBusy) && s'.pool == s.pool && s'.past == s.past
      && SameShared(s, s') && s'.nextTicket == s.nextTicket
    ensures s.registry[key] !in s.locks ==>
      Enabled(s, Dispatching(a, Acquire(key))) && var s' := Apply(s, Dispatching(a, Acquire(key)));
      Claims(s', a, Checking) && s'.claims[a].key == key && s'.ticker == s.ticker
      && s'.pool == s.pool && s'.waiting == s.waiting
      && s'.past == s.past && SameShared(s.(locks := s.locks + {s.registry[key]}), s') && s'.nextTicket == s.nextTicket
     
  {}

  lemma CheckEffect(s: State, a: Actor, at: int)
    requires Claims(s, a, Checking)
    ensures Enabled(s, Dispatching(a, CheckBlackout(at)))
    ensures var s' := Apply(s, Dispatching(a, CheckBlackout(at)));
      Claims(s', a, if (ClaimTarget(s, a), at) in s.cache then Refusing else Offering)
      && s'.claims[a].key == s.claims[a].key && s'.ticker == s.ticker && s'.pool == s.pool && s'.waiting == s.waiting
      && s'.past == s.past
  {}

  lemma BackEffect(s: State, a: Actor)
    requires (Claims(s, a, Refusing) || Claims(s, a, Bounced))
    ensures var step := if s.claims[a].stage == Refusing then Refuse else Bounce;
      Enabled(s, Dispatching(a, step)) && var s' := Apply(s, Dispatching(a, step));
      a !in s'.claims && s'.pool == s.pool && s'.waiting == s.waiting && s'.past == s.past
      && (a.Ticker? ==>
            s'.ticker == TickerAfter(s.ticker, if s.claims[a].stage == Refusing then InBlackout else PoolFull))
  {}

  /** What being told whether the pool is open changes. */
  lemma AskEffect(s: State, a: Actor)
    requires Claims(s, a, Offering)
    ensures forall stage :: var s' := AtStage(s, a, stage);
      Claims(s', a, stage) && s'.claims[a].key == s.claims[a].key && s'.ticker == s.ticker && s'.waiting == s.waiting
      && s'.pool == s.pool && s'.past == s.past
  {}

  /** What a send changes for its sender. */
  lemma HandEffect(s: State, a: Actor)
    requires Claims(s, a, Sending)
    ensures var s' := ApplySend(s, a);
      && s'.past == s.past && s'.pool.started == s.pool.started && s'.pool.stopped == s.pool.stopped
      && if Accepted(s) then
           && a !in s'.claims
           && (a.Ticker? ==> s'.ticker == TickerAfter(s.ticker, HandedOver(s.nextTicket)))
           && (a.Caller? ==> a.n in s'.waiting && s'.waiting[a.n] == s.nextTicket)
         else
           && a in s'.claims && s'.claims[a].key == s.claims[a].key
           && s'.claims[a].stage == (if s.pool.stopped then Dead else Bounced)
           && s'.ticker == s.ticker && s'.waiting == s.waiting && s'.registry == s.registry
  {}

  /** The same shared state, but for the pool and the ticket counter. */
  ghost predicate SameShared(s: State, s': State) {
    s'.registry == s.registry && s'.cache == s.cache && s'.locks == s.locks && s'.inflight == s.inflight
    && s'.causes == s.causes && s'.cancelled == s.cancelled
  }

  lemma OfferEffect(s: State, a: Actor)
    requires Claims(s, a, Offering)
    ensures Enabled(s, Dispatching(a, Offer))
    ensures Apply(s, Dispatching(a, Offer)) == AtStage(s, a, if s.pool.stopped then Bounced else Sending)
    ensures forall stage :: SameShared(s, AtStage(s, a, stage)) && AtStage(s, a, stage).pool == s.pool
              && AtStage(s, a, stage).nextTicket == s.nextTicket
  {}

  /** What a send leaves behind. */
  lemma SendEffect(s: State, a: Actor)
    requires Claims(s, a, Sending)
    ensures Enabled(s, Dispatching(a, Send)) && Apply(s, Dispatching(a, Send)) == ApplySend(s, a)
    ensures var s' := ApplySend(s, a);
      && SameShared(s, s') && s'.nextTicket == s.nextTicket + (if Accepted(s) then 1 else 0)
      && s'.pool == if Accepted(s) then s.pool.(queue := s.pool.queue + [NextJob(s, a)]) else s.pool
    ensures Accepted(s) <==> !s.pool.stopped && HasRoom(s.pool)
    ensures Accepted(s) ==> NextJob(s, a) in ApplySend(s, a).pool.queue
  {
    hide ApplyLife, ApplyTick, ApplyCaller, ApplyWork;
  }

  /** Whoever meets the queue closed is a caller. */
  lemma SenderIsCaller(s: State, a: Actor)
    requires Reachable(s) && Claims(s, a, Sending)
    ensures s.pool.stopped ==> a.Caller?
  {
    ReachableInv(s);
    InvParts(s);
    hide Inv, Reachable;
  }

  /** The steps that move only the tick goroutine itself. */
  lemma PlainTick(s: State, step: TickStep)
    requires TickEnabled(s, step) && !step.WalkLoads? && !step.WalkMisses? && !step.WalkJudges? && !step.DueBusy?
    ensures Enabled(s, Ticking(step)) && var s' := Apply(s, Ticking(step));
      SameShared(s, s') && s'.pool == s.pool && s'.nextTicket == s.nextTicket && s'.claims == s.claims
      && s'.past == s.past.(rounds := s.past.rounds + if step.WalkEnds? then 1 else 0)
      && match step
         case TickBegins(now) => s'.ticker.Walking? && s'.ticker.now == now && s'.ticker.pending == s.inflight.Keys
           && s'.ticker.walk == Walk(Tickets(s.inflight), map[], [s.cache])
         case WalkEnds => s'.ticker == Counting(s.ticker.now)
         case CountFree =>
           s'.ticker == if FreeSlots(s.pool) <= 0 then Waiting else Listing(s.ticker.now, FreeSlots(s.pool))
         case ListDue(due) => s'.ticker == Looping(s.ticker.now, due, s.ticker.free, 0)
         case ListNothing => s'.ticker == Waiting
         case LoopEnds => s'.ticker == Waiting
         case _ => true
  {
    hide ApplyLife, ApplyDispatch, ApplyCaller, ApplyWork;
  }

  /** The walk has one key less to visit; nothing else of what it relies on has changed. */
  ghost predicate WalkMoved(s: State, s': State, key: Key) {
    && s.ticker.Walking? && (s'.ticker.Walking? || s'.ticker.Judging?)
    && s'.ticker.now == s.ticker.now && s'.ticker.pending == s.ticker.pending - {key} && s'.ticker.walk == s.ticker.walk
    && s'.claims == s.claims && s'.pool == s.pool && s'.past.rounds == s.past.rounds
  }

  lemma LoadEffect(s: State, key: Key)
    requires s.ticker.Walking? && key in s.ticker.pending
    ensures var step := if key in s.inflight then WalkLoads(key) else WalkMisses(key);
      Enabled(s, Ticking(step)) && var s' := Apply(s, Ticking(step));
      WalkMoved(s, s', key) && SameShared(s, s') && s'.nextTicket == s.nextTicket
      && (key in s.inflight ==> s'.ticker.Judging? && s'.ticker.entry == s.inflight[key])
      && (key !in s.inflight ==> s'.ticker.Walking?)
  {
    hide ApplyLife, ApplyDispatch, ApplyCaller, ApplyWork;
  }

  /** What judging one loaded entry changes. */
  lemma JudgeEffect(s: State, reloaded: Option<Snapshot>)
    requires s.ticker.Judging?
    ensures Enabled(s, Ticking(WalkJudges(reloaded)))
    ensures var s' := Apply(s, Ticking(WalkJudges(reloaded)));
      && s'.registry == s.registry && s'.cache == (if reloaded.Some? then reloaded.value else s.cache)
      && s'.locks == s.locks && s'.pool == s.pool && s'.inflight == s.inflight && s'.nextTicket == s.nextTicket
      && s'.cancelled == s.cancelled && s'.claims == s.claims && s'.past.rounds == s.past.rounds
      && s'.ticker.Walking? && s'.ticker.now == s.ticker.now && s'.ticker.pending == s.ticker.pending
      && s'.ticker.walk.roster == s.ticker.walk.roster && s.ticker.walk.seen <= s'.ticker.walk.seen
      && var sight := Sighting(s.ticker.now, s.cache, s'.cache, s.ticker.entry);
      && s'.ticker.walk.judged == s.ticker.walk.judged[s.ticker.entry := sight]
      && s'.causes == if Entered(sight) then FirstCause(s.causes, s.ticker.entry.ticket, BlackoutPause) else s.causes
  {
    hide ApplyLife, ApplyDispatch, ApplyCaller, ApplyWork, FirstCause, Entered;
  }

  lemma InitialReachable(registry: map<Key, string>, cache: Snapshot, size: int)
    ensures Reachable(Initial(registry, cache, size))
  {
    assert Run(Initial(registry, cache, size), []) == Initial(registry, cache, size);
  }
}
