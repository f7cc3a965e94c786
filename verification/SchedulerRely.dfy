/** Why a goroutine may rely on the others leaving it where it stands. */
module SchedulerRely {
  import opened Options
  import opened Jobs
  import opened SchedulerSteps
  import opened SchedulerSafety
  import opened SchedulerLedger
  import opened SchedulerTheorems
  import opened Schedulers

  /** The goroutine that takes a step; the life of the pool belongs to none of them. */
  function PartyOf(step: Step): Option<Party> {
    match step
    case Life(_) => None
    case Ticking(_) => Some(Sender(Ticker))
    case Dispatching(a, _) => Some(Sender(a))
    case Calling(n, _) => Some(Sender(Caller(n)))
    case Working(w, _) => Some(LoopParty(w))
  }

  lemma LifeDisturbsNobody(s: State, step: LifeStep, me: Party)
    requires Shape(s) && LifeEnabled(s, step) && (me.LoopParty? ==> me.w in s.loops)
    ensures Unmoved(me, s, ApplyLife(s, step))
  {}

  lemma TickerDisturbsNobody(s: State, step: TickStep, me: Party)
    requires TickEnabled(s, step) && me != Sender(Ticker) && (me.LoopParty? ==> me.w in s.loops)
    ensures Unmoved(me, s, ApplyTick(s, step))
  {}

  lemma SenderDisturbsNobody(s: State, a: Actor, step: DispatchStep, me: Party)
    requires DispatchEnabled(s, a, step) && me != Sender(a) && (me.LoopParty? ==> me.w in s.loops)
    ensures Unmoved(me, s, ApplyDispatch(s, a, step))
  {}

  lemma CallerDisturbsNobody(s: State, n: nat, step: CallerStep, me: Party)
    requires CallerEnabled(s, n, step) && me != Sender(Caller(n)) && (me.LoopParty? ==> me.w in s.loops)
    ensures Unmoved(me, s, ApplyCaller(s, n, step))
  {}

  lemma LoopDisturbsNobody(s: State, w: nat, step: WorkStep, me: Party)
    requires TicketsPlaced(s) && WorkEnabled(s, w, step) && me != LoopParty(w) && (me.LoopParty? ==> me.w in s.loops)
    ensures Unmoved(me, s, ApplyWork(s, w, step))
  {
    if me.LoopParty? && s.loops[w].HasJob() && s.loops[me.w].HasJob() {
      LoopsHaveOwnTickets(s, w, me.w);
    }
  }

  lemma LoopsHaveOwnTickets(s: State, v: nat, w: nat)
    requires TicketsPlaced(s) && v in s.loops && w in s.loops && v != w && s.loops[v].HasJob() && s.loops[w].HasJob()
    ensures s.loops[v].job.ticket != s.loops[w].job.ticket
  {
    assert At(s, OnLoop(v), s.loops[v].job.ticket) && At(s, OnLoop(w), s.loops[w].job.ticket);
  }

  lemma LifeLosesNoJob(s: State, step: LifeStep)
    requires Shape(s) && LifeEnabled(s, step)
    ensures KeepsJobs(s, ApplyLife(s, step))
  {
    var s' := ApplyLife(s, step);
    assert s'.pool.queue == s.pool.queue && s'.past.finished == s.past.finished;
    assert forall w :: w in s.loops ==> w in s'.loops && s'.loops[w] == s.loops[w];
    hide ApplyLife, LifeEnabled, Shape;
  }

  /** A step of another goroutine leaves `me` where it stands, and at most replaces the blackout snapshot. */
  lemma OthersStep(s: State, step: Step, me: Party)
    requires Inv(s) && Enabled(s, step) && PartyOf(step) != Some(me) && (me.LoopParty? ==> me.w in s.loops)
    ensures Undisturbed(me, s, Apply(s, step))
  {
    hide ApplyLife, ApplyTick, ApplyDispatch, ApplyCaller, ApplyWork, Unmoved, KeepsJobs, Inv;
    InvParts(s);
    if step.Life? {
      LifeLosesNoJob(s, step.life);
    } else {
      StepLosesNoJob(s, step);
    }
    match step
    case Life(l) => LifeDisturbsNobody(s, l, me);
    case Ticking(t) => TickerDisturbsNobody(s, t, me);
    case Dispatching(a, d) => SenderDisturbsNobody(s, a, d, me);
    case Calling(n, c) => CallerDisturbsNobody(s, n, c, me);
    case Working(w, k) => LoopDisturbsNobody(s, w, k, me);
  }

  lemma UndisturbedTwice(me: Party, s: State, t: State, u: State)
    requires Undisturbed(me, s, t) && Undisturbed(me, t, u)
    ensures Undisturbed(me, s, u)
  {
    hide Held;
  }

  ghost predicate ByOthers(steps: seq<Step>, me: Party) {
    forall i :: 0 <= i < |steps| ==> PartyOf(steps[i]) != Some(me)
  }

  /** However many steps the other goroutines take, that is all that `me` can notice: what `Interfere` promises. */
  lemma {:induction false} OthersRun(s: State, steps: seq<Step>, me: Party)
    requires Inv(s) && CanRun(s, steps) && ByOthers(steps, me) && (me.LoopParty? ==> me.w in s.loops)
    ensures Undisturbed(me, s, Run(s, steps))
    decreases |steps|
  {
    hide Inv, Enabled, Apply, Undisturbed;
    if steps == [] {
      NothingDisturbs(me, s);
    } else {
      assert PartyOf(steps[0]) != Some(me);
      var next := Apply(s, steps[0]);
      OthersStep(s, steps[0], me);
      InvKept(s, steps[0]);
      StillThere(me, s, next);
      OthersRun(next, steps[1..], me);
      UndisturbedTwice(me, s, next, Run(s, steps));
    }
  }

  lemma NothingDisturbs(me: Party, s: State)
    requires me.LoopParty? ==> me.w in s.loops
    ensures Undisturbed(me, s, s)
  {}

  lemma StillThere(me: Party, s: State, t: State)
    requires Undisturbed(me, s, t)
    ensures me.LoopParty? ==> me.w in t.loops
  {}
}
