/**
 The port scanner's goroutines: a hard ceiling of `concurrency` goroutines, a softer cap set by the breaker
 and checked through a shared counter, and a small pool for retries.
 */
module Admissions {
  import opened Breakers
  import Sets

  /** What a connection attempt came to; `fault` labels an error other than a timeout or a refusal. */
  datatype Attempt = Connected | TimedOut | Refused | Faulty(fault: string)

  /** How a probe ended. */
  datatype End = Found | Failed | Closed | Errored(ip: string, fault: string) | Abandoned

  /** Where a probe's goroutine stands. */
  datatype Phase =
    | Trying
    | CapRead(cap: nat)
    | Undoing
    | BackingOff
    | Probing
    | WantsRetry
    | Retrying
    | Probed(attempt: Attempt)
    | Recorded(attempt: Attempt)
    | Filed
    | Leaving
  {
    predicate Admitted() {
      Probing? || WantsRetry? || Retrying? || Probed? || Recorded? || Filed?
    }
  }

  datatype Plan = Plan(ips: seq<string>, concurrency: nat, retryCap: nat)

  /** The baseline and the retry pool that go with a rate. */
  function PlanFor(ips: seq<string>, rate: int, defaultRate: nat): (p: Plan)
    requires defaultRate > 0
    ensures p.ips == ips && p.concurrency == (if rate <= 0 then defaultRate else rate) > 0
    ensures p.retryCap >= 2 && (p.concurrency >= 8 ==> p.retryCap == p.concurrency / 4)
    ensures p.concurrency < 8 ==> p.retryCap == 2
  {
    var concurrency: nat := if rate <= 0 then defaultRate else rate;
    Plan(ips, concurrency, if concurrency / 4 < 2 then 2 else concurrency / 4)
  }

  /**
   `inflight` is the shared counter and `history` what the breaker was told; `results`, `failures` and
   `dialErrs` are the lists the scan returns, with `errSeen` deduplicating the last. `ends` says how each probe
   ended.
   */
  datatype State = State(next: nat, goroutines: map<nat, Phase>, inflight: int, history: seq<Entry>, cancelled: bool,
                         results: seq<nat>, failures: nat,
                         errSeen: set<(string, string)>, dialErrs: seq<(string, string)>,
                         ends: map<nat, End>)

  const INITIAL := State(0, map[], 0, [], false, [], 0, {}, [], map[])

  datatype Step =
    | Spawn
    | Cancel
    | ReadCap(g: nat)
    | Add(g: nat)
    | Undo(g: nat)
    | TryAgain(g: nat)
    | GiveUp(g: nat)
    | Attempted(g: nat, attempt: Attempt)
    | TakeRetry(g: nat)
    | Retried(g: nat, attempt: Attempt)
    | Record(g: nat)
    | File(g: nat)
    | Release(g: nat)
    | Leave(g: nat)

  function CapNow(p: Plan, s: State): nat {
    LevelAfter(p.concurrency, s.history).cap
  }

  predicate IsAt(s: State, g: nat, p: Phase) {
    g in s.goroutines && s.goroutines[g] == p
  }

  function InRetry(gs: map<nat, Phase>): set<nat> {
    set g | g in gs && gs[g].Retrying?
  }

  function AdmittedIn(gs: map<nat, Phase>): set<nat> {
    set g | g in gs && gs[g].Admitted()
  }

  function UndoingIn(gs: map<nat, Phase>): set<nat> {
    set g | g in gs && gs[g].Undoing?
  }

  predicate Enabled(p: Plan, s: State, step: Step) {
    match step
    case Spawn => s.next < |p.ips| && |s.goroutines.Keys| < p.concurrency
    case Cancel => true
    case ReadCap(g) => IsAt(s, g, Trying)
    case Add(g) => g in s.goroutines && s.goroutines[g].CapRead?
    case Undo(g) => IsAt(s, g, Undoing)
    case TryAgain(g) => IsAt(s, g, BackingOff)
    case GiveUp(g) => IsAt(s, g, BackingOff) && s.cancelled
    case Attempted(g, _) => IsAt(s, g, Probing)
    case TakeRetry(g) => IsAt(s, g, WantsRetry) && |InRetry(s.goroutines)| < p.retryCap
    case Retried(g, _) => IsAt(s, g, Retrying)
    case Record(g) => g in s.goroutines && s.goroutines[g].Probed?
    case File(g) => g in s.goroutines && s.goroutines[g].Recorded?
    case Release(g) => IsAt(s, g, Filed)
    case Leave(g) => IsAt(s, g, Leaving)
  }

  function EntryOf(a: Attempt): Entry {
    Entry(a.Connected?, a.TimedOut?)
  }

  function EndOf(ip: string, a: Attempt): End {
    match a
    case Connected => Found
    case TimedOut => Failed
    case Refused => Closed
    case Faulty(fault) => Errored(ip, fault)
  }

  function IpOf(p: Plan, g: nat): string {
    if g < |p.ips| then p.ips[g] else ""
  }

  /** The phase the acting goroutine moves to. */
  function NextPhase(p: Plan, s: State, step: Step): Phase
    requires Enabled(p, s, step) && !step.Leave?
  {
    match step
    case Spawn => Trying
    case Cancel => Trying
    case ReadCap(_) => CapRead(CapNow(p, s))
    case Add(g) => if s.inflight + 1 <= s.goroutines[g].cap then Probing else Undoing
    case Undo(_) => BackingOff
    case TryAgain(_) => Trying
    case GiveUp(_) => Leaving
    case Attempted(_, a) => if a.TimedOut? then WantsRetry else Probed(a)
    case TakeRetry(_) => Retrying
    case Retried(_, a) => Probed(a)
    case Record(g) => Recorded(s.goroutines[g].attempt)
    case File(_) => Filed
    case Release(_) => Leaving
  }

  function HistoryAfter(p: Plan, s: State, step: Step): seq<Entry>
    requires Enabled(p, s, step)
  {
    match step
    case Record(g) => s.history + [EntryOf(s.goroutines[g].attempt)]
    case _ => s.history
  }

  function InflightAfter(s: State, step: Step): int {
    match step
    case Add(_) => s.inflight + 1
    case Undo(_) => s.inflight - 1
    case Release(_) => s.inflight - 1
    case _ => s.inflight
  }

  /** The lists after probe `g` ended with `attempt`. */
  function FileEnd(s: State, g: nat, end: End): State {
    var unseen := end.Errored? && (end.ip, end.fault) !in s.errSeen;
    s.(goroutines := s.goroutines[g := Filed],
       results := if end.Found? then s.results + [g] else s.results,
       failures := if end.Failed? then s.failures + 1 else s.failures,
       errSeen := if unseen then s.errSeen + {(end.ip, end.fault)} else s.errSeen,
       dialErrs := if unseen then s.dialErrs + [(end.ip, end.fault)] else s.dialErrs,
       ends := s.ends[g := end])
  }

  function Apply(p: Plan, s: State, step: Step): State
    requires Enabled(p, s, step)
  {
    match step
    case Spawn => s.(goroutines := s.goroutines[s.next := Trying], next := s.next + 1)
    case Cancel => s.(cancelled := true)
    case Leave(g) => s.(goroutines := s.goroutines - {g})
    case File(g) => FileEnd(s, g, EndOf(IpOf(p, g), s.goroutines[g].attempt))
    case GiveUp(g) => s.(goroutines := s.goroutines[g := Leaving], ends := s.ends[g := Abandoned])
    case _ =>
      s.(goroutines := s.goroutines[step.g := NextPhase(p, s, step)], inflight := InflightAfter(s, step),
         history := HistoryAfter(p, s, step))
  }

  // ----- the counter, the cap and the two ceilings -----

  ghost predicate Counted(p: Plan, s: State) {
    && s.inflight == |AdmittedIn(s.goroutines)| + |UndoingIn(s.goroutines)|
    && |s.goroutines.Keys| <= p.concurrency
    && |InRetry(s.goroutines)| <= p.retryCap
    && (forall g :: g in s.goroutines ==> g < s.next)
  }

  function One(b: bool): nat { if b then 1 else 0 }

  lemma AdmittedMove(gs: map<nat, Phase>, g: nat, to: Phase)
    ensures |AdmittedIn(gs[g := to])| == |AdmittedIn(gs)| - One(g in gs && gs[g].Admitted()) + One(to.Admitted())
  {
    assert AdmittedIn(gs[g := to]) == if to.Admitted() then AdmittedIn(gs) + {g} else AdmittedIn(gs) - {g};
  }

  lemma UndoingMove(gs: map<nat, Phase>, g: nat, to: Phase)
    ensures |UndoingIn(gs[g := to])| == |UndoingIn(gs)| - One(g in gs && gs[g].Undoing?) + One(to.Undoing?)
  {
    assert UndoingIn(gs[g := to]) == if to.Undoing? then UndoingIn(gs) + {g} else UndoingIn(gs) - {g};
  }

  lemma RetryMove(gs: map<nat, Phase>, g: nat, to: Phase)
    ensures |InRetry(gs[g := to])| == |InRetry(gs)| - One(g in gs && gs[g].Retrying?) + One(to.Retrying?)
  {
    assert InRetry(gs[g := to]) == if to.Retrying? then InRetry(gs) + {g} else InRetry(gs) - {g};
  }

  lemma KeysMove(gs: map<nat, Phase>, g: nat, to: Phase)
    ensures |gs[g := to].Keys| == |gs.Keys| + One(g !in gs)
  {
    assert gs[g := to].Keys == gs.Keys + {g};
  }

  lemma AllLeave(gs: map<nat, Phase>, g: nat)
    requires g in gs && gs[g].Leaving?
    ensures AdmittedIn(gs - {g}) == AdmittedIn(gs)
    ensures UndoingIn(gs - {g}) == UndoingIn(gs) && InRetry(gs - {g}) == InRetry(gs)
    ensures |(gs - {g}).Keys| == |gs.Keys| - 1
  {
    assert (gs - {g}).Keys == gs.Keys - {g};
  }

  lemma CountedKept(p: Plan, s: State, step: Step)
    requires Counted(p, s) && Enabled(p, s, step)
    ensures Counted(p, Apply(p, s, step))
  {
    hide AdmittedIn, UndoingIn, InRetry, CapNow;
    if step.Leave? {
      AllLeave(s.goroutines, step.g);
    } else if !step.Cancel? {
      var g := if step.Spawn? then s.next else step.g;
      var to := NextPhase(p, s, step);
      AdmittedMove(s.goroutines, g, to);
      UndoingMove(s.goroutines, g, to);
      RetryMove(s.goroutines, g, to);
      KeysMove(s.goroutines, g, to);
    }
  }

  lemma AdmittedFit(gs: map<nat, Phase>)
    ensures |AdmittedIn(gs)| <= |gs.Keys|
  {
    Sets.SmallerThan(AdmittedIn(gs), gs.Keys);
  }

  // ----- what becomes of each probe -----

  predicate Past(ph: Phase) {
    ph.Filed? || ph.Leaving?
  }

  /** The probes that ended as found. */
  function FoundIn(ends: map<nat, End>): set<nat> {
    set g | g in ends && ends[g].Found?
  }

  function FailedIn(ends: map<nat, End>): set<nat> {
    set g | g in ends && ends[g].Failed?
  }

  function ErrorsIn(ends: map<nat, End>): set<(string, string)> {
    set g | g in ends && ends[g].Errored? :: (ends[g].ip, ends[g].fault)
  }

  ghost predicate Distinct<T>(s: seq<T>) {
    forall i, j :: 0 <= i < j < |s| ==> s[i] != s[j]
  }

  /** Every probe started is under way or has ended, not both. */
  ghost predicate EndsExact(s: State) {
    forall g :: EndAgrees(s, g)
  }

  predicate EndAgrees(s: State, g: nat) {
    && (g in s.ends <==> g < s.next && (g !in s.goroutines || Past(s.goroutines[g])))
    && (g in s.goroutines ==> g < s.next)
  }

  /** The three lists hold what the ends say. */
  ghost predicate ListsExact(s: State) {
    && ListOf(s.results, FoundIn(s.ends))
    && s.failures == |FailedIn(s.ends)|
    && ListOf(s.dialErrs, s.errSeen) && s.errSeen == ErrorsIn(s.ends)
  }

  /** `s` lists the elements of `of`, each once. */
  ghost predicate ListOf<T(!new)>(s: seq<T>, of: set<T>) {
    Distinct(s) && forall x :: x in s <==> x in of
  }

  ghost predicate Tallied(s: State) {
    EndsExact(s) && ListsExact(s)
  }

  /** A new end enters the lists it belongs to. */
  lemma EndsGrow(ends: map<nat, End>, g: nat, end: End)
    requires g !in ends
    ensures FoundIn(ends[g := end]) == if end.Found? then FoundIn(ends) + {g} else FoundIn(ends)
    ensures FailedIn(ends[g := end]) == if end.Failed? then FailedIn(ends) + {g} else FailedIn(ends)
    ensures ErrorsIn(ends[g := end]) == if end.Errored? then ErrorsIn(ends) + {(end.ip, end.fault)} else ErrorsIn(ends)
  {
    var after := ends[g := end];
    assert forall h :: h in ends ==> h in after && after[h] == ends[h];
    forall e | e in ErrorsIn(ends) ensures e in ErrorsIn(after) {
      var h :| h in ends && ends[h].Errored? && e == (ends[h].ip, ends[h].fault);
      assert after[h].Errored?;
    }
    if end.Errored? {
      assert after[g].Errored?;
    }
  }

  lemma EndKept(p: Plan, s: State, step: Step, g: nat)
    requires EndAgrees(s, g) && Enabled(p, s, step)
    requires step.File? || step.GiveUp? || step.Leave? ==> EndAgrees(s, step.g)
    ensures EndAgrees(Apply(p, s, step), g)
  {
    hide CapNow, IpOf, InRetry;
  }

  lemma EndsKept(p: Plan, s: State, step: Step)
    requires EndsExact(s) && Enabled(p, s, step)
    ensures EndsExact(Apply(p, s, step))
  {
    hide Apply, Enabled, EndAgrees;
    forall g: nat ensures EndAgrees(Apply(p, s, step), g) {
      assert EndAgrees(s, g);
      assert step.File? || step.GiveUp? || step.Leave? ==> EndAgrees(s, step.g);
      EndKept(p, s, step, g);
    }
  }

  lemma ListsKept(p: Plan, s: State, step: Step)
    requires EndsExact(s) && ListsExact(s) && Enabled(p, s, step)
    ensures ListsExact(Apply(p, s, step))
  {
    hide ListsExact, CapNow, IpOf, InRetry, FileEnd;
    if step.File? {
      assert EndAgrees(s, step.g);
      FileKeepsLists(s, step.g, EndOf(IpOf(p, step.g), s.goroutines[step.g].attempt));
    } else if step.GiveUp? {
      assert EndAgrees(s, step.g);
      GiveUpKeepsLists(s, Apply(p, s, step), step.g);
    } else {
      OthersKeepLists(p, s, step);
    }
  }

  lemma GiveUpKeepsLists(s: State, s': State, g: nat)
    requires ListsExact(s) && g !in s.ends && s'.ends == s.ends[g := Abandoned]
    requires s'.results == s.results && s'.failures == s.failures
    requires s'.errSeen == s.errSeen && s'.dialErrs == s.dialErrs
    ensures ListsExact(s')
  {
    EndsGrow(s.ends, g, Abandoned);
    hide FoundIn, FailedIn, ErrorsIn, ListOf;
  }

  lemma OthersKeepLists(p: Plan, s: State, step: Step)
    requires ListsExact(s) && Enabled(p, s, step) && !step.File? && !step.GiveUp?
    ensures ListsExact(Apply(p, s, step))
  {
    var s' := Apply(p, s, step);
    assert s'.results == s.results && s'.failures == s.failures && s'.errSeen == s.errSeen && s'.dialErrs == s.dialErrs
           && s'.ends == s.ends;
    hide Apply, Enabled, FoundIn, FailedIn, ErrorsIn, Distinct;
  }

  lemma FileKeepsLists(s: State, g: nat, end: End)
    requires ListsExact(s) && g !in s.ends
    ensures ListsExact(FileEnd(s, g, end))
  {
    EndsGrow(s.ends, g, end);
    FoundEnded(s.ends, g);
    hide FoundIn, FailedIn, ErrorsIn, ListOf;
    ListGrows(s.results, FoundIn(s.ends), g);
    if end.Errored? {
      ListGrows(s.dialErrs, s.errSeen, (end.ip, end.fault));
    }
  }

  lemma ListGrows<T(!new)>(s: seq<T>, of: set<T>, x: T)
    requires ListOf(s, of)
    ensures x !in of ==> ListOf(s + [x], of + {x})
    ensures x in of ==> of + {x} == of
  {}

  lemma FoundEnded(ends: map<nat, End>, g: nat)
    ensures g in FoundIn(ends) || g in FailedIn(ends) ==> g in ends
  {}

  // ----- every run -----

  ghost predicate Inv(p: Plan, s: State) {
    Counted(p, s) && Tallied(s) && s.next <= |p.ips|
  }

  ghost predicate CanRun(p: Plan, s: State, steps: seq<Step>)
    decreases |steps|
  {
    steps == [] || (Enabled(p, s, steps[0]) && CanRun(p, Apply(p, s, steps[0]), steps[1..]))
  }

  ghost function Run(p: Plan, s: State, steps: seq<Step>): State
    requires CanRun(p, s, steps)
    decreases |steps|
  {
    if steps == [] then s else Run(p, Apply(p, s, steps[0]), steps[1..])
  }

  lemma InvKept(p: Plan, s: State, step: Step)
    requires Inv(p, s) && Enabled(p, s, step)
    ensures Inv(p, Apply(p, s, step))
  {
    hide Counted, EndsExact, ListsExact, CapNow;
    CountedKept(p, s, step);
    EndsKept(p, s, step);
    ListsKept(p, s, step);
  }

  lemma {:induction false} RunKeepsInv(p: Plan, s: State, steps: seq<Step>)
    requires Inv(p, s) && CanRun(p, s, steps)
    ensures Inv(p, Run(p, s, steps))
    decreases |steps|
  {
    hide Inv, Enabled, Apply;
    if steps != [] {
      InvKept(p, s, steps[0]);
      RunKeepsInv(p, Apply(p, s, steps[0]), steps[1..]);
    }
  }

  lemma InitialInv(p: Plan)
    ensures Inv(p, INITIAL)
  {
    assert AdmittedIn(INITIAL.goroutines) == {} && UndoingIn(INITIAL.goroutines) == {}
           && InRetry(INITIAL.goroutines) == {};
    assert FoundIn(INITIAL.ends) == {} && FailedIn(INITIAL.ends) == {} && ErrorsIn(INITIAL.ends) == {};
    hide AdmittedIn, UndoingIn, InRetry, FoundIn, FailedIn, ErrorsIn;
  }

  lemma RunHasInv(p: Plan, steps: seq<Step>)
    requires CanRun(p, INITIAL, steps)
    ensures Inv(p, Run(p, INITIAL, steps))
  {
    hide CanRun, Run, Inv;
    InitialInv(p);
    RunKeepsInv(p, INITIAL, steps);
  }

  /**
   In every interleaving the shared counter is the goroutines admitted plus those that still have to undo a
   failed increment; neither the ceiling on probes nor the one on retries is passed.
   */
  lemma CeilingsHold(p: Plan, steps: seq<Step>)
    requires CanRun(p, INITIAL, steps)
    ensures var s := Run(p, INITIAL, steps);
      && s.inflight == |AdmittedIn(s.goroutines)| + |UndoingIn(s.goroutines)|
      && |AdmittedIn(s.goroutines)| <= |s.goroutines.Keys| <= p.concurrency
      && |InRetry(s.goroutines)| <= p.retryCap
  {
    hide CanRun, Run, Tallied, AdmittedIn, UndoingIn, InRetry;
    RunHasInv(p, steps);
    AdmittedFit(Run(p, INITIAL, steps).goroutines);
  }

  /** An admission leaves no more probes admitted than the cap it read; a refused one changes nobody's admission. */
  lemma AdmissionRespectsCap(p: Plan, steps: seq<Step>, g: nat)
    requires CanRun(p, INITIAL, steps) && Enabled(p, Run(p, INITIAL, steps), Add(g))
    ensures var s := Run(p, INITIAL, steps);
      var s' := Apply(p, s, Add(g));
      if s'.goroutines[g].Probing? then |AdmittedIn(s'.goroutines)| <= s.goroutines[g].cap
      else AdmittedIn(s'.goroutines) == AdmittedIn(s.goroutines) && s.inflight >= s.goroutines[g].cap
  {
    hide CanRun, Run, Tallied, CapNow;
    var s := Run(p, INITIAL, steps);
    RunHasInv(p, steps);
    InvKept(p, s, Add(g));
  }

  /** The caps that goroutines read lie between the floor and the baseline. */
  ghost predicate CapsSound(p: Plan, s: State) {
    forall g :: g in s.goroutines && s.goroutines[g].CapRead? ==>
        Min(FLOOR, p.concurrency) <= s.goroutines[g].cap <= p.concurrency
  }

  lemma {:induction false} CapsStaySound(p: Plan, s: State, steps: seq<Step>)
    requires CapsSound(p, s) && CanRun(p, s, steps)
    ensures CapsSound(p, Run(p, s, steps))
    decreases |steps|
  {
    if steps != [] {
      FewHalvings(p.concurrency, s.history);
      CapsStaySound(p, Apply(p, s, steps[0]), steps[1..]);
    }
  }

  /**
   A scanner with nobody admitted lets the next one in: the counter cannot get stuck above the cap, for the
   breaker never lowers the cap to zero.
   */
  lemma AnEmptyScannerAdmits(p: Plan, steps: seq<Step>, g: nat)
    requires p.concurrency > 0 && CanRun(p, INITIAL, steps) && Enabled(p, Run(p, INITIAL, steps), Add(g))
    requires var s := Run(p, INITIAL, steps); AdmittedIn(s.goroutines) == {} && UndoingIn(s.goroutines) == {}
    ensures Apply(p, Run(p, INITIAL, steps), Add(g)).goroutines[g].Probing?
  {
    hide CanRun, Run, Tallied;
    RunHasInv(p, steps);
    CapsStaySound(p, INITIAL, steps);
  }

  /**
   Once every goroutine has left, the counter is back at zero, each probe started has ended in exactly one way,
   and the returned lists are: the connected probes, each once; the number of time-outs; and each error once.
   */
  lemma EveryProbeEnds(p: Plan, steps: seq<Step>)
    requires CanRun(p, INITIAL, steps) && Run(p, INITIAL, steps).goroutines == map[]
    ensures var s := Run(p, INITIAL, steps);
      && s.inflight == 0
      && (forall g: nat :: g in s.ends <==> g < s.next)
      && Distinct(s.results) && (forall g :: g in s.results <==> g in s.ends && s.ends[g].Found?)
      && s.failures == |FailedIn(s.ends)|
      && Distinct(s.dialErrs)
      && (forall g :: g in s.ends && s.ends[g].Errored? ==> (s.ends[g].ip, s.ends[g].fault) in s.dialErrs)
      && (forall e :: e in s.dialErrs ==> exists g :: g in s.ends && s.ends[g] == Errored(e.0, e.1))
  {
    hide CanRun, Run;
    RunHasInv(p, steps);
    var s := Run(p, INITIAL, steps);
    forall g: nat ensures g in s.ends <==> g < s.next {
      assert EndAgrees(s, g);
    }
    assert AdmittedIn(s.goroutines) == {} && UndoingIn(s.goroutines) == {};
    forall e | e in s.dialErrs ensures exists g :: g in s.ends && s.ends[g] == Errored(e.0, e.1) {
      assert e in ErrorsIn(s.ends);
      var g :| g in s.ends && s.ends[g].Errored? && e == (s.ends[g].ip, s.ends[g].fault);
    }
  }

  // ----- what a goroutine may rely on -----

  /** The probe stands where it stood, and has ended exactly if it had. */
  predicate Undisturbed(g: nat, s: State, s': State) {
    && g in s.goroutines && g in s'.goroutines && s'.goroutines[g] == s.goroutines[g]
    && (g in s'.ends <==> g in s.ends) && (g in s.ends ==> s'.ends[g] == s.ends[g])
  }

  predicate ByAnother(step: Step, g: nat) {
    step.Spawn? || step.Cancel? || step.g != g
  }

  lemma OthersStep(p: Plan, s: State, step: Step, g: nat)
    requires Counted(p, s) && Enabled(p, s, step) && g in s.goroutines && ByAnother(step, g)
    ensures Undisturbed(g, s, Apply(p, s, step))
  {
    hide CapNow, AdmittedIn, UndoingIn, InRetry, IpOf;
  }

  /** However many steps the other goroutines take, a probe stays where it is. */
  lemma {:induction false} OthersRun(p: Plan, s: State, steps: seq<Step>, g: nat)
    requires Inv(p, s) && CanRun(p, s, steps) && g in s.goroutines
    requires forall i :: 0 <= i < |steps| ==> ByAnother(steps[i], g)
    ensures Undisturbed(g, s, Run(p, s, steps))
    decreases |steps|
  {
    hide Apply, Enabled, Counted, Tallied;
    if steps != [] {
      assert ByAnother(steps[0], g);
      OthersStep(p, s, steps[0], g);
      InvKept(p, s, steps[0]);
      OthersRun(p, Apply(p, s, steps[0]), steps[1..], g);
    }
  }

  // ----- the goroutines themselves -----

  class Scanner {
    const plan: Plan
    const br: Breaker
    var inflight: int
    var cancelled: bool
    var results: seq<nat>
    var failures: nat
    var errSeen: set<(string, string)>
    var dialErrs: seq<(string, string)>
    ghost var view: State

    ghost predicate Valid()
      reads this, br, br.ring
    {
      && plan.concurrency > 0 && plan.retryCap > 0
      && br.Valid() && br.original == plan.concurrency && br.history == view.history
      && Inv(plan, view)
      && view.inflight == inflight && view.cancelled == cancelled
      && view.results == results && view.failures == failures
      && view.errSeen == errSeen && view.dialErrs == dialErrs
    }

    constructor (plan: Plan)
      requires plan.concurrency > 0 && plan.retryCap > 0
      ensures Valid() && fresh(br) && fresh(br.ring) && this.plan == plan && view == INITIAL
    {
      this.plan := plan;
      br := new Breaker(plan.concurrency);
      inflight, cancelled, results, failures, errSeen, dialErrs := 0, false, [], 0, {}, [];
      view := INITIAL;
      InitialInv(plan);
    }

    ghost method Note(step: Step)
      requires Inv(plan, view) && Enabled(plan, view, step)
      modifies this`view
      ensures view == Apply(plan, old(view), step) && Inv(plan, view)
    {
      InvKept(plan, view, step);
      view := Apply(plan, view, step);
    }

    /** The other goroutines may take any steps here; callers rely on this contract alone. */
    method Interfere(ghost me: nat)
      requires Valid() && me in view.goroutines
      modifies this, br, br.ring
      ensures Valid() && Undisturbed(me, old(view), view)
    {}

    /** Blocks until the retry pool has a free slot: other goroutines end their retries, with whatever they find. */
    method AwaitRetrySlot(ghost me: nat)
      requires Valid() && IsAt(view, me, WantsRetry)
      modifies this
      ensures Valid() && Undisturbed(me, old(view), view) && |InRetry(view.goroutines)| < plan.retryCap
    {
      hide Inv;
      ghost var busy := |InRetry(view.goroutines)|;
      ghost var turns: nat := 0;
      while turns < busy
        invariant Valid() && Undisturbed(me, old(view), view) && turns <= busy
        invariant |InRetry(view.goroutines)| == busy - turns
      {
        ghost var other :| other in InRetry(view.goroutines);
        ghost var attempt: Attempt := *;
        RetryMove(view.goroutines, other, Probed(attempt));
        Note(Retried(other, attempt));
        turns := turns + 1;
      }
    }

    method ReadInflightCap(g: nat) returns (cap: nat)
      requires Valid() && IsAt(view, g, Trying)
      modifies this
      ensures Valid() && IsAt(view, g, CapRead(cap)) && view.ends == old(view).ends
      ensures cap == br.cap == LevelAfter(plan.concurrency, view.history).cap
    {
      hide Inv, EventFor, Heavy, Calm;
      cap := br.cap;
      Note(ReadCap(g));
    }

    /** Atomically adds one and compares what it left. */
    method AddInflight(g: nat, cap: nat) returns (ok: bool)
      requires Valid() && IsAt(view, g, CapRead(cap))
      modifies this
      ensures Valid() && IsAt(view, g, if ok then Probing else Undoing) && view.ends == old(view).ends
      ensures inflight == old(inflight) + 1 && (ok <==> inflight <= cap)
    {
      hide Inv;
      inflight := inflight + 1;
      ok := inflight <= cap;
      Note(Add(g));
    }

    method UndoInflight(g: nat)
      requires Valid() && IsAt(view, g, Undoing)
      modifies this
      ensures Valid() && IsAt(view, g, BackingOff) && view.ends == old(view).ends && inflight == old(inflight) - 1
    {
      hide Inv;
      inflight := inflight - 1;
      Note(Undo(g));
    }

    /** One try to get past the breaker's cap. */
    method TryAdmit(g: nat) returns (ok: bool)
      requires Valid() && IsAt(view, g, Trying)
      modifies this, br, br.ring
      ensures Valid() && IsAt(view, g, if ok then Probing else BackingOff)
      ensures g in view.ends <==> g in old(view).ends
    {
      hide Valid;
      var cap := ReadInflightCap(g);
      Interfere(g);
      ok := AddInflight(g, cap);
      if !ok {
        Interfere(g);
        UndoInflight(g);
      }
    }

    method RecordResult(g: nat, attempt: Attempt)
      requires Valid() && IsAt(view, g, Probed(attempt))
      modifies this, br, br.ring
      ensures Valid() && IsAt(view, g, Recorded(attempt)) && view.ends == old(view).ends
      ensures br.history == old(br.history) + [Entry(attempt.Connected?, attempt.TimedOut?)]
    {
      hide Inv;
      var _, _, _, _ := br.RecordResult(attempt.Connected?, attempt.TimedOut?);
      Note(Record(g));
    }

    /** Files the outcome with the scan's lists: the connected probes, the count of time-outs, each error once. */
    method FileResult(g: nat, attempt: Attempt)
      requires Valid() && IsAt(view, g, Recorded(attempt))
      modifies this
      ensures Valid() && IsAt(view, g, Filed) && g in view.ends && view.ends[g] == EndOf(IpOf(plan, g), attempt)
      ensures results == if attempt.Connected? then old(results) + [g] else old(results)
      ensures failures == old(failures) + if attempt.TimedOut? then 1 else 0
      ensures attempt.Faulty? && (IpOf(plan, g), attempt.fault) !in old(errSeen) ==>
                dialErrs == old(dialErrs) + [(IpOf(plan, g), attempt.fault)]
      ensures !attempt.Faulty? || (IpOf(plan, g), attempt.fault) in old(errSeen) ==> dialErrs == old(dialErrs)
    {
      hide Inv, IpOf, LevelAfter, Holds;
      var end := EndOf(IpOf(plan, g), attempt);
      match end {
        case Found => results := results + [g];
        case Failed => failures := failures + 1;
        case Errored(ip, fault) =>
          if (ip, fault) !in errSeen {
            errSeen, dialErrs := errSeen + {(ip, fault)}, dialErrs + [(ip, fault)];
          }
        case _ =>
      }
      Note(File(g));
    }

    /** The dial and, after a time-out, its one retry, which needs a slot of the retry pool. */
    method Dial(g: nat, first: Attempt, second: Attempt) returns (attempt: Attempt)
      requires Valid() && IsAt(view, g, Probing)
      modifies this, br, br.ring
      ensures Valid() && IsAt(view, g, Probed(attempt)) && (g in view.ends <==> g in old(view).ends)
      ensures attempt == if first.TimedOut? then second else first
    {
      hide Valid;
      attempt := first;
      NoteDial(Attempted(g, first));
      if first.TimedOut? {
        Interfere(g);
        AwaitRetrySlot(g);
        NoteDial(TakeRetry(g));
        Interfere(g);
        attempt := second;
        NoteDial(Retried(g, second));
      }
    }

    /** The steps of a dial touch nothing but the goroutine. */
    ghost method NoteDial(step: Step)
      requires Valid() && (step.Attempted? || step.TakeRetry? || step.Retried?) && Enabled(plan, view, step)
      modifies this`view
      ensures Valid() && IsAt(view, step.g, NextPhase(plan, old(view), step)) && view.ends == old(view).ends
    {
      hide Inv;
      Note(step);
    }

    /** Gives up a probe that was never admitted. */
    ghost method NoteExit(step: Step)
      requires Valid() && (step.GiveUp? || step.TryAgain? || step.Leave?) && Enabled(plan, view, step)
      modifies this`view
      ensures Valid() && view.next == old(view).next
      ensures step.TryAgain? ==> IsAt(view, step.g, Trying) && view.ends == old(view).ends
      ensures step.GiveUp? ==> IsAt(view, step.g, Leaving) && view.ends == old(view).ends[step.g := Abandoned]
      ensures step.Leave? ==> step.g !in view.goroutines && view.ends == old(view).ends
      ensures cancelled == old(cancelled)
    {
      hide Inv;
      Note(step);
    }

    method ReleaseSlot(g: nat)
      requires Valid() && IsAt(view, g, Filed)
      modifies this
      ensures Valid() && IsAt(view, g, Leaving) && view.ends == old(view).ends && inflight == old(inflight) - 1
    {
      hide Inv;
      inflight := inflight - 1;
      Note(Release(g));
    }

    /**
     A back-off. The other goroutines run meanwhile and, when `cancels`, the scan's context is cancelled from outside.
     */
    method BackOff(g: nat, cancels: bool)
      requires Valid() && IsAt(view, g, BackingOff)
      modifies this, br, br.ring
      ensures Valid() && Undisturbed(g, old(view), view) && (cancels ==> cancelled && view.cancelled)
    {
      hide Inv, LevelAfter, Holds;
      Interfere(g);
      if cancels {
        cancelled := true;
        Note(Cancel);
      }
    }

    /** Tries until the cap admits the probe, or gives up when the scan is cancelled in the last back-off. */
    method AwaitAdmission(g: nat, patience: nat) returns (admitted: bool)
      requires Valid() && IsAt(view, g, Trying)
      modifies this, br, br.ring
      ensures Valid() && (admitted ==> IsAt(view, g, Probing))
      ensures !admitted ==> cancelled && IsAt(view, g, Leaving) && g in view.ends && view.ends[g] == Abandoned
    {
      hide Valid;
      admitted := TryAdmit(g);
      for waits := 0 to patience
        invariant Valid() && IsAt(view, g, if admitted then Probing else BackingOff)
      {
        if admitted {
          return;
        }
        BackOff(g, false);
        NoteExit(TryAgain(g));
        admitted := TryAdmit(g);
      }
      if !admitted {
        BackOff(g, true);
        NoteExit(GiveUp(g));
      }
    }

    /** What an admitted probe does with its last attempt. */
    method Conclude(g: nat, attempt: Attempt)
      requires Valid() && IsAt(view, g, Probed(attempt))
      modifies this, br, br.ring
      ensures Valid() && IsAt(view, g, Leaving) && g in view.ends && view.ends[g] == EndOf(IpOf(plan, g), attempt)
    {
      hide Valid, EndOf, IpOf;
      RecordResult(g, attempt);
      Interfere(g);
      FileResult(g, attempt);
      Interfere(g);
      ReleaseSlot(g);
    }

    /**
     The body of a probe's goroutine; `patience` is how many back-offs pass before the scan is cancelled. A probe
     that is admitted ends by its last attempt; one that is not ends as abandoned.
     */
    method Probe(g: nat, patience: nat, first: Attempt, second: Attempt) returns (abandoned: bool)
      requires Valid() && IsAt(view, g, Trying)
      modifies this, br, br.ring
      ensures Valid() && g !in view.goroutines && g in view.ends
      ensures abandoned ==> cancelled && view.ends[g].Abandoned?
      ensures !abandoned ==>
        match (if first.TimedOut? then second else first)
        case Connected => view.ends[g] == Found
        case TimedOut => view.ends[g] == Failed
        case Refused => view.ends[g] == Closed
        case Faulty(fault) => g < |plan.ips| ==> view.ends[g] == Errored(plan.ips[g], fault)
    {
      hide Valid;
      var admitted := AwaitAdmission(g, patience);
      abandoned := !admitted;
      if admitted {
        var attempt := Dial(g, first, second);
        Conclude(g, attempt);
        Interfere(g);
      }
      NoteExit(Leave(g));
    }
  }
}
