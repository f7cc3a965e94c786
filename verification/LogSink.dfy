/**
 The batching log sink: callers push lines into a bounded queue, dropping the oldest on overflow, while one
 goroutine moves them into a batch and inserts the batch into the store.
 */
module LogSinks {
  type Line = string

  /** Where a line that was sent to the queue has got to. */
  datatype Fate = Queued | Batched | Persisted | LostInInsert | Dropped

  /** What the draining goroutine is about to do. */
  datatype Phase = Selecting | Flushing | Draining | DrainFlushing | LastFlush | Done

  datatype Config = Config(capacity: nat, batchSize: nat)

  /** Options that are not positive fall back to 1000 and 50. */
  function Normalized(capacity: int, batchSize: int): (c: Config)
    ensures c.capacity > 0 && c.batchSize > 0
  {
    Config(if capacity <= 0 then 1000 else capacity, if batchSize <= 0 then 50 else batchSize)
  }

  /**
   `pushing` counts the callers that found the queue full and have not yet dropped a line for it. `sent` and
   `fates` tell the story of every line so far; `persisted`, `lost` and `dropped` are what the store, the failed
   inserts and the overflow received, in that order.
   */
  datatype State = State(ch: seq<Line>, batch: seq<Line>, phase: Phase, stopped: bool, pushing: nat,
                         sent: seq<Line>, fates: seq<Fate>, persisted: seq<Line>, lost: seq<Line>, dropped: seq<Line>)

  const INITIAL := State([], [], Selecting, false, 0, [], [], [], [], [])

  datatype Step =
    | Send(line: Line)
    | FindFull
    | DropOldest
    | Receive
    | TickFires
    | SeeStop
    | SeeEmpty
    | Insert(ok: bool)
    | Close

  predicate Enabled(c: Config, s: State, step: Step) {
    match step
    case Send(_) => |s.ch| < c.capacity
    case FindFull => |s.ch| >= c.capacity
    case DropOldest => s.pushing > 0
    case Receive => (s.phase.Selecting? || s.phase.Draining?) && s.ch != []
    case TickFires => s.phase.Selecting?
    case SeeStop => s.phase.Selecting? && s.stopped
    case SeeEmpty => s.phase.Draining? && s.ch == []
    case Insert(_) => s.phase.Flushing? || s.phase.DrainFlushing? || s.phase.LastFlush?
    case Close => !s.stopped
  }

  /** The fate of the `n`-th line from the end becomes `fate`. */
  function Mark(fates: seq<Fate>, n: nat, fate: Fate): seq<Fate> {
    if 0 < n <= |fates| then fates[|fates| - n := fate] else fates
  }

  /** The batch goes where `fate` says. */
  function Settle(fates: seq<Fate>, fate: Fate): (r: seq<Fate>)
    ensures |r| == |fates|
    ensures forall i :: 0 <= i < |r| ==> r[i] == if fates[i].Batched? then fate else fates[i]
  {
    seq(|fates|, i requires 0 <= i < |fates| => if fates[i].Batched? then fate else fates[i])
  }

  function AfterReceive(c: Config, s: State): Phase {
    if |s.batch| + 1 < c.batchSize then s.phase else if s.phase.Draining? then DrainFlushing else Flushing
  }

  function AfterFlush(p: Phase): Phase {
    match p
    case Flushing => Selecting
    case DrainFlushing => Draining
    case _ => Done
  }

  function Apply(c: Config, s: State, step: Step): State
    requires Enabled(c, s, step)
  {
    match step
    case Send(line) => s.(ch := s.ch + [line], sent := s.sent + [line], fates := s.fates + [Queued])
    case FindFull => s.(pushing := s.pushing + 1)
    case DropOldest =>
      s.(pushing := s.pushing - 1,
         ch := if s.ch == [] then [] else s.ch[1..],
         fates := Mark(s.fates, |s.ch|, Dropped),
         dropped := if s.ch == [] then s.dropped else s.dropped + [s.ch[0]])
    case Receive =>
      s.(ch := s.ch[1..], batch := s.batch + [s.ch[0]],
         fates := Mark(s.fates, |s.ch|, Batched), phase := AfterReceive(c, s))
    case TickFires => s.(phase := Flushing)
    case SeeStop => s.(phase := Draining)
    case SeeEmpty => s.(phase := LastFlush)
    case Insert(ok) =>
      s.(batch := [], fates := Settle(s.fates, if ok then Persisted else LostInInsert), phase := AfterFlush(s.phase),
         persisted := if ok then s.persisted + s.batch else s.persisted,
         lost := if ok then s.lost else s.lost + s.batch)
    case Close => s.(stopped := true)
  }

  // ----- the lines with a given fate -----

  /** The lines with fate `f`, in the order they were sent. */
  function Pick(sent: seq<Line>, fates: seq<Fate>, f: Fate): seq<Line>
    requires |sent| == |fates|
  {
    if sent == [] then []
    else
      var rest := Pick(sent[..|sent| - 1], fates[..|sent| - 1], f);
      if fates[|sent| - 1] == f then rest + [sent[|sent| - 1]] else rest
  }

  lemma {:induction false} PickConcat(s1: seq<Line>, f1: seq<Fate>, s2: seq<Line>, f2: seq<Fate>, f: Fate)
    requires |s1| == |f1| && |s2| == |f2|
    ensures Pick(s1 + s2, f1 + f2, f) == Pick(s1, f1, f) + Pick(s2, f2, f)
    decreases |s2|
  {
    if s2 == [] {
      assert s1 + s2 == s1 && f1 + f2 == f1;
    } else {
      var n := |s2| - 1;
      assert (s1 + s2)[..|s1| + n] == s1 + s2[..n] && (f1 + f2)[..|s1| + n] == f1 + f2[..n];
      PickConcat(s1, f1, s2[..n], f2[..n], f);
    }
  }

  lemma {:induction false} PickNone(sent: seq<Line>, fates: seq<Fate>, f: Fate)
    requires |sent| == |fates| && forall i :: 0 <= i < |fates| ==> fates[i] != f
    ensures Pick(sent, fates, f) == []
  {
    if sent != [] {
      PickNone(sent[..|sent| - 1], fates[..|sent| - 1], f);
    }
  }

  lemma {:induction false} PickAll(sent: seq<Line>, fates: seq<Fate>, f: Fate)
    requires |sent| == |fates| && forall i :: 0 <= i < |fates| ==> fates[i] == f
    ensures Pick(sent, fates, f) == sent
  {
    if sent != [] {
      PickAll(sent[..|sent| - 1], fates[..|sent| - 1], f);
    }
  }

  /** Changing one fate takes its line out of one list and puts it into another. */
  lemma PickMark(sent: seq<Line>, fates: seq<Fate>, k: nat, fate: Fate, f: Fate)
    requires k < |sent| == |fates|
    ensures Pick(sent, fates, f) == Pick(sent[..k], fates[..k], f) + (if fates[k] == f then [sent[k]] else [])
                                    + Pick(sent[k + 1..], fates[k + 1..], f)
    ensures Pick(sent, fates[k := fate], f) == Pick(sent[..k], fates[..k], f) + (if fate == f then [sent[k]] else [])
                                               + Pick(sent[k + 1..], fates[k + 1..], f)
  {
    PickSplit(sent, fates, k, f);
    PickSplit(sent, fates[k := fate], k, f);
    assert fates[k := fate][..k] == fates[..k] && fates[k := fate][k + 1..] == fates[k + 1..];
  }

  lemma PickSplit(sent: seq<Line>, fates: seq<Fate>, k: nat, f: Fate)
    requires k < |sent| == |fates|
    ensures Pick(sent, fates, f) == Pick(sent[..k], fates[..k], f) + (if fates[k] == f then [sent[k]] else [])
                                    + Pick(sent[k + 1..], fates[k + 1..], f)
  {
    hide Pick;
    var before, after := sent[..k], sent[k + 1..];
    var fatesBefore, fatesAfter := fates[..k], fates[k + 1..];
    assert sent == before + ([sent[k]] + after) && fates == fatesBefore + ([fates[k]] + fatesAfter);
    PickConcat(before, fatesBefore, [sent[k]] + after, [fates[k]] + fatesAfter, f);
    PickConcat([sent[k]], [fates[k]], after, fatesAfter, f);
    PickOne(sent[k], fates[k], f);
  }

  lemma PickOne(line: Line, fate: Fate, f: Fate)
    ensures Pick([line], [fate], f) == if fate == f then [line] else []
  {
    assert [line][..0] == [] && [fate][..0] == [];
  }

  /** No line of the batch is followed by one that was already inserted. */
  ghost predicate BatchLast(fates: seq<Fate>) {
    forall i, j :: 0 <= i < j < |fates| && fates[i].Batched? ==> !fates[j].Persisted? && !fates[j].LostInInsert?
  }

  lemma {:induction false} PickSettle(sent: seq<Line>, fates: seq<Fate>, fate: Fate, f: Fate)
    requires |sent| == |fates| && BatchLast(fates) && (fate.Persisted? || fate.LostInInsert?)
    ensures Pick(sent, Settle(fates, fate), f)
         == if f == fate then Pick(sent, fates, f) + Pick(sent, fates, Batched)
            else if f.Batched? then [] else Pick(sent, fates, f)
  {
    if sent != [] {
      var n := |sent| - 1;
      PickSettle(sent[..n], fates[..n], fate, f);
      assert Settle(fates, fate)[..n] == Settle(fates[..n], fate);
      if fates[n] == fate && f == fate {
        PickNone(sent[..n], fates[..n], Batched);
      }
    }
  }

  lemma {:induction false} PickCounts(sent: seq<Line>, fates: seq<Fate>)
    requires |sent| == |fates|
    ensures |sent| == |Pick(sent, fates, Queued)| + |Pick(sent, fates, Batched)| + |Pick(sent, fates, Persisted)|
                      + |Pick(sent, fates, LostInInsert)| + |Pick(sent, fates, Dropped)|
  {
    if sent != [] {
      PickCounts(sent[..|sent| - 1], fates[..|sent| - 1]);
    }
  }

  // ----- what every run keeps -----

  ghost predicate Inv(c: Config, s: State) {
    && Told(s)
    && |s.ch| <= c.capacity
    && |s.batch| <= c.batchSize
    && (s.phase.Selecting? || s.phase.Draining? ==> |s.batch| < c.batchSize)
    && (s.phase.Done? ==> s.batch == [])
  }

  /** Every line sent has one fate, and each list holds exactly the lines with its fate, in the order sent. */
  ghost predicate Told(s: State) {
    && |s.sent| == |s.fates|
    && |s.ch| <= |s.sent| && s.ch == s.sent[|s.sent| - |s.ch|..]
    && (forall i :: 0 <= i < |s.fates| ==> (s.fates[i].Queued? <==> i >= |s.fates| - |s.ch|))
    && BatchLast(s.fates)
    && s.batch == Pick(s.sent, s.fates, Batched)
    && s.persisted == Pick(s.sent, s.fates, Persisted)
    && s.lost == Pick(s.sent, s.fates, LostInInsert)
    && s.dropped == Pick(s.sent, s.fates, Dropped)
  }

  lemma SendKeepsTold(c: Config, s: State, line: Line)
    requires Told(s) && Enabled(c, s, Send(line))
    ensures Told(Apply(c, s, Send(line)))
  {
    var s' := Apply(c, s, Send(line));
    assert s'.sent[..|s.sent|] == s.sent && s'.fates[..|s.sent|] == s.fates;
  }

  /** The head of the queue moves on to `fate`, either the batch or the bin. */
  lemma HeadMoves(s: State, s': State, fate: Fate)
    requires Told(s) && s.ch != [] && (fate.Batched? || fate.Dropped?)
    requires s'.ch == s.ch[1..] && s'.sent == s.sent && s'.fates == Mark(s.fates, |s.ch|, fate)
    requires s'.persisted == s.persisted && s'.lost == s.lost
    requires s'.batch == (if fate.Batched? then s.batch + [s.ch[0]] else s.batch)
    requires s'.dropped == (if fate.Dropped? then s.dropped + [s.ch[0]] else s.dropped)
    ensures Told(s')
  {
    hide Pick;
    assert s.sent[|s.sent| - |s.ch|] == s.ch[0];
    PickHead(s, fate, Batched);
    PickHead(s, fate, Dropped);
    PickHead(s, fate, Persisted);
    PickHead(s, fate, LostInInsert);
  }

  /** The head is the last line of the list it enters. */
  lemma PickHead(s: State, fate: Fate, f: Fate)
    requires Told(s) && s.ch != [] && !f.Queued?
    ensures Pick(s.sent, Mark(s.fates, |s.ch|, fate), f)
            == Pick(s.sent, s.fates, f) + (if fate == f then [s.ch[0]] else [])
  {
    var k := |s.sent| - |s.ch|;
    PickMark(s.sent, s.fates, k, fate, f);
    PickNone(s.sent[k + 1..], s.fates[k + 1..], f);
    hide Pick, BatchLast;
  }

  lemma InsertKeepsTold(c: Config, s: State, ok: bool)
    requires Told(s) && Enabled(c, s, Insert(ok))
    ensures Told(Apply(c, s, Insert(ok)))
  {
    hide Pick;
    var fate := if ok then Persisted else LostInInsert;
    PickSettle(s.sent, s.fates, fate, Batched);
    PickSettle(s.sent, s.fates, fate, Persisted);
    PickSettle(s.sent, s.fates, fate, LostInInsert);
    PickSettle(s.sent, s.fates, fate, Dropped);
  }

  lemma InitialInv(c: Config)
    requires c.batchSize > 0
    ensures Inv(c, INITIAL)
  {}

  lemma InvKept(c: Config, s: State, step: Step)
    requires c.batchSize > 0 && Inv(c, s) && Enabled(c, s, step)
    ensures Inv(c, Apply(c, s, step))
  {
    var s' := Apply(c, s, step);
    if step.Send? {
      SendKeepsTold(c, s, step.line);
    } else if step.Insert? {
      InsertKeepsTold(c, s, step.ok);
    } else if step.Receive? {
      HeadMoves(s, s', Batched);
    } else if step.DropOldest? && s.ch != [] {
      HeadMoves(s, s', Dropped);
    }
  }

  ghost predicate CanRun(c: Config, s: State, steps: seq<Step>)
    decreases |steps|
  {
    steps == [] || (Enabled(c, s, steps[0]) && CanRun(c, Apply(c, s, steps[0]), steps[1..]))
  }

  ghost function Run(c: Config, s: State, steps: seq<Step>): State
    requires CanRun(c, s, steps)
    decreases |steps|
  {
    if steps == [] then s else Run(c, Apply(c, s, steps[0]), steps[1..])
  }

  lemma {:induction false} RunKeepsInv(c: Config, s: State, steps: seq<Step>)
    requires c.batchSize > 0 && Inv(c, s) && CanRun(c, s, steps)
    ensures Inv(c, Run(c, s, steps))
    decreases |steps|
  {
    if steps != [] {
      InvKept(c, s, steps[0]);
      RunKeepsInv(c, Apply(c, s, steps[0]), steps[1..]);
    }
  }

  lemma RunHasInv(c: Config, steps: seq<Step>)
    requires c.batchSize > 0 && CanRun(c, INITIAL, steps)
    ensures Inv(c, Run(c, INITIAL, steps))
  {
    hide Inv, CanRun, Run;
    InitialInv(c);
    RunKeepsInv(c, INITIAL, steps);
  }

  // ----- main results -----

  /**
   Every line sent is persisted, lost in a failed insert, dropped, batched or queued, and the queue holds the newest.
   */
  lemma LinesConserved(c: Config, steps: seq<Step>)
    requires c.batchSize > 0 && CanRun(c, INITIAL, steps)
    ensures var s := Run(c, INITIAL, steps);
      && |s.sent| == |s.persisted| + |s.lost| + |s.dropped| + |s.batch| + |s.ch|
      && s.ch == s.sent[|s.sent| - |s.ch|..]
      && |s.ch| <= c.capacity && |s.batch| <= c.batchSize
  {
    var s := Run(c, INITIAL, steps);
    RunHasInv(c, steps);
    PickCounts(s.sent, s.fates);
    QueueIsPicked(s);
    hide Pick, Run, CanRun;
  }

  lemma QueueIsPicked(s: State)
    requires Told(s)
    ensures s.ch == Pick(s.sent, s.fates, Queued)
  {
    var k := |s.sent| - |s.ch|;
    assert s.sent == s.sent[..k] + s.sent[k..] && s.fates == s.fates[..k] + s.fates[k..];
    PickConcat(s.sent[..k], s.fates[..k], s.sent[k..], s.fates[k..], Queued);
    PickNone(s.sent[..k], s.fates[..k], Queued);
    PickAll(s.sent[k..], s.fates[k..], Queued);
  }

  /** A fate no line is listed under is no line's fate. */
  lemma PickShows(sent: seq<Line>, fates: seq<Fate>, i: nat)
    requires i < |sent| == |fates|
    ensures Pick(sent, fates, fates[i]) != []
  {
    PickSplit(sent, fates, i, fates[i]);
  }

  /** `at` picks increasing places of `from` at which `part` reads. */
  ghost predicate ReadsAt(part: seq<Line>, from: seq<Line>, at: seq<nat>) {
    && |at| == |part|
    && (forall k :: 0 <= k < |at| ==> at[k] < |from| && from[at[k]] == part[k])
    && (forall k, l :: 0 <= k < l < |at| ==> at[k] < at[l])
  }

  ghost predicate Subsequence(part: seq<Line>, from: seq<Line>) {
    exists at :: ReadsAt(part, from, at)
  }

  lemma {:induction false} PickIsSubsequence(sent: seq<Line>, fates: seq<Fate>, f: Fate)
    requires |sent| == |fates|
    ensures Subsequence(Pick(sent, fates, f), sent)
  {
    if sent == [] {
      assert ReadsAt([], sent, []);
    } else {
      var n := |sent| - 1;
      PickIsSubsequence(sent[..n], fates[..n], f);
      var part, from := Pick(sent[..n], fates[..n], f), sent[..n];
      var at :| ReadsAt(part, from, at);
      ReadsOn(part, from, at, sent[n]);
      assert sent == from + [sent[n]];
      assert Pick(sent, fates, f) == if fates[n] == f then part + [sent[n]] else part;
      hide Pick, ReadsAt;
      assert ReadsAt(Pick(sent, fates, f), sent, if fates[n] == f then at + [n] else at);
    }
  }

  /** One more line, read or not. */
  lemma ReadsOn(part: seq<Line>, from: seq<Line>, at: seq<nat>, line: Line)
    requires ReadsAt(part, from, at)
    ensures ReadsAt(part, from + [line], at)
    ensures ReadsAt(part + [line], from + [line], at + [|from|])
  {}

  /** The store receives lines in the order they were sent. */
  lemma StoredInOrder(c: Config, steps: seq<Step>)
    requires c.batchSize > 0 && CanRun(c, INITIAL, steps)
    ensures Subsequence(Run(c, INITIAL, steps).persisted, Run(c, INITIAL, steps).sent)
  {
    var s := Run(c, INITIAL, steps);
    RunHasInv(c, steps);
    PickIsSubsequence(s.sent, s.fates, Persisted);
  }

  /** How often a caller found the queue full. */
  function Overflows(steps: seq<Step>): nat {
    if steps == [] then 0 else Overflows(steps[1..]) + if steps[0].FindFull? then 1 else 0
  }

  /** A line is dropped only for a caller that found the queue full, one line each. */
  lemma {:induction false} DropsFollowOverflows(c: Config, s: State, steps: seq<Step>)
    requires CanRun(c, s, steps)
    ensures var s' := Run(c, s, steps); |s'.dropped| + s'.pushing <= |s.dropped| + s.pushing + Overflows(steps)
    decreases |steps|
  {
    if steps != [] {
      DropsFollowOverflows(c, Apply(c, s, steps[0]), steps[1..]);
    }
  }

  ghost predicate Quiet(steps: seq<Step>) {
    forall i :: 0 <= i < |steps| ==> !steps[i].Send?
  }

  predicate PastDrain(p: Phase) {
    p.LastFlush? || p.Done?
  }

  /** When the sink finishes and nothing was sent meanwhile, queue and batch are empty. */
  lemma {:induction false} CloseLeavesNothing(c: Config, s: State, steps: seq<Step>)
    requires c.batchSize > 0 && Inv(c, s) && CanRun(c, s, steps) && Quiet(steps)
    requires PastDrain(s.phase) ==> s.ch == []
    ensures PastDrain(Run(c, s, steps).phase) ==> Run(c, s, steps).ch == []
    ensures Run(c, s, steps).phase.Done? ==> Run(c, s, steps).batch == []
    decreases |steps|
  {
    if steps != [] {
      assert !steps[0].Send?;
      InvKept(c, s, steps[0]);
      CloseLeavesNothing(c, Apply(c, s, steps[0]), steps[1..]);
    }
  }

  lemma {:induction false} FailuresCauseLosses(c: Config, s: State, steps: seq<Step>)
    requires CanRun(c, s, steps) && forall i :: 0 <= i < |steps| ==> steps[i] != Insert(false)
    ensures Run(c, s, steps).lost == s.lost
    decreases |steps|
  {
    if steps != [] {
      assert steps[0] != Insert(false);
      FailuresCauseLosses(c, Apply(c, s, steps[0]), steps[1..]);
    }
  }

  /** If the queue never fills and every insert succeeds, a finished sink with an empty queue has stored everything. */
  lemma NothingIsLost(c: Config, steps: seq<Step>)
    requires c.batchSize > 0 && CanRun(c, INITIAL, steps) && Overflows(steps) == 0
    requires forall i :: 0 <= i < |steps| ==> steps[i] != Insert(false)
    requires Run(c, INITIAL, steps).phase.Done? && Run(c, INITIAL, steps).ch == []
    ensures Run(c, INITIAL, steps).persisted == Run(c, INITIAL, steps).sent
  {
    var s := Run(c, INITIAL, steps);
    RunHasInv(c, steps);
    DropsFollowOverflows(c, INITIAL, steps);
    FailuresCauseLosses(c, INITIAL, steps);
    hide CanRun, Run, Overflows;
    EverythingStored(s);
  }

  lemma EverythingStored(s: State)
    requires Told(s) && s.ch == [] && s.batch == [] && s.lost == [] && s.dropped == []
    ensures s.persisted == s.sent
  {
    hide Pick;
    QueueIsPicked(s);
    forall i | 0 <= i < |s.fates| ensures s.fates[i].Persisted? {
      PickShows(s.sent, s.fates, i);
    }
    PickAll(s.sent, s.fates, Persisted);
  }

  /** A finished sink never stores another line: what is sent later stays in the queue or is dropped. */
  lemma {:induction false} DoneIsFinal(c: Config, s: State, steps: seq<Step>)
    requires s.phase.Done? && CanRun(c, s, steps)
    ensures Run(c, s, steps).phase.Done? && Run(c, s, steps).persisted == s.persisted
    decreases |steps|
  {
    if steps != [] {
      DoneIsFinal(c, Apply(c, s, steps[0]), steps[1..]);
    }
  }

  // ----- what a goroutine may rely on -----

  /** Who is running: a caller that owes the queue `owed` drops, or the draining goroutine. */
  datatype Party = Pusher(owed: nat) | Drainer

  /** Another goroutine's step: it drops no line that `me` owes, and only the draining goroutine touches the batch. */
  predicate ByAnother(s: State, step: Step, me: Party) {
    match me
    case Pusher(owed) => step.DropOldest? ==> s.pushing > owed
    case Drainer => step.Send? || step.FindFull? || step.DropOldest? || step.Close?
  }

  /** What the others may have done, sending no more than `sends` lines. */
  predicate Undisturbed(me: Party, s: State, s': State, sends: nat) {
    && |s'.ch| <= |s.ch| + sends && s.sent <= s'.sent && |s'.sent| <= |s.sent| + sends
    && s.persisted <= s'.persisted && s.dropped <= s'.dropped
    && (me.Pusher? ==> s'.pushing >= me.owed)
    && (me.Drainer? ==>
          && s'.phase == s.phase && s'.batch == s.batch && (s.stopped ==> s'.stopped)
          && s'.persisted == s.persisted && s'.lost == s.lost
          && s.ch + s'.sent[|s.sent|..] == s'.dropped[|s.dropped|..] + s'.ch)
  }

  ghost predicate OthersCanRun(c: Config, s: State, steps: seq<Step>, me: Party)
    decreases |steps|
  {
    steps == [] || (Enabled(c, s, steps[0]) && ByAnother(s, steps[0], me)
                    && OthersCanRun(c, Apply(c, s, steps[0]), steps[1..], me))
  }

  lemma {:induction false} OthersRunIsRun(c: Config, s: State, steps: seq<Step>, me: Party)
    requires OthersCanRun(c, s, steps, me)
    ensures CanRun(c, s, steps)
    decreases |steps|
  {
    if steps != [] {
      OthersRunIsRun(c, Apply(c, s, steps[0]), steps[1..], me);
    }
  }

  function Sends(steps: seq<Step>): nat {
    if steps == [] then 0 else Sends(steps[1..]) + if steps[0].Send? then 1 else 0
  }

  /** One step of another, and what it does to the queue: a line enters at its end or is dropped at its head. */
  lemma OthersStep(c: Config, s: State, step: Step, me: Party)
    requires Enabled(c, s, step) && ByAnother(s, step, me) && (me.Pusher? ==> s.pushing >= me.owed)
    ensures Undisturbed(me, s, Apply(c, s, step), if step.Send? then 1 else 0)
  {
    var s' := Apply(c, s, step);
    assert s.sent[|s.sent|..] == [] && s.dropped[|s.dropped|..] == [];
    if step.Send? {
      assert s'.sent[|s.sent|..] == [step.line];
    } else if step.DropOldest? && s.ch != [] {
      assert s'.dropped[|s.dropped|..] == [s.ch[0]];
    }
  }

  lemma UndisturbedTwice(me: Party, s: State, t: State, u: State, m: nat, n: nat)
    requires Undisturbed(me, s, t, m) && Undisturbed(me, t, u, n)
    ensures Undisturbed(me, s, u, m + n)
  {
    if me.Drainer? {
      var came, went := t.sent[|s.sent|..], t.dropped[|s.dropped|..];
      assert u.sent[|s.sent|..] == came + u.sent[|t.sent|..]
             && u.dropped[|s.dropped|..] == went + u.dropped[|t.dropped|..];
      calc {
        s.ch + u.sent[|s.sent|..];
        (s.ch + came) + u.sent[|t.sent|..];
        went + (t.ch + u.sent[|t.sent|..]);
        u.dropped[|s.dropped|..] + u.ch;
      }
    }
  }

  lemma NothingDisturbs(me: Party, s: State)
    requires me.Pusher? ==> s.pushing >= me.owed
    ensures Undisturbed(me, s, s, 0)
  {}

  /** However many steps the others take, that is all that `me` can notice: what `Interfere` promises. */
  lemma {:induction false} OthersRun(c: Config, s: State, steps: seq<Step>, me: Party)
    requires OthersCanRun(c, s, steps, me) && CanRun(c, s, steps) && (me.Pusher? ==> s.pushing >= me.owed)
    ensures Undisturbed(me, s, Run(c, s, steps), Sends(steps))
    decreases |steps|
  {
    if steps == [] {
      NothingDisturbs(me, s);
    } else {
      var next := Apply(c, s, steps[0]);
      OthersStep(c, s, steps[0], me);
      OthersRun(c, next, steps[1..], me);
      UndisturbedTwice(me, s, next, Run(c, s, steps), if steps[0].Send? then 1 else 0, Sends(steps[1..]));
    }
  }

  // ----- the sink itself -----

  class LogStore {
    var rows: seq<Line>

    constructor ()
      ensures rows == []
    {
      rows := [];
    }

    /** One statement: all the rows or, on an error, none. `ok` is what the database makes of it. */
    method InsertScanLogs(batch: seq<Line>, ok: bool) returns (err: bool)
      modifies this
      ensures err == !ok && rows == if ok then old(rows) + batch else old(rows)
    {
      if ok {
        rows := rows + batch;
      }
      err := !ok;
    }
  }

  class SQLiteLogSink {
    const store: LogStore
    const capacity: nat
    const batchSize: nat
    var ch: seq<Line>
    var batch: seq<Line>
    var stopped: bool
    var droppedTotal: nat
    ghost var view: State

    ghost function Cfg(): Config {
      Config(capacity, batchSize)
    }

    ghost predicate Valid()
      reads this, store
    {
      && capacity > 0 && batchSize > 0
      && Inv(Cfg(), view)
      && view.ch == ch && view.batch == batch && view.stopped == stopped
      && |view.dropped| == droppedTotal && view.persisted == store.rows
    }

    constructor (capacity: int, batchSize: int)
      ensures Valid() && fresh(store) && view == INITIAL && Cfg() == Normalized(capacity, batchSize)
      ensures this.capacity == (if capacity <= 0 then 1000 else capacity)
      ensures this.batchSize == (if batchSize <= 0 then 50 else batchSize)
    {
      this.capacity := if capacity <= 0 then 1000 else capacity;
      this.batchSize := if batchSize <= 0 then 50 else batchSize;
      store := new LogStore();
      ch, batch, stopped, droppedTotal := [], [], false, 0;
      view := INITIAL;
      InitialInv(Config(if capacity <= 0 then 1000 else capacity, if batchSize <= 0 then 50 else batchSize));
      hide Inv;
    }

    ghost method Record(step: Step)
      requires batchSize > 0 && Inv(Cfg(), view) && Enabled(Cfg(), view, step)
      modifies this`view
      ensures view == Apply(Cfg(), old(view), step) && Inv(Cfg(), view)
    {
      InvKept(Cfg(), view, step);
      view := Apply(Cfg(), view, step);
    }

    /**
     Other goroutines take any steps here, sending at most `rivals` lines; callers rely on this contract alone.
     */
    method Interfere(ghost me: Party, rivals: nat) returns (left: nat)
      requires Valid() && (me.Pusher? ==> view.pushing >= me.owed)
      modifies this, store
      ensures Valid() && left <= rivals && Undisturbed(me, old(view), view, rivals - left)
    {
      left := rivals;
    }

    /**
     Puts a line into the queue, making room as often as it takes. If the other callers send r lines meanwhile,
     it drops no more than r + 1.
     */
    method Enqueue(line: Line, rivals: nat) returns (left: nat, drops: nat)
      requires Valid()
      modifies this, store
      ensures Valid() && left <= rivals
      ensures view.sent != [] && view.sent[|view.sent| - 1] == line && ch != [] && ch[|ch| - 1] == line
      ensures old(view).sent + [line] <= view.sent || (old(view).sent < view.sent && rivals > left)
      ensures drops <= rivals - left + 1
    {
      hide Inv;
      left, drops := rivals, 0;
      while true
        invariant Valid() && left <= rivals && old(view).sent <= view.sent
        invariant |view.sent| <= |old(view).sent| + rivals - left
        invariant drops <= rivals - left + if |ch| < capacity then 1 else 0
        decreases left, if |ch| < capacity then 0 else 1
      {
        left := Interfere(Pusher(0), left);
        if |ch| < capacity {
          ch := ch + [line];
          Record(Send(line));
          return;
        }
        Record(FindFull);
        left := Interfere(Pusher(1), left);
        if ch != [] {
          ch := ch[1..];
          droppedTotal, drops := droppedTotal + 1, drops + 1;
        }
        Record(DropOldest);
      }
    }

    /** Inserts the batch, if there is one, and empties it whatever the store answers. */
    method Flush(ok: bool)
      requires Valid() && Enabled(Cfg(), view, Insert(ok))
      modifies this, store
      ensures Valid() && view == Apply(Cfg(), old(view), Insert(ok))
      ensures batch == [] && ch == old(ch) && store.rows == if ok then old(store.rows) + old(batch) else old(store.rows)
      ensures Onward(old(view), view, 0) && (ok ==> view.lost == old(view).lost)
    {
      if batch != [] {
        var _ := store.InsertScanLogs(batch, ok);
        batch := [];
      }
      Record(Insert(ok));
      FlushGoesOn(old(view), view, Cfg(), ok);
    }

    /** Moves the head of the queue into the batch, and flushes a full batch. */
    method TakeLine(ok: bool)
      requires Valid() && Enabled(Cfg(), view, Receive)
      modifies this, store
      ensures Valid() && view.phase == old(view).phase && view.stopped == old(view).stopped
      ensures ch == old(ch)[1..] && view.sent == old(view).sent && view.dropped == old(view).dropped
      ensures |old(batch)| + 1 < batchSize ==> batch == old(batch) + [old(ch)[0]] && store.rows == old(store.rows)
      ensures |old(batch)| + 1 >= batchSize ==>
                batch == [] && store.rows == old(store.rows) + if ok then old(batch) + [old(ch)[0]] else []
      ensures Onward(old(view), view, 0) && (ok ==> view.lost == old(view).lost)
    {
      hide Inv;
      batch, ch := batch + [ch[0]], ch[1..];
      Record(Receive);
      ReceiveGoesOn(old(view), view, Cfg());
      ghost var taken := view;
      if |batch| >= batchSize {
        Flush(ok);
        OnwardTwice(old(view), taken, view, 0, 0);
      }
    }

    /** Lets the others run. */
    method Pause(rivals: nat) returns (left: nat)
      requires Valid()
      modifies this, store
      ensures Valid() && left <= rivals && view.phase == old(view).phase && batch == old(batch)
      ensures (old(stopped) ==> stopped) && Onward(old(view), view, rivals - left) && view.lost == old(view).lost
      ensures view.sent == old(view).sent && view.dropped == old(view).dropped ==> ch == old(ch)
      ensures rivals == left ==> |ch| <= |old(ch)|
      ensures |ch| <= |old(ch)| + rivals - left
    {
      hide Inv;
      left := Interfere(Drainer, rivals);
      PauseGoesOn(old(view), view, rivals - left);
    }

    /** One line of the drain, and what the others do after it. */
    method DrainOne(ok: bool, rivals: nat) returns (left: nat)
      requires Valid() && view.phase.Draining? && stopped && ch != []
      modifies this, store
      ensures Valid() && left <= rivals && view.phase.Draining? && stopped
      ensures |ch| + left < |old(ch)| + rivals
      ensures Onward(old(view), view, rivals - left) && (ok ==> view.lost == old(view).lost)
    {
      hide Inv, Onward;
      TakeLine(ok);
      ghost var at := view;
      left := Pause(rivals);
      OnwardTwice(old(view), at, view, 0, rivals - left);
    }

    /** After the stop signal: everything still queued goes through the batch, then the batch is flushed. */
    method Drain(oks: nat -> bool, rivals: nat) returns (left: nat)
      requires Valid() && view.phase.Selecting? && stopped
      modifies this, store
      ensures Valid() && left <= rivals && view.phase.Done? && batch == [] && stopped
      ensures rivals == left ==> ch == []
      ensures Onward(old(view), view, rivals - left) && ((forall k :: oks(k)) ==> view.lost == old(view).lost)
    {
      hide Inv, Onward;
      left := BeginDrain(rivals);
      var turn := 0;
      while ch != []
        invariant Valid() && left <= rivals && view.phase.Draining? && stopped
        invariant Onward(old(view), view, rivals - left) && ((forall k :: oks(k)) ==> view.lost == old(view).lost)
        decreases |ch| + left
      {
        ghost var at, before := view, left;
        left := DrainOne(oks(turn), left);
        OnwardTwice(old(view), at, view, rivals - before, before - left);
        turn := turn + 1;
      }
      ghost var at := view;
      EndDrain(oks(turn));
      OnwardTwice(old(view), at, view, rivals - left, 0);
    }

    method BeginDrain(rivals: nat) returns (left: nat)
      requires Valid() && view.phase.Selecting? && stopped
      modifies this, store
      ensures Valid() && left <= rivals && view.phase.Draining? && stopped
      ensures Onward(old(view), view, rivals - left) && view.lost == old(view).lost
    {
      hide Inv, Onward;
      Record(SeeStop);
      ghost var at := view;
      PhaseGoesOn(old(view), at);
      left := Pause(rivals);
      OnwardTwice(old(view), at, view, 0, rivals - left);
    }

    /** The queue is empty: the last flush. */
    method EndDrain(ok: bool)
      requires Valid() && view.phase.Draining? && stopped && ch == []
      modifies this, store
      ensures Valid() && view.phase.Done? && batch == [] && ch == [] && stopped
      ensures Onward(old(view), view, 0) && (ok ==> view.lost == old(view).lost)
    {
      hide Inv, Onward;
      Record(SeeEmpty);
      ghost var empty := view;
      PhaseGoesOn(old(view), empty);
      Flush(ok);
      OnwardTwice(old(view), empty, view, 0, 0);
    }

    /**
     The draining goroutine: it takes lines, flushes on the ticker's beat, and once it selects the stop signal
     drains and ends. `wakes` are the cases it selects, `oks` what the store makes of each insert. It ends exactly
     when it selects the signal with the sink stopped; then every line sent before is in the store, lost in a failed
     insert or dropped by a caller, unless others were still sending. While it runs, a beat leaves nothing in the
     batch; undisturbed, each waking by a line takes one off the queue, and what it took is stored in order, the
     batch aside.
     */
    method Run(wakes: seq<Wake>, oks: nat -> bool, rivals: nat) returns (left: nat)
      requires Valid() && view.phase.Selecting?
      modifies this, store
      ensures Valid() && left <= rivals && Onward(old(view), view, rivals - left)
      ensures view.phase.Selecting? || (view.phase.Done? && batch == [] && stopped && StopSignal in wakes)
      ensures old(stopped) && StopSignal in wakes ==> view.phase.Done?
      ensures view.phase.Done? && rivals == left ==>
        ch == [] && |view.sent| == |store.rows| + |view.lost| + droppedTotal
      ensures view.phase.Selecting? && wakes != [] && wakes[|wakes| - 1].Ticked? ==> batch == []
      ensures view.phase.Selecting? && view.sent == old(view).sent && droppedTotal == old(droppedTotal) ==>
        var n := |set k: nat | k < |wakes| && wakes[k].LineReady?|;
        ch == if n <= |old(ch)| then old(ch)[n..] else []
      ensures (forall k :: oks(k)) && droppedTotal == old(droppedTotal) ==>
        store.rows + batch + ch == old(store.rows) + old(batch) + old(ch) + view.sent[|old(view).sent|..]
    {
      hide Inv, Onward, Tail, LinesIn, Untouched;
      left := rivals;
      NothingTaken(view, wakes);
      for i := 0 to |wakes|
        invariant Valid() && left <= rivals && view.phase.Selecting? && Onward(old(view), view, rivals - left)
        invariant old(stopped) ==> stopped && StopSignal !in wakes[..i]
        invariant i > 0 && wakes[i - 1].Ticked? ==> batch == []
        invariant Untouched(old(view), view) ==> ch == Tail(old(ch), |LinesIn(wakes, i)|)
        invariant (forall k :: oks(k)) ==> view.lost == old(view).lost
      {
        ghost var at, before := view, left;
        left := Pause(left);
        OnwardTwice(old(view), at, view, rivals - before, before - left);
        StillUntouched(old(view), at, view, rivals - before, before - left);
        at := view;
        assert wakes[..i + 1] == wakes[..i] + [wakes[i]];
        if wakes[i].StopSignal? && stopped {
          before := left;
          left := Drain(oks, left);
          OnwardTwice(old(view), at, view, rivals - before, before - left);
          WhatIsCarried(old(view), view, rivals - left);
          EmptyAccount(Cfg(), view);
          return;
        }
        Handle(wakes[i], oks(i));
        OnwardTwice(old(view), at, view, rivals - left, 0);
        StillUntouched(old(view), at, view, rivals - left, 0);
        LinesNext(old(ch), wakes, i);
      }
      WhatIsCarried(old(view), view, rivals - left);
      AllTaken(old(view), view, wakes);
      assert wakes[..|wakes|] == wakes;
    }

    /** What a waking achieves while the sink runs: a line moves into the batch, or a beat stores the batch. */
    method Handle(wake: Wake, ok: bool)
      requires Valid() && view.phase.Selecting?
      modifies this, store
      ensures Valid() && view.phase.Selecting? && stopped == old(stopped) && Onward(old(view), view, 0)
      ensures view.sent == old(view).sent && view.dropped == old(view).dropped
      ensures ok ==> view.lost == old(view).lost
      ensures wake.LineReady? && old(ch) != [] ==>
        && ch == old(ch)[1..]
        && if |old(batch)| + 1 < batchSize then batch == old(batch) + [old(ch)[0]] && store.rows == old(store.rows)
           else batch == [] && store.rows == old(store.rows) + if ok then old(batch) + [old(ch)[0]] else []
      ensures wake.Ticked? ==>
        ch == old(ch) && batch == [] && store.rows == old(store.rows) + if ok then old(batch) else []
      ensures wake.StopSignal? || (wake.LineReady? && old(ch) == []) ==>
        ch == old(ch) && batch == old(batch) && store.rows == old(store.rows)
    {
      hide Inv, Onward;
      OnwardFromHere(view);
      ghost var at := view;
      match wake {
        case LineReady =>
          if ch != [] {
            TakeLine(ok);
          }
        case Ticked =>
          Record(TickFires);
          PhaseGoesOn(at, view);
          ghost var beat := view;
          Flush(ok);
          OnwardTwice(at, beat, view, 0, 0);
        case StopSignal =>
      }
    }

    /**
     Signals the goroutine, which is back at its select, and waits for it. With nobody sending meanwhile the
     queue and the batch are empty afterwards; a second call changes nothing.
     */
    method Close(oks: nat -> bool, rivals: nat) returns (left: nat)
      requires Valid() && (!stopped ==> view.phase.Selecting?)
      modifies this, store
      ensures Valid() && left <= rivals && stopped
      ensures !old(stopped) ==> view.phase.Done? && batch == [] && (rivals == left ==> ch == [])
      ensures old(view).sent <= view.sent
      ensures !old(stopped) && (forall k :: oks(k)) && droppedTotal == old(droppedTotal) ==>
        store.rows + ch == old(store.rows) + old(batch) + old(ch) + view.sent[|old(view).sent|..]
      ensures old(stopped) ==> view == old(view) && store.rows == old(store.rows)
    {
      left := rivals;
      if !stopped {
        stopped := true;
        Record(Step.Close);
        ghost var at := view;
        left := Drain(oks, left);
        WhatIsCarried(at, view, rivals - left);
      }
    }
  }

  /**
   What was sent, stored, lost and dropped only grows, what was sent by no more than `sends` lines. When nothing was
   lost or dropped meanwhile, the store, the batch and the queue hold one after the other what they held and what was
   sent since.
   */
  predicate Onward(s: State, s': State, sends: nat) {
    && s.sent <= s'.sent && |s'.sent| <= |s.sent| + sends
    && s.persisted <= s'.persisted && s.lost <= s'.lost && s.dropped <= s'.dropped
    && (s'.lost == s.lost && s'.dropped == s.dropped ==>
          s'.persisted + s'.batch + s'.ch == s.persisted + s.batch + s.ch + s'.sent[|s.sent|..])
  }

  predicate Untouched(s: State, s': State) {
    s'.sent == s.sent && s'.dropped == s.dropped
  }

  /** What is left after `n` lines, or all of them, were taken off the head. */
  function Tail(lines: seq<Line>, n: nat): seq<Line> {
    if n <= |lines| then lines[n..] else []
  }

  /** The first `i` wakings by a line. */
  function LinesIn(wakes: seq<Wake>, i: nat): set<nat> {
    set k: nat | k < i && k < |wakes| && wakes[k].LineReady?
  }

  lemma NothingTaken(s: State, wakes: seq<Wake>)
    ensures Onward(s, s, 0) && s.ch == Tail(s.ch, |LinesIn(wakes, 0)|)
  {
    OnwardFromHere(s);
    assert LinesIn(wakes, 0) == {};
  }

  lemma LinesNext(ch: seq<Line>, wakes: seq<Wake>, i: nat)
    requires i < |wakes|
    ensures var left, after := Tail(ch, |LinesIn(wakes, i)|), Tail(ch, |LinesIn(wakes, i + 1)|);
            after == if wakes[i].LineReady? && left != [] then left[1..] else left
  {
    var before, more := LinesIn(wakes, i), LinesIn(wakes, i + 1);
    assert more == if wakes[i].LineReady? then before + {i} else before;
    assert i !in before;
  }

  lemma AllTaken(s: State, s': State, wakes: seq<Wake>)
    requires Untouched(s, s') ==> s'.ch == Tail(s.ch, |LinesIn(wakes, |wakes|)|)
    ensures s'.sent == s.sent && s'.dropped == s.dropped ==>
              var n := |set k: nat | k < |wakes| && wakes[k].LineReady?|;
              s'.ch == if n <= |s.ch| then s.ch[n..] else []
  {
    assert LinesIn(wakes, |wakes|) == set k: nat | k < |wakes| && wakes[k].LineReady?;
  }

  lemma OnwardFromHere(s: State)
    ensures Onward(s, s, 0)
  {
    assert s.sent[|s.sent|..] == [];
  }

  lemma OnwardTwice(s: State, t: State, u: State, m: nat, n: nat)
    requires Onward(s, t, m) && Onward(t, u, n)
    ensures Onward(s, u, m + n)
  {
    if u.lost == s.lost && u.dropped == s.dropped {
      assert u.sent[|s.sent|..] == t.sent[|s.sent|..] + u.sent[|t.sent|..];
      calc {
        u.persisted + u.batch + u.ch;
        t.persisted + t.batch + t.ch + u.sent[|t.sent|..];
        s.persisted + s.batch + s.ch + t.sent[|s.sent|..] + u.sent[|t.sent|..];
        s.persisted + s.batch + s.ch + u.sent[|s.sent|..];
      }
    }
  }

  lemma StillUntouched(s: State, t: State, u: State, m: nat, n: nat)
    requires Onward(s, t, m) && Onward(t, u, n)
    ensures Untouched(s, u) ==> Untouched(s, t) && Untouched(t, u)
  {}

  lemma WhatIsCarried(s: State, s': State, n: nat)
    requires Onward(s, s', n)
    ensures s'.lost == s.lost && |s'.dropped| == |s.dropped| ==>
              s'.persisted + s'.batch + s'.ch == s.persisted + s.batch + s.ch + s'.sent[|s.sent|..]
    ensures |s'.dropped| == |s.dropped| ==> s'.dropped == s.dropped
  {}

  lemma PhaseGoesOn(s: State, s': State)
    requires s' == s.(phase := s'.phase)
    ensures Onward(s, s', 0)
  {
    OnwardFromHere(s);
  }

  lemma ReceiveGoesOn(s: State, s': State, c: Config)
    requires Enabled(c, s, Receive) && s' == Apply(c, s, Receive)
    ensures Onward(s, s', 0)
  {
    assert s.ch == [s.ch[0]] + s.ch[1..] && s'.sent[|s.sent|..] == [];
    assert s'.persisted + s'.batch + s'.ch == s.persisted + s.batch + s.ch + [];
  }

  lemma FlushGoesOn(s: State, s': State, c: Config, ok: bool)
    requires Enabled(c, s, Insert(ok)) && s' == Apply(c, s, Insert(ok))
    ensures Onward(s, s', 0)
  {
    assert s'.sent[|s.sent|..] == [];
    if s'.lost == s.lost {
      assert !ok ==> s.batch == [];
      assert s'.persisted + s'.batch + s'.ch == s.persisted + s.batch + s.ch + [];
    }
  }

  lemma PauseGoesOn(s: State, s': State, sends: nat)
    requires Undisturbed(Drainer, s, s', sends) && |s.dropped| <= |s'.dropped|
    ensures Onward(s, s', sends)
    ensures s'.sent == s.sent && s'.dropped == s.dropped ==> s'.ch == s.ch
  {
    if s'.dropped == s.dropped {
      assert s'.dropped[|s.dropped|..] == [];
      assert s'.ch == s.ch + s'.sent[|s.sent|..];
      assert s'.persisted + s'.batch + s'.ch == s.persisted + s.batch + s.ch + s'.sent[|s.sent|..];
    }
  }

  /** With queue and batch empty every line sent is persisted, lost or dropped. */
  lemma EmptyAccount(c: Config, s: State)
    requires Inv(c, s) && s.batch == []
    ensures s.ch == [] ==> |s.sent| == |s.persisted| + |s.lost| + |s.dropped|
  {
    PickCounts(s.sent, s.fates);
    QueueIsPicked(s);
    hide Pick;
  }

  /** The case the draining goroutine selects. */
  datatype Wake = LineReady | Ticked | StopSignal
}
