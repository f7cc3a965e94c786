/**
 The single-row lock that keeps one process in charge of scheduling: the store's three statements, the
 process's use of them, and the protocol several processes follow.
 */
module SchedulerLocks {
  import opened Options
  import opened Recurrences

  /** How long a silent heartbeat keeps the row. */
  const STALE_AFTER: int := 60 * SECOND

  /** How often the holder writes its heartbeat. */
  const REFRESH_INTERVAL: int := 15 * SECOND

  datatype Proc = Proc(pid: int, host: string)

  /** `heartbeatAt` is None when the stored text does not parse. */
  datatype Row = Row(holder: Proc, acquiredAt: int, heartbeatAt: Option<int>)

  /** Times are stored to the second. */
  function Truncate(t: int): (s: int)
    ensures s <= t < s + SECOND && s % SECOND == 0
  {
    t / SECOND * SECOND
  }

  function RowOf(p: Proc, now: int): Row {
    Row(p, Truncate(now), Some(Truncate(now)))
  }

  /** The row blocks an acquirer that reads the clock at `now`. */
  predicate Blocks(row: Option<Row>, now: int, staleAfter: int) {
    row.Some? && row.value.heartbeatAt.Some? && now - row.value.heartbeatAt.value <= staleAfter
  }

  predicate Owned(row: Option<Row>, p: Proc) {
    row.Some? && row.value.holder == p
  }

  function Refreshed(row: Option<Row>, p: Proc, now: int): Option<Row> {
    if Owned(row, p) then Some(row.value.(heartbeatAt := Some(Truncate(now)))) else row
  }

  function Released(row: Option<Row>, p: Proc): Option<Row> {
    if Owned(row, p) then None else row
  }

  class LockStore {
    var row: Option<Row>

    /** Takes the slot, or reports the row of the holder that still blocks it. */
    method Acquire(p: Proc, now: int, staleAfter: int) returns (held: Option<Row>)
      modifies this
      ensures held.Some? <==> Blocks(old(row), now, staleAfter)
      ensures held.Some? <==> old(row).Some? && old(row).value.heartbeatAt.Some?
                              && now - old(row).value.heartbeatAt.value <= staleAfter
      ensures held.Some? ==> held == old(row) == row
      ensures held.None? ==>
                row == Some(RowOf(p, now)) == Some(Row(p, now / SECOND * SECOND, Some(now / SECOND * SECOND)))
    {
      if row.Some? {
        var cur := row.value;
        if cur.heartbeatAt.Some? && now - cur.heartbeatAt.value <= staleAfter {
          return row;
        }
        row := Some(cur.(holder := p, acquiredAt := Truncate(now), heartbeatAt := Some(Truncate(now))));
      } else {
        row := Some(Row(p, Truncate(now), Some(Truncate(now))));
      }
      held := None;
    }

    method Refresh(p: Proc, now: int) returns (ok: bool)
      modifies this
      ensures row == Refreshed(old(row), p, now)
      ensures ok <==> old(row).Some? && old(row).value.holder == p
      ensures ok ==> row == Some(Row(p, old(row).value.acquiredAt, Some(now / SECOND * SECOND)))
      ensures !ok ==> row == old(row)
    {
      ok := row.Some? && row.value.holder == p;
      if ok {
        row := Some(row.value.(heartbeatAt := Some(Truncate(now))));
      }
    }

    method Release(p: Proc)
      modifies this
      ensures row == Released(old(row), p)
      ensures old(row).Some? && old(row).value.holder == p ==> row.None?
      ensures old(row).None? || old(row).value.holder != p ==> row == old(row)
    {
      if row.Some? && row.value.holder == p {
        row := None;
      }
    }
  }

  /**
   A process's side: take the row, and on a refusal by a dead process of this host take it by force with a
   zero staleness. `first` and `second` are the clock at the two attempts.
   */
  class LockHandle {
    const store: LockStore
    const proc: Proc
    var open: bool

    constructor (store: LockStore, proc: Proc)
      ensures this.store == store && this.proc == proc && !open
    {
      this.store, this.proc, open := store, proc, false;
    }

    /**
     Tries for the row, and once more by force when its holder is of this host and dead. `first` and `second` are the
     clock's readings at the attempts, `meanwhile` the row as the other processes have left it for the second.
     */
    method Acquire(first: int, second: int, holderAlive: Proc -> bool, meanwhile: Option<Row>)
      modifies this, store
      ensures var blocked := old(store.row).Some? && old(store.row).value.heartbeatAt.Some?
                             && first - old(store.row).value.heartbeatAt.value <= 60 * SECOND;
        var retried := blocked && old(store.row).value.holder.host == proc.host
                       && !holderAlive(old(store.row).value.holder);
        var beaten := meanwhile.Some? && meanwhile.value.heartbeatAt.Some?
                      && second <= meanwhile.value.heartbeatAt.value;
        (open <==> !blocked || (retried && !beaten))
        && store.row == if !blocked then Some(RowOf(proc, first))
                        else if !retried then old(store.row)
                        else if open then Some(RowOf(proc, second)) else meanwhile
    {
      var held := store.Acquire(proc, first, STALE_AFTER);
      if held.None? {
        open := true;
        return;
      }
      open := false;
      if held.value.holder.host == proc.host && !holderAlive(held.value.holder) {
        store.row := meanwhile;
        held := store.Acquire(proc, second, 0);
        open := held.None?;
      }
    }

    /** One beat of the heartbeat loop; a refusal is only logged. */
    method Beat(now: int)
      requires open
      modifies store
      ensures store.row == if old(store.row).Some? && old(store.row).value.holder == proc
                           then Some(Row(proc, old(store.row).value.acquiredAt, Some(now / SECOND * SECOND)))
                           else old(store.row)
    {
      var _ := store.Refresh(proc, now);
    }

    /** Stops the heartbeat and gives the row back; closing twice does nothing more. */
    method Close()
      modifies this, store
      ensures !open
      ensures old(open) && old(store.row).Some? && old(store.row).value.holder == proc ==> store.row.None?
      ensures !old(open) || old(store.row).None? || old(store.row).value.holder != proc ==> store.row == old(store.row)
    {
      if !open {
        return;
      }
      open := false;
      store.Release(proc);
    }
  }

  // ----- the protocol -----

  /**
   `holders` are the processes that believe they hold the slot, with the clock reading of their last
   successful write; `suspects` are those about to take the row of the process they found dead.
   */
  datatype State = State(clock: int, row: Option<Row>, holders: map<Proc, int>, alive: set<Proc>, suspects: set<Proc>)

  datatype Step =
    | Pass(d: nat)
    | Spawn(p: Proc)
    | Crash(p: Proc)
    | Acquire(p: Proc, read: int)
    | Force(p: Proc, read: int)
    | Refresh(p: Proc, read: int)
    | Release(p: Proc)

  /**
   `delay` bounds how stale a holder's last write may grow, from the clock reading it was made with: the
   refresh interval plus whatever the process and the store are late by.
   */
  predicate Enabled(s: State, step: Step, delay: int) {
    match step
    case Pass(d) => forall p :: p in s.holders ==> s.clock + d - s.holders[p] <= delay
    case Spawn(p) => p !in s.alive
    case Crash(p) => p in s.alive
    case Acquire(p, read) => p in s.alive && p !in s.holders && p !in s.suspects && s.clock - delay <= read <= s.clock
    case Force(p, read) => p in s.suspects && s.clock - delay <= read <= s.clock
    case Refresh(p, read) => p in s.holders && s.holders[p] <= read <= s.clock
    case Release(p) => p in s.holders
  }

  function Apply(s: State, step: Step): State
    requires step.Refresh? ==> step.p in s.holders
  {
    match step
    case Pass(d) => s.(clock := s.clock + d)
    case Spawn(p) => s.(alive := s.alive + {p})
    case Crash(p) => s.(alive := s.alive - {p}, holders := s.holders - {p}, suspects := s.suspects - {p})
    case Acquire(p, read) =>
      if Blocks(s.row, read, STALE_AFTER) then
        var holder := s.row.value.holder;
        if holder.host == p.host && holder !in s.alive then s.(suspects := s.suspects + {p}) else s
      else s.(row := Some(RowOf(p, read)), holders := s.holders[p := read])
    case Force(p, read) =>
      if Blocks(s.row, read, 0) then s.(suspects := s.suspects - {p})
      else s.(row := Some(RowOf(p, read)), holders := s.holders[p := read], suspects := s.suspects - {p})
    case Refresh(p, read) =>
      s.(row := Refreshed(s.row, p, read), holders := if Owned(s.row, p) then s.holders[p := read] else s.holders)
    case Release(p) => s.(row := Released(s.row, p), holders := s.holders - {p})
  }

  const INITIAL := State(0, None, map[], {}, {})

  ghost predicate Exclusive(s: State) {
    forall p, q :: p in s.holders && q in s.holders ==> p == q
  }

  /** Each holder is alive, the row is its own, and records its last write, which is recent. */
  ghost predicate Inv(s: State, delay: int) {
    && s.suspects <= s.alive && s.suspects !! s.holders.Keys
    && forall p :: p in s.holders ==>
         p in s.alive && Owned(s.row, p) && s.row.value.heartbeatAt == Some(Truncate(s.holders[p]))
         && s.holders[p] <= s.clock <= s.holders[p] + delay
  }

  /** A forced acquisition comes while the row is still that of a dead process, or of nobody. */
  predicate Unraced(s: State, step: Step) {
    step.Force? ==> s.row.None? || s.row.value.holder !in s.alive
  }

  /** The longest silence the staleness can absorb: one second is lost to the stored precision. */
  const TOLERANCE: int := STALE_AFTER - SECOND + 1

  lemma InvKept(s: State, step: Step, delay: int)
    requires 0 <= delay <= TOLERANCE && Inv(s, delay) && Enabled(s, step, delay) && Unraced(s, step)
    ensures Inv(Apply(s, step), delay)
  {
    if step.Acquire? || step.Force? {
      forall p | p in s.holders ensures Blocks(s.row, step.read, STALE_AFTER) {
        assert Owned(s.row, p);
      }
    }
  }

  ghost predicate CanRun(s: State, steps: seq<Step>, delay: int)
    decreases |steps|
  {
    steps == [] || (Enabled(s, steps[0], delay) && CanRun(Apply(s, steps[0]), steps[1..], delay))
  }

  ghost function Run(s: State, steps: seq<Step>, delay: int): State
    requires CanRun(s, steps, delay)
    decreases |steps|
  {
    if steps == [] then s else Run(Apply(s, steps[0]), steps[1..], delay)
  }

  /** No forced acquisition of the run is raced. */
  ghost predicate Orderly(s: State, steps: seq<Step>, delay: int)
    requires CanRun(s, steps, delay)
    decreases |steps|
  {
    steps == [] || (Unraced(s, steps[0]) && Orderly(Apply(s, steps[0]), steps[1..], delay))
  }

  lemma {:induction false} RunKeepsInv(s: State, steps: seq<Step>, delay: int)
    requires 0 <= delay <= TOLERANCE && Inv(s, delay) && CanRun(s, steps, delay) && Orderly(s, steps, delay)
    ensures Inv(Run(s, steps, delay), delay)
    decreases |steps|
  {
    if steps != [] {
      InvKept(s, steps[0], delay);
      RunKeepsInv(Apply(s, steps[0]), steps[1..], delay);
    }
  }

  /** In every orderly run the slot has at most one holder. */
  ghost predicate AlwaysExclusive(delay: int) {
    forall steps :: CanRun(INITIAL, steps, delay) && Orderly(INITIAL, steps, delay) ==>
        Exclusive(Run(INITIAL, steps, delay))
  }

  /**
   At most one process ever holds the slot exactly when no holder stays silent longer than the tolerance:
   sixty seconds less the second the stored time may be behind.
   */
  lemma MutualExclusion(delay: int)
    requires delay >= 0
    ensures AlwaysExclusive(delay) <==> delay <= TOLERANCE
    ensures AlwaysExclusive(delay) <==> delay <= 59 * SECOND + 1
  {
    if delay <= TOLERANCE {
      forall steps | CanRun(INITIAL, steps, delay) && Orderly(INITIAL, steps, delay)
        ensures Exclusive(Run(INITIAL, steps, delay))
      {
        RunKeepsInv(INITIAL, steps, delay);
      }
    } else {
      TakenTooEarly(delay);
    }
  }

  /** The refresh interval leaves room for three lost heartbeats. */
  lemma ProductionIsSafe(late: int)
    requires 0 <= late <= 44 * SECOND
    ensures AlwaysExclusive(REFRESH_INTERVAL + late) && REFRESH_INTERVAL == 15 * SECOND
  {
    MutualExclusion(REFRESH_INTERVAL + late);
  }

  /** A run of one more step at its front. */
  lemma RunCons(s: State, step: Step, rest: seq<Step>, delay: int)
    requires Enabled(s, step, delay) && CanRun(Apply(s, step), rest, delay)
    ensures CanRun(s, [step] + rest, delay) && Run(s, [step] + rest, delay) == Run(Apply(s, step), rest, delay)
    ensures Unraced(s, step) && Orderly(Apply(s, step), rest, delay) ==> Orderly(s, [step] + rest, delay)
  {
    assert ([step] + rest)[1..] == rest;
  }

  /** Two processes of host "a" start, and the first takes the slot at `at`. */
  function Opened(p: Proc, q: Proc, at: nat): State {
    State(at, Some(RowOf(p, at)), map[p := at], {p, q}, {})
  }

  lemma OpeningRuns(p: Proc, q: Proc, at: nat, rest: seq<Step>, delay: int)
    requires p != q && delay >= 0 && CanRun(Opened(p, q, at), rest, delay)
    ensures CanRun(INITIAL, [Spawn(p)] + ([Spawn(q)] + ([Pass(at)] + ([Acquire(p, at)] + rest))), delay)
    ensures var steps := [Spawn(p)] + ([Spawn(q)] + ([Pass(at)] + ([Acquire(p, at)] + rest)));
      Run(INITIAL, steps, delay) == Run(Opened(p, q, at), rest, delay)
      && (Orderly(Opened(p, q, at), rest, delay) ==> Orderly(INITIAL, steps, delay))
  {
    var s1 := Apply(INITIAL, Spawn(p));
    var s2 := Apply(s1, Spawn(q));
    var s3 := Apply(s2, Pass(at));
    assert Apply(s3, Acquire(p, at)) == Opened(p, q, at);
    hide CanRun, Run, Orderly;
    RunCons(s3, Acquire(p, at), rest, delay);
    RunCons(s2, Pass(at), [Acquire(p, at)] + rest, delay);
    RunCons(s1, Spawn(q), [Pass(at)] + ([Acquire(p, at)] + rest), delay);
    RunCons(INITIAL, Spawn(p), [Spawn(q)] + ([Pass(at)] + ([Acquire(p, at)] + rest)), delay);
  }

  lemma TakenTooEarly(delay: int)
    requires delay > TOLERANCE
    ensures !AlwaysExclusive(delay)
  {
    var p, q, at := Proc(1, "a"), Proc(2, "a"), SECOND - 1;
    var s0 := Opened(p, q, at);
    var s1 := Apply(s0, Pass(delay));
    var s2 := Apply(s1, Acquire(q, at + delay));
    assert p in s2.holders && q in s2.holders && p != q;
    assert CanRun(s2, [], delay);
    RunCons(s1, Acquire(q, at + delay), [], delay);
    RunCons(s0, Pass(delay), [Acquire(q, at + delay)] + [], delay);
    OpeningRuns(p, q, at, [Pass(delay)] + ([Acquire(q, at + delay)] + []), delay);
  }

  // ----- forced reclaim -----

  /**
   The retry with a zero staleness does not ask again who holds the row. It is safe exactly when its clock reading
   is no later than the whole second stored for the holder's last write; one nanosecond into that second the retry
   unseats the holder.
   */
  lemma ForceIsSafe(s: State, p: Proc, read: int, delay: int)
    requires 0 <= delay <= TOLERANCE && Inv(s, delay) && Enabled(s, Force(p, read), delay)
    ensures Exclusive(Apply(s, Force(p, read))) <==> forall q :: q in s.holders ==> read <= Truncate(s.holders[q])
  {
    var s' := Apply(s, Force(p, read));
    if !Blocks(s.row, read, 0) && s.holders.Keys != {} {
      var q :| q in s.holders;
      assert p in s'.holders && q in s'.holders && p != q;
    }
  }

  /** Both have found the holder dead and retry a moment later. */
  function Retries(q: Proc, r: Proc): seq<Step> {
    [Pass(1)] + ([Force(q, 1)] + ([Force(r, 1)] + []))
  }

  lemma RetriesCollide(dead: Proc, q: Proc, r: Proc, delay: int)
    requires q != r && delay >= 0
    ensures var s := State(0, Some(RowOf(dead, 0)), map[], {q, r}, {q, r});
      CanRun(s, Retries(q, r), delay) && !Exclusive(Run(s, Retries(q, r), delay))
  {
    var s := State(0, Some(RowOf(dead, 0)), map[], {q, r}, {q, r});
    var s1 := Apply(s, Pass(1));
    var s2 := Apply(s1, Force(q, 1));
    assert s2 == State(1, Some(RowOf(q, 1)), map[q := 1], {q, r}, {r});
    var s3 := Apply(s2, Force(r, 1));
    assert q in s3.holders && r in s3.holders;
    assert CanRun(s3, [], delay);
    RunCons(s2, Force(r, 1), [], delay);
    hide CanRun, Run;
    RunCons(s1, Force(q, 1), [Force(r, 1)] + [], delay);
    RunCons(s, Pass(1), [Force(q, 1)] + ([Force(r, 1)] + []), delay);
  }

  /** Two processes find the same dead holder; the second to force its way in unseats the first, a live one. */
  lemma RacedReclaim(delay: int)
    requires delay >= 0
    ensures exists steps :: CanRun(INITIAL, steps, delay) && !Exclusive(Run(INITIAL, steps, delay))
  {
    hide CanRun, Run, Retries, Exclusive;
    var dead, q, r := Proc(1, "a"), Proc(2, "a"), Proc(3, "a");
    var s0 := Opened(dead, q, 0);
    var s1 := Apply(s0, Spawn(r));
    var s2 := Apply(s1, Crash(dead));
    var s3 := Apply(s2, Acquire(q, 0));
    assert Apply(s3, Acquire(r, 0)) == State(0, Some(RowOf(dead, 0)), map[], {q, r}, {q, r});
    var retries := Retries(q, r);
    RetriesCollide(dead, q, r, delay);
    RunCons(s3, Acquire(r, 0), retries, delay);
    RunCons(s2, Acquire(q, 0), [Acquire(r, 0)] + retries, delay);
    RunCons(s1, Crash(dead), [Acquire(q, 0)] + ([Acquire(r, 0)] + retries), delay);
    RunCons(s0, Spawn(r), [Crash(dead)] + ([Acquire(q, 0)] + ([Acquire(r, 0)] + retries)), delay);
    OpeningRuns(dead, q, 0, [Spawn(r)] + ([Crash(dead)] + ([Acquire(q, 0)] + ([Acquire(r, 0)] + retries))), delay);
  }

  // ----- after a crash -----

  /** Steps that come too early to take the row last written at `beat` by `gone`, and do not bring `gone` back. */
  predicate LeavesRow(step: Step, gone: Proc, beat: int) {
    && !step.Force? && step != Spawn(gone)
    && (step.Acquire? ==> step.read - beat <= STALE_AFTER)
  }

  lemma {:induction false} DeadRowStays(s: State, steps: seq<Step>, gone: Proc, acquiredAt: int, beat: int, delay: int)
    requires 0 <= delay <= TOLERANCE && Inv(s, delay) && CanRun(s, steps, delay)
    requires s.row == Some(Row(gone, acquiredAt, Some(beat))) && gone !in s.alive
    requires forall i :: 0 <= i < |steps| ==> LeavesRow(steps[i], gone, beat)
    ensures var s' := Run(s, steps, delay);
            Inv(s', delay) && s'.row == s.row && gone !in s'.alive && s'.holders == map[]
    decreases |steps|
  {
    assert s.holders.Keys == {};
    if steps != [] {
      assert LeavesRow(steps[0], gone, beat);
      InvKept(s, steps[0], delay);
      assert Apply(s, steps[0]).row == s.row;
      DeadRowStays(Apply(s, steps[0]), steps[1..], gone, acquiredAt, beat, delay);
    }
  }

  /**
   However long ago the holder crashed and whatever was tried since, an acquisition gets the slot at once if
   and only if it reads the clock more than sixty seconds after the stored heartbeat. Otherwise nobody holds it.
   */
  lemma CrashedSlotComesFree(s: State, steps: seq<Step>, gone: Proc, acquiredAt: int, beat: int, q: Proc, read: int,
                             delay: int)
    requires 0 <= delay <= TOLERANCE && Inv(s, delay) && CanRun(s, steps, delay)
    requires s.row == Some(Row(gone, acquiredAt, Some(beat))) && gone !in s.alive
    requires forall i :: 0 <= i < |steps| ==> LeavesRow(steps[i], gone, beat)
    requires Enabled(Run(s, steps, delay), Acquire(q, read), delay)
    ensures var s' := Apply(Run(s, steps, delay), Acquire(q, read));
      s'.holders == (if read > beat + 60 * SECOND then map[q := read] else map[])
      && (read <= beat + 60 * SECOND && q.host == gone.host ==> q in s'.suspects)
  {
    DeadRowStays(s, steps, gone, acquiredAt, beat, delay);
  }

  // ----- after a release -----

  /** Steps that write nothing to the row. */
  predicate Silent(step: Step) {
    step.Pass? || step.Spawn? || step.Crash?
  }

  lemma {:induction false} SilenceLeavesRow(s: State, steps: seq<Step>, delay: int)
    requires CanRun(s, steps, delay) && forall i :: 0 <= i < |steps| ==> Silent(steps[i])
    ensures Run(s, steps, delay).row == s.row && Run(s, steps, delay).holders.Keys <= s.holders.Keys
    decreases |steps|
  {
    if steps != [] {
      assert Silent(steps[0]);
      SilenceLeavesRow(Apply(s, steps[0]), steps[1..], delay);
    }
  }

  /**
   A slot that its holder has given back is free at once: with no write in between, the next process to ask gets it
   whatever its clock reads.
   */
  lemma AReleasedSlotIsFree(s: State, p: Proc, steps: seq<Step>, q: Proc, read: int, delay: int)
    requires 0 <= delay <= TOLERANCE && Inv(s, delay) && Enabled(s, Release(p), delay)
    requires CanRun(Apply(s, Release(p)), steps, delay) && forall i :: 0 <= i < |steps| ==> Silent(steps[i])
    requires Enabled(Run(Apply(s, Release(p)), steps, delay), Acquire(q, read), delay)
    ensures Apply(s, Release(p)).row.None? && Apply(s, Release(p)).holders == map[]
    ensures var s' := Apply(Run(Apply(s, Release(p)), steps, delay), Acquire(q, read));
            s'.holders == map[q := read] && s'.row == Some(RowOf(q, read))
  {
    var freed := Apply(s, Release(p));
    assert Owned(s.row, p);
    assert freed.holders.Keys == {};
    SilenceLeavesRow(freed, steps, delay);
    assert Run(freed, steps, delay).holders == map[];
  }

  /**
   A heartbeat of a holder that is still alive counts from then on: within sixty seconds of it nobody else gets in.
   */
  lemma AFreshHeartbeatHolds(s: State, p: Proc, read: int, steps: seq<Step>, q: Proc, later: int, delay: int)
    requires 0 <= delay <= TOLERANCE && Inv(s, delay) && Enabled(s, Refresh(p, read), delay)
    requires CanRun(Apply(s, Refresh(p, read)), steps, delay) && forall i :: 0 <= i < |steps| ==> Silent(steps[i])
    requires Enabled(Run(Apply(s, Refresh(p, read)), steps, delay), Acquire(q, later), delay)
    ensures Apply(s, Refresh(p, read)).holders[p := read] == Apply(s, Refresh(p, read)).holders
    ensures var silent := Run(Apply(s, Refresh(p, read)), steps, delay);
            var s' := Apply(silent, Acquire(q, later));
            if later <= read / SECOND * SECOND + 60 * SECOND then s'.row == silent.row && s'.holders == silent.holders
            else s'.row == Some(RowOf(q, later)) && q in s'.holders
  {
    assert Owned(s.row, p);
    SilenceLeavesRow(Apply(s, Refresh(p, read)), steps, delay);
  }
}
