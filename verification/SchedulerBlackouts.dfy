/** The scheduler's pauses in terms of the blackout windows behind its snapshots. */
module SchedulerBlackouts {
  import opened SchedulerSteps
  import opened SchedulerTheorems
  import Blackouts

  /** What a loaded set of windows answers. */
  ghost function Answers(cache: Blackouts.Cache): Snapshot {
    iset target: string, at: int | Blackouts.Active(cache, target, at) :: (target, at)
  }

  /**
   A job recorded as paused had a target that some window covered at a tick, and that no window covered
   when the job was registered, by the plain meaning of the windows loaded at those two moments.
   */
  lemma PauseMeansBlackout(s: State, ticket: nat, now: Blackouts.Cache, before: Blackouts.Cache)
    requires Reachable(s) && ticket in s.past.outcomes && s.past.outcomes[ticket].PausedBlackout?
    requires ticket in s.past.sightings
    requires s.past.sightings[ticket].cacheNow == Answers(now) && s.past.sightings[ticket].cacheThen == Answers(before)
    requires var e := s.past.sightings[ticket].entry;
             Blackouts.Capped(now, e.target) && Blackouts.Capped(before, e.target)
    ensures var sight := s.past.sightings[ticket];
      sight.entry.ticket == ticket
      && Blackouts.BlackedOut(now, sight.entry.target, sight.now)
      && !Blackouts.BlackedOut(before, sight.entry.target, sight.entry.acquiredAt)
  {
    hide Reachable, Blackouts.Active;
    PauseWasSeen(s, ticket);
    var sight := s.past.sightings[ticket];
    Blackouts.ActiveIsBlackedOut(now, sight.entry.target, sight.now);
    Blackouts.ActiveIsBlackedOut(before, sight.entry.target, sight.entry.acquiredAt);
  }
}
