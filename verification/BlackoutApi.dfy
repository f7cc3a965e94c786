/** The HTTP layer's own two expansions of a blackout, kept apart from the evaluator's snapshot. */
module BlackoutApi {
  import opened Options
  import opened Recurrences
  import opened Blackouts

  /** The duration rule every create and update request must pass. */
  predicate DurationAccepted(durationSec: int) {
    0 < durationSec <= MAX_DURATION_SEC
  }

  /** The request is accepted exactly with a duration of at most seven days, for which the look-back is exact. */
  lemma AcceptedIsExact(w: Window, at: int)
    ensures DurationAccepted(w.durationSec) <==> 0 < w.durationSec <= 7 * 24 * 60 * 60
    ensures DurationAccepted(w.durationSec) ==> (OccurrenceCovers(w, at) <==> Covers(w, at))
  {
    if DurationAccepted(w.durationSec) {
      LookBackSuffices(w, at);
    }
  }

  /** Recent coverage is the evaluator's answer on every row and instant, and the plain meaning under the API's cap. */
  lemma AnswersAgree(row: Row, at: int)
    requires row.rule.Some?
    ensures var w := Window(row.id, row.rule.value, row.durationSec);
      && (CoversRecently(w, at) <==> OccurrenceCovers(w, at))
      && (DurationAccepted(row.durationSec) ==> (CoversRecently(w, at) <==> Covers(w, at)))
  {
    var w := Window(row.id, row.rule.value, row.durationSec);
    CoversIsRecent(w, at);
    if DurationAccepted(row.durationSec) {
      LookBackSuffices(w, at);
    }
  }

  /** Whether `row` covers `at`; None when the rule or the timezone does not parse. */
  method BlackoutActiveAt(row: Row, at: int) returns (active: Option<bool>)
    ensures active.None? <==> row.rule.None?
    ensures active.Some? ==>
      (active.value <==> CoversRecently(Window(row.id, row.rule.value, row.durationSec), at))
    ensures active.Some? ==>
      (active.value <==> OccurrenceCovers(Window(row.id, row.rule.value, row.durationSec), at))
    ensures active.Some? && 0 < row.durationSec <= 7 * 24 * 60 * 60 ==>
      (active.value <==> Covers(Window(row.id, row.rule.value, row.durationSec), at))
  {
    if row.rule.None? {
      return None;
    }
    AnswersAgree(row, at);
    hide OccurrenceCovers, Covers;
    var dur := row.durationSec * SECOND;
    var starts := Between(row.rule.value, at - HORIZON, at + 1);
    for i := 0 to |starts|
      invariant forall k :: 0 <= k < i ==> !(starts[k] <= at < starts[k] + dur)
    {
      if starts[i] <= at && at < starts[i] + dur {
        assert starts[i] in starts;
        return Some(true);
      }
    }
    assert forall t :: Occurs(row.rule.value, t) && at - HORIZON <= t <= at ==> t in starts;
    return Some(false);
  }

  datatype Upcoming = Upcoming(startsAt: int, endsAt: int)

  /** Start `t` is one that a listing of `[from, to]` ought to show. */
  ghost predicate Overlaps(w: Window, from: int, to: int, t: int) {
    Occurs(w.rule, t) && t <= to && from <= t + w.Dur()
  }

  /** Start `t` is one the listing of `[from, to]` does show: its look-back is bounded. */
  ghost predicate Listed(w: Window, from: int, to: int, t: int) {
    Overlaps(w, from, to, t) && from - 7 * 24 * 3600 * SECOND <= t
  }

  /** The starts of a listing, in its order. */
  function Starts(out: seq<Upcoming>): (ts: seq<int>)
    ensures |ts| == |out|
  {
    seq(|out|, i requires 0 <= i < |out| => out[i].startsAt)
  }

  /** The occurrences of `w` to show between `from` and `to`, in order of their start. */
  method BlackoutOccurrencesIn(w: Window, from: int, to: int) returns (out: seq<Upcoming>)
    ensures forall i :: 0 <= i < |out| ==> out[i].endsAt == out[i].startsAt + w.Dur()
    ensures forall i, j :: 0 <= i < j < |out| ==> out[i].startsAt < out[j].startsAt
    ensures forall t :: t in Starts(out) <==>
              Occurs(w.rule, t) && from - 7 * 24 * 3600 * SECOND <= t <= to && from <= t + w.Dur()
    ensures forall t :: t in Starts(out) <==> Listed(w, from, to, t)
  {
    var dur := w.Dur();
    var occs := Between(w.rule, from - HORIZON, to);
    out := [];
    for k := 0 to |occs|
      invariant forall i :: 0 <= i < |out| ==> out[i].endsAt == out[i].startsAt + dur
      invariant forall t :: t in Starts(out) <==> t in occs[..k] && from <= t + dur
      invariant forall i, j :: 0 <= i < j < |out| ==> out[i].startsAt < out[j].startsAt
    {
      var occ := occs[k];
      assert occ in occs && occs[..k + 1] == occs[..k] + [occ];
      if occ + dur < from {
        continue;
      }
      if occ > to {
        assert false;
        break;
      }
      forall i | 0 <= i < |out| ensures out[i].startsAt < occ {
        assert Starts(out)[i] in occs[..k];
      }
      assert Starts(out + [Upcoming(occ, occ + dur)]) == Starts(out) + [occ];
      out := out + [Upcoming(occ, occ + dur)];
    }
    assert occs[..|occs|] == occs;
  }

  /** Every listing is complete exactly when the duration is within the cap, or nothing ever occurs. */
  lemma ListingExact(w: Window)
    ensures (forall from, to, t :: Overlaps(w, from, to, t) ==> Listed(w, from, to, t))
            <==> (w.durationSec <= 7 * 24 * 60 * 60 || forall t :: !Occurs(w.rule, t))
  {
    if w.durationSec > MAX_DURATION_SEC && exists t :: Occurs(w.rule, t) {
      var t :| Occurs(w.rule, t);
      var from := t + HORIZON + 1;
      assert Overlaps(w, from, from, t) && !Listed(w, from, from, t);
    }
  }
}
