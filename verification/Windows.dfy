/**
 Daily maintenance windows given by two times of day, and their conversion to a recurrence with a duration.
 A day is twenty-four hours of local time at a fixed offset from the time line.
 */
module Windows {
  import opened Options
  import opened Recurrences
  import opened Blackouts

  /** So many minutes, in nanoseconds. */
  function Minutes(n: int): int {
    n * 60_000_000_000
  }

  const DAY: int := 86_400_000_000_000

  /** So many days of twenty-four hours. */
  function Days(n: int): int {
    n * 86_400_000_000_000
  }

  datatype TimeOfDay = TimeOfDay(hour: nat, minute: nat) {
    predicate Valid() {
      hour <= 23 && minute <= 59
    }

    function Mins(): nat {
      hour * 60 + minute
    }
  }

  datatype DayTime = DayTime(day: int, ofDay: int)

  /** The local day an instant falls on and how far into it. */
  function Local(t: int, offset: int): (d: DayTime)
    ensures 0 <= d.ofDay < DAY && t + offset == Days(d.day) + d.ofDay
  {
    DayTime((t + offset) / 86_400_000_000_000, (t + offset) % 86_400_000_000_000)
  }

  /** The minute of the day, counted from midnight. */
  function MinuteOfDay(ofDay: int): int {
    ofDay / 60_000_000_000
  }

  lemma MinuteReached(ofDay: int, mins: int)
    ensures MinuteOfDay(ofDay) >= mins <==> ofDay >= Minutes(mins)
  {}

  /** The instant of a minute of a local day. */
  function AtMinute(day: int, mins: int, offset: int): int {
    Days(day) + Minutes(mins) - offset
  }

  datatype MaintenanceWindow = MaintenanceWindow(enabled: bool, start: TimeOfDay, end: TimeOfDay, offset: int) {
    predicate Valid() {
      start.Valid() && end.Valid()
    }

    predicate Contains(t: int) {
      enabled
      && var mins := MinuteOfDay(Local(t, offset).ofDay);
      if start.Mins() == end.Mins() then false
      else if start.Mins() < end.Mins() then start.Mins() <= mins < end.Mins()
      else mins >= start.Mins() || mins < end.Mins()
    }

    function NextOpen(after: int): int {
      if !enabled || !Contains(after) then after
      else
        var local := Local(after, offset);
        var endToday := AtMinute(local.day, end.Mins(), offset);
        if start.Mins() < end.Mins() then endToday
        else if MinuteOfDay(local.ofDay) < end.Mins() then endToday
        else AtMinute(local.day + 1, end.Mins(), offset)
    }
  }

  /** Membership without the division: the window compares instants of the day. */
  predicate Within(w: MaintenanceWindow, ofDay: int) {
    if w.start.Mins() <= w.end.Mins() then Minutes(w.start.Mins()) <= ofDay < Minutes(w.end.Mins())
    else ofDay >= Minutes(w.start.Mins()) || ofDay < Minutes(w.end.Mins())
  }

  lemma ContainsIsWithin(w: MaintenanceWindow, t: int)
    requires w.Valid()
    ensures w.Contains(t) <==> w.enabled && Within(w, Local(t, w.offset).ofDay)
  {
    var d := Local(t, w.offset);
    MinuteReached(d.ofDay, w.start.Mins());
    MinuteReached(d.ofDay, w.end.Mins());
    hide Local, MinuteOfDay;
  }

  /** An instant so many days and so much of a day away has that local time. */
  lemma LocalIs(t: int, offset: int, day: int, ofDay: int)
    requires 0 <= ofDay < DAY && t + offset == Days(day) + ofDay
    ensures Local(t, offset) == DayTime(day, ofDay)
  {
    var d := Local(t, offset);
    assert Days(d.day) + d.ofDay == Days(day) + ofDay;
  }

  /** The answer is the first instant, from the one asked about on, that is outside the window. */
  lemma NextOpenIsLeast(w: MaintenanceWindow, after: int)
    requires w.Valid()
    ensures after <= w.NextOpen(after) && !w.Contains(w.NextOpen(after))
    ensures forall t :: after <= t < w.NextOpen(after) ==> w.Contains(t)
  {
    if w.Contains(after) {
      var d := Local(after, w.offset);
      var open := w.NextOpen(after);
      ContainsIsWithin(w, after);
      var tonight := w.start.Mins() > w.end.Mins() && d.ofDay >= Minutes(w.end.Mins());
      LocalIs(open, w.offset, if tonight then d.day + 1 else d.day, Minutes(w.end.Mins()));
      ContainsIsWithin(w, open);
      forall t | after <= t < open ensures w.Contains(t) {
        var into := t + w.offset - Days(d.day);
        LocalIs(t, w.offset, if into < DAY then d.day else d.day + 1, if into < DAY then into else into - DAY);
        ContainsIsWithin(w, t);
      }
    }
  }

  // ----- conversion of the legacy window -----

  /** The converted form: a daily start and a duration in seconds. */
  datatype Maintenance = Maintenance(start: TimeOfDay, durationSec: int)

  /** Times that do not parse are None; then, as for a disabled window, there is nothing to convert. */
  function LegacyWindowToMaintenance(enabled: bool, start: Option<TimeOfDay>,
                                     end: Option<TimeOfDay>): Option<Maintenance> {
    if !enabled || start.None? || end.None? then None
    else
      var startMins, endMins := start.value.Mins(), end.value.Mins();
      Some(Maintenance(start.value,
                       if endMins > startMins then (endMins - startMins) * 60
                       else (24 * 60 - startMins + endMins) * 60))
  }

  /**
   There is something to convert exactly when the window is enabled and both times parse; then the converted form
   starts when the legacy one did and lasts, up to a whole day, until the clock next shows the end.
   */
  lemma ConvertsExactly(enabled: bool, start: Option<TimeOfDay>, end: Option<TimeOfDay>)
    requires (start.Some? ==> start.value.Valid()) && (end.Some? ==> end.value.Valid())
    ensures LegacyWindowToMaintenance(enabled, start, end).Some? <==> enabled && start.Some? && end.Some?
    ensures LegacyWindowToMaintenance(enabled, start, end).Some? ==>
              var m := LegacyWindowToMaintenance(enabled, start, end).value;
              && m.start == start.value && 0 < m.durationSec <= 86_400
              && ((start.value.hour * 60 + start.value.minute) * 60 + m.durationSec) % 86_400
                 == (end.value.hour * 60 + end.value.minute) * 60
  {}

  /** Every day from `firstDay` on, at the given minute. */
  function DailyRule(mins: nat, offset: int, firstDay: int): Rule {
    RawRule((n: nat) => (firstDay + n) * 86_400_000_000_000 + mins * 60_000_000_000 - offset, None)
  }

  /** The blackout window that the converted form amounts to. */
  function Converted(m: Maintenance, id: string, offset: int, firstDay: int): Blackouts.Window {
    Blackouts.Window(id, DailyRule(m.start.Mins(), offset, firstDay), m.durationSec)
  }

  predicate StartsOn(day: int, mins: nat, offset: int, t: int) {
    AtMinute(day, mins, offset) == t
  }

  lemma DailyOccurs(mins: nat, offset: int, firstDay: int, t: int)
    ensures Occurs(DailyRule(mins, offset, firstDay), t) <==>
              exists day :: day >= firstDay && StartsOn(day, mins, offset, t)
  {
    var r := DailyRule(mins, offset, firstDay);
    if Occurs(r, t) {
      var n: nat :| r.Has(n) && r.at(n) == t;
      assert StartsOn(firstDay + n, mins, offset, t);
    }
    if day :| day >= firstDay && StartsOn(day, mins, offset, t) {
      assert r.Has(day - firstDay) && r.at(day - firstDay) == t;
    }
  }

  /** The day whose occurrence could cover an instant: the same day, or the day before while it is before the start. */
  function StartDay(w: MaintenanceWindow, t: int): int {
    var d := Local(t, w.offset);
    if d.ofDay >= Minutes(w.start.Mins()) then d.day else d.day - 1
  }

  /** The start on that day is the last one up to `t`. */
  lemma LastStart(w: MaintenanceWindow, t: int)
    requires w.Valid()
    ensures AtMinute(StartDay(w, t), w.start.Mins(), w.offset) <= t
    ensures t < AtMinute(StartDay(w, t) + 1, w.start.Mins(), w.offset)
  {}

  /** The window of a legacy configuration, enabled. */
  predicate IsConverted(w: MaintenanceWindow, m: Maintenance) {
    w.enabled && w.Valid() && LegacyWindowToMaintenance(true, Some(w.start), Some(w.end)) == Some(m)
  }

  /** A day's occurrence covers an instant exactly when it is the last start and the instant is in the window. */
  lemma OneDayCovers(w: MaintenanceWindow, m: Maintenance, day: int, t: int)
    requires IsConverted(w, m)
    ensures var s := AtMinute(day, w.start.Mins(), w.offset);
      s <= t < s + m.durationSec * SECOND
      <==> day == StartDay(w, t) && (w.Contains(t) || w.start.Mins() == w.end.Mins())
  {
    LastStart(w, t);
    ContainsIsWithin(w, t);
    var d := Local(t, w.offset);
    var s := AtMinute(day, w.start.Mins(), w.offset);
    if day < StartDay(w, t) {
      assert AtMinute(day + 1, w.start.Mins(), w.offset) <= t;
    }
    assert s == Days(day) + Minutes(w.start.Mins()) - w.offset;
  }

  /** A window is open from its start on some day to the next time the clock shows its end; with equal ends, never. */
  lemma ContainsMeans(w: MaintenanceWindow, t: int)
    requires w.Valid()
    ensures w.Contains(t) <==>
              w.enabled && w.start.Mins() != w.end.Mins() && exists day: int :: OpenOn(w, day, t)
  {
    if w.enabled && w.start.Mins() != w.end.Mins() {
      var m := LegacyWindowToMaintenance(true, Some(w.start), Some(w.end)).value;
      forall day: int ensures OpenOn(w, day, t) <==> day == StartDay(w, t) && w.Contains(t) {
        OneDayCovers(w, m, day, t);
      }
      hide OpenOn;
      assert OpenOn(w, StartDay(w, t), t) <==> w.Contains(t);
    }
  }

  /** The instant lies between the start on a day and the end on that day, or on the next one past midnight. */
  predicate OpenOn(w: MaintenanceWindow, day: int, t: int) {
    var start, end := w.start.hour * 60 + w.start.minute, w.end.hour * 60 + w.end.minute;
    var last := if start < end then day else day + 1;
    day * 86_400_000_000_000 + start * 60_000_000_000 <= t + w.offset < last * 86_400_000_000_000 + end * 60_000_000_000
  }

  /**
   An enabled window is converted, and from its first occurrence on the result covers exactly what the legacy window
   contained, midnight wrap included; only for a start equal to the end the two part: the legacy window is empty, the
   converted one never ends.
   */
  lemma ConversionMeans(w: MaintenanceWindow, id: string, firstDay: int, t: int)
    requires w.Valid()
    ensures var r := LegacyWindowToMaintenance(w.enabled, Some(w.start), Some(w.end));
      && (r.Some? <==> w.enabled)
      && (r.Some? ==>
            (Covers(Converted(r.value, id, w.offset, firstDay), t) <==>
               && t >= AtMinute(firstDay, w.start.Mins(), w.offset)
               && (w.Contains(t) || w.start.Mins() == w.end.Mins())))
  {
    if w.enabled {
      var m := LegacyWindowToMaintenance(true, Some(w.start), Some(w.end)).value;
      CoverageMeans(w, m, id, firstDay, t);
    }
  }

  lemma CoverageMeans(w: MaintenanceWindow, m: Maintenance, id: string, firstDay: int, t: int)
    requires IsConverted(w, m)
    ensures Covers(Converted(m, id, w.offset, firstDay), t)
       <==> t >= AtMinute(firstDay, w.start.Mins(), w.offset) && (w.Contains(t) || w.start.Mins() == w.end.Mins())
  {
    var c := Converted(m, id, w.offset, firstDay);
    var day := StartDay(w, t);
    LastStart(w, t);
    OneDayCovers(w, m, day, t);
    if Covers(c, t) {
      var s :| Occurs(c.rule, s) && s <= t < s + c.Dur();
      DailyOccurs(m.start.Mins(), w.offset, firstDay, s);
      var some :| some >= firstDay && StartsOn(some, m.start.Mins(), w.offset, s);
      OneDayCovers(w, m, some, t);
    }
    if t >= AtMinute(firstDay, w.start.Mins(), w.offset) {
      var s := AtMinute(day, m.start.Mins(), w.offset);
      assert day >= firstDay && StartsOn(day, m.start.Mins(), w.offset, s);
      DailyOccurs(m.start.Mins(), w.offset, firstDay, s);
    }
  }

  /**
   A window with equal ends contained nothing and, converted, blacks out every instant from its first occurrence on.
   */
  lemma EqualEndsDiffer(w: MaintenanceWindow, m: Maintenance, id: string, firstDay: int, t: int)
    requires IsConverted(w, m) && w.start.Mins() == w.end.Mins() && t >= AtMinute(firstDay, w.start.Mins(), w.offset)
    ensures !w.Contains(t) && Covers(Converted(m, id, w.offset, firstDay), t)
  {
    CoverageMeans(w, m, id, firstDay, t);
  }
}
