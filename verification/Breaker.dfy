/** The adaptive concurrency breaker: a ring of the last outcomes drives the cap on connections in flight. */
module Breakers {
  const WINDOW: nat := 50
  const FLOOR: nat := 5

  datatype Entry = Entry(success: bool, timedOut: bool)

  datatype Event = Halved | Restored | Unchanged

  function Timeouts(s: seq<Entry>): (n: nat)
    ensures n <= |s|
  {
    if s == [] then 0 else Timeouts(s[..|s| - 1]) + if s[|s| - 1].timedOut then 1 else 0
  }

  lemma {:induction false} TimeoutsConcat(s: seq<Entry>, t: seq<Entry>)
    ensures Timeouts(s + t) == Timeouts(s) + Timeouts(t)
    decreases |t|
  {
    if t == [] {
      assert s + t == s;
    } else {
      assert (s + t)[..|s| + |t| - 1] == s + t[..|t| - 1];
      TimeoutsConcat(s, t[..|t| - 1]);
    }
  }

  /** What is counted are the entries that timed out; a refusal is no time-out. */
  lemma {:induction false} TimeoutsCounts(s: seq<Entry>)
    ensures Timeouts(s) == |set i: nat | i < |s| && s[i].timedOut|
  {
    var all := set i: nat | i < |s| && s[i].timedOut;
    if s == [] {
      assert all == {};
    } else {
      var n := |s| - 1;
      var before := set i: nat | i < |s[..n]| && s[..n][i].timedOut;
      TimeoutsCounts(s[..n]);
      assert all == if s[n].timedOut then before + {n} else before;
    }
  }

  // ----- the meaning of the cap -----

  /** The outcomes the breaker looks at: the last fifty, or all of them while there are fewer. */
  function Window(history: seq<Entry>): seq<Entry> {
    if |history| <= WINDOW then history else history[|history| - WINDOW..]
  }

  /** More than half of a full window timed out. */
  predicate Heavy(history: seq<Entry>) {
    |history| >= WINDOW && 2 * Timeouts(Window(history)) > WINDOW
  }

  /** Less than a quarter of a full window timed out. */
  predicate Calm(history: seq<Entry>) {
    |history| >= WINDOW && 4 * Timeouts(Window(history)) < WINDOW
  }

  function Max(a: int, b: int): int {
    if a < b then b else a
  }

  function Min(a: int, b: int): int {
    if a < b then a else b
  }

  function EventFor(original: nat, cap: nat, history: seq<Entry>): Event {
    if Heavy(history) && cap > FLOOR then Halved
    else if Calm(history) && cap < original then Restored
    else Unchanged
  }

  function CapFor(original: nat, cap: nat, event: Event): nat {
    match event
    case Halved => Max(cap / 2, FLOOR)
    case Restored => original
    case Unchanged => cap
  }

  /** The cap after a history, and how often it was halved, in all and since it was last restored. */
  datatype Level = Level(cap: nat, halvings: nat, since: nat)

  function LevelAfter(original: nat, history: seq<Entry>): Level {
    if history == [] then Level(original, 0, 0)
    else
      var l := LevelAfter(original, history[..|history| - 1]);
      var event := EventFor(original, l.cap, history);
      Level(CapFor(original, l.cap, event), l.halvings + (if event.Halved? then 1 else 0),
            if event.Halved? then l.since + 1 else if event.Restored? then 0 else l.since)
  }

  lemma LevelStep(original: nat, history: seq<Entry>, e: Entry)
    ensures var l := LevelAfter(original, history);
      var event := EventFor(original, l.cap, history + [e]);
      var l' := LevelAfter(original, history + [e]);
      l'.cap == CapFor(original, l.cap, event) && l'.halvings == l.halvings + (if event.Halved? then 1 else 0)
  {
    assert (history + [e])[..|history|] == history;
  }

  function Pow2(k: nat): (p: nat)
    ensures p > 0
  {
    if k == 0 then 1 else 2 * Pow2(k - 1)
  }

  /** `a` halved `k` times, each time rounding down. */
  function Halves(a: nat, k: nat): nat {
    if k == 0 then a else Halves(a, k - 1) / 2
  }

  lemma {:induction false} HalvesIsDivision(a: nat, k: nat)
    ensures Halves(a, k) == a / Pow2(k)
  {
    if k > 0 {
      HalvesIsDivision(a, k - 1);
      DivideTwice(a, Pow2(k - 1));
    }
  }

  lemma DivideTwice(a: nat, p: nat)
    requires p > 0
    ensures a / p / 2 == a / (2 * p)
  {
    var q := a / p;
    assert a == q * p + a % p;
    Distribute(q / 2, q % 2, p);
    QuotientIs(a, 2 * p, q / 2, (q % 2) * p + a % p);
  }

  lemma Distribute(h: nat, b: nat, p: nat)
    requires b <= 1
    ensures (2 * h + b) * p == h * (2 * p) + b * p
    ensures b * p <= p
  {}

  lemma QuotientIs(a: nat, d: nat, q: nat, r: nat)
    requires d > 0 && r < d && a == q * d + r
    ensures a / d == q
  {
    var x := a / d;
    assert (x - q) * d == r - a % d;
    MultiplesAreFar(x - q, d);
  }

  lemma MultiplesAreFar(y: int, d: nat)
    ensures y >= 1 ==> y * d >= d
    ensures y <= -1 ==> y * d + d <= 0
  {}

  lemma {:induction false} HalvesFit(a: nat, k: nat)
    ensures Halves(a, k) * Pow2(k) <= a && Halves(a, k) <= a
  {
    if k > 0 {
      HalvesFit(a, k - 1);
      var h, p := Halves(a, k - 1), Pow2(k - 1);
      HalfFits(h, p);
    }
  }

  lemma HalfFits(h: nat, p: nat)
    ensures h / 2 * (2 * p) <= h * p
  {
    Regroup(h / 2, p);
    ScaleDown(h / 2 * 2, h, p);
  }

  lemma Regroup(x: nat, p: nat)
    ensures x * (2 * p) == (x * 2) * p
  {}

  lemma ScaleDown(x: nat, y: nat, p: nat)
    requires x <= y
    ensures x * p <= y * p
  {}

  /** How often the window was heavy since it was last calm. */
  function HeavyTurns(history: seq<Entry>): nat {
    if history == [] || Calm(history) then 0
    else HeavyTurns(history[..|history| - 1]) + if Heavy(history) then 1 else 0
  }

  /** The cap after `k` halvings: never below five, nor below a smaller original. */
  function HalvedTo(original: nat, k: nat): nat {
    Max(Min(FLOOR, original), Halves(original, k))
  }

  lemma {:induction false} CapIsHalved(original: nat, history: seq<Entry>)
    ensures LevelAfter(original, history).cap == HalvedTo(original, HeavyTurns(history))
  {
    hide Heavy, Calm;
    if history != [] {
      CapIsHalved(original, history[..|history| - 1]);
      HalvesFit(original, HeavyTurns(history[..|history| - 1]));
      HeavyIsNotCalm(history);
    }
  }

  lemma WindowCounts(history: seq<Entry>)
    requires |history| >= 50
    ensures var last := history[|history| - 50..];
            Timeouts(Window(history)) == |set i: nat | i < 50 && last[i].timedOut|
  {
    var last := Window(history);
    TimeoutsCounts(last);
    assert (set i: nat | i < |last| && last[i].timedOut) == set i: nat | i < 50 && last[i].timedOut;
  }

  /** A turn is heavy, or calm, by how many of the last fifty outcomes timed out: over a half, or under a quarter. */
  lemma TurnMeans(history: seq<Entry>)
    requires |history| >= 50
    ensures var last := history[|history| - 50..];
      && (Heavy(history) <==> |set i: nat | i < 50 && last[i].timedOut| > 25)
      && (Calm(history) <==> |set i: nat | i < 50 && last[i].timedOut| <= 12)
  {
    hide Timeouts, Window;
    WindowCounts(history);
  }

  lemma FewAreNoTurn(history: seq<Entry>)
    requires |history| < 50
    ensures !Heavy(history) && !Calm(history)
  {}

  lemma HeavyIsNotCalm(history: seq<Entry>)
    ensures !(Heavy(history) && Calm(history))
  {}

  /**
   The cap is the original divided by two for every heavy turn since the last calm one, but never below five;
   a breaker that starts at five or less never moves.
   */
  lemma CapInClosedForm(original: nat, history: seq<Entry>)
    ensures LevelAfter(original, history).cap == Max(Min(5, original), original / Pow2(HeavyTurns(history)))
    ensures original <= 5 ==> LevelAfter(original, history).cap == original
  {
    CapIsHalved(original, history);
    HalvesIsDivision(original, HeavyTurns(history));
    HalvesFit(original, HeavyTurns(history));
    hide LevelAfter, Pow2, Halves, HeavyTurns;
  }

  /**
   Counting only the halvings that happened since the last restore gives the same cap, and there are only
   logarithmically many of them.
   */
  lemma {:induction false} FewHalvings(original: nat, history: seq<Entry>)
    ensures var l := LevelAfter(original, history);
      && l.cap == HalvedTo(original, l.since)
      && Min(5, original) <= l.cap <= original
      && l.since <= l.halvings
      && (l.since > 0 ==> 3 * Pow2(l.since) <= original)
  {
    hide Heavy, Calm;
    if history != [] {
      var l := LevelAfter(original, history[..|history| - 1]);
      FewHalvings(original, history[..|history| - 1]);
      HalvesFit(original, l.since);
      HalvesFit(original, l.since + 1);
      if EventFor(original, l.cap, history).Halved? {
        ScaleDown(6, Halves(original, l.since), Pow2(l.since));
      }
    }
  }

  /** Comparing the ratio with a half and a quarter compares whole numbers. */
  lemma RatioMeans(timeouts: nat, ratio: real)
    requires ratio == timeouts as real / WINDOW as real
    ensures ratio > 0.5 <==> 2 * timeouts > WINDOW
    ensures ratio < 0.25 <==> 4 * timeouts < WINDOW
  {}

  /** The ring, read from `pos` around, is the window of the history. */
  ghost predicate Holds(ring: seq<Entry>, pos: nat, filled: nat, history: seq<Entry>) {
    && |ring| == WINDOW && pos < WINDOW
    && filled == Min(WINDOW, |history|)
    && if filled < WINDOW then pos == filled && ring[..filled] == history
       else ring[pos..] + ring[..pos] == Window(history)
  }

  /** Writing over the oldest entry and stepping on turns a full ring by one. */
  lemma RingTurns(ring: seq<Entry>, at: nat, e: Entry)
    requires |ring| == WINDOW && at < WINDOW
    ensures var pos := (at + 1) % WINDOW;
      ring[at := e][pos..] + ring[at := e][..pos] == (ring[at..] + ring[..at])[1..] + [e]
  {
    var after := ring[at := e];
    if at + 1 < WINDOW {
      assert after[at + 1..] == ring[at + 1..] && after[..at + 1] == ring[..at] + [e];
    } else {
      assert after == ring[..at] + [e];
    }
  }

  lemma WindowSlides(history: seq<Entry>, e: Entry)
    requires |history| >= WINDOW
    ensures Window(history + [e]) == Window(history)[1..] + [e]
  {}

  lemma RingFills(ring: seq<Entry>, at: nat, history: seq<Entry>, e: Entry)
    requires |ring| == WINDOW && at < WINDOW && ring[..at] == history
    ensures at + 1 < WINDOW ==> ring[at := e][..at + 1] == history + [e]
    ensures at + 1 == WINDOW ==> ring[at := e] == history + [e]
  {}

  lemma StoreKeepsRing(ring: seq<Entry>, at: nat, filled: nat, history: seq<Entry>, e: Entry)
    requires Holds(ring, at, filled, history)
    ensures Holds(ring[at := e], (at + 1) % WINDOW, if filled < WINDOW then filled + 1 else filled, history + [e])
  {
    if filled < WINDOW {
      RingFills(ring, at, history, e);
      assert at + 1 == WINDOW ==> ring[at := e][0..] + ring[at := e][..0] == history + [e];
    } else {
      WindowSlides(history, e);
      hide Window;
      RingTurns(ring, at, e);
    }
  }

  lemma RingBounds(ring: seq<Entry>, pos: nat, filled: nat, history: seq<Entry>)
    requires Holds(ring, pos, filled, history)
    ensures |ring| == WINDOW && pos < WINDOW
  {}

  // ----- the breaker itself -----

  class Breaker {
    const ring: array<Entry>
    var filled: nat
    var pos: nat
    const original: nat
    var cap: nat
    var halvings: nat
    ghost var history: seq<Entry>

    ghost predicate RingHolds()
      reads this, ring
    {
      Holds(ring[..], pos, filled, history)
    }

    ghost predicate Valid()
      reads this, ring
    {
      && original >= 1 && RingHolds()
      && cap == LevelAfter(original, history).cap && halvings == LevelAfter(original, history).halvings
    }

    constructor (baseline: int)
      ensures Valid() && fresh(ring) && history == [] && original == Max(baseline, 1)
    {
      original := if baseline < 1 then 1 else baseline;
      ring := new Entry[WINDOW](_ => Entry(false, false));
      filled, pos, cap, halvings := 0, 0, if baseline < 1 then 1 else baseline, 0;
      history := [];
    }

    /** Writes the outcome over the oldest one. */
    method StoreEntry(e: Entry)
      requires RingHolds()
      modifies this`filled, this`pos, this`history, ring
      ensures RingHolds() && history == old(history) + [e]
    {
      hide Holds;
      StoreKeepsRing(ring[..], pos, filled, history, e);
      ghost var before := ring[..];
      assert |before| == WINDOW && pos < WINDOW by { RingBounds(before, pos, filled, history); }
      ring[pos] := e;
      assert ring[..] == before[pos := e];
      pos := (pos + 1) % WINDOW;
      if filled < WINDOW {
        filled := filled + 1;
      }
      history := history + [e];
    }

    /** The ring's entries that timed out: those of the last fifty outcomes. */
    method CountTimeouts() returns (timeouts: nat)
      requires RingHolds() && filled == WINDOW
      ensures timeouts == Timeouts(Window(history))
      ensures |history| >= 50
      ensures var last := history[|history| - 50..]; timeouts == |set i: nat | i < 50 && last[i].timedOut|
    {
      timeouts := 0;
      for i := 0 to filled
        invariant timeouts == Timeouts(ring[..i])
      {
        assert ring[..i + 1][..i] == ring[..i];
        if ring[i].timedOut {
          timeouts := timeouts + 1;
        }
      }
      WindowCounts(history);
      TimeoutsConcat(ring[..][pos..], ring[..][..pos]);
      TimeoutsConcat(ring[..][..pos], ring[..][pos..]);
      assert ring[..filled] == ring[..][..pos] + ring[..][pos..];
    }

    /** Takes one outcome into account and reports what became of the cap. */
    method RecordResult(success: bool, timedOut: bool) returns (event: Event, oldCap: nat, newCap: nat, ratio: real)
      requires Valid()
      modifies this, ring
      ensures Valid() && history == old(history) + [Entry(success, timedOut)]
      ensures newCap == cap && oldCap == old(cap)
      ensures event.Halved? <==> newCap < oldCap
      ensures event.Restored? <==> newCap > oldCap
      ensures |history| < 50 ==> ratio == 0.0 && event.Unchanged?
      ensures |history| >= 50 ==>
        var last := history[|history| - 50..];
        var recent := set i: nat | i < 50 && last[i].timedOut;
          && ratio == |recent| as real / 50.0
          && (event.Halved? <==> |recent| > 25 && oldCap > 5)
          && (event.Restored? <==> |recent| <= 12 && oldCap < original)
      ensures newCap == if event.Halved? then if oldCap / 2 < 5 then 5 else oldCap / 2
                        else if event.Restored? then original else oldCap
    {
      hide LevelAfter, HalvedTo, Pow2, Timeouts;
      LevelStep(original, history, Entry(success, timedOut));
      StoreEntry(Entry(success, timedOut));
      if filled < WINDOW {
        FewAreNoTurn(history);
        return Unchanged, cap, cap, 0.0;
      }
      TurnMeans(history);
      var timeouts := CountTimeouts();
      ratio := timeouts as real / filled as real;
      RatioMeans(timeouts, ratio);
      FewHalvings(original, old(history));
      event, oldCap, newCap := Adjust(ratio);
      hide Heavy, Calm, Window, Holds;
    }

    /** Halves or restores the cap by the ratio of a full window. */
    method Adjust(ratio: real) returns (event: Event, oldCap: nat, newCap: nat)
      requires cap <= original && (Heavy(history) <==> ratio > 0.5) && (Calm(history) <==> ratio < 0.25)
      modifies this`cap, this`halvings
      ensures event == EventFor(original, old(cap), history)
      ensures oldCap == old(cap) && newCap == cap == CapFor(original, old(cap), event)
      ensures halvings == old(halvings) + if event.Halved? then 1 else 0
    {
      hide Heavy, Calm;
      oldCap, newCap, event := cap, cap, Unchanged;
      if ratio > 0.5 && cap > FLOOR {
        newCap := cap / 2;
        if newCap < FLOOR {
          newCap := FLOOR;
        }
        if newCap != cap {
          cap, halvings, event := newCap, halvings + 1, Halved;
        }
      } else if ratio < 0.25 && cap < original {
        newCap := original;
        cap, event := newCap, Restored;
      }
    }
  }
}
