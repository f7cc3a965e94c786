/** The next fire time of a schedule: the first occurrence after now, pushed past blackouts. */
module RRuleExpanders {
  import opened Options
  import opened Recurrences
  import opened Blackouts

  const MAX_SKIPS: nat := 100

  /** `Unresolvable` stands for every error raised before the rule is built. */
  datatype NextRun = RunAt(time: int) | Never | Saturated | Unresolvable

  /** The jitter added by the `draw`-th use of the random stream: whole seconds in `[0, jitterSeconds]`. */
  function JitterAt(rng: nat -> nat, jitterSeconds: int, draw: nat): (j: int)
    ensures 0 <= j && (jitterSeconds <= 0 ==> j == 0) && (jitterSeconds > 0 ==> j <= jitterSeconds * SECOND)
  {
    if jitterSeconds <= 0 then 0 else (rng(draw) % (jitterSeconds + 1)) * SECOND
  }

  function DrawsUsed(jitterSeconds: int): nat {
    if jitterSeconds <= 0 then 0 else 1
  }

  /** The fixed inputs of one search; `maxSkips` is the iteration budget. */
  datatype Problem = Problem(rule: Rule, cache: Cache, target: string, rng: nat -> nat, jitterSeconds: int,
                             maxSkips: nat) {
    function Jitter(draw: nat): (j: int)
      ensures 0 <= j && (jitterSeconds <= 0 ==> j == 0) && (jitterSeconds > 0 ==> j <= jitterSeconds * SECOND)
    {
      JitterAt(rng, jitterSeconds, draw)
    }

    /** `x` is an occurrence after `now`, delayed by at most the configured jitter. */
    ghost predicate Jittered(now: int, x: int) {
      exists o :: Occurs(rule, o) && now < o <= x && (o == x || x <= o + jitterSeconds * SECOND)
    }
  }

  /** A finished search: its answer, the draws consumed, the rejected candidates and the window ends jumped to. */
  datatype Search = Search(answer: NextRun, draw: nat, rejected: seq<int>, ends: seq<int>)

  /** The skip loop from `candidate` with `fuel` iterations left. */
  function Skip(p: Problem, candidate: int, fuel: nat, draw: nat): Search
    decreases fuel
  {
    if fuel == 0 then Search(Saturated, draw, [], [])
    else if !Active(p.cache, p.target, candidate) then Search(RunAt(candidate), draw, [], [])
    else
      match NextWindowEnd(p.cache, p.target, candidate)
      case None =>
        var rest := Skip(p, candidate + SECOND, fuel - 1, draw);
        rest.(rejected := [candidate] + rest.rejected)
      case Some(end) =>
        match After(p.rule, end)
        case None => Search(Never, draw, [candidate], [end])
        case Some(next) =>
          var rest := Skip(p, next + p.Jitter(draw), fuel - 1, draw + DrawsUsed(p.jitterSeconds));
          rest.(rejected := [candidate] + rest.rejected, ends := [end] + rest.ends)
  }

  function SearchFrom(p: Problem, now: int, draw: nat): Search {
    match After(p.rule, now)
    case None => Search(Never, draw, [], [])
    case Some(first) => Skip(p, first + p.Jitter(draw), p.maxSkips, draw + DrawsUsed(p.jitterSeconds))
  }

  class RRuleExpander {
    const rng: nat -> nat
    const jitterSeconds: int
    var drawn: nat

    constructor (rng: nat -> nat, jitterSeconds: int)
      ensures this.rng == rng && this.jitterSeconds == jitterSeconds && drawn == 0
    {
      this.rng, this.jitterSeconds, drawn := rng, jitterSeconds, 0;
    }

    method NextJitter() returns (j: int)
      modifies this
      ensures j == JitterAt(rng, jitterSeconds, old(drawn)) && drawn == old(drawn) + DrawsUsed(jitterSeconds)
      ensures jitterSeconds <= 0 ==> j == 0 && drawn == old(drawn)
      ensures jitterSeconds > 0 ==>
                j == (rng(old(drawn)) % (jitterSeconds + 1)) * 1_000_000_000 && drawn == old(drawn) + 1
    {
      if jitterSeconds <= 0 {
        return 0;
      }
      j := (rng(drawn) % (jitterSeconds + 1)) * SECOND;
      drawn := drawn + 1;
    }

    /**
     `rule` is None when the configuration, timezone or rule text does not resolve, and `blackouts`
     is None when the expander was built without an evaluator.
     */
    method ComputeNextRunAt(rule: Option<Rule>, blackouts: Option<Cache>, target: string, now: int)
      returns (r: NextRun)
      modifies this
      ensures rule.None? ==> r == Unresolvable
      ensures rule.Some? && blackouts.Some? ==>
                var s := SearchFrom(Problem(rule.value, blackouts.value, target, rng, jitterSeconds, MAX_SKIPS),
                                    now, old(drawn));
                r == s.answer && drawn == s.draw
      ensures rule.Some? ==>
                Answered(Problem(rule.value, Known(blackouts), target, rng, jitterSeconds, 100), now, old(drawn), r)
      ensures rule.Some? && blackouts.None? ==> (r == Never <==> forall o :: Occurs(rule.value, o) ==> o <= now)
      ensures rule.Some? && blackouts.None? && r != Never ==>
                var p := Problem(rule.value, EMPTY_CACHE, target, rng, jitterSeconds, 100);
                r.RunAt? && p.Jittered(now, r.time) && r.time == After(rule.value, now).value + p.Jitter(old(drawn))
    {
      hide Active, NextWindowEnd, After, JitterAt, Skip, Answered;
      if rule.None? {
        return Unresolvable;
      }
      AnswerIsTheChains(Problem(rule.value, Known(blackouts), target, rng, jitterSeconds, MAX_SKIPS), now, drawn);
      if blackouts.None? {
        NothingToSkip(Problem(rule.value, EMPTY_CACHE, target, rng, jitterSeconds, MAX_SKIPS), now, drawn);
      }
      var first := After(rule.value, now);
      if first.None? {
        return Never;
      }
      var jitter := NextJitter();
      var candidate := first.value + jitter;
      if blackouts.None? {
        return RunAt(candidate);
      }
      r := SkipBlackouts(rule.value, blackouts.value, target, candidate);
    }

    /** Pushes a candidate past the blackouts, within the budget. */
    method SkipBlackouts(rule: Rule, cache: Cache, target: string, first: int) returns (r: NextRun)
      modifies this
      ensures var s := Skip(Problem(rule, cache, target, rng, jitterSeconds, MAX_SKIPS), first, MAX_SKIPS, old(drawn));
              r == s.answer && drawn == s.draw
    {
      hide Active, NextWindowEnd, After, JitterAt;
      var candidate := first;
      ghost var p := Problem(rule, cache, target, rng, jitterSeconds, MAX_SKIPS);
      ghost var whole := Skip(p, first, MAX_SKIPS, drawn);
      for i := 0 to MAX_SKIPS
        invariant whole.answer == Skip(p, candidate, MAX_SKIPS - i, drawn).answer
        invariant whole.draw == Skip(p, candidate, MAX_SKIPS - i, drawn).draw
      {
        if !Active(cache, target, candidate) {
          return RunAt(candidate);
        }
        var end := NextWindowEnd(cache, target, candidate);
        if end.None? {
          candidate := candidate + SECOND;
          continue;
        }
        var next := After(rule, end.value);
        if next.None? {
          return Never;
        }
        var jitter := NextJitter();
        candidate := next.value + jitter;
      }
      return Saturated;
    }
  }

  /** An expander without an evaluator knows no blackout. */
  function Known(blackouts: Option<Cache>): Cache {
    if blackouts.Some? then blackouts.value else EMPTY_CACHE
  }

  lemma NothingToSkip(p: Problem, now: int, draw: nat)
    requires p.cache == EMPTY_CACHE && p.maxSkips > 0
    ensures SearchFrom(p, now, draw).answer == match After(p.rule, now)
                                               case None => Never
                                               case Some(first) => RunAt(first + p.Jitter(draw))
  {}

  // ----- the answer by the candidates tried -----

  /**
   From the blacked-out candidate `x` the search goes on to `y`: the first occurrence after its window, with jitter.
   */
  predicate Follows(p: Problem, draw: nat, x: int, y: int) {
    && Active(p.cache, p.target, x)
    && NextWindowEnd(p.cache, p.target, x).Some?
    && var next := After(p.rule, NextWindowEnd(p.cache, p.target, x).value);
    next.Some? && y == next.value + p.Jitter(draw)
  }

  /** Candidates each followed by the next; `draw` is the draw that follows the first one's. */
  ghost predicate Chain(p: Problem, draw: nat, xs: seq<int>) {
    xs != [] && forall i :: 0 < i < |xs| ==> Follows(p, draw + i - 1, xs[i - 1], xs[i])
  }

  /** The chain starts with the first occurrence after now. */
  ghost predicate Tried(p: Problem, now: int, draw: nat, xs: seq<int>) {
    && xs != [] && Chain(p, draw + 1, xs)
    && After(p.rule, now).Some? && xs[0] == After(p.rule, now).value + p.Jitter(draw)
  }

  /** The rule has nothing after the window over `x`. */
  predicate LastOne(p: Problem, x: int) {
    && Active(p.cache, p.target, x)
    && (NextWindowEnd(p.cache, p.target, x).None? || After(p.rule, NextWindowEnd(p.cache, p.target, x).value).None?)
  }

  /**
   The answer is the last candidate of a chain within the budget when that one is outside every blackout; it is
   never when the rule ends on such a chain, or before it; and it is saturation when the chain goes on past the
   budget.
   */
  ghost predicate Answered(p: Problem, now: int, draw: nat, answer: NextRun) {
    && (forall t :: answer == RunAt(t) <==>
          exists xs :: Tried(p, now, draw, xs) && |xs| <= p.maxSkips
            && xs[|xs| - 1] == t && !Active(p.cache, p.target, t))
    && (answer == Never <==>
          || After(p.rule, now).None?
          || exists xs :: Tried(p, now, draw, xs) && |xs| <= p.maxSkips && LastOne(p, xs[|xs| - 1]))
    && (answer == Saturated <==> exists xs :: Tried(p, now, draw, xs) && |xs| == p.maxSkips + 1)
  }

  lemma ChainRest(p: Problem, draw: nat, xs: seq<int>)
    requires Chain(p, draw, xs) && |xs| > 1
    ensures Chain(p, draw + DrawsUsed(p.jitterSeconds), xs[1..])
  {
    hide Active, NextWindowEnd, After, JitterAt;
    var ys, next := xs[1..], draw + DrawsUsed(p.jitterSeconds);
    forall i | 0 < i < |ys| ensures Follows(p, next + i - 1, ys[i - 1], ys[i]) {
      assert Follows(p, draw + (i + 1) - 1, xs[i], xs[i + 1]);
      assert p.Jitter(next + i - 1) == p.Jitter(draw + i);
    }
  }

  lemma ChainCons(p: Problem, draw: nat, x: int, ys: seq<int>)
    requires Chain(p, draw + DrawsUsed(p.jitterSeconds), ys) && Follows(p, draw, x, ys[0])
    ensures Chain(p, draw, [x] + ys)
  {
    hide Active, NextWindowEnd, After, JitterAt;
    var xs, next := [x] + ys, draw + DrawsUsed(p.jitterSeconds);
    forall i | 0 < i < |xs| ensures Follows(p, draw + i - 1, xs[i - 1], xs[i]) {
      if i > 1 {
        assert Follows(p, next + (i - 1) - 1, ys[i - 2], ys[i - 1]);
        assert p.Jitter(next + i - 2) == p.Jitter(draw + i - 1);
      }
    }
  }

  /** Where a chain ends decides the search from its first candidate. */
  lemma {:induction false} ChainDecides(p: Problem, xs: seq<int>, fuel: nat, draw: nat)
    requires Chain(p, draw, xs) && |xs| <= fuel + 1
    ensures var answer, last := Skip(p, xs[0], fuel, draw).answer, xs[|xs| - 1];
      && (|xs| == fuel + 1 ==> answer == Saturated)
      && (|xs| <= fuel && !Active(p.cache, p.target, last) ==> answer == RunAt(last))
      && (|xs| <= fuel && LastOne(p, last) ==> answer == Never)
    decreases |xs|
  {
    hide Active, NextWindowEnd, After, JitterAt;
    WindowEndIsReal(p.cache, p.target, xs[0]);
    if |xs| > 1 {
      assert Follows(p, draw + 1 - 1, xs[0], xs[1]);
      ChainRest(p, draw, xs);
      ChainDecides(p, xs[1..], fuel - 1, draw + DrawsUsed(p.jitterSeconds));
    }
  }

  /** Every search runs along some chain to one of the three ends. */
  lemma {:induction false} ChainExists(p: Problem, candidate: int, fuel: nat, draw: nat) returns (xs: seq<int>)
    ensures Chain(p, draw, xs) && xs[0] == candidate && |xs| <= fuel + 1
    ensures |xs| == fuel + 1 || !Active(p.cache, p.target, xs[|xs| - 1]) || LastOne(p, xs[|xs| - 1])
    decreases fuel
  {
    hide Active, NextWindowEnd, After, JitterAt;
    xs := [candidate];
    if fuel > 0 && Active(p.cache, p.target, candidate) && !LastOne(p, candidate) {
      var y := After(p.rule, NextWindowEnd(p.cache, p.target, candidate).value).value + p.Jitter(draw);
      var ys := ChainExists(p, y, fuel - 1, draw + DrawsUsed(p.jitterSeconds));
      ChainCons(p, draw, candidate, ys);
      xs := [candidate] + ys;
    }
  }

  lemma ChainsAgree(p: Problem, draw: nat, xs: seq<int>)
    ensures Chain(p, draw + DrawsUsed(p.jitterSeconds), xs) <==> Chain(p, draw + 1, xs)
  {
    hide Active, NextWindowEnd, After, JitterAt;
    if p.jitterSeconds <= 0 {
      assert forall d, x, y :: Follows(p, d, x, y) <==> Follows(p, draw, x, y);
    }
  }

  lemma ChainIsSome(p: Problem, draw: nat, xs: seq<int>)
    requires Chain(p, draw, xs)
    ensures xs != []
  {}

  lemma AnswerIsTheChains(p: Problem, now: int, draw: nat)
    requires p.maxSkips > 0
    ensures Answered(p, now, draw, SearchFrom(p, now, draw).answer)
  {
    hide Active, NextWindowEnd, After, JitterAt, Skip, Chain, LastOne;
    var answer := SearchFrom(p, now, draw).answer;
    if After(p.rule, now).Some? {
      var first, more := After(p.rule, now).value + p.Jitter(draw), draw + DrawsUsed(p.jitterSeconds);
      forall xs | Tried(p, now, draw, xs) && |xs| <= p.maxSkips + 1
        ensures |xs| == p.maxSkips + 1 ==> answer == Saturated
        ensures |xs| <= p.maxSkips && !Active(p.cache, p.target, xs[|xs| - 1]) ==> answer == RunAt(xs[|xs| - 1])
        ensures |xs| <= p.maxSkips && LastOne(p, xs[|xs| - 1]) ==> answer == Never
      {
        ChainsAgree(p, draw, xs);
        ChainDecides(p, xs, p.maxSkips, more);
      }
      var xs := ChainExists(p, first, p.maxSkips, more);
      ChainsAgree(p, draw, xs);
      ChainIsSome(p, more, xs);
      assert Tried(p, now, draw, xs);
    }
  }

  /** An answer is after now, outside every blackout, and at most the jitter past an occurrence after now. */
  lemma {:induction false} AnswerIsOpen(p: Problem, now: int, candidate: int, fuel: nat, draw: nat)
    requires p.Jittered(now, candidate)
    ensures var s := Skip(p, candidate, fuel, draw);
            s.answer.RunAt? ==> now < s.answer.time && !Active(p.cache, p.target, s.answer.time)
                                && p.Jittered(now, s.answer.time)
    decreases fuel
  {
    hide Active, NextWindowEnd, After, JitterAt;
    if fuel > 0 && Active(p.cache, p.target, candidate) {
      WindowEndIsReal(p.cache, p.target, candidate);
      var end := NextWindowEnd(p.cache, p.target, candidate).value;
      var next := After(p.rule, end);
      if next.Some? {
        assert p.Jittered(now, next.value + p.Jitter(draw));
        AnswerIsOpen(p, now, next.value + p.Jitter(draw), fuel - 1, draw + DrawsUsed(p.jitterSeconds));
      }
    }
  }

  lemma ComputedAnswerIsOpen(p: Problem, now: int, draw: nat)
    ensures var s := SearchFrom(p, now, draw);
            s.answer.RunAt? ==> now < s.answer.time && !Active(p.cache, p.target, s.answer.time)
                                && p.Jittered(now, s.answer.time)
  {
    hide Active, NextWindowEnd, After, JitterAt, Skip;
    var first := After(p.rule, now);
    if first.Some? {
      assert p.Jittered(now, first.value + p.Jitter(draw));
      AnswerIsOpen(p, now, first.value + p.Jitter(draw), p.maxSkips, draw + DrawsUsed(p.jitterSeconds));
    }
  }

  ghost predicate Ascending(xs: seq<int>) {
    forall i, j :: 0 <= i < j < |xs| ==> xs[i] < xs[j]
  }

  /**
   Rejected candidates strictly increase and are all blacked out; each came with a window end later
   than itself, so the one-second nudge is never taken; running out means every iteration was used.
   */
  lemma {:induction false} RejectionsAscend(p: Problem, candidate: int, fuel: nat, draw: nat)
    ensures var s := Skip(p, candidate, fuel, draw);
            Ascending(s.rejected) && |s.ends| == |s.rejected| <= fuel
            && (forall i :: 0 <= i < |s.rejected| ==> candidate <= s.rejected[i] < s.ends[i])
            && (forall i :: 0 <= i < |s.rejected| ==> Active(p.cache, p.target, s.rejected[i]))
            && !s.answer.Unresolvable? && (s.answer.RunAt? ==> candidate <= s.answer.time)
            && (s.answer.RunAt? ==> forall i :: 0 <= i < |s.ends| ==> s.ends[i] < s.answer.time)
            && (s.answer.Saturated? <==> |s.rejected| == fuel && !s.answer.Never?)
    decreases fuel
  {
    hide Active, NextWindowEnd, After, JitterAt;
    if fuel > 0 && Active(p.cache, p.target, candidate) {
      WindowEndIsReal(p.cache, p.target, candidate);
      var end := NextWindowEnd(p.cache, p.target, candidate).value;
      var next := After(p.rule, end);
      if next.Some? {
        RejectionsAscend(p, next.value + p.Jitter(draw), fuel - 1, draw + DrawsUsed(p.jitterSeconds));
      }
    }
  }

  /** Saturation is reported only after a full budget of distinct, increasing, blacked-out candidates. */
  lemma SaturationIsEarned(p: Problem, now: int, draw: nat)
    requires SearchFrom(p, now, draw).answer.Saturated?
    ensures var s := SearchFrom(p, now, draw);
            |s.rejected| == p.maxSkips && Ascending(s.rejected)
            && forall i :: 0 <= i < p.maxSkips ==> now < s.rejected[i] && Active(p.cache, p.target, s.rejected[i])
  {
    hide Active, NextWindowEnd, After, JitterAt, Skip;
    var first := After(p.rule, now).value + p.Jitter(draw);
    RejectionsAscend(p, first, p.maxSkips, draw + DrawsUsed(p.jitterSeconds));
  }

  // ----- without jitter: what is passed over -----

  /** Whether the search's answer is an instant or a refusal beyond `x`. */
  ghost predicate Passes(s: Search, x: int) {
    s.answer.Never? || (s.answer.RunAt? && x < s.answer.time)
  }

  /** Every occurrence passed over without jitter is inside a blackout, or is exactly a window end jumped to. */
  lemma {:induction false} PassedOver(p: Problem, candidate: int, fuel: nat, draw: nat, x: int)
    requires p.jitterSeconds <= 0 && Occurs(p.rule, candidate)
    requires Occurs(p.rule, x) && candidate <= x && Passes(Skip(p, candidate, fuel, draw), x)
    ensures BlackedOut(p.cache, p.target, x) || x in Skip(p, candidate, fuel, draw).ends
    decreases fuel
  {
    hide Active, NextWindowEnd, After, JitterAt;
    WindowEndIsReal(p.cache, p.target, candidate);
    var end := NextWindowEnd(p.cache, p.target, candidate).value;
    var next := After(p.rule, end);
    if x < end {
      BlackedOutUntilEnd(p.cache, p.target, candidate, end, x);
    } else if x > end {
      PassedOver(p, next.value, fuel - 1, draw, x);
    }
  }

  lemma BlackedOutUntilEnd(cache: Cache, target: string, at: int, end: int, x: int)
    requires EndsCover(cache, target, at, end) && at <= x < end
    ensures BlackedOut(cache, target, x)
  {
    var ws := cache.Applying(target);
    var i :| 0 <= i < |ws| && Occurs(ws[i].rule, end - ws[i].Dur()) && end - ws[i].Dur() <= at < end;
    assert Covers(ws[i], x);
  }

  ghost predicate Open(p: Problem, now: int, x: int) {
    Occurs(p.rule, x) && now < x && !BlackedOut(p.cache, p.target, x)
  }

  /** The answer a reader expects: the earliest open occurrence, or none when there is none. */
  ghost predicate Exact(p: Problem, now: int, answer: NextRun) {
    match answer
    case RunAt(t) => Open(p, now, t) && forall x :: Open(p, now, x) ==> t <= x
    case Never => forall x :: !Open(p, now, x)
    case _ => false
  }

  /**
   Without jitter and with durations under the cap, an answer is the earliest open occurrence exactly
   when no window end the search jumps to is itself an open occurrence: the jump starts strictly
   after the end, although a window no longer covers its own end.
   */
  lemma ExactUnlessAnEndIsOpen(p: Problem, now: int, draw: nat)
    requires p.jitterSeconds <= 0 && Capped(p.cache, p.target)
    requires !SearchFrom(p, now, draw).answer.Saturated?
    ensures Exact(p, now, SearchFrom(p, now, draw).answer)
            <==> forall i :: 0 <= i < |SearchFrom(p, now, draw).ends| ==>
                !Open(p, now, SearchFrom(p, now, draw).ends[i])
  {
    hide Active, NextWindowEnd, After, JitterAt, Skip;
    var s := SearchFrom(p, now, draw);
    var first := After(p.rule, now);
    if first.Some? {
      assert Skip(p, first.value, p.maxSkips, draw) == s;
      RejectionsAscend(p, first.value, p.maxSkips, draw);
      ComputedAnswerIsOpen(p, now, draw);
      forall x | Open(p, now, x) && Passes(s, x) ensures exists i :: 0 <= i < |s.ends| && s.ends[i] == x {
        PassedOver(p, first.value, p.maxSkips, draw, x);
      }
      if s.answer.RunAt? {
        ActiveIsBlackedOut(p.cache, p.target, s.answer.time);
        assert Open(p, now, s.answer.time);
        assert forall x :: Open(p, now, x) && x < s.answer.time ==> Passes(s, x);
      } else {
        assert forall x :: Open(p, now, x) ==> Passes(s, x);
      }
    }
  }

  /** An occurrence that is blacked out, by a window whose end is an occurrence that is not. */
  ghost predicate FreeEnd(p: Problem, o: int) {
    && Occurs(p.rule, o)
    && NextWindowEnd(p.cache, p.target, o).Some?
    && Occurs(p.rule, NextWindowEnd(p.cache, p.target, o).value)
    && !BlackedOut(p.cache, p.target, NextWindowEnd(p.cache, p.target, o).value)
  }

  /** Without jitter the rejected candidates are occurrences, and each is followed by its own window's end. */
  lemma {:induction false} JumpsFromOccurrences(p: Problem, candidate: int, fuel: nat, draw: nat)
    requires p.jitterSeconds <= 0 && Occurs(p.rule, candidate)
    ensures var s := Skip(p, candidate, fuel, draw);
            |s.ends| == |s.rejected|
            && forall i :: 0 <= i < |s.ends| ==>
                 Occurs(p.rule, s.rejected[i]) && NextWindowEnd(p.cache, p.target, s.rejected[i]) == Some(s.ends[i])
    decreases fuel
  {
    hide Active, NextWindowEnd, After, JitterAt;
    if fuel > 0 && Active(p.cache, p.target, candidate) {
      WindowEndIsReal(p.cache, p.target, candidate);
      var next := After(p.rule, NextWindowEnd(p.cache, p.target, candidate).value);
      if next.Some? {
        JumpsFromOccurrences(p, next.value + p.Jitter(draw), fuel - 1, draw + DrawsUsed(p.jitterSeconds));
      }
    }
  }

  /** Starting just before a blacked-out occurrence, the search first jumps to the end of its window. */
  lemma FirstJump(p: Problem, o: int, draw: nat)
    requires p.jitterSeconds <= 0 && p.maxSkips > 0 && Occurs(p.rule, o) && NextWindowEnd(p.cache, p.target, o).Some?
    ensures var s := SearchFrom(p, o - 1, draw); s.ends != [] && s.ends[0] == NextWindowEnd(p.cache, p.target, o).value
  {
    hide Active, NextWindowEnd, JitterAt;
    WindowEndIsReal(p.cache, p.target, o);
    assert After(p.rule, o - 1) == Some(o);
    assert p.Jitter(draw) == 0;
  }

  /** The occurrence the search goes on to from a blacked-out one: the first after the end of its window. */
  function NextStart(p: Problem, x: int): Option<int> {
    match NextWindowEnd(p.cache, p.target, x)
    case None => None
    case Some(end) => After(p.rule, end)
  }

  /** Blacked-out occurrences, each the first after the previous one's window, and the last not the rule's last. */
  ghost predicate Linked(p: Problem, xs: seq<int>) {
    && (forall i :: 0 <= i < |xs| ==> Occurs(p.rule, xs[i]) && NextStart(p, xs[i]).Some?)
    && (forall i :: 0 < i < |xs| ==> NextStart(p, xs[i - 1]) == Some(xs[i]))
  }

  ghost predicate LinkedFrom(p: Problem, candidate: int, xs: seq<int>, fuel: nat) {
    |xs| == fuel && Linked(p, xs) && (fuel > 0 ==> xs[0] == candidate)
  }

  lemma LinkMore(p: Problem, candidate: int, next: int, xs: seq<int>, fuel: nat)
    requires Occurs(p.rule, candidate) && NextStart(p, candidate) == Some(next) && LinkedFrom(p, next, xs, fuel)
    ensures LinkedFrom(p, candidate, [candidate] + xs, fuel + 1)
  {
    hide NextStart;
    var ys := [candidate] + xs;
    assert forall i :: 0 < i < |ys| ==> ys[i] == xs[i - 1];
  }

  lemma LinkLess(p: Problem, candidate: int, next: int, xs: seq<int>, fuel: nat)
    requires fuel > 0 && LinkedFrom(p, candidate, xs, fuel) && NextStart(p, candidate) == Some(next)
    ensures |xs| == fuel && LinkedFrom(p, next, xs[1..], fuel - 1)
  {
    hide NextStart;
    var ys := xs[1..];
    assert forall i :: 0 <= i < |ys| ==> ys[i] == xs[i + 1];
  }

  /** Without jitter the search saturates exactly on as many linked occurrences as it has iterations. */
  lemma {:induction false} SaturatedMeansLinked(p: Problem, candidate: int, fuel: nat, draw: nat)
    requires p.jitterSeconds <= 0 && Occurs(p.rule, candidate)
    ensures Skip(p, candidate, fuel, draw).answer.Saturated? <==> exists xs :: LinkedFrom(p, candidate, xs, fuel)
    decreases fuel
  {
    hide Active, NextWindowEnd, After, JitterAt, LinkedFrom;
    if fuel == 0 {
      NoLinks(p, candidate);
    } else {
      WindowEndIsReal(p.cache, p.target, candidate);
      if NextStart(p, candidate).None? {
        LinksHaveNext(p, candidate, fuel);
      } else {
        var next := NextStart(p, candidate).value;
        var more := draw + DrawsUsed(p.jitterSeconds);
        var left: nat := fuel - 1;
        SaturatedMeansLinked(p, next, left, more);
        assert Skip(p, candidate, fuel, draw).answer == Skip(p, next, left, more).answer;
        if xs :| LinkedFrom(p, next, xs, left) {
          LinkMore(p, candidate, next, xs, left);
          assert LinkedFrom(p, candidate, [candidate] + xs, fuel);
        }
        if xs :| LinkedFrom(p, candidate, xs, fuel) {
          LinkLess(p, candidate, next, xs, fuel);
          assert LinkedFrom(p, next, xs[1..], left);
        }
      }
    }
  }

  lemma NoLinks(p: Problem, candidate: int)
    ensures LinkedFrom(p, candidate, [], 0)
  {}

  lemma LinksHaveNext(p: Problem, candidate: int, fuel: nat)
    requires fuel > 0 && NextStart(p, candidate).None?
    ensures forall xs :: !LinkedFrom(p, candidate, xs, fuel)
  {
    hide NextStart;
  }

  lemma NeverSaturatesMeans(p: Problem, draw: nat)
    requires p.jitterSeconds <= 0 && p.maxSkips > 0
    ensures (forall now :: !SearchFrom(p, now, draw).answer.Saturated?)
            <==> forall xs :: |xs| == p.maxSkips ==> !Linked(p, xs)
  {
    hide Active, NextWindowEnd, JitterAt, Skip, Linked;
    var more := draw + DrawsUsed(p.jitterSeconds);
    if now :| SearchFrom(p, now, draw).answer.Saturated? {
      var first := After(p.rule, now).value;
      SaturatedMeansLinked(p, first, p.maxSkips, more);
      var xs :| LinkedFrom(p, first, xs, p.maxSkips);
      assert Linked(p, xs);
    }
    if xs :| |xs| == p.maxSkips && Linked(p, xs) {
      assert Occurs(p.rule, xs[0]) by { LinkedOccur(p, xs); }
      assert After(p.rule, xs[0] - 1) == Some(xs[0]);
      assert LinkedFrom(p, xs[0], xs, p.maxSkips);
      SaturatedMeansLinked(p, xs[0], p.maxSkips, more);
      assert SearchFrom(p, xs[0] - 1, draw).answer.Saturated?;
    }
  }

  lemma LinkedOccur(p: Problem, xs: seq<int>)
    requires Linked(p, xs)
    ensures forall i :: 0 <= i < |xs| ==> Occurs(p.rule, xs[i])
  {}

  /**
   Without jitter and with durations under the cap, the search is right from every starting instant exactly when
   the rule and the windows have neither of two shapes: as many blacked-out occurrences in a row, each the first
   after the previous one's window, as the search has iterations; or a blacked-out occurrence whose window ends on
   a free one.
   */
  lemma ExactForEveryStart(p: Problem, draw: nat)
    requires p.jitterSeconds <= 0 && p.maxSkips > 0 && Capped(p.cache, p.target)
    ensures (forall now :: Exact(p, now, SearchFrom(p, now, draw).answer))
            <==> (forall xs :: |xs| == p.maxSkips ==> !Linked(p, xs)) && forall o :: !FreeEnd(p, o)
  {
    hide Active, NextWindowEnd, After, JitterAt, Skip, SearchFrom, Capped, BlackedOut, Linked;
    NeverSaturatesMeans(p, draw);
    if (forall now :: !SearchFrom(p, now, draw).answer.Saturated?) && forall o :: !FreeEnd(p, o) {
      forall now ensures Exact(p, now, SearchFrom(p, now, draw).answer) {
        NoFreeJump(p, now, draw);
        ExactUnlessAnEndIsOpen(p, now, draw);
      }
    }
    if forall now :: Exact(p, now, SearchFrom(p, now, draw).answer) {
      forall now ensures !SearchFrom(p, now, draw).answer.Saturated? {
        assert Exact(p, now, SearchFrom(p, now, draw).answer);
      }
      forall o ensures !FreeEnd(p, o) {
        assert Exact(p, o - 1, SearchFrom(p, o - 1, draw).answer);
        ExactUnlessAnEndIsOpen(p, o - 1, draw);
        FreeEndIsMissed(p, o, draw);
      }
    }
  }

  lemma NoFreeJump(p: Problem, now: int, draw: nat)
    requires p.jitterSeconds <= 0 && forall o :: !FreeEnd(p, o)
    ensures forall i :: 0 <= i < |SearchFrom(p, now, draw).ends| ==> !Open(p, now, SearchFrom(p, now, draw).ends[i])
  {
    hide Active, NextWindowEnd, After, JitterAt, Skip;
    var first := After(p.rule, now);
    if first.Some? {
      JumpsFromOccurrences(p, first.value, p.maxSkips, draw);
      var s := SearchFrom(p, now, draw);
      forall i | 0 <= i < |s.ends| ensures !Open(p, now, s.ends[i]) {
        assert !FreeEnd(p, s.rejected[i]);
      }
    }
  }

  lemma FreeEndIsMissed(p: Problem, o: int, draw: nat)
    requires p.jitterSeconds <= 0 && p.maxSkips > 0
    ensures FreeEnd(p, o) ==>
              SearchFrom(p, o - 1, draw).ends != [] && Open(p, o - 1, SearchFrom(p, o - 1, draw).ends[0])
  {
    hide Active, NextWindowEnd, After, JitterAt, Skip, SearchFrom, BlackedOut;
    if FreeEnd(p, o) {
      FirstJump(p, o, draw);
      WindowEndIsReal(p.cache, p.target, o);
    }
  }

  const HOUR: int := 3600 * SECOND

  /** Occurrences every hour from 0; `count` of them, or without end. */
  function Hourly(count: Option<nat>): Rule {
    RawRule((n: nat) => n * 3600 * SECOND, count)
  }

  /** A schedule firing every hour, against one blackout of an hour from 0. */
  function EndExample(budget: nat): Problem {
    Problem(Hourly(None), Cache([Window("w", Hourly(Some(1)), 3600)], map[]), "t", (n: nat) => 0, 0, budget)
  }

  lemma ExampleBlackout(p: Problem, budget: nat, x: int)
    requires p == EndExample(budget)
    ensures Capped(p.cache, p.target)
    ensures BlackedOut(p.cache, p.target, x) <==> 0 <= x < HOUR
    ensures Active(p.cache, p.target, x) <==> 0 <= x < HOUR
  {
    hide Active;
    var w := Window("w", Hourly(Some(1)), 3600);
    assert p.cache.Applying(p.target) == [w] && [w][0] == w;
    assert w.rule.Has(0) && w.rule.at(0) == 0;
    assert Covers(w, x) <==> 0 <= x < HOUR by {
      assert Occurs(w.rule, 0);
    }
    ActiveIsBlackedOut(p.cache, p.target, x);
  }

  /** In that example the free occurrence at one o'clock is passed over and the answer is two o'clock. */
  lemma AnEndCanBeOpen(budget: nat)
    requires budget >= 2
    ensures Open(EndExample(budget), -1, HOUR)
    ensures SearchFrom(EndExample(budget), -1, 0).answer == RunAt(2 * HOUR)
  {
    hide Active, NextWindowEnd, After, JitterAt, EndsCover;
    var p := EndExample(budget);
    assert p.rule.at(0) == 0 && p.rule.at(1) == HOUR && p.rule.at(2) == 2 * HOUR;
    assert p.rule.Has(0) && p.rule.Has(1) && p.rule.Has(2);
    assert Occurs(p.rule, 0) && Occurs(p.rule, HOUR) && Occurs(p.rule, 2 * HOUR);
    ExampleBlackout(p, budget, 0);
    ExampleBlackout(p, budget, HOUR);
    ExampleBlackout(p, budget, 2 * HOUR);
    ExampleEnd(p, budget);
    assert After(p.rule, -1) == Some(0);
    assert After(p.rule, HOUR) == Some(2 * HOUR);
    assert Skip(p, 2 * HOUR, budget - 1, 0).answer == RunAt(2 * HOUR);
    assert Skip(p, 0, budget, 0).answer == RunAt(2 * HOUR);
  }

  lemma ExampleEnd(p: Problem, budget: nat)
    requires p == EndExample(budget)
    ensures NextWindowEnd(p.cache, p.target, 0) == Some(HOUR)
  {
    hide Active, NextWindowEnd;
    var w := Window("w", Hourly(Some(1)), 3600);
    assert p.cache.Applying(p.target) == [w];
    ExampleBlackout(p, budget, 0);
    WindowEndIsReal(p.cache, p.target, 0);
  }
}
