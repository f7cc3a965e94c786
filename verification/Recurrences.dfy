/** Optional values, shared by every component. */
module Options {
  datatype Option<+T> = None | Some(value: T)
}

/** Finite sets. */
module Sets {
  lemma SmallerThan<T>(a: set<T>, b: set<T>)
    requires a <= b
    ensures |a| <= |b|
  {
    assert b == a + (b - a);
  }
}

/**
 A recurrence rule seen from outside the expansion library: a strictly increasing, possibly finite,
 sequence of instants. Instants and durations are integers counting nanoseconds.
 */
module Recurrences {
  import opened Options

  const SECOND: int := 1_000_000_000

  datatype RawRule = RawRule(at: nat -> int, count: Option<nat>) {
    predicate Has(n: nat) {
      count.None? || n < count.value
    }

    ghost predicate Increasing() {
      forall m: nat, n: nat :: m < n && Has(n) ==> at(m) < at(n)
    }
  }

  type Rule = r: RawRule | r.Increasing() witness RawRule((n: nat) => n as int, None)

  /** `x` is one of the rule's occurrences. */
  ghost predicate Occurs(r: Rule, x: int) {
    exists n: nat :: r.Has(n) && r.at(n) == x
  }

  /** The index, from `n` on, of the first occurrence at or after `t`. */
  function Seek(r: Rule, t: int, n: nat): (m: nat)
    ensures n <= m
    ensures forall k: nat :: n <= k < m ==> r.Has(k) && r.at(k) < t
    ensures r.Has(m) ==> t <= r.at(m)
    decreases if r.Has(n) && r.at(n) < t then t - r.at(n) else 0
  {
    if r.Has(n) && r.at(n) < t then Seek(r, t, n + 1) else n
  }

  /** The earliest occurrence strictly after `t`. */
  function After(r: Rule, t: int): (next: Option<int>)
    ensures next.Some? ==> t < next.value && Occurs(r, next.value)
    ensures next.Some? ==> forall x :: Occurs(r, x) && t < x ==> next.value <= x
    ensures next.None? ==> forall x :: Occurs(r, x) ==> x <= t
  {
    var m := Seek(r, t + 1, 0);
    if r.Has(m) then Some(r.at(m)) else None
  }

  /** Every occurrence in the closed range `[lo, hi]`, in order. */
  function Between(r: Rule, lo: int, hi: int): (xs: seq<int>)
    ensures forall x :: x in xs <==> Occurs(r, x) && lo <= x <= hi
    ensures forall i, j :: 0 <= i < j < |xs| ==> xs[i] < xs[j]
  {
    Collect(r, hi, Seek(r, lo, 0))
  }

  /** Occurrences from index `n` on, up to `hi`. */
  function Collect(r: Rule, hi: int, n: nat): (xs: seq<int>)
    ensures forall x :: x in xs <==> exists k: nat :: n <= k && r.Has(k) && r.at(k) == x && x <= hi
    ensures forall i, j :: 0 <= i < j < |xs| ==> xs[i] < xs[j]
    decreases if r.Has(n) && r.at(n) <= hi then hi - r.at(n) + 1 else 0
  {
    if r.Has(n) && r.at(n) <= hi then
      var rest := Collect(r, hi, n + 1);
      assert forall j :: 0 <= j < |rest| ==> r.at(n) < rest[j] by {
        forall j | 0 <= j < |rest| ensures r.at(n) < rest[j] {
          assert rest[j] in rest;
          var k: nat :| n + 1 <= k && r.Has(k) && r.at(k) == rest[j];
          assert n < k;
        }
      }
      [r.at(n)] + rest
    else []
  }
}
