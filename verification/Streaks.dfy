// The activity streaks of a Legacy (backend/app/services/progression.py, streak_summary). Dates are day numbers.
module Streaks {
  import opened Wrappers

  /** n consecutive days up to day last, all in the set. */
  predicate Streak(dates: set<int>, last: int, n: nat) {
    forall d :: last - n < d <= last ==> d in dates
  }

  /** The streak of n days that ends on day last cannot be extended backwards. */
  predicate Ending(dates: set<int>, last: int, n: nat) {
    Streak(dates, last, n) && last - n !in dates
  }

  /** n is the size of the largest block of consecutive days. */
  ghost predicate Longest(dates: set<int>, n: nat) {
    (exists last :: Streak(dates, last, n)) && forall last, m: nat :: Streak(dates, last, m) ==> m <= n
  }

  /** The day the current streak ends on. */
  function Anchor(dates: set<int>, today: int): int {
    if today !in dates && today - 1 in dates then today - 1 else today
  }

  /** The current streak is the maximal block that ends today, or yesterday when today is still open. */
  predicate Current(dates: set<int>, today: int, n: nat) {
    Ending(dates, Anchor(dates, today), n)
  }

  lemma EndingIsLargest(dates: set<int>, last: int, n: nat, m: nat)
    requires Ending(dates, last, n) && Streak(dates, last, m)
    ensures m <= n
  {
    assert m > n ==> last - n in dates;
  }

  /** Both streaks are determined by the dates. */
  lemma StreaksAreUnique(dates: set<int>, today: int, a: nat, b: nat, m: nat, n: nat)
    requires Current(dates, today, a) && Current(dates, today, b) && Longest(dates, m) && Longest(dates, n)
    ensures a == b && m == n
  {
    EndingIsLargest(dates, Anchor(dates, today), a, b);
    EndingIsLargest(dates, Anchor(dates, today), b, a);
    var x :| Streak(dates, x, m);
    var y :| Streak(dates, y, n);
  }

  lemma CurrentWithinLongest(dates: set<int>, today: int, current: nat, longest: nat)
    requires Current(dates, today, current) && Longest(dates, longest)
    ensures current <= longest && (current == 0 <==> today !in dates && today - 1 !in dates)
  {
    assert Streak(dates, Anchor(dates, today), current);
  }

  method CurrentStreak(dates: set<int>, today: int) returns (current: nat)
    ensures Current(dates, today, current)
  {
    current := 0;
    var cursor := today;
    if cursor !in dates && cursor - 1 in dates { cursor := cursor - 1; }
    ghost var last, ahead := cursor, dates;
    while cursor in dates
      invariant cursor == last - current && last == Anchor(dates, today)
      invariant forall d :: cursor < d <= last ==> d in dates
      invariant forall d :: d <= cursor && d in dates ==> d in ahead
      decreases |ahead|
    {
      ahead := ahead - {cursor};
      current := current + 1;
      cursor := cursor - 1;
    }
  }

  ghost predicate Lists(dates: set<int>, days: seq<int>) {
    (forall i, j :: 0 <= i < j < |days| ==> days[i] < days[j]) && (forall d :: d in dates <==> d in days)
  }

  /** Every streak that ends on one of the first i days has at most longest days. */
  ghost predicate Bounded(dates: set<int>, days: seq<int>, i: nat, longest: nat)
    requires i <= |days|
  {
    forall k, m: nat :: 0 <= k < i && Streak(dates, days[k], m) ==> m <= longest
  }

  /** Between two neighbours of the list that are not consecutive, the day before the second is missing. */
  lemma Gap(dates: set<int>, days: seq<int>, i: nat)
    requires Lists(dates, days) && i < |days| && (i > 0 ==> days[i] != days[i - 1] + 1)
    ensures days[i] - 1 !in dates
  {
    forall k | 0 <= k < |days| ensures days[k] != days[i] - 1 {
      if i > 0 { assert k < i ==> days[k] <= days[i - 1] < days[i]; }
    }
  }

  lemma NextRun(dates: set<int>, days: seq<int>, i: nat, run: nat)
    requires Lists(dates, days) && i < |days| && (i > 0 ==> Ending(dates, days[i - 1], run))
    ensures Ending(dates, days[i], if i > 0 && days[i] == days[i - 1] + 1 then run + 1 else 1)
  {
    if i > 0 && days[i] == days[i - 1] + 1 {
      assert days[i] - (run + 1) == days[i - 1] - run;
    } else {
      Gap(dates, days, i);
    }
  }

  lemma BoundedIsLongest(dates: set<int>, days: seq<int>, longest: nat)
    requires Lists(dates, days) && Bounded(dates, days, |days|, longest) && exists last :: Streak(dates, last, longest)
    ensures Longest(dates, longest)
  {
    forall last, m: nat | Streak(dates, last, m) ensures m <= longest {
      if m > 0 {
        assert last in dates;
        var k :| 0 <= k < |days| && days[k] == last;
      }
    }
  }

  /** days lists the set in ascending order, as sorted does. */
  method LongestStreak(dates: set<int>, days: seq<int>) returns (longest: nat)
    requires Lists(dates, days)
    ensures Longest(dates, longest)
  {
    longest := 0;
    var run := 0;
    assert Streak(dates, 0, 0);
    for i := 0 to |days|
      invariant i > 0 ==> Ending(dates, days[i - 1], run)
      invariant exists last :: Streak(dates, last, longest)
      invariant Bounded(dates, days, i, longest)
    {
      NextRun(dates, days, i, run);
      run := if i > 0 && days[i] == days[i - 1] + 1 then run + 1 else 1;
      if run > longest { longest := run; }
      forall m: nat | Streak(dates, days[i], m) ensures m <= longest { EndingIsLargest(dates, days[i], run, m); }
    }
    BoundedIsLongest(dates, days, longest);
  }
}
