// The two sliding-window limiters (backend/app/services/collaboration.py and access_management.py). Both keep a
// pruned queue per key; they differ in what happens to an attempt that is exactly one window old.
module Limiters {
  import opened Wrappers

  // keepsEdge: an attempt exactly one window old still counts (access_management), or no longer does (collaboration).
  datatype Policy = Policy(maximum: nat, window: int, keepsEdge: bool)

  predicate Expired(p: Policy, at: int, now: int) {
    if p.keepsEdge then now - at > p.window else at <= now - p.window
  }

  // ---- the queue ----

  function Prune(p: Policy, q: seq<int>, now: int): seq<int> {
    if q != [] && Expired(p, q[0], now) then Prune(p, q[1..], now) else q
  }

  /** allow: the answer and the queue afterwards. */
  function Attempt(p: Policy, q: seq<int>, now: int): (bool, seq<int>) {
    var kept := Prune(p, q, now);
    if |kept| >= p.maximum then (false, kept) else (true, kept + [now])
  }

  // ---- the whole log ----

  /** How many logged attempts, made by now, still count. */
  function Counting(p: Policy, log: seq<int>, now: int): nat {
    if log == [] then 0
    else Counting(p, log[..|log| - 1], now) + if log[|log| - 1] <= now && !Expired(p, log[|log| - 1], now) then 1 else 0
  }

  /** The limiter as it is meant: count every allowed attempt of the window. */
  function LogAttempt(p: Policy, log: seq<int>, now: int): (bool, seq<int>) {
    if Counting(p, log, now) >= p.maximum then (false, log) else (true, log + [now])
  }

  datatype Event = Try(now: int) | Clear

  /** The answer to each event; a clear has none. */
  function QueueAnswers(p: Policy, q: seq<int>, events: seq<Event>): (a: seq<Option<bool>>)
    ensures |a| == |events|
    decreases |events|
  {
    if events == [] then []
    else if events[0].Clear? then [None] + QueueAnswers(p, [], events[1..])
    else [Some(Attempt(p, q, events[0].now).0)] + QueueAnswers(p, Attempt(p, q, events[0].now).1, events[1..])
  }

  function LogAnswer(p: Policy, log: seq<int>, e: Event): (Option<bool>, seq<int>) {
    if e.Clear? then (None, []) else (Some(LogAttempt(p, log, e.now).0), LogAttempt(p, log, e.now).1)
  }

  function LogAnswers(p: Policy, log: seq<int>, events: seq<Event>): (a: seq<Option<bool>>)
    ensures |a| == |events|
    decreases |events|
  {
    if events == [] then [] else [LogAnswer(p, log, events[0]).0] + LogAnswers(p, LogAnswer(p, log, events[0]).1, events[1..])
  }

  function LogThrough(p: Policy, log: seq<int>, events: seq<Event>): seq<int>
    decreases |events|
  {
    if events == [] then log else LogThrough(p, LogAnswer(p, log, events[0]).1, events[1..])
  }

  /** The clock never runs backwards, starting from since. */
  predicate Forward(events: seq<Event>, since: int)
    decreases |events|
  {
    events == [] || (if events[0].Clear? then Forward(events[1..], since) else since <= events[0].now && Forward(events[1..], events[0].now))
  }

  // ---- refinement ----

  ghost predicate Ascending(log: seq<int>, last: int) {
    (forall i, j :: 0 <= i < j < |log| ==> log[i] <= log[j]) && forall i :: 0 <= i < |log| ==> log[i] <= last
  }

  /** The queue is the tail of the log; what was dropped had expired. */
  ghost predicate Tail(p: Policy, q: seq<int>, log: seq<int>, last: int) {
    |q| <= |log| && q == log[|log| - |q|..] && forall i :: 0 <= i < |log| - |q| ==> Expired(p, log[i], last)
  }

  lemma {:induction false} PruneKeepsTail(p: Policy, q: seq<int>, log: seq<int>, now: int)
    requires Tail(p, q, log, now)
    ensures Tail(p, Prune(p, q, now), log, now) && |Prune(p, q, now)| <= |q|
    ensures Prune(p, q, now) != [] ==> !Expired(p, Prune(p, q, now)[0], now)
    decreases |q|
  {
    if q != [] && Expired(p, q[0], now) {
      assert q[0] == log[|log| - |q|];
      PruneKeepsTail(p, q[1..], log, now);
    }
  }

  /** Of an ascending log exactly the tail that has not expired counts. */
  lemma {:induction false} CountingIsTail(p: Policy, log: seq<int>, now: int, k: nat)
    requires k <= |log| && Ascending(log, now)
    requires forall i :: 0 <= i < |log| ==> (Expired(p, log[i], now) <==> i < k)
    ensures Counting(p, log, now) == |log| - k
    decreases |log|
  {
    if log != [] {
      var n := |log| - 1;
      forall i | 0 <= i < n ensures log[..n][i] == log[i] {}
      if k <= n { CountingIsTail(p, log[..n], now, k); } else { CountingIsTail(p, log[..n], now, n); }
    }
  }

  lemma AttemptRefines(p: Policy, q: seq<int>, log: seq<int>, last: int, now: int)
    requires Tail(p, q, log, last) && Ascending(log, last) && last <= now
    ensures Attempt(p, q, now).0 == LogAttempt(p, log, now).0
    ensures Tail(p, Attempt(p, q, now).1, LogAttempt(p, log, now).1, now) && Ascending(LogAttempt(p, log, now).1, now)
  {
    hide Counting, Prune;
    assert Tail(p, q, log, now);
    PruneKeepsTail(p, q, log, now);
    var kept := Prune(p, q, now);
    var k := |log| - |kept|;
    if kept != [] { assert kept[0] == log[k]; }
    CountingIsTail(p, log, now, k);
  }

  /** Answer by answer, the pruned queue decides as counting the whole log would, across clears. */
  lemma {:induction false} QueueRefinesLog(p: Policy, q: seq<int>, log: seq<int>, last: int, events: seq<Event>)
    requires Tail(p, q, log, last) && Ascending(log, last) && Forward(events, last)
    ensures QueueAnswers(p, q, events) == LogAnswers(p, log, events)
    decreases |events|
  {
    if events != [] {
      if events[0].Clear? {
        QueueRefinesLog(p, [], [], last, events[1..]);
      } else {
        AttemptRefines(p, q, log, last, events[0].now);
        QueueRefinesLog(p, Attempt(p, q, events[0].now).1, LogAttempt(p, log, events[0].now).1, events[0].now, events[1..]);
      }
    }
  }

  // ---- no window is overfull ----

  lemma {:induction false} CountingFalls(p: Policy, log: seq<int>, now: int, later: int)
    requires Ascending(log, now) && now <= later
    ensures Counting(p, log, later) <= Counting(p, log, now)
    decreases |log|
  {
    if log != [] { CountingFalls(p, log[..|log| - 1], now, later); }
  }

  /** Every window holds at most the maximum. */
  ghost predicate WithinLimit(p: Policy, log: seq<int>) {
    forall t :: Counting(p, log, t) <= p.maximum
  }

  lemma CountingAppended(p: Policy, log: seq<int>, at: int, t: int)
    ensures Counting(p, log + [at], t) == Counting(p, log, t) + if at <= t && !Expired(p, at, t) then 1 else 0
  {
    assert (log + [at])[..|log|] == log;
  }

  lemma AttemptWithinLimit(p: Policy, log: seq<int>, last: int, now: int)
    requires WithinLimit(p, log) && Ascending(log, last) && last <= now
    ensures WithinLimit(p, LogAttempt(p, log, now).1) && Ascending(LogAttempt(p, log, now).1, now)
  {
    if Counting(p, log, now) < p.maximum {
      forall t ensures Counting(p, log + [now], t) <= p.maximum {
        CountingAppended(p, log, now, t);
        if now <= t { CountingFalls(p, log, now, t); }
      }
    }
  }

  function LogAfter(p: Policy, log: seq<int>, times: seq<int>): seq<int>
    decreases |times|
  {
    if times == [] then log else LogAfter(p, LogAttempt(p, log, times[0]).1, times[1..])
  }

  /** Between clears, no window, wherever it lies, ever holds more than the maximum of allowed attempts. */
  lemma {:induction false} NeverOverLimit(p: Policy, log: seq<int>, last: int, times: seq<int>)
    requires WithinLimit(p, log) && Ascending(log, last)
    requires (forall i, j :: 0 <= i < j < |times| ==> times[i] <= times[j]) && (forall i :: 0 <= i < |times| ==> last <= times[i])
    ensures WithinLimit(p, LogAfter(p, log, times))
    decreases |times|
  {
    if times != [] {
      AttemptWithinLimit(p, log, last, times[0]);
      NeverOverLimit(p, LogAttempt(p, log, times[0]).1, times[0], times[1..]);
    }
  }

  // ---- what each attempt is answered with ----

  lemma {:induction false} LogAnswerAt(p: Policy, log: seq<int>, events: seq<Event>, n: nat)
    requires n < |events|
    ensures LogAnswers(p, log, events)[n] == LogAnswer(p, LogThrough(p, log, events[..n]), events[n]).0
    ensures LogThrough(p, log, events[..n + 1]) == LogAnswer(p, LogThrough(p, log, events[..n]), events[n]).1
    decreases n
  {
    hide LogAnswer;
    assert n > 0 ==> events[..n][1..] == events[1..][..n - 1];
    assert events[..n + 1][1..] == events[1..][..n];
    if n > 0 { LogAnswerAt(p, LogAnswer(p, log, events[0]).1, events[1..], n - 1); }
  }

  /** An attempt at this moment counts at now: it is less than a window old, or exactly one where the edge is kept. */
  predicate InWindow(p: Policy, at: int, now: int) {
    at <= now && (now - at < p.window || (p.keepsEdge && now - at == p.window))
  }

  /** The k-th event is an attempt that was allowed and has not been cleared since. */
  predicate Allowed(events: seq<Event>, answers: seq<Option<bool>>, k: int, n: int)
    requires n <= |events| == |answers|
  {
    0 <= k < n && events[k].Try? && answers[k] == Some(true) && forall j :: k < j < n ==> events[j].Try?
  }

  /** The allowed attempts before the n-th event that count at now. */
  function Counted(p: Policy, events: seq<Event>, answers: seq<Option<bool>>, n: int, now: int): set<int>
    requires n <= |events| == |answers|
  {
    set k | 0 <= k < n && Allowed(events, answers, k, n) && InWindow(p, events[k].now, now)
  }

  lemma CountedNext(p: Policy, events: seq<Event>, answers: seq<Option<bool>>, n: nat, now: int)
    requires n < |events| == |answers|
    ensures Counted(p, events, answers, n + 1, now) == if events[n].Clear? then {} else
      Counted(p, events, answers, n, now) + if answers[n] == Some(true) && InWindow(p, events[n].now, now) then {n} else {}
  {
    forall k | 0 <= k < n ensures Allowed(events, answers, k, n + 1) <==> Allowed(events, answers, k, n) && events[n].Try? {}
  }

  lemma {:induction false} LogCounts(p: Policy, events: seq<Event>, n: nat, now: int)
    requires n <= |events|
    ensures Counting(p, LogThrough(p, [], events[..n]), now) == |Counted(p, events, LogAnswers(p, [], events), n, now)|
    decreases n
  {
    var answers := LogAnswers(p, [], events);
    if n == 0 {
      assert Counted(p, events, answers, 0, now) == {};
    } else {
      LogCounts(p, events, n - 1, now);
      LogAnswerAt(p, [], events, n - 1);
      CountedNext(p, events, answers, n - 1, now);
      assert n - 1 !in Counted(p, events, answers, n - 1, now);
      hide Counted, LogThrough, LogAnswers;
      var log, e := LogThrough(p, [], events[..n - 1]), events[n - 1];
      if e.Try? { CountingAppended(p, log, e.now, now); }
    }
  }

  /** Over every run on a clock that never runs backwards, an attempt is allowed exactly when fewer than the maximum of the attempts
      since the last clear were allowed within the window. */
  lemma AnswerIsExact(p: Policy, since: int, events: seq<Event>, n: nat)
    requires Forward(events, since) && n < |events|
    ensures var answers := QueueAnswers(p, [], events);
      answers[n] == if events[n].Clear? then None else Some(|Counted(p, events, answers, n, events[n].now)| < p.maximum)
  {
    QueueRefinesLog(p, [], [], since, events);
    LogAnswerAt(p, [], events, n);
    if events[n].Try? { LogCounts(p, events, n, events[n].now); }
    hide Counted, LogThrough, LogAnswers, QueueAnswers;
  }

  lemma FullAt(p: Policy, at: int, now: int)
    requires at <= now
    ensures Counting(p, seq(p.maximum, _ => at), now) == if Expired(p, at, now) then 0 else p.maximum
  {
    CountingIsTail(p, seq(p.maximum, _ => at), now, if Expired(p, at, now) then p.maximum else 0);
  }

  /** With every slot taken at one moment, both limiters allow again after the window, and exactly one window later only the
      collaboration limiter does. */
  lemma LimitersDifferAtTheEdge(maximum: nat, window: int, at: int, now: int)
    requires maximum > 0 && at <= now
    ensures var full := seq(maximum, _ => at);
      && (LogAttempt(Policy(maximum, window, false), full, now).0 <==> window <= now - at)
      && (LogAttempt(Policy(maximum, window, true), full, now).0 <==> window < now - at)
  {
    FullAt(Policy(maximum, window, false), at, now);
    FullAt(Policy(maximum, window, true), at, now);
  }

  // ---- the limiter object ----

  class Limiter {
    const policy: Policy
    var attempts: map<int, seq<int>>

    constructor (policy: Policy)
      ensures this.policy == policy && attempts == map[]
    {
      this.policy := policy;
      attempts := map[];
    }

    function Queue(key: int): seq<int>
      reads this
    {
      if key in attempts then attempts[key] else []
    }

    method Allow(key: int, now: int) returns (allowed: bool)
      modifies this
      ensures allowed == Attempt(policy, old(Queue(key)), now).0
      ensures attempts == old(attempts)[key := Attempt(policy, old(Queue(key)), now).1]
    {
      var q := Queue(key);
      while q != [] && Expired(policy, q[0], now)
        invariant Prune(policy, old(Queue(key)), now) == Prune(policy, q, now)
        decreases |q|
      {
        q := q[1..];
      }
      if |q| >= policy.maximum {
        attempts := attempts[key := q];
        return false;
      }
      attempts := attempts[key := q + [now]];
      allowed := true;
    }

    method Forget(key: int)
      modifies this
      ensures attempts == old(attempts) - {key}
    {
      attempts := attempts - {key};
    }
  }
}
