// When a profile may be built again: at once after its evidence changed, and after the doubling delay when a build failed.
module PersonalityRetries {
  import opened Wrappers
  import opened PersonalityQueue

  /** The step neither claims, changes nor deletes this Legacy. */
  predicate Aside(e: Event, l: int) {
    !(e.Claim? && e.legacy == l) && !(e.Change? && e.legacy == l) && !(e.Delete? && e.legacy == l)
  }

  /** The step does not delete this Legacy, and no claim of it is drawn. */
  predicate Unclaimed(e: Event, l: int) {
    !(e.Claim? && e.legacy == l) && !(e.Delete? && e.legacy == l)
  }

  /** The lease, if there is one, ends no later than this. */
  predicate LeasedWithin(lease: Option<int>, limit: Option<int>) {
    lease.None? || lease == limit
  }

  /** Nothing of l is served or delayed, every worker that still builds it is of an older generation, and no lease was taken since. */
  ghost predicate Waits(d: Db, l: int, limit: Option<int>) {
    && l in d.rows && l in d.evidence
    && var r := d.rows[l];
    && r.status.Pending? && r.profile.None? && r.nextAttempt.None? && r.attempts == 0
    && (r.token.Some? <==> r.leaseUntil.Some?) && LeasedWithin(r.leaseUntil, limit)
    && (r.token.Some? ==> r.token.value in d.used)
    && (forall k :: k in d.builds && d.builds[k].legacy == l ==> d.builds[k].generation < r.generation)
  }

  lemma ChangeWaits(f: Builder, d: Db, l: int, facts: Evidence, t: int)
    requires Inv(f, d) && l in d.evidence
    ensures Waits(Step(f, d, Change(l, facts, t)), l, if l in d.rows then d.rows[l].leaseUntil else None)
  {
    var g := Step(f, d, Change(l, facts, t));
    if l in d.rows { assert RowOk(d.rows[l]); }
    forall k | k in g.builds && g.builds[k].legacy == l ensures g.builds[k].generation < g.rows[l].generation {
      assert BuildOk(f, d, k);
    }
  }

  lemma StepWaits(f: Builder, d: Db, e: Event, l: int, limit: Option<int>)
    requires Waits(d, l, limit) && Unclaimed(e, l)
    ensures Waits(Step(f, d, e), l, limit)
  {
  }

  lemma {:induction false} RunWaits(f: Builder, d: Db, events: seq<Event>, l: int, limit: Option<int>)
    requires Waits(d, l, limit) && forall e :: e in events ==> Unclaimed(e, l)
    ensures Waits(Run(f, d, events), l, limit)
    decreases |events|
  {
    if events != [] {
      StepWaits(f, d, events[0], l, limit);
      RunWaits(f, Step(f, d, events[0]), events[1..], l, limit);
    }
  }

  /** The claim is granted: the row is its own for the length of the lease. */
  ghost predicate Granted(f: Builder, d: Db, l: int, token: int, now: int, lease: nat) {
    && l in d.rows
    && var g := Step(f, d, Claim(l, d.rows[l].generation, token, now, lease));
       token in g.builds && g.builds[token].legacy == l && g.rows[l].token == Some(token) && g.rows[l].leaseUntil == Some(now + lease)
  }

  lemma WaitingIsGranted(f: Builder, d: Db, l: int, limit: Option<int>, token: int, now: int, lease: nat)
    requires Waits(d, l, limit) && token !in d.used && token !in d.builds
    ensures Granted(f, d, l, token, now, lease) <==> d.rows[l].leaseUntil.None? || d.rows[l].leaseUntil.value <= now
  {
  }

  /** Whatever failed before, evidence that changed can be built at once: until the next claim, whoever else changes it, gives it up or
      fails on what was known before, a claim is granted exactly when no lease of before the change runs any more. */
  lemma FreshEvidenceIsClaimable(f: Builder, d: Db, l: int, facts: Evidence, t: int, events: seq<Event>, token: int, now: int, lease: nat)
    requires Inv(f, d) && l in d.evidence && forall e :: e in events ==> Unclaimed(e, l)
    ensures var g := Run(f, Step(f, d, Change(l, facts, t)), events);
      && l in g.rows && CurrentProfile(g, l).None?
      && LeasedWithin(g.rows[l].leaseUntil, if l in d.rows then d.rows[l].leaseUntil else None)
      && (token !in g.used ==>
            (Granted(f, g, l, token, now, lease) <==> g.rows[l].leaseUntil.None? || g.rows[l].leaseUntil.value <= now))
  {
    var a := Step(f, d, Change(l, facts, t));
    var limit := if l in d.rows then d.rows[l].leaseUntil else None;
    var g := Run(f, a, events);
    ChangeWaits(f, d, l, facts, t);
    RunWaits(f, a, events, l, limit);
    StepKeeps(f, d, Change(l, facts, t));
    RunKeeps(f, a, events);
    if token in g.builds { assert BuildOk(f, g, token); }
    if token !in g.used { WaitingIsGranted(f, g, l, limit, token, now, lease); }
  }

  /** The end of a build that holds its row gives the row up, whatever it says about the build. */
  lemma OlderWorkerGivesUp(f: Builder, d: Db, l: int, limit: Option<int>, token: int, t: int)
    requires Waits(d, l, limit) && token in d.builds && d.builds[token].legacy == l && Holds(d, token)
    requires d.builds[token].phase.Broken? || d.builds[token].phase.Stale?
    ensures var g := Step(f, d, if d.builds[token].phase.Broken? then Fail(token, t) else Release(token, t));
      Waits(g, l, None) && g.rows[l].leaseUntil.None?
  {
  }

  /** A finished build is published exactly when its worker still holds the row, at the generation it claimed, on a lease that has not
      run out; then it is what is served. Otherwise nothing changes, and the worker gives the row up as stale. */
  lemma PublishIsExact(f: Builder, d: Db, token: int, now: int)
    requires Inv(f, d) && token in d.builds && d.builds[token].phase.Built?
    ensures var b, g := d.builds[token], Step(f, d, Publish(token, now));
      if b.legacy in d.rows && d.rows[b.legacy].token == Some(token) && d.rows[b.legacy].generation == b.generation
         && d.rows[b.legacy].leaseUntil.Some? && now < d.rows[b.legacy].leaseUntil.value
      then CurrentProfile(g, b.legacy) == Some(b.phase.output) && g.rows[b.legacy].token.None? && token !in g.builds
      else g.rows == d.rows && token in g.builds && g.builds[token].phase.Stale?
  {
    assert BuildOk(f, d, token);
  }

  // ---- the delay after a failure ----

  lemma StepAside(f: Builder, d: Db, e: Event, l: int)
    requires l in d.rows && d.rows[l].token.None? && d.rows[l].status.Failed? && d.rows[l].nextAttempt.Some?
    requires Aside(e, l) || (e.Claim? && e.now < d.rows[l].nextAttempt.value)
    ensures l in Step(f, d, e).rows && Step(f, d, e).rows[l] == d.rows[l]
  {
  }

  lemma {:induction false} RunAside(f: Builder, d: Db, events: seq<Event>, l: int)
    requires l in d.rows && d.rows[l].token.None? && d.rows[l].status.Failed? && d.rows[l].nextAttempt.Some?
    requires forall e :: e in events ==> Aside(e, l) || (e.Claim? && e.now < d.rows[l].nextAttempt.value)
    ensures l in Run(f, d, events).rows && Run(f, d, events).rows[l] == d.rows[l]
    decreases |events|
  {
    if events != [] {
      StepAside(f, d, events[0], l);
      RunAside(f, Step(f, d, events[0]), events[1..], l);
    }
  }

  /** A build that fails on the present evidence at t, as the n-th attempt, is not served and cannot be tried again for 2, 4, .. 256
      seconds, however often it is claimed; from then on the claim is granted. */
  lemma RetryIsExact(f: Builder, d: Db, token: int, t: int, events: seq<Event>, token': int, now: int, lease: nat)
    requires Inv(f, d) && token in d.builds && d.builds[token].phase.Broken? && Holds(d, token)
    requires d.rows[d.builds[token].legacy].generation == d.builds[token].generation
    requires var l, n := d.builds[token].legacy, d.rows[d.builds[token].legacy].attempts;
      forall e :: e in events ==> Aside(e, l) || (e.Claim? && e.now < t + PowerOfTwo(if n <= 8 then n else 8))
    ensures var l, n := d.builds[token].legacy, d.rows[d.builds[token].legacy].attempts;
      var g := Run(f, Step(f, d, Fail(token, t)), events);
      && l in g.rows && CurrentProfile(g, l).None? && g.rows[l].token.None?
      && (token' !in g.used ==> (Granted(f, g, l, token', now, lease) <==> t + PowerOfTwo(if n <= 8 then n else 8) <= now))
  {
    var l, n := d.builds[token].legacy, d.rows[d.builds[token].legacy].attempts;
    var a := Step(f, d, Fail(token, t));
    BackoffDoubles(n);
    RunAside(f, a, events, l);
    StepKeeps(f, d, Fail(token, t));
    RunKeeps(f, a, events);
    var g := Run(f, a, events);
    hide Inv, Run;
  }
}
