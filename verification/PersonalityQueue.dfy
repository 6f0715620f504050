// The derived personality profile and its rebuild queue (backend/app/services/personality_worker.py,
// personality_invalidation.py and the reader of legacy_personality.py). Every row read, evidence read and
// update is a step of its own; workers, evidence changes and crashes interleave freely, with any clocks.
module PersonalityQueue {
  import opened Wrappers

  // What load_evidence selects: the memories first, then their entity links.
  datatype Evidence = Evidence(memories: seq<string>, links: seq<string>)

  datatype Profile = Profile(legacy: int, generation: int, body: string)

  /** derive_profile; None when it raises. */
  type Builder = (int, int, Evidence) -> Option<Profile>

  datatype Status = Pending | Building | Ready | Failed

  datatype Row = Row(
    generation: int, built: int, profile: Option<Profile>, status: Status, token: Option<int>, leaseUntil: Option<int>,
    attempts: nat, nextAttempt: Option<int>, updated: int)

  datatype Phase = Claimed | Checked | Built(output: Profile) | Stale | Broken

  /** A worker between its claim and its last transaction. */
  datatype Build = Build(legacy: int, generation: int, memories: Option<seq<string>>, links: Option<seq<string>>, phase: Phase)

  // gone are the deleted Legacies, used the tokens drawn so far; ids and tokens are not reused.
  datatype Db = Db(evidence: map<int, Evidence>, rows: map<int, Row>, builds: map<int, Build>, gone: set<int>, used: set<int>)

  const EMPTY := Db(map[], map[], map[], {}, {})

  /** build's derivation: a profile that does not name the claimed Legacy and generation is refused. */
  function Made(f: Builder, legacy: int, generation: int, e: Evidence): Option<Profile> {
    var p := f(legacy, generation, e);
    if p.Some? && p.value.legacy == legacy && p.value.generation == generation then p else None
  }

  predicate Available(r: Row, now: int) {
    !r.status.Ready? && (r.token.None? || (r.leaseUntil.Some? && r.leaseUntil.value <= now))
    && (r.nextAttempt.None? || r.nextAttempt.value <= now)
  }

  // ---- row changes ----

  /** invalidate_in_transaction: a live lease is left to its worker. */
  function Invalidated(rows: map<int, Row>, legacy: int, now: int): Row {
    if legacy in rows then
      rows[legacy].(generation := rows[legacy].generation + 1, profile := None, status := Pending, attempts := 0, nextAttempt := None, updated := now)
    else Row(1, 0, None, Pending, None, None, 0, None, now)
  }

  function Leased(r: Row, token: int, now: int, lease: int): Row {
    r.(token := Some(token), leaseUntil := Some(now + lease), status := Building, attempts := r.attempts + 1, updated := now)
  }

  function Published(r: Row, p: Profile, now: int): Row {
    r.(profile := Some(p), built := r.generation, status := Ready, updated := now, attempts := 0, token := None, leaseUntil := None,
       nextAttempt := None)
  }

  function Released(r: Row, now: int): Row {
    r.(status := Pending, token := None, leaseUntil := None, updated := now)
  }

  function PowerOfTwo(n: nat): nat {
    if n == 0 then 1 else 2 * PowerOfTwo(n - 1)
  }

  /** Seconds until the next attempt. */
  function Backoff(attempts: nat): nat { Min(300, PowerOfTwo(Min(attempts, 8))) }

  function Failing(r: Row, same: bool, now: int): Row {
    r.(profile := None, status := if same then Failed else Pending, token := None, leaseUntil := None, updated := now,
       nextAttempt := if same then Some(now + Backoff(r.attempts)) else None)
  }

  // ---- steps ----

  datatype Event =
    | Create(legacy: int, facts: Evidence)
    | Change(legacy: int, facts: Evidence, now: int)
    | Delete(legacy: int)
    | Claim(legacy: int, seen: int, token: int, now: int, lease: nat)
    | ReadRow(token: int)
    | ReadMemories(token: int)
    | ReadLinks(token: int)
    | Derive(token: int)
    | Publish(token: int, now: int)
    | Release(token: int, now: int)
    | Raise(token: int)
    | Fail(token: int, now: int)
    | Crash(token: int)

  predicate Holds(d: Db, token: int)
    requires token in d.builds
  {
    d.builds[token].legacy in d.rows && d.rows[d.builds[token].legacy].token == Some(token)
  }

  predicate Publishes(d: Db, token: int, now: int) {
    && token in d.builds && d.builds[token].phase.Built? && Holds(d, token)
    && var r := d.rows[d.builds[token].legacy];
       r.generation == d.builds[token].generation && r.leaseUntil.Some? && r.leaseUntil.value > now
  }

  predicate Claims(d: Db, e: Event) {
    e.Claim? && e.token !in d.used && e.legacy in d.rows && d.rows[e.legacy].generation == e.seen && Available(d.rows[e.legacy], e.now)
  }

  function Moved(d: Db, token: int, b: Build): Db { d.(builds := d.builds[token := b]) }

  function Finished(d: Db, token: int): Db { d.(builds := d.builds - {token}) }

  function SetRow(d: Db, legacy: int, r: Row): Db { d.(rows := d.rows[legacy := r]) }

  function ReadStep(d: Db, e: Event): Db
    requires !e.Create? && !e.Change? && !e.Delete? && e.token in d.builds
  {
    var b := d.builds[e.token];
    match e
    case ReadRow(token) =>
      if !b.phase.Claimed? then d
      else if Holds(d, token) && d.rows[b.legacy].generation == b.generation then Moved(d, token, b.(phase := Checked))
      else Moved(d, token, b.(phase := Stale))
    case ReadMemories(token) =>
      if !b.phase.Checked? || b.memories.Some? then d
      else Moved(d, token, b.(memories := Some(FactsOf(d.evidence, b.legacy).memories)))
    case ReadLinks(token) =>
      if !b.phase.Checked? || b.memories.None? || b.links.Some? then d
      else Moved(d, token, b.(links := Some(FactsOf(d.evidence, b.legacy).links)))
    case _ => d
  }

  function DeriveStep(f: Builder, d: Db, token: int): Db
    requires token in d.builds
  {
    var b := d.builds[token];
    if !b.phase.Checked? || b.memories.None? || b.links.None? then d
    else
      var p := Made(f, b.legacy, b.generation, Evidence(b.memories.value, b.links.value));
      Moved(d, token, b.(phase := if p.Some? then Built(p.value) else Broken))
  }

  function EndStep(d: Db, e: Event): Db
    requires !e.Create? && !e.Change? && !e.Delete? && e.token in d.builds
  {
    var b := d.builds[e.token];
    match e
    case Publish(token, now) =>
      if !b.phase.Built? then d
      else if Publishes(d, token, now) then Finished(SetRow(d, b.legacy, Published(d.rows[b.legacy], b.phase.output, now)), token)
      else Moved(d, token, b.(phase := Stale))
    case Release(token, now) =>
      if !b.phase.Stale? then d
      else if Holds(d, token) then Finished(SetRow(d, b.legacy, Released(d.rows[b.legacy], now)), token)
      else Finished(d, token)
    case Fail(token, now) =>
      if !b.phase.Broken? then d
      else if Holds(d, token) then
        Finished(SetRow(d, b.legacy, Failing(d.rows[b.legacy], d.rows[b.legacy].generation == b.generation, now)), token)
      else Finished(d, token)
    case _ => d
  }

  function Step(f: Builder, d: Db, e: Event): Db {
    match e
    case Create(l, facts) => if l in d.evidence || l in d.gone then d else d.(evidence := d.evidence[l := facts])
    case Change(l, facts, now) =>
      if l !in d.evidence then d else SetRow(d, l, Invalidated(d.rows, l, now)).(evidence := d.evidence[l := facts])
    case Delete(l) => d.(evidence := d.evidence - {l}, rows := d.rows - {l}, gone := d.gone + {l})
    case Claim(l, seen, token, now, lease) =>
      if Claims(d, e)
      then SetRow(d, l, Leased(d.rows[l], token, now, lease)).(builds := d.builds[token := Build(l, seen, None, None, Claimed)], used := d.used + {token})
      else d
    case Derive(token) => if token in d.builds then DeriveStep(f, d, token) else d
    case Raise(token) => if token in d.builds then Moved(d, token, d.builds[token].(phase := Broken)) else d
    case Crash(token) => Finished(d, token)
    case Publish(token, _) => if token in d.builds then EndStep(d, e) else d
    case Release(token, _) => if token in d.builds then EndStep(d, e) else d
    case Fail(token, _) => if token in d.builds then EndStep(d, e) else d
    case _ => if e.token in d.builds then ReadStep(d, e) else d
  }

  function Run(f: Builder, d: Db, events: seq<Event>): Db
    decreases |events|
  {
    if events == [] then d else Run(f, Step(f, d, events[0]), events[1..])
  }

  /** current_profile: what a reader is given. */
  function CurrentProfile(d: Db, legacy: int): Option<Profile> {
    if legacy !in d.rows then None
    else
      var r := d.rows[legacy];
      if !r.status.Ready? || r.built != r.generation || r.profile.None? then None
      else if r.profile.value.legacy != legacy || r.profile.value.generation != r.generation then None
      else r.profile
  }

  // ---- the invariant ----

  ghost predicate RowOk(r: Row) {
    && 0 <= r.built <= r.generation && (r.token.Some? <==> r.leaseUntil.Some?)
    && (r.status.Ready? ==> r.built == r.generation && r.token.None?)
    && (!r.status.Ready? ==> r.built < r.generation)
    && (r.profile.Some? <==> r.status.Ready?)
    && (r.status.Failed? ==> r.token.None? && r.nextAttempt.Some? && r.updated < r.nextAttempt.value <= r.updated + 256)
  }

  /** A ready row holds what deriving the present evidence would give. */
  ghost predicate Fresh(f: Builder, d: Db, l: int)
    requires l in d.rows
  {
    l in d.evidence && (d.rows[l].status.Ready? ==> d.rows[l].profile == Made(f, l, d.rows[l].generation, d.evidence[l]))
  }

  /** What a worker has read is current for as long as its generation is. */
  ghost predicate BuildOk(f: Builder, d: Db, token: int)
    requires token in d.builds
  {
    var b := d.builds[token];
    && token in d.used
    && (b.legacy in d.rows || b.legacy in d.gone)
    && (b.legacy in d.rows && b.legacy in d.evidence ==>
          b.generation <= d.rows[b.legacy].generation
          && (b.generation == d.rows[b.legacy].generation ==>
                (b.memories.Some? ==> b.memories.value == d.evidence[b.legacy].memories)
                && (b.links.Some? ==> b.links.value == d.evidence[b.legacy].links)))
    && (b.phase.Built? ==> (b.memories.Some? && b.links.Some?
          && Made(f, b.legacy, b.generation, Evidence(b.memories.value, b.links.value)) == Some(b.phase.output)))
  }

  ghost predicate Inv(f: Builder, d: Db) {
    && (forall l :: l in d.rows ==> RowOk(d.rows[l]) && Fresh(f, d, l))
    && (forall l :: l in d.rows && d.rows[l].token.Some? ==> d.rows[l].token.value in d.used)
    && (forall k :: k in d.builds ==> BuildOk(f, d, k))
    && (forall l :: l in d.gone ==> l !in d.evidence && l !in d.rows)
  }

  lemma ChangeKeeps(f: Builder, d: Db, e: Event)
    requires Inv(f, d) && e.Change?
    ensures Inv(f, Step(f, d, e))
  {
    if e.legacy in d.evidence {
      var g := Step(f, d, e);
      forall k | k in g.builds ensures BuildOk(f, g, k) { assert BuildOk(f, d, k); }
      forall l | l in g.rows ensures RowOk(g.rows[l]) && Fresh(f, g, l) {
        if l in d.rows { assert RowOk(d.rows[l]) && Fresh(f, d, l); }
      }
    }
  }

  lemma LegacyKeeps(f: Builder, d: Db, e: Event)
    requires Inv(f, d) && (e.Create? || e.Delete?)
    ensures Inv(f, Step(f, d, e))
  {
    var g := Step(f, d, e);
    forall k | k in g.builds ensures BuildOk(f, g, k) {
      assert BuildOk(f, d, k);
      var l := d.builds[k].legacy;
      if l in d.rows { assert Fresh(f, d, l); }
    }
    forall l | l in g.rows ensures RowOk(g.rows[l]) && Fresh(f, g, l) { assert RowOk(d.rows[l]) && Fresh(f, d, l); }
  }

  lemma ClaimKeeps(f: Builder, d: Db, e: Event)
    requires Inv(f, d) && e.Claim?
    ensures Inv(f, Step(f, d, e))
  {
    if Claims(d, e) {
      var g := Step(f, d, e);
      forall k | k in g.builds ensures BuildOk(f, g, k) {
        if k != e.token { assert BuildOk(f, d, k); }
      }
      forall l | l in g.rows ensures RowOk(g.rows[l]) && Fresh(f, g, l) { assert RowOk(d.rows[l]) && Fresh(f, d, l); }
    }
  }

  /** A step that only moves a worker. */
  lemma MovedKeeps(f: Builder, d: Db, token: int, b: Build)
    requires Inv(f, d) && token in d.builds && BuildOk(f, Moved(d, token, b), token)
    ensures Inv(f, Moved(d, token, b))
  {
    var g := Moved(d, token, b);
    forall k | k in g.builds ensures BuildOk(f, g, k) {
      if k != token { assert BuildOk(f, d, k); }
    }
    forall l | l in g.rows ensures Fresh(f, g, l) { assert Fresh(f, d, l); }
  }

  lemma ReadKeeps(f: Builder, d: Db, e: Event)
    requires Inv(f, d) && (e.ReadRow? || e.ReadMemories? || e.ReadLinks?) && e.token in d.builds
    ensures Inv(f, ReadStep(d, e))
  {
    assert BuildOk(f, d, e.token);
    var g := ReadStep(d, e);
    assert d.builds[e.token := g.builds[e.token]] == g.builds;
    MovedKeeps(f, d, e.token, g.builds[e.token]);
  }

  lemma DeriveKeeps(f: Builder, d: Db, token: int)
    requires Inv(f, d) && token in d.builds
    ensures Inv(f, DeriveStep(f, d, token))
  {
    assert BuildOk(f, d, token);
    var g := DeriveStep(f, d, token);
    assert d.builds[token := g.builds[token]] == g.builds;
    MovedKeeps(f, d, token, g.builds[token]);
  }

  lemma FinishedKeeps(f: Builder, d: Db, token: int)
    requires Inv(f, d)
    ensures Inv(f, Finished(d, token))
  {
    var g := Finished(d, token);
    forall k | k in g.builds ensures BuildOk(f, g, k) { assert BuildOk(f, d, k); }
    forall l | l in g.rows ensures Fresh(f, g, l) { assert Fresh(f, d, l); }
  }

  /** A step that only rewrites a row, within its generation. */
  lemma RowKeeps(f: Builder, d: Db, l: int, r: Row)
    requires Inv(f, d) && l in d.rows && RowOk(r) && r.generation == d.rows[l].generation
    requires r.token.None? && Fresh(f, SetRow(d, l, r), l)
    ensures Inv(f, SetRow(d, l, r))
  {
    var g := SetRow(d, l, r);
    forall k | k in g.builds ensures BuildOk(f, g, k) { assert BuildOk(f, d, k); }
    forall m | m in g.rows ensures RowOk(g.rows[m]) && Fresh(f, g, m) {
      if m != l { assert RowOk(d.rows[m]) && Fresh(f, d, m); }
    }
  }

  lemma PublishKeeps(f: Builder, d: Db, token: int, now: int)
    requires Inv(f, d) && Publishes(d, token, now)
    ensures Inv(f, EndStep(d, Publish(token, now)))
  {
    var b := d.builds[token];
    assert BuildOk(f, d, token);
    assert RowOk(d.rows[b.legacy]) && Fresh(f, d, b.legacy);
    var r := Published(d.rows[b.legacy], b.phase.output, now);
    assert Evidence(b.memories.value, b.links.value) == d.evidence[b.legacy];
    RowKeeps(f, d, b.legacy, r);
    FinishedKeeps(f, SetRow(d, b.legacy, r), token);
  }

  /** The limit of five minutes never applies: the delays are 2, 4, ... up to 256 seconds. */
  lemma BackoffDoubles(attempts: nat)
    ensures Backoff(attempts) == PowerOfTwo(Min(attempts, 8)) <= 256
    ensures attempts < 8 ==> Backoff(attempts + 1) == 2 * Backoff(attempts)
  {
    var n := Min(attempts, 8);
    assert PowerOfTwo(8) == 256;
    PowersGrow(n, 8);
    PowersGrow(Min(attempts + 1, 8), 8);
  }

  lemma {:induction false} PowersGrow(a: nat, b: nat)
    requires a <= b
    ensures PowerOfTwo(a) <= PowerOfTwo(b)
    decreases b
  {
    if a < b { PowersGrow(a, b - 1); }
  }

  lemma EndKeeps(f: Builder, d: Db, e: Event)
    requires Inv(f, d) && (e.Publish? || e.Release? || e.Fail?) && e.token in d.builds
    ensures Inv(f, EndStep(d, e))
  {
    var b := d.builds[e.token];
    assert BuildOk(f, d, e.token);
    if e.Publish? {
      if Publishes(d, e.token, e.now) { PublishKeeps(f, d, e.token, e.now); }
      else if b.phase.Built? { MovedKeeps(f, d, e.token, b.(phase := Stale)); }
    } else {
      FinishedKeeps(f, d, e.token);
      if Holds(d, e.token) {
        var r := d.rows[b.legacy];
        assert RowOk(r) && Fresh(f, d, b.legacy);
        var s := if e.Release? then Released(r, e.now) else Failing(r, r.generation == b.generation, e.now);
        BackoffDoubles(r.attempts);
        RowKeeps(f, d, b.legacy, s);
        FinishedKeeps(f, SetRow(d, b.legacy, s), e.token);
      }
    }
  }

  lemma StepKeeps(f: Builder, d: Db, e: Event)
    requires Inv(f, d)
    ensures Inv(f, Step(f, d, e))
  {
    match e
    case Create(_, _) => LegacyKeeps(f, d, e);
    case Delete(_) => LegacyKeeps(f, d, e);
    case Change(_, _, _) => ChangeKeeps(f, d, e);
    case Claim(_, _, _, _, _) => ClaimKeeps(f, d, e);
    case Derive(token) => if token in d.builds { DeriveKeeps(f, d, token); }
    case Raise(token) =>
      if token in d.builds {
        assert BuildOk(f, d, token);
        MovedKeeps(f, d, token, d.builds[token].(phase := Broken));
      }
    case Crash(token) => FinishedKeeps(f, d, token);
    case Publish(token, _) => if token in d.builds { EndKeeps(f, d, e); }
    case Release(token, _) => if token in d.builds { EndKeeps(f, d, e); }
    case Fail(token, _) => if token in d.builds { EndKeeps(f, d, e); }
    case _ => if e.token in d.builds { ReadKeeps(f, d, e); }
  }

  lemma {:induction false} RunKeeps(f: Builder, d: Db, events: seq<Event>)
    requires Inv(f, d)
    ensures Inv(f, Run(f, d, events))
    decreases |events|
  {
    if events != [] {
      StepKeeps(f, d, events[0]);
      RunKeeps(f, Step(f, d, events[0]), events[1..]);
    }
  }

  // ---- the cache refines deriving afresh ----

  /** Over every run, a reader gets nothing or exactly what deriving the present evidence would give. */
  lemma ReadersSeeFreshProfiles(f: Builder, events: seq<Event>, l: int)
    ensures var d := Run(f, EMPTY, events);
      CurrentProfile(d, l).Some? ==>
        l in d.rows && l in d.evidence && CurrentProfile(d, l) == Made(f, l, d.rows[l].generation, d.evidence[l])
  {
    RunKeeps(f, EMPTY, events);
    var d := Run(f, EMPTY, events);
    if l in d.rows { assert Fresh(f, d, l); }
  }

  /** The reader's own checks never withhold a ready row. */
  lemma ReadyIsServed(f: Builder, events: seq<Event>, l: int)
    ensures var d := Run(f, EMPTY, events); l in d.rows ==> (CurrentProfile(d, l).Some? <==> d.rows[l].status.Ready?)
  {
    RunKeeps(f, EMPTY, events);
    var d := Run(f, EMPTY, events);
    if l in d.rows { assert RowOk(d.rows[l]) && Fresh(f, d, l); }
  }

  // ---- each generation is published at most once ----

  lemma BuiltGrows(f: Builder, d: Db, e: Event, l: int)
    requires Inv(f, d) && l in d.rows
    ensures if l in Step(f, d, e).rows then d.rows[l].built <= Step(f, d, e).rows[l].built else l in Step(f, d, e).gone
  {
    assert RowOk(d.rows[l]);
  }

  lemma {:induction false} GoneForGood(f: Builder, d: Db, events: seq<Event>, l: int)
    requires l in d.gone
    ensures l in Run(f, d, events).gone
    decreases |events|
  {
    if events != [] { GoneForGood(f, Step(f, d, events[0]), events[1..], l); }
  }

  lemma {:induction false} RunBuiltGrows(f: Builder, d: Db, events: seq<Event>, l: int)
    requires Inv(f, d) && l in d.rows
    ensures var e := Run(f, d, events); l in e.rows ==> d.rows[l].built <= e.rows[l].built
    decreases |events|
  {
    if events != [] {
      var e := Step(f, d, events[0]);
      StepKeeps(f, d, events[0]);
      BuiltGrows(f, d, events[0], l);
      if l in e.rows {
        RunBuiltGrows(f, e, events[1..], l);
      } else {
        GoneForGood(f, e, events[1..], l);
        RunKeeps(f, e, events[1..]);
      }
    }
  }

  /** Two builds of one Legacy that are both published have different generations, the later one larger. */
  lemma PublishedOnce(f: Builder, d: Db, token: int, now: int, events: seq<Event>, token': int, now': int)
    requires Inv(f, d) && Publishes(d, token, now)
    ensures var e := Run(f, Step(f, d, Publish(token, now)), events);
      Publishes(e, token', now') && e.builds[token'].legacy == d.builds[token].legacy ==> d.builds[token].generation < e.builds[token'].generation
  {
    var l, g := d.builds[token].legacy, Step(f, d, Publish(token, now));
    var e := Run(f, g, events);
    StepKeeps(f, d, Publish(token, now));
    RunBuiltGrows(f, g, events, l);
    RunKeeps(f, g, events);
    if l in e.rows { assert RowOk(e.rows[l]); }
  }

  // ---- progress ----

  function SoloReading(l: int, generation: int, token: int, now: int, lease: nat): seq<Event> {
    [Claim(l, generation, token, now, lease), ReadRow(token), ReadMemories(token), ReadLinks(token)]
  }

  function SoloEnding(token: int, done: int): seq<Event> {
    [Derive(token), Publish(token, done), Fail(token, done)]
  }

  lemma RunFrom(f: Builder, d: Db, events: seq<Event>, k: nat)
    requires k < |events|
    ensures Run(f, d, events[k..]) == Run(f, Step(f, d, events[k]), events[k + 1..])
  {
    assert events[k..][1..] == events[k + 1..];
  }

  lemma {:induction false} RunSplit(f: Builder, d: Db, a: seq<Event>, b: seq<Event>)
    ensures Run(f, d, a + b) == Run(f, Run(f, d, a), b)
    decreases |a|
  {
    if a == [] {
      assert a + b == b;
    } else {
      RunSplit(f, Step(f, d, a[0]), a[1..], b);
      assert (a + b)[1..] == a[1..] + b;
    }
  }

  lemma RunFour(f: Builder, d: Db, s: seq<Event>)
    requires |s| == 4
    ensures Run(f, d, s) == Step(f, Step(f, Step(f, Step(f, d, s[0]), s[1]), s[2]), s[3])
  {
    var d1 := Step(f, d, s[0]);
    var d2 := Step(f, d1, s[1]);
    assert s[0..] == s;
    RunFrom(f, d, s, 0);
    RunFrom(f, d1, s, 1);
    RunFrom(f, d2, s, 2);
    RunFrom(f, Step(f, d2, s[2]), s, 3);
  }

  lemma RunThree(f: Builder, d: Db, s: seq<Event>)
    requires |s| == 3
    ensures Run(f, d, s) == Step(f, Step(f, Step(f, d, s[0]), s[1]), s[2])
  {
    var d1 := Step(f, d, s[0]);
    assert s[0..] == s;
    RunFrom(f, d, s, 0);
    RunFrom(f, d1, s, 1);
    RunFrom(f, Step(f, d1, s[1]), s, 2);
  }

  function SoloResult(f: Builder, row: Row, l: int, facts: Evidence, done: int): Row {
    match Made(f, l, row.generation, facts)
    case Some(p) => Published(row, p, done)
    case None => Failing(row, true, done)
  }

  /** The worker holds the row and has read all of its evidence. */
  ghost predicate HasRead(d: Db, l: int, token: int, row: Row, until: int) {
    && token in d.builds && l in d.rows && l in d.evidence && d.rows[l] == row && row.token == Some(token) && row.leaseUntil == Some(until)
    && d.builds[token] == Build(l, row.generation, Some(d.evidence[l].memories), Some(d.evidence[l].links), Checked)
  }

  lemma SoloReads(f: Builder, d: Db, l: int, token: int, now: int, lease: nat)
    requires Inv(f, d) && l in d.rows && Available(d.rows[l], now) && token !in d.used
    ensures l in d.evidence
    ensures var e := Run(f, d, SoloReading(l, d.rows[l].generation, token, now, lease));
      HasRead(e, l, token, Leased(d.rows[l], token, now, lease), now + lease) && e.evidence == d.evidence
  {
    assert Fresh(f, d, l);
    RunFour(f, d, SoloReading(l, d.rows[l].generation, token, now, lease));
  }

  lemma SoloEnds(f: Builder, d: Db, l: int, token: int, row: Row, until: int, done: int)
    requires HasRead(d, l, token, row, until) && done < until
    ensures var g := Run(f, d, SoloEnding(token, done)); l in g.rows && g.rows[l] == SoloResult(f, row, l, d.evidence[l], done)
  {
    assert Evidence(d.evidence[l].memories, d.evidence[l].links) == d.evidence[l];
    RunThree(f, d, SoloEnding(token, done));
  }

  lemma SoloRow(f: Builder, d: Db, l: int, token: int, now: int, lease: nat, done: int)
    requires Inv(f, d) && l in d.rows && Available(d.rows[l], now) && token !in d.used && done < now + lease
    ensures var e := Run(f, d, SoloReading(l, d.rows[l].generation, token, now, lease) + SoloEnding(token, done));
      && l in d.evidence && l in e.rows
      && e.rows[l] == SoloResult(f, Leased(d.rows[l], token, now, lease), l, d.evidence[l], done)
  {
    RunSplit(f, d, SoloReading(l, d.rows[l].generation, token, now, lease), SoloEnding(token, done));
    SoloReads(f, d, l, token, now, lease);
    SoloEnds(f, Run(f, d, SoloReading(l, d.rows[l].generation, token, now, lease)), l, token, Leased(d.rows[l], token, now, lease), now + lease, done);
  }

  /** Left undisturbed for the length of its lease, one worker makes a claimable row served, or schedules its retry. */
  lemma UndisturbedBuild(f: Builder, d: Db, l: int, token: int, now: int, lease: nat, done: int)
    requires Inv(f, d) && l in d.rows && Available(d.rows[l], now) && token !in d.used && done < now + lease
    ensures l in d.evidence
    ensures var e := Run(f, d, SoloReading(l, d.rows[l].generation, token, now, lease) + SoloEnding(token, done));
      l in e.rows && match Made(f, l, d.rows[l].generation, d.evidence[l])
        case Some(p) => CurrentProfile(e, l) == Some(p)
        case None => CurrentProfile(e, l).None? && e.rows[l].status.Failed? && e.rows[l].nextAttempt == Some(done + Backoff(d.rows[l].attempts + 1))
  {
    SoloRow(f, d, l, token, now, lease, done);
  }

  /** From this moment on the row's lease and its retry delay are both over. */
  function Moment(r: Row): int {
    Max(if r.leaseUntil.Some? then r.leaseUntil.value else 0, if r.nextAttempt.Some? then r.nextAttempt.value else 0)
  }

  lemma ClaimableFromMoment(f: Builder, d: Db, l: int, now: int)
    requires Inv(f, d) && l in d.rows && !d.rows[l].status.Ready? && Moment(d.rows[l]) <= now
    ensures Available(d.rows[l], now)
  {
    assert RowOk(d.rows[l]);
  }

  /** Whatever workers, changes and crashes came before: a row that is not ready can be claimed once its lease and its
      retry delay are over, and one worker that is then left alone makes it served or schedules its retry. */
  lemma NeverStuck(f: Builder, events: seq<Event>, l: int, token: int, now: int, lease: nat)
    ensures var d := Run(f, EMPTY, events);
      l in d.rows && !d.rows[l].status.Ready? && token !in d.used && Moment(d.rows[l]) <= now && 0 < lease ==>
        Available(d.rows[l], now) && l in d.evidence
        && var e := Run(f, EMPTY, events + (SoloReading(l, d.rows[l].generation, token, now, lease) + SoloEnding(token, now)));
           l in e.rows && match Made(f, l, d.rows[l].generation, d.evidence[l])
             case Some(p) => CurrentProfile(e, l) == Some(p)
             case None => e.rows[l].status.Failed? && e.rows[l].nextAttempt == Some(now + Backoff(d.rows[l].attempts + 1))
  {
    var d := Run(f, EMPTY, events);
    RunKeeps(f, EMPTY, events);
    if l in d.rows && !d.rows[l].status.Ready? && token !in d.used && Moment(d.rows[l]) <= now && 0 < lease {
      hide Inv, Available, CurrentProfile;
      ClaimableFromMoment(f, d, l, now);
      UndisturbedBuild(f, d, l, token, now, lease, now);
      RunSplit(f, EMPTY, events, SoloReading(l, d.rows[l].generation, token, now, lease) + SoloEnding(token, now));
    }
  }

  /** Over every run a failed row can be claimed again at most 256 seconds after its failure. */
  lemma FailedRetriesSoon(f: Builder, events: seq<Event>, l: int, now: int)
    ensures var d := Run(f, EMPTY, events);
      l in d.rows && d.rows[l].status.Failed? && d.rows[l].updated + 256 <= now ==> Available(d.rows[l], now)
  {
    RunKeeps(f, EMPTY, events);
    var d := Run(f, EMPTY, events);
    if l in d.rows { assert RowOk(d.rows[l]); }
  }

  // ---- the queue table, updated in place ----

  datatype Ticket = Ticket(legacy: int, generation: int, token: int)

  datatype Answer = BuildReady | BuildStale | BuildFailed

  class ProfileTable {
    var rows: map<int, Row>
    var evidence: map<int, Evidence>

    constructor ()
      ensures rows == map[] && evidence == map[]
    {
      rows, evidence := map[], map[];
    }

    /** invalidate_in_transaction over the sorted, distinct ids. */
    method Invalidate(ids: seq<int>, now: int)
      requires forall i, j :: 0 <= i < j < |ids| ==> ids[i] != ids[j]
      modifies this`rows
      ensures forall l :: l in ids && l in evidence ==> l in rows && rows[l] == Invalidated(old(rows), l, now)
      ensures forall l :: l !in ids || l !in evidence ==> (l in rows <==> l in old(rows)) && (l in rows ==> rows[l] == old(rows)[l])
    {
      for i := 0 to |ids|
        invariant forall l :: l in ids[..i] && l in evidence ==> l in rows && rows[l] == Invalidated(old(rows), l, now)
        invariant forall l :: l !in ids[..i] || l !in evidence ==> (l in rows <==> l in old(rows)) && (l in rows ==> rows[l] == old(rows)[l])
      {
        var l := ids[i];
        assert l !in ids[..i];
        if l in evidence {
          if l in rows {
            rows := rows[l := rows[l].(generation := rows[l].generation + 1, profile := None, status := Pending, attempts := 0,
                                       nextAttempt := None, updated := now)];
          } else {
            rows := rows[l := Row(1, 0, None, Pending, None, None, 0, None, now)];
          }
        }
      }
    }

    /** claim: the first listed candidate that can still be claimed. tokens[i] is drawn for candidate i. */
    method ClaimNext(candidates: seq<(int, int)>, tokens: seq<int>, now: int, lease: nat) returns (claim: Option<Ticket>)
      requires |tokens| == |candidates|
      modifies this`rows
      ensures claim.None? ==> rows == old(rows) && forall i :: 0 <= i < |candidates| ==> !Claimable(old(rows), candidates[i], now)
      ensures claim.Some? ==>
        exists i :: 0 <= i < |candidates| && claim.value == Ticket(candidates[i].0, candidates[i].1, tokens[i])
          && Claimable(old(rows), candidates[i], now) && (forall j :: 0 <= j < i ==> !Claimable(old(rows), candidates[j], now))
          && rows == old(rows)[candidates[i].0 := Leased(old(rows)[candidates[i].0], tokens[i], now, lease)]
    {
      for i := 0 to |candidates|
        invariant rows == old(rows) && forall j :: 0 <= j < i ==> !Claimable(rows, candidates[j], now)
      {
        var (legacy, generation) := candidates[i];
        if legacy in rows && rows[legacy].generation == generation && Available(rows[legacy], now) {
          assert Claimable(rows, candidates[i], now);
          var r := rows[legacy];
          r := r.(token := Some(tokens[i]), leaseUntil := Some(now + lease));
          r := r.(status := Building, attempts := r.attempts + 1, updated := now);
          rows := rows[legacy := r];
          return Some(Ticket(legacy, generation, tokens[i]));
        }
      }
      claim := None;
    }

    method ReleaseStale(claim: Ticket, now: int)
      modifies this`rows
      ensures rows == if HeldBy(old(rows), claim) then old(rows)[claim.legacy := Released(old(rows)[claim.legacy], now)] else old(rows)
    {
      if HeldBy(rows, claim) {
        rows := rows[claim.legacy := rows[claim.legacy].(status := Pending, token := None, leaseUntil := None, updated := now)];
      }
    }

    method FailBuild(claim: Ticket, now: int)
      modifies this`rows
      ensures rows == if HeldBy(old(rows), claim)
        then old(rows)[claim.legacy := Failing(old(rows)[claim.legacy], old(rows)[claim.legacy].generation == claim.generation, now)] else old(rows)
    {
      if !HeldBy(rows, claim) { return; }
      var r := rows[claim.legacy];
      var same := r.generation == claim.generation;
      var next: Option<int> := None;
      if same {
        var delay := Doubled(Min(r.attempts, 8));
        next := Some(now + Min(300, delay));
      }
      rows := rows[claim.legacy := r.(profile := None, status := if same then Status.Failed else Pending, token := None, leaseUntil := None,
                                      updated := now, nextAttempt := next)];
    }

    method Doubled(n: nat) returns (p: nat)
      ensures p == PowerOfTwo(n)
    {
      p := 1;
      for i := 0 to n
        invariant p == PowerOfTwo(i)
      {
        p := 2 * p;
      }
    }

    /** build, with no other step between its own. */
    method BuildOne(f: Builder, claim: Ticket, now: int) returns (answer: Answer)
      modifies this`rows
      ensures var made := Made(f, claim.legacy, claim.generation, FactsOf(evidence, claim.legacy));
        var current := HeldBy(old(rows), claim) && old(rows)[claim.legacy].generation == claim.generation;
        && (answer.BuildReady? <==> current && made.Some? && Running(old(rows)[claim.legacy].leaseUntil, now))
        && (answer.BuildReady? ==> rows == old(rows)[claim.legacy := Published(old(rows)[claim.legacy], made.value, now)])
        && (answer.BuildFailed? <==> current && made.None?)
        && (answer.BuildFailed? ==> rows == old(rows)[claim.legacy := Failing(old(rows)[claim.legacy], true, now)])
        && (answer.BuildStale? ==> rows == if HeldBy(old(rows), claim)
              then old(rows)[claim.legacy := Released(old(rows)[claim.legacy], now)] else old(rows))
    {
      if !HeldBy(rows, claim) || rows[claim.legacy].generation != claim.generation {
        ReleaseStale(claim, now);
        return BuildStale;
      }
      var output := Made(f, claim.legacy, claim.generation, FactsOf(evidence, claim.legacy));
      if output.None? {
        FailBuild(claim, now);
        return BuildFailed;
      }
      var r := rows[claim.legacy];
      if Running(r.leaseUntil, now) {
        rows := rows[claim.legacy := r.(profile := output, built := claim.generation, status := Status.Ready, updated := now, attempts := 0,
                                        token := None, leaseUntil := None, nextAttempt := None)];
        return BuildReady;
      }
      ReleaseStale(claim, now);
      answer := BuildStale;
    }
  }

  /** load_evidence: nothing for a Legacy that is gone. */
  function FactsOf(evidence: map<int, Evidence>, legacy: int): Evidence {
    if legacy in evidence then evidence[legacy] else Evidence([], [])
  }

  predicate Claimable(rows: map<int, Row>, candidate: (int, int), now: int) {
    candidate.0 in rows && rows[candidate.0].generation == candidate.1 && Available(rows[candidate.0], now)
  }

  predicate HeldBy(rows: map<int, Row>, claim: Ticket) {
    claim.legacy in rows && rows[claim.legacy].token == Some(claim.token)
  }

  /** The lease still runs. */
  predicate Running(leaseUntil: Option<int>, now: int) { leaseUntil.Some? && leaseUntil.value > now }
}
