// The promises of the media lifecycle, over every run.
module MediaGuarantees {
  import opened Wrappers
  import opened Sums
  import opened MediaLifecycle
  import opened MediaSafety

  // ---- storage ----

  /** Stored originals and open reservations together never exceed the owner's allowance. */
  lemma StaysWithinAllowance(limit: nat, events: seq<Event>)
    ensures Capacity(Run(NOTHING, limit, events)) <= limit
  {
    NothingOk(limit);
    RunKeeps(NOTHING, limit, {}, events);
    LoadIsCapacity(Run(NOTHING, limit, events));
  }

  // ---- one way ----

  /** Nothing leaves deletion, generations only grow, and a source that is gone from the table never comes back. */
  ghost predicate Follows(d: Db, e: Db) {
    && d.used <= e.used
    && (forall s :: s in d.sources && s in e.sources ==> Onward(d.sources[s], e.sources[s]))
    && (forall s :: s in d.used && s !in d.sources ==> s !in e.sources)
    && (OneRequest(d.sources) ==> OneRequest(e.sources))
  }

  predicate Onward(x: Source, y: Source) {
    SameRequest(x, y) && y.visual == x.visual && y.digest == x.digest && x.generation <= y.generation && (Gone(x.state) ==> Gone(y.state)) && (x.state.Deleted? ==> y.state.Deleted?)
  }

  lemma FollowsTrans(a: Db, b: Db, c: Db)
    requires Follows(a, b) && Follows(b, c) && (forall s :: s in a.sources ==> s in a.used)
    ensures Follows(a, c)
  {
  }

  /** A step that touches at most one source. */
  lemma OneFollows(d: Db, e: Db, s: int)
    requires d.used <= e.used && (e.sources == d.sources || (s in d.sources && s in e.sources && Onward(d.sources[s], e.sources[s])
      && e.sources == d.sources[s := e.sources[s]]))
    ensures Follows(d, e)
  {
  }

  lemma EraseLaterFollows(d: Db, s: int, job: int)
    requires s in d.sources
    ensures Follows(d, EraseLater(d, s, job)) && EraseLater(d, s, job).sources.Keys == d.sources.Keys
  {
    hide HasPurge, CancelJobs, WithdrawCandidates, UnlinkSource;
    OneFollows(d, EraseLater(d, s, job), s);
  }

  lemma {:induction false} EraseAllLaterFollows(d: Db, work: seq<(int, int)>)
    requires forall s :: s in d.sources ==> s in d.used
    ensures Follows(d, EraseAllLater(d, work))
    decreases |work|
  {
    if work != [] {
      if work[0].0 in d.sources {
        var f := EraseLater(d, work[0].0, work[0].1);
        EraseLaterFollows(d, work[0].0, work[0].1);
        EraseAllLaterFollows(f, work[1..]);
        FollowsTrans(d, f, EraseAllLater(f, work[1..]));
      } else {
        EraseAllLaterFollows(d, work[1..]);
      }
    }
  }

  lemma DeleteFollows(d: Db, s: int, job: int)
    requires s in d.sources
    ensures Follows(d, DeleteSource(d, s, job))
  {
    hide CancelJobs, WithdrawCandidates, UnlinkSource;
    OneFollows(d, DeleteSource(d, s, job), s);
  }

  lemma RetryFollows(d: Db, s: int, job: int)
    ensures Follows(d, Retry(d, s, job))
  {
    hide Follows, Requeued, HasExtract;
    if Retries(d, s, job) { SetFollows(d, Retry(d, s, job), s, d.sources[s].(state := Queued)); } else { Unmoved(d, d); }
  }

  lemma CreateFollows(d: Db, u: Upload, limit: nat)
    requires forall s :: s in d.sources ==> s in d.used
    ensures Follows(d, Create(d, u, limit))
  {
  }

  lemma SetFollows(d: Db, e: Db, s: int, y: Source)
    requires d.used <= e.used && s in d.sources && Onward(d.sources[s], y) && e.sources == d.sources[s := y]
    ensures Follows(d, e)
  {
  }

  lemma BeginFollows(d: Db, s: int, data: string)
    ensures Follows(d, BeginReceive(d, s, data))
  {
    hide Follows;
    if d.receiving.None? && s in d.sources && d.sources[s].state.Uploading? && d.sources[s].expires <= d.clock {
      SetFollows(d, BeginReceive(d, s, data), s, Expired(d.sources[s]));
    } else {
      Unmoved(d, BeginReceive(d, s, data));
    }
  }

  lemma CommitFollows(d: Db)
    requires ReceivingOk(d.receiving, d.sources)
    ensures Follows(d, CommitReceive(d))
  {
    if d.receiving.Some? { OneFollows(d, CommitReceive(d), d.receiving.value.source); }
  }

  lemma ClaimFollows(d: Db, j: int, token: int, lease: nat)
    ensures Follows(d, ClaimJob(d, j, token, lease))
  {
    if j in d.jobs { OneFollows(d, ClaimJob(d, j, token, lease), d.jobs[j].source); }
  }

  lemma FailFollows(d: Db, token: int)
    ensures Follows(d, FailJob(d, token))
  {
    OneFollows(d, FailJob(d, token), if token in d.workers then d.workers[token].source else 0);
  }

  lemma ValidateFollows(d: Db, token: int, ok: bool)
    ensures Follows(d, ValidateVisual(d, token, ok))
  {
    hide Follows;
    OneFollows(d, ValidateVisual(d, token, ok), if token in d.workers then d.workers[token].source else 0);
  }

  lemma PurgeFollows(d: Db, token: int)
    ensures Follows(d, FinishPurge(d, token))
  {
    OneFollows(d, FinishPurge(d, token), if token in d.workers then d.workers[token].source else 0);
  }

  lemma PersistFollows(d: Db, token: int, found: map<int, string>)
    ensures Follows(d, Persist(d, token, found))
  {
    hide Added, Persists;
    if token in d.workers { OneFollows(d, Persist(d, token, found), d.workers[token].source); }
  }

  /** A step that touches no source. */
  lemma Unmoved(d: Db, e: Db)
    requires d.used <= e.used && e.sources == d.sources
    ensures Follows(d, e)
  {
  }

  lemma DropFollows(d: Db, run: int)
    ensures Follows(d, DropLegacy(d, run))
  {
  }

  lemma PreserveFollows(d: Db, k: int, version: nat, memory: int, link: int)
    ensures Follows(d, Preserve(d, k, version, memory, link))
  {
  }

  lemma WorkerFollows(d: Db, limit: nat, e: Event)
    requires e.DoAnalyse? || e.DoErase? || e.DoCancelStale? || e.DoRetryPurge?
    ensures Follows(d, Step(d, limit, e))
  {
    Unmoved(d, Step(d, limit, e));
  }

  lemma QuietFollows(d: Db, limit: nat, e: Event)
    requires e.DoTick? || e.DoNewLegacy? || e.DoStore? || e.DoAbandon? || e.DoCleanUp? || e.DoSkip? || e.DoReadRegistry? || e.DoEraseKey?
    ensures Follows(d, Step(d, limit, e))
  {
    Unmoved(d, Step(d, limit, e));
  }

  lemma StepFollows(d: Db, limit: nat, lost: set<int>, e: Event)
    requires Inv(d, limit, lost)
    ensures Follows(d, Step(d, limit, e))
  {
    assert ReceivingOk(d.receiving, d.sources) && forall s :: s in d.sources ==> s in d.used;
    StepFollowsToo(d, limit, lost, e);
  }

  lemma StepFollowsToo(d: Db, limit: nat, lost: set<int>, e: Event)
    requires Inv(d, limit, lost) && ReceivingOk(d.receiving, d.sources) && forall s :: s in d.sources ==> s in d.used
    ensures Follows(d, Step(d, limit, e))
  {
    hide Inv, ReceivingOk, Follows, Create, BeginReceive, CommitReceive, DeleteSource, Retry, ClaimJob, Persist, FailJob, CancelStale, ValidateVisual,
      FinishPurge, Preserve, DropLegacy, RequestDeletion, Analyse, EraseForPurge, RetryPurge;
    match e
    case DoRequestDeletion(l, work) => RequestFollows(d, limit, lost, l, work);
    case DoDelete(s, job) => if s in d.sources { DeleteFollows(d, s, job); } SameFollows(d);
    case DoRetry(s, job) => RetryFollows(d, s, job);
    case DoClaim(j, token, lease) => ClaimFollows(d, j, token, lease);
    case DoPersist(token, found) => PersistFollows(d, token, found);
    case DoCreate(u) => CreateFollows(d, u, limit);
    case DoBeginReceive(s, data) => BeginFollows(d, s, data);
    case DoCommit => CommitFollows(d);
    case DoFail(token) => FailFollows(d, token);
    case DoValidate(token, ok) => ValidateFollows(d, token, ok);
    case DoFinishPurge(token) => PurgeFollows(d, token);
    case DoPreserve(k, version, memory, link) => PreserveFollows(d, k, version, memory, link);
    case DoDropLegacy(run) => DropFollows(d, run);
    case DoAnalyse(_) => WorkerFollows(d, limit, e);
    case DoErase(_) => WorkerFollows(d, limit, e);
    case DoCancelStale(_) => WorkerFollows(d, limit, e);
    case DoRetryPurge(_) => WorkerFollows(d, limit, e);
    case _ => QuietFollows(d, limit, e);
  }

  lemma SameFollows(d: Db)
    ensures Follows(d, d)
  {
  }

  lemma RequestFollows(d: Db, limit: nat, lost: set<int>, l: int, work: seq<(int, int)>)
    requires Inv(d, limit, lost)
    ensures Follows(d, RequestDeletion(d, l, work))
  {
    EraseAllLaterFollows(d, work);
    SameFollows(d);
    if RequestDeletion(d, l, work) != d { SameSources(d, EraseAllLater(d, work), RequestDeletion(d, l, work)); }
  }

  lemma SameSources(d: Db, e: Db, f: Db)
    requires Follows(d, e) && f.sources == e.sources && f.used == e.used
    ensures Follows(d, f)
  {
  }

  lemma {:induction false} RunFollows(d: Db, limit: nat, lost: set<int>, events: seq<Event>)
    requires Inv(d, limit, lost)
    ensures Follows(d, Run(d, limit, events))
    decreases |events|
  {
    if events != [] {
      var e := Step(d, limit, events[0]);
      StepKeeps(d, limit, lost, events[0]);
      StepFollows(d, limit, lost, events[0]);
      RunFollows(e, limit, lost + Lost(d, events[0]), events[1..]);
      FollowsTrans(d, e, Run(e, limit, events[1..]));
    }
  }

  /** A source on its way out stays so through every worker result, retry, upload and crash; once deleted or
      dropped, nothing is ever stored under its key again. */
  lemma ErasedForever(d: Db, limit: nat, lost: set<int>, events: seq<Event>, s: int)
    requires Inv(d, limit, lost) && s in d.used
    ensures var e := Run(d, limit, events);
      && (s in d.sources && Gone(d.sources[s].state) ==> s in e.sources ==> Gone(e.sources[s].state))
      && ((s in d.sources && d.sources[s].state.Deleted?) || s !in d.sources ==> s !in e.objects)
  {
    RunKeeps(d, limit, lost, events);
    RunFollows(d, limit, lost, events);
  }

  /** Every stored object belongs to a registered source that is not deleted, also after a crash between
      storing and committing. */
  lemma NoStrayObjects(limit: nat, events: seq<Event>, s: int)
    ensures var d := Run(NOTHING, limit, events); s in d.objects ==> s in d.sources && !d.sources[s].state.Deleted?
  {
    NothingOk(limit);
    RunKeeps(NOTHING, limit, {}, events);
  }

  /** A source that is gone from the table has no bytes, links or candidates, then or later. */
  lemma ForgottenForever(d: Db, limit: nat, lost: set<int>, events: seq<Event>, s: int)
    requires Inv(d, limit, lost) && s in d.used && s !in d.sources
    ensures var e := Run(d, limit, events);
      && s !in e.sources && s !in e.objects
      && (forall k :: k in e.links ==> e.links[k].source != s) && (forall k :: k in e.candidates ==> e.candidates[k].source != s)
  {
    RunKeeps(d, limit, lost, events);
    RunFollows(d, limit, lost, events);
  }

  lemma DropForgets(d: Db, limit: nat, lost: set<int>, run: int, s: int)
    requires Inv(d, limit, lost) && Drops(d, run) && s in d.finalizers[run].registry
    ensures s in d.finalizers[run].erased && s in d.sources && d.sources[s].legacy == d.finalizers[run].legacy
    ensures var f := DropLegacy(d, run); s in f.used && s !in f.sources && d.finalizers[run].legacy !in f.legacies
  {
    assert s in Registry(d, d.finalizers[run].legacy);
  }

  /** Dropping a Legacy happens after every registered key was erased, and leaves none of its sources' rows and bytes, ever. */
  lemma DroppedForever(d: Db, limit: nat, lost: set<int>, run: int, events: seq<Event>, s: int)
    requires Inv(d, limit, lost) && Drops(d, run) && s in d.finalizers[run].registry
    ensures s in d.finalizers[run].erased && s in d.sources && d.sources[s].legacy == d.finalizers[run].legacy
    ensures d.finalizers[run].legacy !in Step(d, limit, DoDropLegacy(run)).legacies
    ensures var e := Run(Step(d, limit, DoDropLegacy(run)), limit, events);
      && s !in e.sources && s !in e.objects
      && (forall k :: k in e.links ==> e.links[k].source != s) && (forall k :: k in e.candidates ==> e.candidates[k].source != s)
  {
    hide Inv, Drops, DropLegacy;
    DropForgets(d, limit, lost, run, s);
    StepKeeps(d, limit, lost, DoDropLegacy(run));
    ForgottenForever(DropLegacy(d, run), limit, lost + {}, events, s);
  }

  // ---- provenance ----

  /** A memory that came from sources is usable only while one of them is still there. */
  lemma UsableIsSupported(limit: nat, events: seq<Event>, memory: int)
    ensures var d := Run(NOTHING, limit, events);
      Usable(d, memory) ==>
        (forall k :: k in d.links ==> d.links[k].memory != memory)
        || (exists k :: k in d.links && d.links[k].memory == memory && d.links[k].source in d.sources && !Gone(d.sources[d.links[k].source].state))
  {
    NothingOk(limit);
    RunKeeps(NOTHING, limit, {}, events);
    var d := Run(NOTHING, limit, events);
    if Usable(d, memory) && FromSources(d, memory) {
      var k :| k in d.links && d.links[k].memory == memory && d.links[k].approved;
      assert k in d.links && d.links[k].source in d.sources;
    }
  }

  predicate FromSources(d: Db, memory: int) { exists k :: k in d.links && d.links[k].memory == memory }

  predicate AllGone(d: Db, memory: int) {
    forall k :: k in d.links && d.links[k].memory == memory ==> d.links[k].source in d.sources && Gone(d.sources[d.links[k].source].state)
  }

  lemma GoneIsWithdrawn(d: Db, limit: nat, lost: set<int>, s: int)
    requires Inv(d, limit, lost) && (s in d.sources ==> Gone(d.sources[s].state))
    ensures forall k :: k in d.candidates && d.candidates[k].source == s ==> d.candidates[k].content.None? && !d.candidates[k].decision.Pending?
    ensures forall k :: k in d.links && d.links[k].source == s ==> !d.links[k].approved
  {
  }

  lemma UnsupportedIsUnusable(d: Db, limit: nat, lost: set<int>, memory: int)
    requires Inv(d, limit, lost) && FromSources(d, memory) && AllGone(d, memory)
    ensures !Usable(d, memory)
  {
  }

  /** Whatever happens after a source began to be deleted: none of its candidates is open or keeps any text, none of its
      links supports a memory, and a memory whose sources have all gone that way is unusable. */
  lemma WithdrawnForever(limit: nat, before: seq<Event>, events: seq<Event>, s: int, memory: int)
    ensures var d := Run(NOTHING, limit, before);
      var e := Run(d, limit, events);
      s in d.sources && Gone(d.sources[s].state) ==>
        && (forall k :: k in e.candidates && e.candidates[k].source == s ==> e.candidates[k].content.None? && !e.candidates[k].decision.Pending?)
        && (forall k :: k in e.links && e.links[k].source == s ==> !e.links[k].approved)
        && (FromSources(e, memory) && AllGone(e, memory) ==> !Usable(e, memory))
  {
    hide Inv, FromSources, AllGone, Usable;
    var d, lost := Run(NOTHING, limit, before), LostIn(NOTHING, limit, before);
    var e := Run(d, limit, events);
    NothingOk(limit);
    RunKeeps(NOTHING, limit, {}, before);
    if s in d.sources && Gone(d.sources[s].state) {
      RunKeeps(d, limit, {} + lost, events);
      RunFollows(d, limit, {} + lost, events);
      GoneIsWithdrawn(e, limit, {} + lost + LostIn(d, limit, events), s);
      if FromSources(e, memory) && AllGone(e, memory) { UnsupportedIsUnusable(e, limit, {} + lost + LostIn(d, limit, events), memory); }
    }
  }

  lemma ApprovalSupports(d: Db, k: int, version: nat, memory: int, link: int)
    requires Approves(d, k, version) && link !in d.used
    ensures var e := Preserve(d, k, version, memory, link);
      && Usable(e, memory) && e.candidates == d.candidates[k := d.candidates[k].(decision := Preserved)]
      && e.links == d.links[link := Link(memory, k, d.candidates[k].source, true)]
  {
    assert link in Preserve(d, k, version, memory, link).links;
  }

  // ---- decisions ----

  /** Candidate k may still be linked: it is open, or there is no such candidate yet. */
  predicate Undecided(d: Db, k: int) {
    if k in d.candidates then d.candidates[k].decision.Pending? else k !in d.used
  }

  /** Decisions are final, links are made only for open candidates, and support ends only with its source. */
  ghost predicate Decides(d: Db, e: Db) {
    && (forall k :: k in d.candidates && k in e.candidates ==>
          e.candidates[k].source == d.candidates[k].source
          && (!d.candidates[k].decision.Pending? ==> e.candidates[k].decision == d.candidates[k].decision))
    && (forall k :: k in d.candidates && k !in e.candidates ==> d.candidates[k].source !in e.sources)
    && (forall k :: k in d.used && k !in d.candidates ==> k !in e.candidates)
    && (forall j :: j in e.links && j !in d.links ==>
          j !in d.used && Undecided(d, e.links[j].candidate) && !Undecided(e, e.links[j].candidate))
    && (forall j :: j in d.links && j in e.links ==> LinkStays(d.links[j], e.links[j], e))
    && (forall j :: j in d.links && j !in e.links ==> d.links[j].source !in e.sources)
  }

  predicate LinkStays(a: Link, b: Link, e: Db) {
    b.candidate == a.candidate && b.memory == a.memory && b.source == a.source
    && (a.approved && !b.approved && b.source in e.sources ==> Gone(e.sources[b.source].state))
  }

  /** What is in use: ids of candidates and links, and the sources they belong to. */
  ghost predicate InUse(d: Db) {
    && (forall k :: k in d.candidates ==> k in d.used && d.candidates[k].source in d.used)
    && (forall j :: j in d.links ==> j in d.used && d.links[j].source in d.used)
  }

  lemma InvInUse(d: Db, limit: nat, lost: set<int>)
    requires Inv(d, limit, lost)
    ensures InUse(d)
  {
  }

  lemma CandidatesDecideTrans(a: Db, b: Db, c: Db)
    requires Decides(a, b) && Decides(b, c) && Follows(b, c) && a.used <= b.used && InUse(a) && InUse(b)
    ensures forall k :: k in a.candidates && k in c.candidates ==>
      c.candidates[k].source == a.candidates[k].source
      && (!a.candidates[k].decision.Pending? ==> c.candidates[k].decision == a.candidates[k].decision)
    ensures forall k :: k in a.candidates && k !in c.candidates ==> a.candidates[k].source !in c.sources
    ensures forall k :: k in a.used && k !in a.candidates ==> k !in c.candidates
  {
  }

  lemma UndecidedBefore(a: Db, b: Db, k: int)
    requires Decides(a, b) && a.used <= b.used && InUse(a) && Undecided(b, k)
    ensures Undecided(a, k)
  {
  }

  lemma DecidedAfter(b: Db, c: Db, k: int)
    requires Decides(b, c) && b.used <= c.used && InUse(b) && !Undecided(b, k)
    ensures !Undecided(c, k)
  {
  }

  lemma NewLinksTrans(a: Db, b: Db, c: Db, j: int)
    requires Decides(a, b) && Decides(b, c) && a.used <= b.used <= c.used && InUse(a) && InUse(b) && j in c.links && j !in a.links
    ensures j !in a.used && Undecided(a, c.links[j].candidate) && !Undecided(c, c.links[j].candidate)
  {
    var k := c.links[j].candidate;
    if j in b.links { DecidedAfter(b, c, k); } else { UndecidedBefore(a, b, k); }
  }

  lemma LinksStayTrans(a: Db, b: Db, c: Db, j: int)
    requires Decides(a, b) && Decides(b, c) && Follows(b, c) && InUse(a) && InUse(b) && a.used <= b.used && j in a.links
    ensures if j in c.links then LinkStays(a.links[j], c.links[j], c) else a.links[j].source !in c.sources
  {
    if j in b.links { assert LinkStays(a.links[j], b.links[j], b); }
  }

  lemma DecidesTrans(a: Db, b: Db, c: Db)
    requires Decides(a, b) && Decides(b, c) && Follows(b, c) && a.used <= b.used <= c.used && InUse(a) && InUse(b)
    ensures Decides(a, c)
  {
    CandidatesDecideTrans(a, b, c);
    forall j | j in c.links && j !in a.links
      ensures j !in a.used && Undecided(a, c.links[j].candidate) && !Undecided(c, c.links[j].candidate) {
      NewLinksTrans(a, b, c, j);
    }
    forall j | j in a.links ensures if j in c.links then LinkStays(a.links[j], c.links[j], c) else a.links[j].source !in c.sources {
      LinksStayTrans(a, b, c, j);
    }
  }

  /** A step that touches neither candidates nor links. */
  ghost predicate SameReview(d: Db, e: Db) { e.candidates == d.candidates && e.links == d.links && d.used <= e.used }

  lemma SameReviewDecides(d: Db, e: Db)
    requires SameReview(d, e)
    ensures Decides(d, e)
  {
  }

  lemma BeginReview(d: Db, s: int, data: string)
    ensures SameReview(d, BeginReceive(d, s, data)) && BeginReceive(d, s, data).workers == d.workers
  {
    if d.receiving.None? && s in d.sources && d.sources[s].state.Uploading? {
      if d.sources[s].expires <= d.clock { assert BeginReceive(d, s, data) == SetSource(d, s, Expired(d.sources[s])); }
    }
  }

  lemma StoreReview(d: Db)
    ensures SameReview(d, StoreObject(d)) && StoreObject(d).workers == d.workers
  {
    if d.receiving.Some? {}
  }

  lemma CommitReview(d: Db)
    ensures SameReview(d, CommitReceive(d)) && CommitReceive(d).workers == d.workers
  {
    if d.receiving.Some? {}
  }

  lemma AbandonReview(d: Db, owed: bool)
    ensures SameReview(d, AbandonReceive(d, owed)) && AbandonReceive(d, owed).workers == d.workers
  {
    if d.receiving.Some? {}
  }

  lemma CleanUpReview(d: Db, s: int)
    ensures SameReview(d, CleanUp(d, s)) && CleanUp(d, s).workers == d.workers
  {
    if s in d.cleanups {}
  }

  lemma CreateReview(d: Db, limit: nat, u: Upload)
    ensures SameReview(d, Create(d, u, limit))
  {
    hide Creates;
    if Creates(d, u, limit) {}
  }

  lemma RetryReview(d: Db, s: int, job: int)
    ensures SameReview(d, Retry(d, s, job))
  {
    hide Retries, Requeued, HasExtract;
    if Retries(d, s, job) {}
  }

  lemma ClaimReview(d: Db, j: int, token: int, lease: nat)
    ensures SameReview(d, ClaimJob(d, j, token, lease))
  {
    hide Claimable;
  }

  lemma WorkerReview(d: Db, token: int)
    ensures SameReview(d, Analyse(d, token)) && SameReview(d, FailJob(d, token)) && SameReview(d, CancelStale(d, token))
  {
  }

  lemma ValidateReview(d: Db, token: int, ok: bool)
    ensures SameReview(d, ValidateVisual(d, token, ok))
  {
  }

  lemma PurgeReview(d: Db, token: int)
    ensures SameReview(d, RetryPurge(d, token)) && SameReview(d, FinishPurge(d, token))
  {
    if Holding(d, token) {}
  }

  lemma ErasureReview(d: Db, token: int, run: int, s: int)
    ensures SameReview(d, EraseForPurge(d, token)) && SameReview(d, EraseKey(d, run, s))
  {
    if token in d.workers {}
    if run in d.finalizers {}
  }

  lemma QuietReview(d: Db, limit: nat, e: Event)
    requires e.DoTick? || e.DoNewLegacy? || e.DoReadRegistry?
    ensures SameReview(d, Step(d, limit, e))
  {
    hide AllErased, Registry;
    if e.DoTick? {} else if e.DoNewLegacy? {} else {}
  }

  lemma PersistDecides(d: Db, token: int, found: map<int, string>)
    ensures Decides(d, Persist(d, token, found))
  {
    hide Persists, Current;
    if Current(d, token) {
      if Persist(d, token, found) != d { assert Persist(d, token, found).links == d.links; }
    }
  }

  lemma SkipDecides(d: Db, k: int, version: nat)
    ensures Decides(d, Skip(d, k, version))
  {
    if Reviewable(d, k, version) {} else { SameReviewDecides(d, d); }
  }

  lemma PreserveDecides(d: Db, k: int, version: nat, memory: int, link: int)
    requires InUse(d)
    ensures Decides(d, Preserve(d, k, version, memory, link))
  {
    if Approves(d, k, version) && link !in d.used { hide Approves; } else { SameReviewDecides(d, d); }
  }

  lemma DeleteDecides(d: Db, s: int, job: int)
    requires s in d.sources
    ensures Decides(d, DeleteSource(d, s, job))
  {
    hide CancelJobs;
  }

  lemma EraseLaterDecides(d: Db, s: int, job: int)
    requires s in d.sources
    ensures Decides(d, EraseLater(d, s, job))
  {
    hide CancelJobs, HasPurge, DeleteSource;
    DeleteDecides(d, s, job);
  }

  lemma DeleteInUse(d: Db, s: int, job: int)
    requires s in d.sources && InUse(d)
    ensures InUse(DeleteSource(d, s, job)) && d.used <= DeleteSource(d, s, job).used
  {
    hide CancelJobs;
    if Gone(d.sources[s].state) {}
  }

  lemma EraseLaterInUse(d: Db, s: int, job: int)
    requires s in d.sources && InUse(d)
    ensures InUse(EraseLater(d, s, job)) && d.used <= EraseLater(d, s, job).used
  {
    hide DeleteSource, HasPurge;
    DeleteInUse(d, s, job);
  }

  lemma {:induction false} EraseAllLaterDecides(d: Db, work: seq<(int, int)>)
    requires InUse(d) && forall s :: s in d.sources ==> s in d.used
    ensures Decides(d, EraseAllLater(d, work))
    decreases |work|
  {
    hide Decides, InUse, Follows, EraseLater;
    if work == [] {
      SameReviewDecides(d, d);
    } else if work[0].0 in d.sources {
      var e := EraseLater(d, work[0].0, work[0].1);
      EraseLaterDecides(d, work[0].0, work[0].1);
      EraseLaterInUse(d, work[0].0, work[0].1);
      EraseLaterFollows(d, work[0].0, work[0].1);
      EraseAllLaterDecides(e, work[1..]);
      EraseAllLaterFollows(e, work[1..]);
      EraseAllLaterUses(e, work[1..]);
      DecidesTrans(d, e, EraseAllLater(e, work[1..]));
    } else {
      EraseAllLaterDecides(d, work[1..]);
    }
  }

  lemma EraseAllLaterUses(d: Db, work: seq<(int, int)>)
    requires forall s :: s in d.sources ==> s in d.used
    ensures d.used <= EraseAllLater(d, work).used
  {
    EraseAllLaterFollows(d, work);
  }

  lemma SameTables(d: Db, e: Db, f: Db)
    requires Decides(d, e) && f.candidates == e.candidates && f.links == e.links && f.sources == e.sources && f.used == e.used
    ensures Decides(d, f)
  {
  }

  lemma RequestDecides(d: Db, limit: nat, lost: set<int>, l: int, work: seq<(int, int)>)
    requires Inv(d, limit, lost)
    ensures Decides(d, RequestDeletion(d, l, work))
  {
    InvInUse(d, limit, lost);
    assert forall s :: s in d.sources ==> s in d.used;
    hide Inv, InUse, Covers, Decides;
    SameIsSame(d);
    SameReviewDecides(d, d);
    EraseAllLaterDecides(d, work);
    SameTables(d, EraseAllLater(d, work), EraseAllLater(d, work).(legacies := EraseAllLater(d, work).legacies[l := true]));
  }

  lemma DropDecides(d: Db, run: int)
    requires InUse(d)
    ensures Decides(d, DropLegacy(d, run))
  {
  }

  lemma StepDecides(d: Db, limit: nat, lost: set<int>, e: Event)
    requires Inv(d, limit, lost)
    ensures Decides(d, Step(d, limit, e))
  {
    InvInUse(d, limit, lost);
    hide Inv, InUse, Decides, SameReview, DeleteSource, Persist, DropLegacy, RequestDeletion, Skip, Preserve;
    var f := Step(d, limit, e);
    match e
    case DoPersist(token, found) => PersistDecides(d, token, found);
    case DoSkip(k, version) => SkipDecides(d, k, version);
    case DoPreserve(k, version, memory, link) => PreserveDecides(d, k, version, memory, link);
    case DoDelete(s, job) =>
      SameIsSame(d);
      SameReviewDecides(d, d);
      if s in d.sources { DeleteDecides(d, s, job); }
    case DoRequestDeletion(l, work) => RequestDecides(d, limit, lost, l, work);
    case DoDropLegacy(run) => DropDecides(d, run);
    case _ =>
      OtherReview(d, limit, e);
      SameReviewDecides(d, f);
  }

  lemma SameIsSame(d: Db)
    ensures SameReview(d, d)
  {
  }

  lemma OtherReview(d: Db, limit: nat, e: Event)
    requires !e.DoPersist? && !e.DoSkip? && !e.DoPreserve? && !e.DoDelete? && !e.DoRequestDeletion? && !e.DoDropLegacy?
    ensures SameReview(d, Step(d, limit, e))
  {
    hide SameReview, Create, BeginReceive, StoreObject, CommitReceive, AbandonReceive, CleanUp, Retry, ClaimJob, FailJob, CancelStale, ValidateVisual,
      FinishPurge, Analyse, EraseForPurge, RetryPurge, EraseKey;
    match e
    case DoCreate(u) => CreateReview(d, limit, u);
    case DoBeginReceive(s, data) => BeginReview(d, s, data);
    case DoStore => StoreReview(d);
    case DoCommit => CommitReview(d);
    case DoAbandon(owed) => AbandonReview(d, owed);
    case DoCleanUp(s) => CleanUpReview(d, s);
    case DoRetry(s, job) => RetryReview(d, s, job);
    case DoClaim(j, token, lease) => ClaimReview(d, j, token, lease);
    case DoAnalyse(token) => WorkerReview(d, token);
    case DoFail(token) => WorkerReview(d, token);
    case DoCancelStale(token) => WorkerReview(d, token);
    case DoValidate(token, ok) => ValidateReview(d, token, ok);
    case DoErase(token) => ErasureReview(d, token, 0, 0);
    case DoRetryPurge(token) => PurgeReview(d, token);
    case DoFinishPurge(token) => PurgeReview(d, token);
    case DoEraseKey(run, s) => ErasureReview(d, 0, run, s);
    case _ => QuietReview(d, limit, e);
  }

  lemma {:induction false} RunDecides(d: Db, limit: nat, lost: set<int>, events: seq<Event>)
    requires Inv(d, limit, lost)
    ensures Decides(d, Run(d, limit, events))
    decreases |events|
  {
    if events == [] {
      SameReviewDecides(d, d);
    } else {
      hide Inv, Decides, InUse, Step, Follows;
      var e := Step(d, limit, events[0]);
      StepKeeps(d, limit, lost, events[0]);
      StepDecides(d, limit, lost, events[0]);
      StepUses(d, limit, lost, events[0]);
      RunDecides(e, limit, lost + Lost(d, events[0]), events[1..]);
      RunFollows(e, limit, lost + Lost(d, events[0]), events[1..]);
      RunUses(e, limit, lost + Lost(d, events[0]), events[1..]);
      InvInUse(d, limit, lost);
      InvInUse(e, limit, lost + Lost(d, events[0]));
      DecidesTrans(d, e, Run(e, limit, events[1..]));
    }
  }

  lemma StepUses(d: Db, limit: nat, lost: set<int>, e: Event)
    requires Inv(d, limit, lost)
    ensures d.used <= Step(d, limit, e).used
  {
    hide Inv, Step;
    StepFollows(d, limit, lost, e);
  }

  lemma RunUses(d: Db, limit: nat, lost: set<int>, events: seq<Event>)
    requires Inv(d, limit, lost)
    ensures d.used <= Run(d, limit, events).used
  {
    hide Inv, Step;
    RunFollows(d, limit, lost, events);
  }

  /** Every link belongs to a candidate that has been decided. */
  ghost predicate LinksDecided(d: Db) {
    forall j :: j in d.links ==> !Undecided(d, d.links[j].candidate)
  }

  lemma LinksStayDecided(d: Db, e: Db)
    requires LinksDecided(d) && Decides(d, e) && d.used <= e.used && InUse(d)
    ensures LinksDecided(e)
  {
    forall j | j in e.links ensures !Undecided(e, e.links[j].candidate) {
      if j in d.links {
        assert LinkStays(d.links[j], e.links[j], e);
        DecidedAfter(d, e, e.links[j].candidate);
      }
    }
  }

  /** What one approval, and nothing else, is for its candidate. */
  ghost predicate ApprovedOnce(d: Db, k: int, s: int, link: int) {
    && (if k in d.candidates then d.candidates[k].decision.Preserved? else s !in d.sources)
    && (forall j :: j in d.links && d.links[j].candidate == k ==> j == link)
    && (s in d.sources && !Gone(d.sources[s].state) ==> link in d.links && d.links[link].approved && d.links[link].candidate == k)
  }

  lemma ApprovedOnceStays(d: Db, e: Db, k: int, s: int, link: int)
    requires Decides(d, e) && InUse(d) && ApprovedOnce(d, k, s, link) && k in d.candidates && d.candidates[k].source == s
    requires link in d.links && d.links[link] == Link(d.links[link].memory, k, s, true)
    ensures ApprovedOnce(e, k, s, link)
  {
    if link in e.links { assert LinkStays(d.links[link], e.links[link], e); }
    forall j | j in e.links && e.links[j].candidate == k ensures j == link {
      if j in d.links { assert LinkStays(d.links[j], e.links[j], e); }
    }
  }

  /** Over every run before and after it, an approval is final: the candidate stays preserved until its source's Legacy is
      dropped, no second link is ever made for it, and the one link supports its memory until the source is deleted. */
  lemma ApprovalIsFinal(limit: nat, before: seq<Event>, k: int, version: nat, memory: int, link: int, events: seq<Event>)
    ensures var d := Run(NOTHING, limit, before);
      Approves(d, k, version) && link !in d.used ==>
        ApprovedOnce(Run(Step(d, limit, DoPreserve(k, version, memory, link)), limit, events), k, d.candidates[k].source, link)
  {
    var d := Run(NOTHING, limit, before);
    if Approves(d, k, version) && link !in d.used {
      var f := Step(d, limit, DoPreserve(k, version, memory, link));
      var lost := LostIn(NOTHING, limit, before);
      ApprovalStarts(limit, before, k, version, memory, link);
      ApprovalSupports(d, k, version, memory, link);
      assert f.candidates[k].source == d.candidates[k].source && f.links[link] == Link(memory, k, d.candidates[k].source, true);
      hide Inv, Decides, InUse, Approves, Preserve, ApprovedOnce, Step;
      InvInUse(f, limit, lost);
      RunDecides(f, limit, lost, events);
      ApprovedOnceStays(f, Run(f, limit, events), k, d.candidates[k].source, link);
    }
  }

  lemma ApprovalStarts(limit: nat, before: seq<Event>, k: int, version: nat, memory: int, link: int)
    requires var d := Run(NOTHING, limit, before); Approves(d, k, version) && link !in d.used
    ensures var d := Run(NOTHING, limit, before);
      var f := Step(d, limit, DoPreserve(k, version, memory, link));
      Inv(f, limit, LostIn(NOTHING, limit, before)) && ApprovedOnce(f, k, d.candidates[k].source, link)
  {
    hide Inv, Decides, InUse, Approves, LinksDecided, ApprovedOnce, Preserve;
    var d, lost := Run(NOTHING, limit, before), LostIn(NOTHING, limit, before);
    NothingOk(limit);
    RunKeeps(NOTHING, limit, {}, before);
    assert {} + lost == lost;
    ReachedDecided(limit, before);
    PreserveKeeps(d, limit, lost, k, version, memory, link);
    FirstLink(d, k, version, memory, link);
  }

  /** Over every run, links belong to decided candidates only. */
  lemma ReachedDecided(limit: nat, events: seq<Event>)
    ensures LinksDecided(Run(NOTHING, limit, events))
  {
    hide Inv, Decides, InUse, LinksDecided;
    NothingOk(limit);
    RunDecides(NOTHING, limit, {}, events);
    RunUses(NOTHING, limit, {}, events);
    NothingDecided();
    LinksStayDecided(NOTHING, Run(NOTHING, limit, events));
  }

  lemma NothingDecided()
    ensures LinksDecided(NOTHING) && InUse(NOTHING)
  {
  }

  lemma FirstLink(d: Db, k: int, version: nat, memory: int, link: int)
    requires LinksDecided(d) && Approves(d, k, version) && link !in d.used
    ensures ApprovedOnce(Preserve(d, k, version, memory, link), k, d.candidates[k].source, link)
  {
    ApprovalSupports(d, k, version, memory, link);
    hide Preserve;
  }

  // ---- fenced workers ----

  lemma {:induction false} EraseAllLaterWorkers(d: Db, work: seq<(int, int)>)
    ensures EraseAllLater(d, work).workers == d.workers
    decreases |work|
  {
    hide CancelJobs, WithdrawCandidates, UnlinkSource, HasPurge;
    if work != [] { EraseAllLaterWorkers(if work[0].0 in d.sources then EraseLater(d, work[0].0, work[0].1) else d, work[1..]); }
  }

  ghost predicate SameClaims(d: Db, e: Db) {
    forall t :: t in d.workers ==> t in e.workers && e.workers[t].source == d.workers[t].source
  }

  lemma ResultClaims(d: Db, token: int)
    ensures SameClaims(d, Analyse(d, token)) && SameClaims(d, FailJob(d, token)) && SameClaims(d, CancelStale(d, token))
  {
    hide Current;
  }

  lemma VerdictClaims(d: Db, token: int, ok: bool)
    ensures SameClaims(d, ValidateVisual(d, token, ok))
  {
    if Current(d, token) {}
  }

  lemma PersistClaims(d: Db, token: int, found: map<int, string>)
    ensures SameClaims(d, Persist(d, token, found))
  {
    hide Added, Persists;
    if Current(d, token) {}
  }

  lemma WorkerClaims(d: Db, limit: nat, e: Event)
    requires e.DoAnalyse? || e.DoPersist? || e.DoFail? || e.DoCancelStale? || e.DoValidate?
    ensures SameClaims(d, Step(d, limit, e))
  {
    hide SameClaims, Analyse, Persist, FailJob, CancelStale, ValidateVisual;
    if e.DoPersist? { PersistClaims(d, e.token, e.found); }
    else if e.DoValidate? { VerdictClaims(d, e.token, e.ok); }
    else { ResultClaims(d, e.token); }
  }

  lemma PurgeClaims(d: Db, limit: nat, e: Event)
    requires e.DoErase? || e.DoRetryPurge? || e.DoFinishPurge?
    ensures SameClaims(d, Step(d, limit, e))
  {
    hide Purges, Holding;
  }

  lemma ClaimClaims(d: Db, limit: nat, lost: set<int>, e: Event)
    requires Inv(d, limit, lost) && e.DoClaim?
    ensures SameClaims(d, Step(d, limit, e))
  {
    assert forall t :: t in d.workers ==> t in d.used;
    hide Inv;
  }

  predicate ByUploader(e: Event) {
    e.DoCreate? || e.DoBeginReceive? || e.DoStore? || e.DoCommit? || e.DoAbandon? || e.DoCleanUp? || e.DoDelete? || e.DoRetry?
  }

  lemma UploaderClaims(d: Db, limit: nat, e: Event)
    requires ByUploader(e)
    ensures Step(d, limit, e).workers == d.workers
  {
    hide Creates, CancelJobs, WithdrawCandidates, UnlinkSource, Retries, Requeued, BeginReceive, StoreObject, CommitReceive, AbandonReceive, CleanUp;
    match e
    case DoBeginReceive(s, data) => BeginReview(d, s, data);
    case DoStore => StoreReview(d);
    case DoCommit => CommitReview(d);
    case DoAbandon(owed) => AbandonReview(d, owed);
    case DoCleanUp(s) => CleanUpReview(d, s);
    case _ =>
  }

  lemma OtherClaims(d: Db, limit: nat, e: Event)
    requires !ByWorker(e) && !ByUploader(e)
    ensures Step(d, limit, e).workers == d.workers
  {
    hide Reviewable, Approves, AllErased, Covers, Drops;
    if e.DoRequestDeletion? { EraseAllLaterWorkers(d, e.work); }
  }

  /** A token stays with the source it was claimed for. */
  lemma {:induction false} RunClaims(d: Db, limit: nat, lost: set<int>, events: seq<Event>)
    requires Inv(d, limit, lost)
    ensures SameClaims(d, Run(d, limit, events))
    decreases |events|
  {
    hide Inv, Step;
    if events != [] {
      var e := events[0];
      StepKeeps(d, limit, lost, e);
      RunClaims(Step(d, limit, e), limit, lost + Lost(d, e), events[1..]);
      if ByUploader(e) { UploaderClaims(d, limit, e); }
      else if !ByWorker(e) { OtherClaims(d, limit, e); }
      else if e.DoClaim? { ClaimClaims(d, limit, lost, e); }
      else if e.DoErase? || e.DoRetryPurge? || e.DoFinishPurge? { PurgeClaims(d, limit, e); }
      else { WorkerClaims(d, limit, e); }
    }
  }

  lemma GoneIsFenced(d: Db, limit: nat, token: int, e: Event)
    requires token in d.workers && (d.workers[token].source in d.sources ==> Gone(d.sources[d.workers[token].source].state))
    requires (e.DoAnalyse? || e.DoPersist? || e.DoFail? || e.DoValidate?) && e.token == token
    ensures Step(d, limit, e) == d
  {
  }

  /** Once its source is being deleted, nothing an earlier claim brings back is ever accepted. */
  lemma FencedWorkers(d: Db, limit: nat, lost: set<int>, events: seq<Event>, token: int, e: Event)
    requires Inv(d, limit, lost) && token in d.workers && d.workers[token].source in d.sources && Gone(d.sources[d.workers[token].source].state)
    requires (e.DoAnalyse? || e.DoPersist? || e.DoFail? || e.DoValidate?) && e.token == token
    ensures var f := Run(d, limit, events); Step(f, limit, e) == f
  {
    hide Inv, Step;
    RunFollows(d, limit, lost, events);
    RunClaims(d, limit, lost, events);
    GoneIsFenced(Run(d, limit, events), limit, token, e);
  }

  // ---- purge jobs ----

  ghost predicate AllAwaitPurge(d: Db) { PurgeAwaits(d.sources, d.jobs, {}) }

  lemma AwaitKeeps(d: Db, limit: nat, lost: set<int>, e: Event)
    requires Inv(d, limit, lost) && AllAwaitPurge(d) && !Expires(d, e)
    ensures AllAwaitPurge(Step(d, limit, e))
  {
    StepKeeps(d, limit, {}, e);
  }

  lemma ExpiryLoses(d: Db, limit: nat, lost: set<int>, e: Event)
    requires Inv(d, limit, lost) && Expires(d, e)
    ensures !AllAwaitPurge(Step(d, limit, e))
  {
    var f := Step(d, limit, e);
    assert f.sources[e.source].state.Deleting?;
    assert !HasPurge(f.jobs, e.source);
  }

  /** That every source being deleted has a live purge job holds through a step exactly when the step is not a
      receive that finds its reservation expired. */
  lemma PurgeAwaitsUnlessExpired(d: Db, limit: nat, lost: set<int>, e: Event)
    requires Inv(d, limit, lost) && AllAwaitPurge(d)
    ensures AllAwaitPurge(Step(d, limit, e)) <==> !Expires(d, e)
  {
    if Expires(d, e) { ExpiryLoses(d, limit, lost, e); } else { AwaitKeeps(d, limit, lost, e); }
  }

  /** Over a whole run the sources without a purge job are among those that expired. */
  lemma OnlyExpiredAreLost(limit: nat, events: seq<Event>, s: int)
    ensures var d := Run(NOTHING, limit, events);
      s in d.sources && d.sources[s].state.Deleting? && !HasPurge(d.jobs, s) ==> s in LostIn(NOTHING, limit, events)
  {
    NothingOk(limit);
    RunKeeps(NOTHING, limit, {}, events);
  }

  lemma ClaimedPurge(d: Db, limit: nat, lost: set<int>, j: int, token: int, lease: nat)
    requires Inv(d, limit, lost) && Claimable(d, j) && d.jobs[j].purge && token !in d.used
    ensures var e, s := ClaimJob(d, j, token, lease), d.jobs[j].source;
      && token in e.workers && e.workers[token] == Worker(j, s, true, Started) && Holding(e, token) && e.jobs[j].purge
      && s in e.sources && e.sources[s].state.Deleting? && e.sources[s].generation == e.jobs[j].generation
  {
    assert !Locked(d, d.jobs[j].source);
  }

  lemma ErasedPurge(d: Db, token: int, j: int, s: int)
    requires token in d.workers && d.workers[token] == Worker(j, s, true, Started) && Holding(d, token) && d.jobs[j].purge
    requires s in d.sources && d.sources[s].state.Deleting? && d.sources[s].generation == d.jobs[j].generation
    ensures var e := FinishPurge(EraseForPurge(d, token), token);
      j in e.jobs && s in e.sources && e.sources[s].state.Deleted? && e.sources[s].artifact.Purged? && s !in e.objects && e.jobs[j].state.Succeeded?
  {
    assert Purges(EraseForPurge(d, token), token);
  }

  /** A purge worker left alone erases the bytes and completes the deletion. */
  lemma UndisturbedPurge(d: Db, limit: nat, lost: set<int>, j: int, token: int, lease: nat)
    requires Inv(d, limit, lost) && Claimable(d, j) && d.jobs[j].purge && token !in d.used
    ensures var e := Step(Step(Step(d, limit, DoClaim(j, token, lease)), limit, DoErase(token)), limit, DoFinishPurge(token));
      var s := d.jobs[j].source;
      j in e.jobs && s in e.sources && e.sources[s].state.Deleted? && e.sources[s].artifact.Purged? && s !in e.objects && e.jobs[j].state.Succeeded?
  {
    hide Inv, ClaimJob, EraseForPurge, FinishPurge;
    ClaimedPurge(d, limit, lost, j, token, lease);
    ErasedPurge(ClaimJob(d, j, token, lease), token, j, d.jobs[j].source);
  }

  // ---- stored originals ----

  /** What was accepted is stored: an available original that is not on its way out has its bytes, and so has an
      upload that has stored them and not committed yet. */
  ghost predicate OriginalsKept(d: Db) {
    && (forall s :: s in d.sources && d.sources[s].artifact.Available? && !Gone(d.sources[s].state) ==>
          s in d.objects && d.objects[s] == d.sources[s].artifact.data)
    && (d.receiving.Some? && d.receiving.value.stored ==>
          d.receiving.value.source in d.objects && d.objects[d.receiving.value.source] == d.receiving.value.data)
  }

  /** The late delete of an upload whose commit failed, after the same upload was repeated. */
  predicate CleansUpTooLate(d: Db, e: Event) {
    && e.DoCleanUp? && e.source in d.cleanups
    && ((e.source in d.sources && d.sources[e.source].artifact.Available? && !Gone(d.sources[e.source].state))
        || (d.receiving.Some? && d.receiving.value.stored && d.receiving.value.source == e.source))
  }

  lemma CleanUpLoses(d: Db, limit: nat, e: Event)
    requires e.DoCleanUp? && OriginalsKept(d)
    ensures OriginalsKept(Step(d, limit, e)) <==> !CleansUpTooLate(d, e)
  {
    var f := Step(d, limit, e);
    if CleansUpTooLate(d, e) { assert e.source !in f.objects; }
  }

  lemma BeginKeeps(d: Db, s: int, data: string)
    requires OriginalsKept(d)
    ensures OriginalsKept(BeginReceive(d, s, data))
  {
  }

  lemma UploadsKeep(d: Db, limit: nat, lost: set<int>, e: Event)
    requires Inv(d, limit, lost) && OriginalsKept(d) && (e.DoCreate? || e.DoBeginReceive? || e.DoAbandon?)
    ensures OriginalsKept(Step(d, limit, e))
  {
    hide Inv, BeginReceive;
    if e.DoBeginReceive? { BeginKeeps(d, e.source, e.data); }
  }

  lemma StoringKeeps(d: Db, limit: nat, lost: set<int>, e: Event)
    requires Inv(d, limit, lost) && OriginalsKept(d) && (e.DoStore? || e.DoCommit?)
    ensures OriginalsKept(Step(d, limit, e))
  {
  }

  /** Leaves the bytes and the open receive alone, and makes no original available. */
  ghost predicate Untouched(d: Db, e: Db) {
    && e.receiving == d.receiving
    && (forall s :: s in e.sources && e.sources[s].artifact.Available? && !Gone(e.sources[s].state) ==>
          s in d.sources && d.sources[s].artifact == e.sources[s].artifact && !Gone(d.sources[s].state))
    && (forall s :: s in d.objects && s !in e.objects ==>
          !(d.receiving.Some? && d.receiving.value.source == s) && !(s in e.sources && !Gone(e.sources[s].state)))
    && (forall s :: s in e.objects ==> s in d.objects && e.objects[s] == d.objects[s])
  }

  lemma UntouchedKeeps(d: Db, e: Db)
    requires OriginalsKept(d) && Untouched(d, e)
    ensures OriginalsKept(e)
  {
  }

  function Uploaded(u: Upload, data: string): Source {
    Source(u.legacy, u.visual, Queued, if u.visual then Unchecked else Clean, 1, u.declared, u.expires, Available(data), u.request, u.digest)
  }

  lemma Reserves(d: Db, limit: nat, u: Upload, data: string)
    requires Creates(d, u, limit) && |data| == u.declared && u.expires > d.clock
    ensures var e := BeginReceive(Create(d, u, limit), u.id, data);
      && e.receiving == Some(Receiving(u.id, data, false)) && e.objects == d.objects && e.clock == d.clock
      && e.sources == d.sources[u.id := Uploaded(u, data).(state := Uploading, safety := Unchecked, artifact := Reserved)]
  {
  }

  lemma Commits(d: Db, s: int, data: string)
    requires d.receiving == Some(Receiving(s, data, true)) && s in d.sources
    ensures var e := CommitReceive(d);
      && e.receiving.None? && e.objects == d.objects && e.clock == d.clock
      && e.sources == d.sources[s := d.sources[s].(state := Queued, safety := if d.sources[s].visual then Unchecked else Clean, artifact := Available(data))]
  {
  }

  lemma Completes(d: Db, s: int, data: string)
    requires d.receiving == Some(Receiving(s, data, false)) && s in d.sources
    ensures var e := CommitReceive(StoreObject(d));
      && e.receiving.None? && e.objects == d.objects[s := data] && e.clock == d.clock
      && e.sources == d.sources[s := d.sources[s].(state := Queued, safety := if d.sources[s].visual then Unchecked else Clean, artifact := Available(data))]
  {
    var f := StoreObject(d);
    assert f.receiving == Some(Receiving(s, data, true)) && f.sources == d.sources && f.objects == d.objects[s := data] && f.clock == d.clock;
    hide CommitReceive, StoreObject;
    Commits(f, s, data);
  }

  lemma CountsUpload(d: Db, e: Db, s: int, x: Source)
    requires s !in d.sources && e.sources == d.sources[s := x] && e.clock == d.clock && x.artifact.Available?
    ensures Capacity(e) == Capacity(d) + |x.artifact.data|
  {
    var a, b := map r | r in d.sources :: Counted(d.sources[r], d.clock), map r | r in e.sources :: Counted(e.sources[r], e.clock);
    SumUpdate(a, s, |x.artifact.data|);
    assert a - {s} == a;
    assert b == a[s := |x.artifact.data|];
  }

  /** A new upload, received in one go, is stored as sent, counted once, and clean unless it still awaits a visual check. */
  lemma UploadRoundTrip(d: Db, limit: nat, lost: set<int>, u: Upload, data: string)
    requires Inv(d, limit, lost) && Creates(d, u, limit) && |data| == u.declared && u.expires > d.clock
    ensures var e := Step(Step(Step(Step(d, limit, DoCreate(u)), limit, DoBeginReceive(u.id, data)), limit, DoStore), limit, DoCommit);
      && u.id in e.sources && e.sources[u.id] == Uploaded(u, data)
      && u.id in e.objects && e.objects[u.id] == data && e.receiving.None? && Capacity(e) == Capacity(d) + |data|
  {
    assert u.id !in d.sources by { assert u.id !in d.used; }
    hide Inv, Creates, Create, BeginReceive, StoreObject, CommitReceive, Step, Capacity;
    var f := BeginReceive(Create(d, u, limit), u.id, data);
    UploadSteps(d, limit, u, data);
    UploadSteps(Create(d, u, limit), limit, u, data);
    UploadSteps(f, limit, u, data);
    UploadSteps(StoreObject(f), limit, u, data);
    Reserves(d, limit, u, data);
    Completes(f, u.id, data);
    assert CommitReceive(StoreObject(f)).sources == d.sources[u.id := Uploaded(u, data)];
    CountsUpload(d, CommitReceive(StoreObject(f)), u.id, Uploaded(u, data));
  }

  lemma UploadSteps(d: Db, limit: nat, u: Upload, data: string)
    ensures Step(d, limit, DoCreate(u)) == Create(d, u, limit) && Step(d, limit, DoBeginReceive(u.id, data)) == BeginReceive(d, u.id, data)
    ensures Step(d, limit, DoStore) == StoreObject(d) && Step(d, limit, DoCommit) == CommitReceive(d)
  {
    hide Create, BeginReceive, StoreObject, CommitReceive;
  }

  /** A step that changes at most one source, without new bytes for it. */
  lemma OneTouchesNothing(d: Db, e: Db, s: int)
    requires e.receiving == d.receiving && e.objects == d.objects
    requires e.sources == d.sources || (s in d.sources && s in e.sources && e.sources == d.sources[s := e.sources[s]]
      && (Gone(e.sources[s].state) || (e.sources[s].artifact == d.sources[s].artifact && !Gone(d.sources[s].state))))
    ensures Untouched(d, e)
  {
  }

  lemma FailTouchesNothing(d: Db, token: int)
    ensures Untouched(d, FailJob(d, token))
  {
    OneTouchesNothing(d, FailJob(d, token), if token in d.workers then d.workers[token].source else 0);
  }

  lemma PurgeTouchesNothing(d: Db, token: int)
    ensures Untouched(d, FinishPurge(d, token))
  {
    OneTouchesNothing(d, FinishPurge(d, token), if token in d.workers then d.workers[token].source else 0);
  }

  lemma ValidateTouchesNothing(d: Db, token: int, ok: bool)
    ensures Untouched(d, ValidateVisual(d, token, ok))
  {
    hide Untouched;
    OneTouchesNothing(d, ValidateVisual(d, token, ok), if token in d.workers then d.workers[token].source else 0);
  }

  lemma PersistTouchesNothing(d: Db, token: int, found: map<int, string>)
    ensures Untouched(d, Persist(d, token, found))
  {
    hide Added, Persists;
    OneTouchesNothing(d, Persist(d, token, found), if token in d.workers then d.workers[token].source else 0);
  }

  lemma ClaimTouchesNothing(d: Db, j: int, token: int, lease: nat)
    ensures Untouched(d, ClaimJob(d, j, token, lease))
  {
    OneTouchesNothing(d, ClaimJob(d, j, token, lease), if j in d.jobs then d.jobs[j].source else 0);
  }

  lemma RetryTouchesNothing(d: Db, s: int, job: int)
    ensures Untouched(d, Retry(d, s, job))
  {
    hide Requeued, HasExtract;
    OneTouchesNothing(d, Retry(d, s, job), s);
  }

  lemma DeleteTouchesNothing(d: Db, s: int, job: int)
    requires s in d.sources
    ensures Untouched(d, DeleteSource(d, s, job))
  {
    hide CancelJobs, WithdrawCandidates, UnlinkSource;
    OneTouchesNothing(d, DeleteSource(d, s, job), s);
  }

  lemma ErasureTouchesNothing(d: Db, limit: nat, lost: set<int>, e: Event)
    requires Inv(d, limit, lost) && (e.DoErase? || e.DoEraseKey?)
    ensures Untouched(d, Step(d, limit, e))
  {
  }

  lemma DropTouchesNothing(d: Db, run: int)
    ensures Untouched(d, DropLegacy(d, run))
  {
  }

  lemma QuietTouchesNothing(d: Db, limit: nat, e: Event)
    requires e.DoTick? || e.DoNewLegacy?
    ensures Untouched(d, Step(d, limit, e))
  {
    if e.DoTick? {}
  }

  lemma ReadTouchesNothing(d: Db, limit: nat, e: Event)
    requires e.DoSkip? || e.DoReadRegistry? || e.DoAnalyse?
    ensures Untouched(d, Step(d, limit, e))
  {
    hide AllErased, Reviewable, Current;
    OneTouchesNothing(d, Step(d, limit, e), 0);
  }

  lemma JobTouchesNothing(d: Db, limit: nat, e: Event)
    requires e.DoCancelStale? || e.DoRetryPurge? || e.DoPreserve?
    ensures Untouched(d, Step(d, limit, e))
  {
    OneTouchesNothing(d, Step(d, limit, e), 0);
  }

  lemma UntouchedTrans(a: Db, b: Db, c: Db)
    requires Untouched(a, b) && Untouched(b, c)
    requires b.objects == a.objects
    ensures Untouched(a, c)
  {
  }

  lemma EraseLaterTouchesNothing(d: Db, s: int, job: int)
    requires s in d.sources
    ensures Untouched(d, EraseLater(d, s, job)) && EraseLater(d, s, job).objects == d.objects
  {
    hide HasPurge, CancelJobs, WithdrawCandidates, UnlinkSource;
  }

  lemma {:induction false} EraseAllLaterTouchesNothing(d: Db, work: seq<(int, int)>)
    ensures Untouched(d, EraseAllLater(d, work)) && EraseAllLater(d, work).objects == d.objects
    decreases |work|
  {
    if work != [] {
      if work[0].0 in d.sources {
        var f := EraseLater(d, work[0].0, work[0].1);
        EraseLaterTouchesNothing(d, work[0].0, work[0].1);
        EraseAllLaterTouchesNothing(f, work[1..]);
        UntouchedTrans(d, f, EraseAllLater(f, work[1..]));
      } else {
        EraseAllLaterTouchesNothing(d, work[1..]);
      }
    }
  }

  lemma RequestTouchesNothing(d: Db, l: int, work: seq<(int, int)>)
    ensures Untouched(d, RequestDeletion(d, l, work))
  {
    hide Covers;
    EraseAllLaterTouchesNothing(d, work);
  }

  lemma OthersTouchNothing(d: Db, limit: nat, lost: set<int>, e: Event)
    requires Inv(d, limit, lost) && !e.DoCleanUp? && !e.DoCreate? && !e.DoBeginReceive? && !e.DoStore? && !e.DoCommit? && !e.DoAbandon?
    ensures Untouched(d, Step(d, limit, e))
  {
    hide Inv, Untouched, DeleteSource, Retry, ClaimJob, Persist, FailJob, CancelStale, ValidateVisual, FinishPurge, Preserve, DropLegacy,
      RequestDeletion, Analyse, EraseForPurge, RetryPurge, EraseKey;
    match e
    case DoFail(token) => FailTouchesNothing(d, token);
    case DoFinishPurge(token) => PurgeTouchesNothing(d, token);
    case DoErase(_) => ErasureTouchesNothing(d, limit, lost, e);
    case DoEraseKey(_, _) => ErasureTouchesNothing(d, limit, lost, e);
    case DoClaim(j, token, lease) => ClaimTouchesNothing(d, j, token, lease);
    case DoRetry(s, job) => RetryTouchesNothing(d, s, job);
    case DoDelete(s, job) => if s in d.sources { DeleteTouchesNothing(d, s, job); } OneTouchesNothing(d, d, s);
    case DoPersist(token, found) => PersistTouchesNothing(d, token, found);
    case DoValidate(token, ok) => ValidateTouchesNothing(d, token, ok);
    case DoRequestDeletion(l, work) => RequestTouchesNothing(d, l, work);
    case DoDropLegacy(run) => DropTouchesNothing(d, run);
    case DoCancelStale(_) => JobTouchesNothing(d, limit, e);
    case DoRetryPurge(_) => JobTouchesNothing(d, limit, e);
    case DoPreserve(_, _, _, _) => JobTouchesNothing(d, limit, e);
    case DoTick(_) => QuietTouchesNothing(d, limit, e);
    case DoNewLegacy(_) => QuietTouchesNothing(d, limit, e);
    case _ => ReadTouchesNothing(d, limit, e);
  }

  /** Accepted bytes stay stored through a step exactly when it is not the late delete of a failed commit. */
  lemma OriginalsKeptUnlessLate(d: Db, limit: nat, lost: set<int>, e: Event)
    requires Inv(d, limit, lost) && OriginalsKept(d)
    ensures OriginalsKept(Step(d, limit, e)) <==> !CleansUpTooLate(d, e)
  {
    hide Inv, OriginalsKept, Untouched, Step;
    if e.DoCleanUp? { CleanUpLoses(d, limit, e); }
    else if e.DoCreate? || e.DoBeginReceive? || e.DoAbandon? { UploadsKeep(d, limit, lost, e); }
    else if e.DoStore? || e.DoCommit? { StoringKeeps(d, limit, lost, e); }
    else {
      OthersTouchNothing(d, limit, lost, e);
      UntouchedKeeps(d, Step(d, limit, e));
    }
  }
}
