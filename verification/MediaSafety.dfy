// What every run of the media lifecycle keeps: the storage allowance, erasure, provenance and generation fencing.
module MediaSafety {
  import opened Wrappers
  import opened Sums
  import opened MediaLifecycle

  // ---- the invariant ----

  ghost predicate SourceOk(x: Source) {
    && (x.state.Uploading? ==> x.safety.Unchecked? && x.artifact.Reserved?)
    && (x.artifact.Available? ==> |x.artifact.data| == x.declared)
    && (x.artifact.Purged? <==> x.state.Deleted?)
  }

  ghost predicate SourcesOk(sources: map<int, Source>, legacies: map<int, bool>, used: set<int>) {
    forall s :: s in sources ==> SourceOk(sources[s]) && s in used && sources[s].legacy in legacies
  }

  /** Every stored object belongs to a source that is not deleted. */
  ghost predicate ObjectsOk(objects: map<int, string>, sources: map<int, Source>) {
    forall s :: s in objects ==> s in sources && !sources[s].state.Deleted?
  }

  ghost predicate ReceivingOk(receiving: Option<Receiving>, sources: map<int, Source>) {
    receiving.Some? ==>
      receiving.value.source in sources && sources[receiving.value.source].state.Uploading?
      && |receiving.value.data| == sources[receiving.value.source].declared
  }

  /** A purge job belongs to a source on its way out. */
  ghost predicate JobsOk(jobs: map<int, Job>, sources: map<int, Source>, used: set<int>) {
    forall j :: j in jobs ==> (j in used && jobs[j].source in used
      && (jobs[j].purge && jobs[j].source in sources ==>
            Gone(sources[jobs[j].source].state) && jobs[j].generation == sources[jobs[j].source].generation))
  }

  ghost predicate WorkersOk(workers: map<int, Worker>, sources: map<int, Source>, objects: map<int, string>, used: set<int>) {
    forall t :: t in workers ==> (t in used && workers[t].source in used
      && (workers[t].purge && workers[t].source in sources ==> Gone(sources[workers[t].source].state))
      && (workers[t].phase.Erased? ==> workers[t].purge && workers[t].source !in objects))
  }

  /** A worker's kind and source are its job's. */
  ghost predicate KindsOk(workers: map<int, Worker>, jobs: map<int, Job>, used: set<int>) {
    forall t :: t in workers ==> (workers[t].job in used
      && (workers[t].job in jobs ==> workers[t].purge == jobs[workers[t].job].purge && workers[t].source == jobs[workers[t].job].source))
  }

  /** A link is approved only while its source is there to support it. */
  ghost predicate LinksOk(links: map<int, Link>, sources: map<int, Source>, used: set<int>) {
    forall k :: k in links ==> (k in used && links[k].source in sources
      && (links[k].approved ==> !sources[links[k].source].state.Uploading? && !Gone(sources[links[k].source].state)))
  }

  /** A source on its way out has no open candidate, and none of its candidates keeps private text. */
  ghost predicate CandidatesOk(candidates: map<int, Candidate>, sources: map<int, Source>, used: set<int>) {
    forall k :: k in candidates ==> (k in used && candidates[k].source in sources
      && !sources[candidates[k].source].state.Uploading?
      && (Gone(sources[candidates[k].source].state) ==> !candidates[k].decision.Pending? && candidates[k].content.None?))
  }

  /** Once its deletion is requested, a Legacy has only sources on their way out. */
  ghost predicate LegaciesOk(legacies: map<int, bool>, sources: map<int, Source>, used: set<int>) {
    && (forall l :: l in legacies ==> l in used)
    && (forall s :: s in sources && sources[s].legacy in legacies && legacies[sources[s].legacy] ==> Gone(sources[s].state))
  }

  /** A source that is being deleted has a live purge job, unless it is among the lost. */
  ghost predicate PurgeAwaits(sources: map<int, Source>, jobs: map<int, Job>, lost: set<int>) {
    forall s :: s in sources && sources[s].state.Deleting? && s !in lost ==> HasPurge(jobs, s)
  }

  /** The keys a worker erases for a whole Legacy belong to deleted sources. */
  ghost predicate FinalizersOk(finalizers: map<int, Finalizer>, sources: map<int, Source>, used: set<int>) {
    forall r, s :: r in finalizers && s in finalizers[r].registry ==> s in used && (s in sources ==> sources[s].state.Deleted?)
  }

  /** What a source may still occupy: as capacity counts it, and its reservation while a receive holds it. */
  function Weight(d: Db, s: int): nat
    requires s in d.sources
  {
    if Locked(d, s) then d.sources[s].declared else Counted(d.sources[s], d.clock)
  }

  ghost function Load(d: Db): nat {
    Sum(map s | s in d.sources :: Weight(d, s))
  }

  ghost predicate Shape(d: Db) {
    && SourcesOk(d.sources, d.legacies, d.used) && ObjectsOk(d.objects, d.sources) && ReceivingOk(d.receiving, d.sources)
    && JobsOk(d.jobs, d.sources, d.used) && WorkersOk(d.workers, d.sources, d.objects, d.used) && LegaciesOk(d.legacies, d.sources, d.used)
    && FinalizersOk(d.finalizers, d.sources, d.used)
  }

  ghost predicate Inv(d: Db, limit: nat, lost: set<int>) {
    && Shape(d) && LinksOk(d.links, d.sources, d.used) && CandidatesOk(d.candidates, d.sources, d.used)
    && PurgeAwaits(d.sources, d.jobs, lost) && KindsOk(d.workers, d.jobs, d.used) && Load(d) <= limit
  }

  // ---- load ----

  lemma LoadFalls(d: Db, e: Db)
    requires forall s :: s in e.sources ==> s in d.sources && Weight(e, s) <= Weight(d, s)
    ensures Load(e) <= Load(d)
  {
    SumBelow(map s | s in e.sources :: Weight(e, s), map s | s in d.sources :: Weight(d, s));
  }

  lemma SameLoad(d: Db, e: Db)
    requires e.sources == d.sources && e.receiving == d.receiving && e.clock == d.clock
    ensures Load(e) == Load(d)
  {
    assert (map s | s in d.sources :: Weight(d, s)) == (map s | s in e.sources :: Weight(e, s));
  }

  lemma LoadIsCapacity(d: Db)
    ensures Capacity(d) <= Load(d) || !SourcesOk(d.sources, d.legacies, d.used)
    ensures d.receiving.None? ==> Capacity(d) == Load(d)
  {
    assert d.receiving.None? ==> (map s | s in d.sources :: Weight(d, s)) == (map s | s in d.sources :: Counted(d.sources[s], d.clock));
    if SourcesOk(d.sources, d.legacies, d.used) {
      SumBelow(map s | s in d.sources :: Counted(d.sources[s], d.clock), map s | s in d.sources :: Weight(d, s));
    }
  }

  lemma CreateLoad(d: Db, u: Upload, limit: nat)
    requires Creates(d, u, limit) && u.id !in d.sources
    ensures Load(Create(d, u, limit)) <= Load(d) + u.declared
  {
    var e := Create(d, u, limit);
    var a, b := map s | s in d.sources :: Weight(d, s), map s | s in e.sources :: Weight(e, s);
    SumUpdate(a, u.id, Weight(e, u.id));
    assert a - {u.id} == a;
    assert b == a[u.id := Weight(e, u.id)];
  }

  // ---- changes that keep the invariant ----

  /** The source moves on without leaving, entering or reopening anything. */
  ghost predicate Advances(x: Source, y: Source) {
    && SourceOk(y) && y.legacy == x.legacy && y.generation == x.generation && y.declared == x.declared && y.expires == x.expires
    && !y.state.Uploading? && (Gone(y.state) <==> Gone(x.state)) && (x.state.Deleted? ==> y.state.Deleted?)
    && (y.artifact == x.artifact || y.state.Deleted?)
  }

  lemma AdvanceShape(d: Db, s: int, y: Source)
    requires Shape(d) && s in d.sources && Advances(d.sources[s], y) && !Locked(d, s) && (y.state.Deleted? ==> s !in d.objects)
    ensures Shape(SetSource(d, s, y))
  {
  }

  lemma AdvanceReview(d: Db, s: int, y: Source)
    requires s in d.sources && Advances(d.sources[s], y) && LinksOk(d.links, d.sources, d.used) && CandidatesOk(d.candidates, d.sources, d.used)
    ensures LinksOk(d.links, d.sources[s := y], d.used) && CandidatesOk(d.candidates, d.sources[s := y], d.used)
  {
  }

  lemma AdvanceLoad(d: Db, s: int, y: Source)
    requires s in d.sources && Advances(d.sources[s], y) && !Locked(d, s)
    ensures Load(SetSource(d, s, y)) <= Load(d)
  {
    LoadFalls(d, SetSource(d, s, y));
  }

  lemma AdvanceKeeps(d: Db, limit: nat, lost: set<int>, s: int, y: Source)
    requires Inv(d, limit, lost) && s in d.sources && Advances(d.sources[s], y) && !Locked(d, s) && (y.state.Deleted? ==> s !in d.objects)
    ensures Inv(SetSource(d, s, y), limit, lost)
  {
    hide Shape, LinksOk, CandidatesOk;
    AdvanceShape(d, s, y);
    AdvanceReview(d, s, y);
    AdvanceLoad(d, s, y);
  }

  /** The jobs move on, and every live purge job stays live. */
  lemma JobsKeep(d: Db, limit: nat, lost: set<int>, jobs: map<int, Job>)
    requires Inv(d, limit, lost) && jobs.Keys == d.jobs.Keys
    requires forall j :: j in jobs ==> jobs[j].source == d.jobs[j].source && jobs[j].purge == d.jobs[j].purge && jobs[j].generation == d.jobs[j].generation
    requires forall j :: j in jobs && d.jobs[j].purge && LiveJob(d.jobs[j]) ==> LiveJob(jobs[j])
    ensures Inv(d.(jobs := jobs), limit, lost)
  {
    forall s | s in d.sources && d.sources[s].state.Deleting? && s !in lost ensures HasPurge(jobs, s) {
      var j :| j in d.jobs && d.jobs[j].source == s && d.jobs[j].purge && LiveJob(d.jobs[j]);
      assert j in jobs;
    }
    SameLoad(d, d.(jobs := jobs));
  }

  lemma EndJobKeeps(d: Db, limit: nat, lost: set<int>, token: int, state: JobState)
    requires Inv(d, limit, lost) && Holding(d, token) && !d.jobs[d.workers[token].job].purge
    ensures Inv(EndJob(d, token, state), limit, lost)
  {
    JobsKeep(d, limit, lost, EndJob(d, token, state).jobs);
  }

  lemma DeferKeeps(d: Db, limit: nat, lost: set<int>, token: int)
    requires Inv(d, limit, lost) && Holding(d, token)
    ensures Inv(DeferJob(d, token), limit, lost)
  {
    JobsKeep(d, limit, lost, DeferJob(d, token).jobs);
  }

  lemma FinishKeeps(d: Db, limit: nat, lost: set<int>, token: int, state: JobState, x: Source)
    requires Inv(d, limit, lost) && Current(d, token) && !d.jobs[d.workers[token].job].purge && Advances(d.sources[d.workers[token].source], x)
    ensures Inv(Finish(d, token, state, x), limit, lost)
  {
    EndJobKeeps(d, limit, lost, token, state);
    AdvanceKeeps(EndJob(d, token, state), limit, lost, d.workers[token].source, x);
  }

  // ---- workers ----

  lemma LeaseShape(d: Db, j: int, token: int, until: int)
    requires Shape(d) && j in d.jobs && token !in d.used
    ensures Shape(LeaseJob(d, j, token, until))
  {
  }

  lemma LeasePurge(d: Db, lost: set<int>, j: int, token: int, until: int)
    requires PurgeAwaits(d.sources, d.jobs, lost) && j in d.jobs && LiveJob(d.jobs[j])
    ensures PurgeAwaits(d.sources, LeaseJob(d, j, token, until).jobs, lost)
  {
    var jobs := LeaseJob(d, j, token, until).jobs;
    forall s | s in d.sources && d.sources[s].state.Deleting? && s !in lost ensures HasPurge(jobs, s) {
      var k :| k in d.jobs && d.jobs[k].source == s && d.jobs[k].purge && LiveJob(d.jobs[k]);
      assert k in jobs;
    }
  }

  lemma LeaseKeeps(d: Db, limit: nat, lost: set<int>, j: int, token: int, until: int)
    requires Inv(d, limit, lost) && j in d.jobs && LiveJob(d.jobs[j]) && token !in d.used
    ensures Inv(LeaseJob(d, j, token, until), limit, lost)
  {
    LeaseShape(d, j, token, until);
    LeasePurge(d, lost, j, token, until);
    SameLoad(d, LeaseJob(d, j, token, until));
  }

  lemma StartKeeps(d: Db, limit: nat, lost: set<int>, j: int)
    requires Inv(d, limit, lost) && j in d.jobs && d.jobs[j].source in d.sources && !Locked(d, d.jobs[j].source)
    ensures Inv(StartSource(d, j), limit, lost)
  {
    var x := d.sources[d.jobs[j].source];
    if x.state.Queued? { AdvanceKeeps(d, limit, lost, d.jobs[j].source, x.(state := Processing)); }
  }

  lemma ClaimKeeps(d: Db, limit: nat, lost: set<int>, j: int, token: int, lease: nat)
    requires Inv(d, limit, lost)
    ensures Inv(ClaimJob(d, j, token, lease), limit, lost)
  {
    hide Inv;
    if Claimable(d, j) && !Locked(d, d.jobs[j].source) && token !in d.used {
      LeaseKeeps(d, limit, lost, j, token, d.clock + lease);
      StartKeeps(LeaseJob(d, j, token, d.clock + lease), limit, lost, j);
    }
  }

  lemma AnalyseKeeps(d: Db, limit: nat, lost: set<int>, token: int)
    requires Inv(d, limit, lost)
    ensures Inv(Analyse(d, token), limit, lost)
  {
    SameLoad(d, Analyse(d, token));
  }

  lemma AddCandidatesShape(d: Db, added: map<int, Candidate>)
    requires Shape(d) && KindsOk(d.workers, d.jobs, d.used) && LinksOk(d.links, d.sources, d.used)
    ensures var e := AddCandidates(d, added); Shape(e) && KindsOk(e.workers, e.jobs, e.used) && LinksOk(e.links, e.sources, e.used)
  {
  }

  lemma AddCandidatesReview(d: Db, s: int, added: map<int, Candidate>)
    requires CandidatesOk(d.candidates, d.sources, d.used) && s in d.sources && !d.sources[s].state.Uploading? && !Gone(d.sources[s].state)
    requires forall k :: k in added ==> added[k].source == s
    ensures var e := AddCandidates(d, added); CandidatesOk(e.candidates, e.sources, e.used)
  {
  }

  lemma AddCandidatesKeeps(d: Db, limit: nat, lost: set<int>, s: int, added: map<int, Candidate>)
    requires Inv(d, limit, lost) && s in d.sources && !d.sources[s].state.Uploading? && !Gone(d.sources[s].state)
    requires forall k :: k in added ==> added[k].source == s
    ensures Inv(AddCandidates(d, added), limit, lost)
  {
    hide Shape, KindsOk, LinksOk, CandidatesOk, PurgeAwaits;
    AddCandidatesShape(d, added);
    AddCandidatesReview(d, s, added);
    SameLoad(d, AddCandidates(d, added));
  }

  lemma PersistKeeps(d: Db, limit: nat, lost: set<int>, token: int, found: map<int, string>)
    requires Inv(d, limit, lost)
    ensures Inv(Persist(d, token, found), limit, lost)
  {
    if Current(d, token) && d.workers[token].phase.Analysed? && !d.sources[d.workers[token].source].visual {
      hide Persists;
      var s, x := d.workers[token].source, d.sources[d.workers[token].source];
      var some := Persists(d, s, x.generation, found);
      var state, y := if some then Succeeded else Partial, x.(state := if some then Ready else PartiallyReady);
      FinishKeeps(d, limit, lost, token, state, y);
      AddCandidatesKeeps(Finish(d, token, state, y), limit, lost, s, Added(d, s, x.generation, found));
    }
  }

  lemma FailKeeps(d: Db, limit: nat, lost: set<int>, token: int)
    requires Inv(d, limit, lost)
    ensures Inv(FailJob(d, token), limit, lost)
  {
    if Current(d, token) { FinishKeeps(d, limit, lost, token, Broken, d.sources[d.workers[token].source].(state := Failed)); }
  }

  lemma CancelStaleKeeps(d: Db, limit: nat, lost: set<int>, token: int)
    requires Inv(d, limit, lost)
    ensures Inv(CancelStale(d, token), limit, lost)
  {
    if CancelStale(d, token) != d { EndJobKeeps(d, limit, lost, token, Cancelled); }
  }

  lemma ValidateKeeps(d: Db, limit: nat, lost: set<int>, token: int, ok: bool)
    requires Inv(d, limit, lost)
    ensures Inv(ValidateVisual(d, token, ok), limit, lost)
  {
    if Current(d, token) {
      var x := d.sources[d.workers[token].source];
      if x.state.Uploading? { DeferKeeps(d, limit, lost, token); }
      else {
        FinishKeeps(d, limit, lost, token, if ok then Succeeded else Broken,
                    x.(state := if ok then Ready else Failed, safety := if ok then Clean else Rejected));
      }
    }
  }

  // ---- erasing ----

  lemma EraseKeeps(d: Db, limit: nat, lost: set<int>, s: int)
    requires Inv(d, limit, lost)
    ensures Inv(EraseObject(d, s), limit, lost)
  {
    SameLoad(d, EraseObject(d, s));
  }

  lemma EraseForPurgeKeeps(d: Db, limit: nat, lost: set<int>, token: int)
    requires Inv(d, limit, lost)
    ensures Inv(EraseForPurge(d, token), limit, lost)
  {
    if token in d.workers && d.workers[token].purge {
      EraseKeeps(d, limit, lost, d.workers[token].source);
      SameLoad(d, EraseForPurge(d, token));
    }
  }

  lemma RetryPurgeKeeps(d: Db, limit: nat, lost: set<int>, token: int)
    requires Inv(d, limit, lost)
    ensures Inv(RetryPurge(d, token), limit, lost)
  {
    if Holding(d, token) { DeferKeeps(d, limit, lost, token); }
  }

  lemma EndPurgeKeeps(d: Db, limit: nat, lost: set<int>, token: int)
    requires Inv(d, limit, lost) && Holding(d, token) && d.workers[token].source in d.sources && d.sources[d.workers[token].source].state.Deleted?
    ensures Inv(EndJob(d, token, Succeeded), limit, lost)
  {
    var e := EndJob(d, token, Succeeded);
    forall s | s in d.sources && d.sources[s].state.Deleting? && s !in lost ensures HasPurge(e.jobs, s) {
      var j :| j in d.jobs && d.jobs[j].source == s && d.jobs[j].purge && LiveJob(d.jobs[j]);
      assert j in e.jobs;
    }
    SameLoad(d, e);
  }

  lemma FinishPurgeKeeps(d: Db, limit: nat, lost: set<int>, token: int)
    requires Inv(d, limit, lost)
    ensures Inv(FinishPurge(d, token), limit, lost)
  {
    if Purges(d, token) {
      var s := d.workers[token].source;
      var y := d.sources[s].(state := Deleted, artifact := Purged);
      AdvanceKeeps(d, limit, lost, s, y);
      EndPurgeKeeps(SetSource(d, s, y), limit, lost, token);
    }
  }

  // ---- uploads ----

  lemma CreateShape(d: Db, u: Upload, limit: nat)
    requires Shape(d) && Creates(d, u, limit)
    ensures Shape(Create(d, u, limit))
  {
  }

  lemma CreateReview(d: Db, u: Upload, limit: nat, lost: set<int>)
    requires Inv(d, limit, lost) && Creates(d, u, limit)
    ensures var e := Create(d, u, limit);
      LinksOk(e.links, e.sources, e.used) && CandidatesOk(e.candidates, e.sources, e.used) && KindsOk(e.workers, e.jobs, e.used)
  {
  }

  lemma CreatePurge(d: Db, u: Upload, limit: nat, lost: set<int>)
    requires PurgeAwaits(d.sources, d.jobs, lost) && Creates(d, u, limit) && (forall j :: j in d.jobs ==> j in d.used)
    ensures PurgeAwaits(Create(d, u, limit).sources, Create(d, u, limit).jobs, lost)
  {
    var e := Create(d, u, limit);
    forall s | s in e.sources && e.sources[s].state.Deleting? && s !in lost ensures HasPurge(e.jobs, s) {
      var k :| k in d.jobs && d.jobs[k].source == s && d.jobs[k].purge && LiveJob(d.jobs[k]);
      assert k in e.jobs;
    }
  }

  lemma CreateKeeps(d: Db, u: Upload, limit: nat, lost: set<int>)
    requires Inv(d, limit, lost)
    ensures Inv(Create(d, u, limit), limit, lost)
  {
    if Creates(d, u, limit) {
      CreateShape(d, u, limit);
      CreateReview(d, u, limit, lost);
      CreatePurge(d, u, limit, lost);
      CreateLoad(d, u, limit);
      LoadIsCapacity(d);
    }
  }

  function Expired(x: Source): Source { x.(state := Deleting, generation := x.generation + 1) }

  lemma ExpireShape(d: Db, s: int)
    requires Shape(d) && s in d.sources && d.sources[s].state.Uploading? && !Locked(d, s)
    ensures Shape(SetSource(d, s, Expired(d.sources[s])))
  {
  }

  /** An open upload supports no memory and has no candidate yet. */
  lemma ExpireReview(d: Db, s: int)
    requires s in d.sources && d.sources[s].state.Uploading? && LinksOk(d.links, d.sources, d.used) && CandidatesOk(d.candidates, d.sources, d.used)
    ensures var e := SetSource(d, s, Expired(d.sources[s])); LinksOk(e.links, e.sources, e.used) && CandidatesOk(e.candidates, e.sources, e.used)
  {
  }

  lemma ExpireKeeps(d: Db, limit: nat, lost: set<int>, s: int)
    requires Inv(d, limit, lost) && s in d.sources && d.sources[s].state.Uploading? && !Locked(d, s)
    ensures Inv(SetSource(d, s, Expired(d.sources[s])), limit, lost + {s})
  {
    hide Shape, LinksOk, CandidatesOk;
    ExpireShape(d, s);
    ExpireReview(d, s);
    LoadFalls(d, SetSource(d, s, Expired(d.sources[s])));
  }

  lemma LockKeeps(d: Db, limit: nat, lost: set<int>, s: int, data: string)
    requires Inv(d, limit, lost) && d.receiving.None? && s in d.sources && d.sources[s].state.Uploading? && |data| == d.sources[s].declared
    requires d.sources[s].expires > d.clock
    ensures Inv(d.(receiving := Some(Receiving(s, data, false))), limit, lost)
  {
    assert SourceOk(d.sources[s]);
    LoadFalls(d, d.(receiving := Some(Receiving(s, data, false))));
  }

  /** A receive that finds its reservation expired: the source starts being deleted, and no job is added for it. */
  predicate Expires(d: Db, e: Event) {
    e.DoBeginReceive? && d.receiving.None? && e.source in d.sources && d.sources[e.source].state.Uploading? && d.sources[e.source].expires <= d.clock
  }

  function Lost(d: Db, e: Event): set<int> { if Expires(d, e) then {e.source} else {} }

  lemma BeginReceiveKeeps(d: Db, limit: nat, lost: set<int>, s: int, data: string)
    requires Inv(d, limit, lost)
    ensures Inv(BeginReceive(d, s, data), limit, lost + Lost(d, DoBeginReceive(s, data)))
  {
    hide Inv;
    assert lost + {} == lost;
    if d.receiving.None? && s in d.sources && d.sources[s].state.Uploading? {
      if d.sources[s].expires <= d.clock { ExpireKeeps(d, limit, lost, s); }
      else if |data| == d.sources[s].declared { LockKeeps(d, limit, lost, s, data); }
    }
  }

  lemma StoreKeeps(d: Db, limit: nat, lost: set<int>)
    requires Inv(d, limit, lost)
    ensures Inv(StoreObject(d), limit, lost)
  {
    LoadFalls(d, StoreObject(d));
  }

  lemma CommitShape(d: Db)
    requires Shape(d)
    ensures Shape(CommitReceive(d))
  {
  }

  lemma CommitReview(d: Db)
    requires Shape(d) && LinksOk(d.links, d.sources, d.used) && CandidatesOk(d.candidates, d.sources, d.used)
    ensures var e := CommitReceive(d); LinksOk(e.links, e.sources, e.used) && CandidatesOk(e.candidates, e.sources, e.used)
  {
  }

  lemma CommitLoad(d: Db)
    requires ReceivingOk(d.receiving, d.sources)
    ensures Load(CommitReceive(d)) <= Load(d)
  {
    LoadFalls(d, CommitReceive(d));
  }

  lemma CommitKeeps(d: Db, limit: nat, lost: set<int>)
    requires Inv(d, limit, lost)
    ensures Inv(CommitReceive(d), limit, lost)
  {
    hide LinksOk, CandidatesOk;
    CommitShape(d);
    CommitReview(d);
    CommitLoad(d);
  }

  lemma AbandonFalls(d: Db, owed: bool)
    requires SourcesOk(d.sources, d.legacies, d.used) && ReceivingOk(d.receiving, d.sources)
    ensures Load(AbandonReceive(d, owed)) <= Load(d)
  {
    LoadFalls(d, AbandonReceive(d, owed));
  }

  lemma AbandonKeeps(d: Db, limit: nat, lost: set<int>, owed: bool)
    requires Inv(d, limit, lost)
    ensures Inv(AbandonReceive(d, owed), limit, lost)
  {
    hide SourcesOk, ObjectsOk, JobsOk, WorkersOk, LegaciesOk, FinalizersOk, LinksOk, CandidatesOk, PurgeAwaits, KindsOk, Load;
    AbandonFalls(d, owed);
  }

  lemma CleanUpKeeps(d: Db, limit: nat, lost: set<int>, s: int)
    requires Inv(d, limit, lost)
    ensures Inv(CleanUp(d, s), limit, lost)
  {
    EraseKeeps(d, limit, lost, s);
    SameLoad(d, CleanUp(d, s));
  }

  // ---- deleting and retrying ----

  lemma DeleteShape(d: Db, s: int, job: int)
    requires Shape(d) && s in d.sources && !Gone(d.sources[s].state) && !Locked(d, s) && job !in d.used
    ensures Shape(DeleteSource(d, s, job))
  {
  }

  lemma DeleteReview(d: Db, s: int, job: int)
    requires s in d.sources && !Gone(d.sources[s].state) && LinksOk(d.links, d.sources, d.used) && CandidatesOk(d.candidates, d.sources, d.used)
    ensures var e := DeleteSource(d, s, job); LinksOk(e.links, e.sources, e.used) && CandidatesOk(e.candidates, e.sources, e.used)
  {
  }

  lemma DeletePurge(d: Db, lost: set<int>, s: int, job: int)
    requires s in d.sources && !Gone(d.sources[s].state) && PurgeAwaits(d.sources, d.jobs, lost) && job !in d.jobs
    ensures PurgeAwaits(DeleteSource(d, s, job).sources, DeleteSource(d, s, job).jobs, lost)
  {
    var e := DeleteSource(d, s, job);
    forall r | r in e.sources && e.sources[r].state.Deleting? && r !in lost ensures HasPurge(e.jobs, r) {
      if r == s {
        assert job in e.jobs;
      } else {
        var k :| k in d.jobs && d.jobs[k].source == r && d.jobs[k].purge && LiveJob(d.jobs[k]);
        assert k in e.jobs && e.jobs[k] == d.jobs[k];
      }
    }
  }

  lemma DeleteKeeps(d: Db, limit: nat, lost: set<int>, s: int, job: int)
    requires Inv(d, limit, lost) && s in d.sources && !Locked(d, s) && job !in d.used
    ensures Inv(DeleteSource(d, s, job), limit, lost)
  {
    hide LinksOk, CandidatesOk;
    if !Gone(d.sources[s].state) {
      DeleteShape(d, s, job);
      DeleteReview(d, s, job);
      DeletePurge(d, lost, s, job);
      LoadFalls(d, DeleteSource(d, s, job));
    }
  }

  lemma AddJobKeeps(d: Db, limit: nat, lost: set<int>, job: int, j: Job)
    requires Inv(d, limit, lost) && job !in d.used && j.source in d.sources && (j.purge ==> Gone(d.sources[j.source].state) && j.generation == d.sources[j.source].generation)
    ensures Inv(d.(jobs := d.jobs[job := j], used := d.used + {job}), limit, lost)
  {
    var e := d.(jobs := d.jobs[job := j], used := d.used + {job});
    forall s | s in d.sources && d.sources[s].state.Deleting? && s !in lost ensures HasPurge(e.jobs, s) {
      var k :| k in d.jobs && d.jobs[k].source == s && d.jobs[k].purge && LiveJob(d.jobs[k]);
      assert k in e.jobs;
    }
    SameLoad(d, e);
  }

  lemma RequeueKeeps(d: Db, limit: nat, lost: set<int>, s: int)
    requires Inv(d, limit, lost) && s in d.sources
    ensures Inv(d.(jobs := Requeued(d, s)), limit, lost)
  {
    JobsKeep(d, limit, lost, Requeued(d, s));
  }

  lemma RetryKeeps(d: Db, limit: nat, lost: set<int>, s: int, job: int)
    requires Inv(d, limit, lost)
    ensures Inv(Retry(d, s, job), limit, lost)
  {
    hide Inv;
    if Retries(d, s, job) {
      var y := d.sources[s].(state := Queued);
      var e := SetSource(d, s, y);
      RetryAdvances(d, limit, lost, s);
      AdvanceKeeps(d, limit, lost, s, y);
      if HasExtract(d, s) {
        assert Requeued(d, s) == Requeued(e, s);
        RequeueKeeps(e, limit, lost, s);
      } else {
        AddJobKeeps(e, limit, lost, job, Job(s, y.generation, false, Waiting, None, None, None));
      }
    }
  }

  lemma RetryAdvances(d: Db, limit: nat, lost: set<int>, s: int)
    requires Inv(d, limit, lost) && s in d.sources && (d.sources[s].state.Failed? || d.sources[s].state.PartiallyReady?)
    ensures Advances(d.sources[s], d.sources[s].(state := Queued))
  {
    assert SourceOk(d.sources[s]);
  }

  // ---- review ----

  lemma SkipKeeps(d: Db, limit: nat, lost: set<int>, k: int, version: nat)
    requires Inv(d, limit, lost)
    ensures Inv(Skip(d, k, version), limit, lost)
  {
    SameLoad(d, Skip(d, k, version));
  }

  lemma PreserveReview(d: Db, k: int, version: nat, memory: int, link: int)
    requires LinksOk(d.links, d.sources, d.used) && CandidatesOk(d.candidates, d.sources, d.used)
    requires k in d.candidates && d.candidates[k].source in d.sources ==> SourceOk(d.sources[d.candidates[k].source])
    ensures var e := Preserve(d, k, version, memory, link);
      LinksOk(e.links, e.sources, e.used) && CandidatesOk(e.candidates, e.sources, e.used)
  {
  }

  lemma PreserveShape(d: Db, k: int, version: nat, memory: int, link: int)
    requires Shape(d) && KindsOk(d.workers, d.jobs, d.used)
    ensures var e := Preserve(d, k, version, memory, link); Shape(e) && KindsOk(e.workers, e.jobs, e.used)
  {
  }

  lemma PreserveKeeps(d: Db, limit: nat, lost: set<int>, k: int, version: nat, memory: int, link: int)
    requires Inv(d, limit, lost)
    ensures Inv(Preserve(d, k, version, memory, link), limit, lost)
  {
    hide LinksOk, CandidatesOk, KindsOk;
    PreserveReview(d, k, version, memory, link);
    PreserveShape(d, k, version, memory, link);
    SameLoad(d, Preserve(d, k, version, memory, link));
  }

  // ---- a whole Legacy ----

  lemma EraseLaterKeeps(d: Db, limit: nat, lost: set<int>, s: int, job: int)
    requires Inv(d, limit, lost) && s in d.sources && !Locked(d, s) && job !in d.used
    ensures Inv(EraseLater(d, s, job), limit, lost)
  {
    hide Inv;
    DeleteKeeps(d, limit, lost, s, job);
    var e := DeleteSource(d, s, job);
    assert !Gone(d.sources[s].state) ==> job in e.jobs && e.jobs[job].source == s && e.jobs[job].purge && LiveJob(e.jobs[job]);
    if Gone(d.sources[s].state) { AddJobKeeps(d, limit, lost, job, PurgeJob(s, d.sources[s].generation)); }
  }

  ghost predicate Remain(a: map<int, Source>, b: map<int, Source>) {
    a.Keys == b.Keys && forall s :: s in a ==> b[s].legacy == a[s].legacy && (Gone(a[s].state) ==> Gone(b[s].state))
  }

  lemma DeleteRemains(d: Db, s: int, job: int)
    requires s in d.sources
    ensures var e := DeleteSource(d, s, job);
      && Remain(d.sources, e.sources) && Gone(e.sources[s].state) && e.used <= d.used + {job} && e.receiving == d.receiving && e.legacies == d.legacies
  {
    hide CancelJobs, WithdrawCandidates, UnlinkSource;
  }

  lemma EraseLaterRemains(d: Db, s: int, job: int)
    requires s in d.sources
    ensures var e := EraseLater(d, s, job);
      && Remain(d.sources, e.sources) && Gone(e.sources[s].state) && e.used <= d.used + {job} && e.receiving == d.receiving && e.legacies == d.legacies
  {
    hide HasPurge, DeleteSource;
    DeleteRemains(d, s, job);
  }

  /** Every source named in the work ends up on its way out, and none comes back. */
  lemma {:induction false} EraseAllLaterKeeps(d: Db, limit: nat, lost: set<int>, work: seq<(int, int)>)
    requires Inv(d, limit, lost) && Drawn(d.used, work) && forall i :: 0 <= i < |work| ==> !Locked(d, work[i].0)
    ensures var e := EraseAllLater(d, work); Inv(e, limit, lost) && Remain(d.sources, e.sources) && e.receiving == d.receiving && e.legacies == d.legacies
    ensures var e := EraseAllLater(d, work); forall i :: 0 <= i < |work| && work[i].0 in d.sources ==> Gone(e.sources[work[i].0].state)
    decreases |work|
  {
    hide Inv, EraseLater;
    if work != [] {
      var f := if work[0].0 in d.sources then EraseLater(d, work[0].0, work[0].1) else d;
      if work[0].0 in d.sources {
        EraseLaterKeeps(d, limit, lost, work[0].0, work[0].1);
        EraseLaterRemains(d, work[0].0, work[0].1);
      }
      assert Drawn(f.used, work[1..]);
      EraseAllLaterKeeps(f, limit, lost, work[1..]);
      var e := EraseAllLater(f, work[1..]);
      forall i | 0 <= i < |work| && work[i].0 in d.sources ensures Gone(e.sources[work[i].0].state) {
        if i > 0 { assert work[1..][i - 1] == work[i]; }
      }
    }
  }

  lemma MarkKeeps(d: Db, limit: nat, lost: set<int>, l: int)
    requires Inv(d, limit, lost) && l in d.legacies && forall s :: Registered(d, l, s) ==> Gone(d.sources[s].state)
    ensures Inv(d.(legacies := d.legacies[l := true]), limit, lost)
  {
    SameLoad(d, d.(legacies := d.legacies[l := true]));
  }

  lemma RequestKeeps(d: Db, limit: nat, lost: set<int>, l: int, work: seq<(int, int)>)
    requires Inv(d, limit, lost)
    ensures Inv(RequestDeletion(d, l, work), limit, lost)
  {
    hide Inv;
    if l in d.legacies && !d.legacies[l] && Covers(d, l, work) && !(d.receiving.Some? && Registered(d, l, d.receiving.value.source)) {
      EraseAllLaterKeeps(d, limit, lost, work);
      var e := EraseAllLater(d, work);
      forall s | Registered(e, l, s) ensures Gone(e.sources[s].state) {
        assert s in Registry(d, l);
      }
      MarkKeeps(e, limit, lost, l);
    }
  }

  lemma DropShape(d: Db, run: int)
    requires Shape(d) && Drops(d, run)
    ensures Shape(DropLegacy(d, run))
  {
    var gone := d.finalizers[run].registry;
    assert forall s :: s in gone ==> s in Registry(d, d.finalizers[run].legacy);
    assert forall s :: s in d.sources && d.sources[s].legacy == d.finalizers[run].legacy ==> s in gone;
  }

  lemma DropReview(d: Db, run: int)
    requires Drops(d, run) && LinksOk(d.links, d.sources, d.used) && CandidatesOk(d.candidates, d.sources, d.used) && KindsOk(d.workers, d.jobs, d.used)
    ensures var e := DropLegacy(d, run);
      LinksOk(e.links, e.sources, e.used) && CandidatesOk(e.candidates, e.sources, e.used) && KindsOk(e.workers, e.jobs, e.used)
  {
  }

  lemma DropPurge(d: Db, lost: set<int>, run: int)
    requires Drops(d, run) && PurgeAwaits(d.sources, d.jobs, lost)
    ensures PurgeAwaits(DropLegacy(d, run).sources, DropLegacy(d, run).jobs, lost)
  {
    var e := DropLegacy(d, run);
    forall s | s in e.sources && e.sources[s].state.Deleting? && s !in lost ensures HasPurge(e.jobs, s) {
      var j :| j in d.jobs && d.jobs[j].source == s && d.jobs[j].purge && LiveJob(d.jobs[j]);
      assert j in e.jobs;
    }
  }

  lemma DropKeeps(d: Db, limit: nat, lost: set<int>, run: int)
    requires Inv(d, limit, lost)
    ensures Inv(DropLegacy(d, run), limit, lost)
  {
    hide Shape, LinksOk, CandidatesOk, PurgeAwaits, KindsOk;
    if Drops(d, run) {
      DropShape(d, run);
      DropReview(d, run);
      DropPurge(d, lost, run);
      LoadFalls(d, DropLegacy(d, run));
    }
  }

  lemma EraseKeyKeeps(d: Db, limit: nat, lost: set<int>, run: int, s: int)
    requires Inv(d, limit, lost)
    ensures Inv(EraseKey(d, run, s), limit, lost)
  {
    EraseKeeps(d, limit, lost, s);
    SameLoad(d, EraseKey(d, run, s));
  }

  lemma TickKeeps(d: Db, limit: nat, lost: set<int>, at: int)
    requires Inv(d, limit, lost)
    ensures Inv(d.(clock := Max(d.clock, at)), limit, lost)
  {
    hide KindsOk, LinksOk, CandidatesOk, PurgeAwaits, Shape;
    assert Shape(d.(clock := Max(d.clock, at))) by { TickShape(d, at); }
    LoadFalls(d, d.(clock := Max(d.clock, at)));
  }

  lemma TickShape(d: Db, at: int)
    requires Shape(d)
    ensures Shape(d.(clock := Max(d.clock, at)))
  {
  }

  lemma NewLegacyKeeps(d: Db, limit: nat, lost: set<int>, l: int)
    requires Inv(d, limit, lost) && l !in d.used
    ensures Inv(d.(legacies := d.legacies[l := false], used := d.used + {l}), limit, lost)
  {
    SameLoad(d, d.(legacies := d.legacies[l := false], used := d.used + {l}));
  }

  lemma ReadRegistryKeeps(d: Db, limit: nat, lost: set<int>, run: int, l: int)
    requires Inv(d, limit, lost)
    ensures Inv(ReadRegistry(d, run, l), limit, lost)
  {
    SameLoad(d, ReadRegistry(d, run, l));
  }

  // ---- one step, and any number of them ----

  predicate ByWorker(e: Event) {
    e.DoClaim? || e.DoAnalyse? || e.DoPersist? || e.DoFail? || e.DoCancelStale? || e.DoValidate? || e.DoErase? || e.DoRetryPurge? || e.DoFinishPurge?
  }

  lemma WorkerStepKeeps(d: Db, limit: nat, lost: set<int>, e: Event)
    requires Inv(d, limit, lost) && ByWorker(e)
    ensures Inv(Step(d, limit, e), limit, lost)
  {
    hide Inv, ClaimJob, Analyse, Persist, FailJob, CancelStale, ValidateVisual, EraseForPurge, RetryPurge, FinishPurge;
    match e
    case DoClaim(j, token, lease) => ClaimKeeps(d, limit, lost, j, token, lease);
    case DoAnalyse(token) => AnalyseKeeps(d, limit, lost, token);
    case DoPersist(token, found) => PersistKeeps(d, limit, lost, token, found);
    case DoFail(token) => FailKeeps(d, limit, lost, token);
    case DoCancelStale(token) => CancelStaleKeeps(d, limit, lost, token);
    case DoValidate(token, ok) => ValidateKeeps(d, limit, lost, token, ok);
    case DoErase(token) => EraseForPurgeKeeps(d, limit, lost, token);
    case DoRetryPurge(token) => RetryPurgeKeeps(d, limit, lost, token);
    case DoFinishPurge(token) => FinishPurgeKeeps(d, limit, lost, token);
  }

  lemma StepKeeps(d: Db, limit: nat, lost: set<int>, e: Event)
    requires Inv(d, limit, lost)
    ensures Inv(Step(d, limit, e), limit, lost + Lost(d, e))
  {
    assert lost + {} == lost;
    if ByWorker(e) { WorkerStepKeeps(d, limit, lost, e); } else { OtherStepKeeps(d, limit, lost, e); }
  }

  lemma OtherStepKeeps(d: Db, limit: nat, lost: set<int>, e: Event)
    requires Inv(d, limit, lost) && !ByWorker(e)
    ensures Inv(Step(d, limit, e), limit, lost + Lost(d, e))
  {
    hide Inv, Create, Preserve, DropLegacy, RequestDeletion, DeleteSource, Retry, CommitReceive, BeginReceive, CleanUp, EraseKey, Skip, StoreObject, AbandonReceive;
    assert lost + {} == lost;
    match e
    case DoTick(at) => TickKeeps(d, limit, lost, at);
    case DoNewLegacy(l) => if l !in d.used { NewLegacyKeeps(d, limit, lost, l); }
    case DoReadRegistry(run, l) => ReadRegistryKeeps(d, limit, lost, run, l);
    case DoCreate(u) => CreateKeeps(d, u, limit, lost);
    case DoBeginReceive(s, data) => BeginReceiveKeeps(d, limit, lost, s, data);
    case DoStore => StoreKeeps(d, limit, lost);
    case DoCommit => CommitKeeps(d, limit, lost);
    case DoAbandon(owed) => AbandonKeeps(d, limit, lost, owed);
    case DoCleanUp(s) => CleanUpKeeps(d, limit, lost, s);
    case DoDelete(s, job) => if s in d.sources && !Locked(d, s) && job !in d.used { DeleteKeeps(d, limit, lost, s, job); }
    case DoRetry(s, job) => RetryKeeps(d, limit, lost, s, job);
    case DoSkip(k, version) => SkipKeeps(d, limit, lost, k, version);
    case DoPreserve(k, version, memory, link) => PreserveKeeps(d, limit, lost, k, version, memory, link);
    case DoRequestDeletion(l, work) => RequestKeeps(d, limit, lost, l, work);
    case DoEraseKey(run, s) => EraseKeyKeeps(d, limit, lost, run, s);
    case DoDropLegacy(run) => DropKeeps(d, limit, lost, run);
  }

  /** The sources that some step of the run lost. */
  ghost function LostIn(d: Db, limit: nat, events: seq<Event>): set<int>
    decreases |events|
  {
    if events == [] then {} else Lost(d, events[0]) + LostIn(Step(d, limit, events[0]), limit, events[1..])
  }

  lemma NothingOk(limit: nat)
    ensures Inv(NOTHING, limit, {})
  {
    assert (map s | s in NOTHING.sources :: Weight(NOTHING, s)) == map[];
  }

  lemma {:induction false} RunKeeps(d: Db, limit: nat, lost: set<int>, events: seq<Event>)
    requires Inv(d, limit, lost)
    ensures Inv(Run(d, limit, events), limit, lost + LostIn(d, limit, events))
    decreases |events|
  {
    hide Inv;
    if events == [] {
      assert lost + {} == lost;
    } else {
      var e := Step(d, limit, events[0]);
      StepKeeps(d, limit, lost, events[0]);
      RunKeeps(e, limit, lost + Lost(d, events[0]), events[1..]);
      assert lost + Lost(d, events[0]) + LostIn(e, limit, events[1..]) == lost + LostIn(d, limit, events);
    }
  }
}
