// What media work comes to when it is left alone, and what a review or a deletion leaves for good.
module MediaProgress {
  import opened Wrappers
  import opened Sums
  import opened MediaLifecycle
  import opened MediaSafety
  import opened MediaGuarantees

  // ---- extraction and validation ----

  /** An extraction job for stored bytes, waiting for a worker. */
  predicate Extractable(d: Db, j: int, s: int) {
    && Claimable(d, j) && !d.jobs[j].purge && d.jobs[j].source == s && !Locked(d, s) && d.sources[s].state.Queued?
    && d.jobs[j].generation == d.sources[s].generation
  }

  /** A job is claimed exactly when it is unfinished, due, not leased to another worker any more, and its source is there, neither
      deleted nor being received. */
  lemma ClaimIsExact(d: Db, j: int, token: int, lease: nat)
    requires token !in d.used && token !in d.workers
    ensures ClaimJob(d, j, token, lease) != d <==>
      && j in d.jobs && (d.jobs[j].state.Waiting? || d.jobs[j].state.Running? || d.jobs[j].state.Retrying?)
      && (d.jobs[j].next.None? || d.jobs[j].next.value <= d.clock)
      && (d.jobs[j].token.None? || (d.jobs[j].until.Some? && d.jobs[j].until.value <= d.clock))
      && d.jobs[j].source in d.sources && !d.sources[d.jobs[j].source].state.Deleted?
      && (d.receiving.None? || d.receiving.value.source != d.jobs[j].source)
  {
    if Claimable(d, j) && !Locked(d, d.jobs[j].source) { assert token in ClaimJob(d, j, token, lease).workers; }
  }

  lemma ExtractionIsClaimed(d: Db, j: int, s: int, token: int, lease: nat)
    requires Extractable(d, j, s) && token !in d.used
    ensures var e := ClaimJob(d, j, token, lease);
      && token in e.workers && e.workers[token] == Worker(j, s, false, Started) && Current(e, token)
      && e.jobs == d.jobs[j := d.jobs[j].(state := Running, token := Some(token), until := Some(d.clock + lease))]
      && e.sources == d.sources[s := d.sources[s].(state := Processing)]
      && e.candidates == d.candidates && e.objects == d.objects && e.used == d.used + {token} && e.receiving == d.receiving && e.clock == d.clock
  {
  }

  lemma BytesAreAnalysed(d: Db, token: int)
    requires Current(d, token) && !d.sources[d.workers[token].source].visual && d.workers[token].source in d.objects
    ensures Analyse(d, token) == d.(workers := d.workers[token := d.workers[token].(phase := Analysed)]) && Current(Analyse(d, token), token)
  {
  }

  /** The new proposals are candidates, as proposed and open, and the others are as before. */
  ghost predicate Proposed(d: Db, e: Db, s: int, found: map<int, string>) {
    && s in d.sources
    && (forall k :: k in d.candidates ==> k in e.candidates && e.candidates[k] == d.candidates[k])
    && (forall k :: k in e.candidates && k !in d.candidates ==> k in found)
    && (forall k :: k in found && k !in d.candidates && k !in d.used ==>
          k in e.candidates && e.candidates[k] == Candidate(s, d.sources[s].generation, 1, Pending, Some(found[k])))
  }

  lemma ProposalsPersist(d: Db, token: int, found: map<int, string>)
    requires Current(d, token) && d.workers[token].phase.Analysed? && !d.sources[d.workers[token].source].visual
    ensures var s, j, e := d.workers[token].source, d.workers[token].job, Persist(d, token, found);
      && Proposed(d, e, s, found) && s in e.sources && j in e.jobs && e.jobs[j].token.None?
      && (found == map[] ==> e.sources[s].state.PartiallyReady? && e.jobs[j].state.Partial?)
      && ((exists k :: k in found && k !in d.candidates && k !in d.used) ==> e.sources[s].state.Ready? && e.jobs[j].state.Succeeded?)
  {
    var s := d.workers[token].source;
    var added := Added(d, s, d.sources[s].generation, found);
    if k :| k in found && k !in d.candidates && k !in d.used { assert k in added; }
    if found == map[] { assert added == map[]; }
  }

  /** A worker left alone with stored bytes turns its proposals into open candidates: the source is ready if any of them is new,
      partially ready if there were none, and the job is over. */
  lemma UndisturbedExtraction(d: Db, limit: nat, lost: set<int>, j: int, s: int, token: int, lease: nat, found: map<int, string>)
    requires Inv(d, limit, lost) && Extractable(d, j, s) && token !in d.used && token !in found && !d.sources[s].visual && s in d.objects
    ensures var e := Step(Step(Step(d, limit, DoClaim(j, token, lease)), limit, DoAnalyse(token)), limit, DoPersist(token, found));
      && Proposed(d, e, s, found) && s in e.sources && j in e.jobs && e.jobs[j].token.None?
      && (found == map[] ==> e.sources[s].state.PartiallyReady? && e.jobs[j].state.Partial?)
      && ((exists k :: k in found && k !in d.candidates && k !in d.used) ==> e.sources[s].state.Ready? && e.jobs[j].state.Succeeded?)
  {
    assert s in d.sources;
    hide Inv, ClaimJob, Analyse, Persist, Current, Claimable, Step, Proposed;
    WorkerSteps(d, limit, j, token, lease, found);
    WorkerSteps(ClaimJob(d, j, token, lease), limit, j, token, lease, found);
    WorkerSteps(Analyse(ClaimJob(d, j, token, lease), token), limit, j, token, lease, found);
    var e1 := ClaimJob(d, j, token, lease);
    ExtractionIsClaimed(d, j, s, token, lease);
    BytesAreAnalysed(e1, token);
    var e2 := Analyse(e1, token);
    ProposalsPersist(e2, token, found);
    ClaimedProposes(d, e2, Persist(e2, token, found), s, token, found);
  }

  lemma WorkerSteps(d: Db, limit: nat, j: int, token: int, lease: nat, found: map<int, string>)
    ensures Step(d, limit, DoClaim(j, token, lease)) == ClaimJob(d, j, token, lease)
    ensures Step(d, limit, DoAnalyse(token)) == Analyse(d, token) && Step(d, limit, DoPersist(token, found)) == Persist(d, token, found)
  {
    hide ClaimJob, Analyse, Persist;
  }

  /** Claiming draws only its own token. */
  lemma ClaimedProposes(d: Db, f: Db, e: Db, s: int, token: int, found: map<int, string>)
    requires Proposed(f, e, s, found) && f.candidates == d.candidates && f.used == d.used + {token} && token !in found
    requires s in d.sources && s in f.sources && f.sources[s].generation == d.sources[s].generation
    ensures Proposed(d, e, s, found)
    ensures (exists k :: k in found && k !in d.candidates && k !in d.used) ==> exists k :: k in found && k !in f.candidates && k !in f.used
  {
    if k :| k in found && k !in d.candidates && k !in d.used { assert k in found && k !in f.candidates && k !in f.used; }
  }

  /** A worker left alone with a visual reference decides on it as its verdict says. */
  lemma UndisturbedValidation(d: Db, limit: nat, lost: set<int>, j: int, s: int, token: int, lease: nat, ok: bool)
    requires Inv(d, limit, lost) && Extractable(d, j, s) && token !in d.used && d.sources[s].visual && lease > 0
    ensures var e := Step(Step(d, limit, DoClaim(j, token, lease)), limit, DoValidate(token, ok));
      && s in e.sources && j in e.jobs && e.jobs[j].token.None?
      && e.sources[s] == d.sources[s].(state := if ok then Ready else Failed, safety := if ok then Clean else Rejected)
      && e.jobs[j].state == if ok then Succeeded else Broken
  {
    hide Inv, ClaimJob, Claimable;
    ExtractionIsClaimed(d, j, s, token, lease);
    Validates(ClaimJob(d, j, token, lease), token, ok);
  }

  lemma Validates(d: Db, token: int, ok: bool)
    requires Current(d, token) && d.sources[d.workers[token].source].visual && !d.sources[d.workers[token].source].state.Uploading?
    requires var j := d.jobs[d.workers[token].job]; j.state.Running? && j.until.Some? && d.clock < j.until.value
    ensures var s, j, e := d.workers[token].source, d.workers[token].job, ValidateVisual(d, token, ok);
      && e.sources == d.sources[s := d.sources[s].(state := if ok then Ready else Failed, safety := if ok then Clean else Rejected)]
      && e.jobs == d.jobs[j := d.jobs[j].(state := if ok then Succeeded else Broken, token := None, until := None)]
  {
  }

  /** A claim that fails leaves the source failed and its job broken, and a failed source can be put back to the queue by its
      uploader, for any worker to claim at once. */
  lemma FailedIsRetried(d: Db, limit: nat, lost: set<int>, token: int, job: int)
    requires Inv(d, limit, lost) && Current(d, token)
    ensures var s, j, e := d.workers[token].source, d.workers[token].job, Step(d, limit, DoFail(token));
      var f := Step(e, limit, DoRetry(s, job));
      && s in e.sources && e.sources[s] == d.sources[s].(state := Failed) && j in e.jobs && e.jobs[j].state.Broken? && e.jobs[j].token.None?
      && s in f.sources && f.sources[s] == d.sources[s].(state := Queued) && Claimable(f, j) && f.jobs[j].state.Waiting?
  {
    var s, j, e := d.workers[token].source, d.workers[token].job, FailJob(d, token);
    assert !d.jobs[j].purge && d.jobs[j].source == s;
    assert Extracts(e, s, j);
  }

  /** A purge whose storage delete failed keeps its job, which can be claimed again exactly thirty seconds later. */
  lemma FailedPurgeWaits(d: Db, limit: nat, lost: set<int>, token: int, at: int)
    requires Inv(d, limit, lost) && Holding(d, token) && d.workers[token].purge
    requires d.workers[token].source in d.sources && !d.sources[d.workers[token].source].state.Deleted?
    ensures var j, e := d.workers[token].job, Step(d, limit, DoRetryPurge(token));
      var f := Step(e, limit, DoTick(at));
      && e == d.(jobs := d.jobs[j := d.jobs[j].(state := Retrying, token := None, until := None, next := Some(d.clock + 30_000_000))])
      && (Claimable(f, j) <==> d.clock + 30_000_000 <= at)
  {
    assert d.jobs[d.workers[token].job].source == d.workers[token].source;
    hide Inv;
  }

  // ---- deletion ----

  /** A deletion cancels every open job of the source, withdraws its candidates and links, leaves one purge job at the new
      generation, and touches nothing of any other source. */
  lemma DeletionIsExact(d: Db, s: int, job: int)
    requires s in d.sources && !Gone(d.sources[s].state) && job !in d.jobs
    ensures var e := DeleteSource(d, s, job);
      && e.sources == d.sources[s := d.sources[s].(state := Deleting, generation := d.sources[s].generation + 1)]
      && (forall j :: j in d.jobs ==> j in e.jobs && e.jobs[j] == if d.jobs[j].source == s && LiveJob(d.jobs[j])
            then d.jobs[j].(state := Cancelled, token := None, until := None) else d.jobs[j])
      && (forall j :: j in e.jobs && j !in d.jobs ==> j == job)
      && job in e.jobs && e.jobs[job] == Job(s, d.sources[s].generation + 1, true, Waiting, None, None, None) && Claimable(e, job)
      && (forall k :: k in d.candidates && d.candidates[k].source != s ==> k in e.candidates && e.candidates[k] == d.candidates[k])
      && (forall k :: k in d.links ==> k in e.links && e.links[k] == if d.links[k].source == s then d.links[k].(approved := false) else d.links[k])
  {
  }

  // ---- a proposal that was turned down ----

  /** No link was ever made for the candidate, and none will be. */
  ghost predicate TurnedDown(d: Db, k: int, s: int) {
    (if k in d.candidates then d.candidates[k].decision.Skipped? else s !in d.sources) && forall j :: j in d.links ==> d.links[j].candidate != k
  }

  lemma TurnedDownStays(d: Db, e: Db, k: int, s: int)
    requires Decides(d, e) && InUse(d) && k in d.candidates && d.candidates[k].source == s && TurnedDown(d, k, s)
    ensures TurnedDown(e, k, s)
  {
    forall j | j in e.links ensures e.links[j].candidate != k {
      if j in d.links { assert LinkStays(d.links[j], e.links[j], e); }
    }
  }

  lemma FirstSkip(d: Db, k: int, version: nat)
    requires LinksDecided(d) && Reviewable(d, k, version)
    ensures var e := Skip(d, k, version); TurnedDown(e, k, d.candidates[k].source) && k in e.candidates && e.candidates[k].source == d.candidates[k].source
  {
    assert Undecided(d, k);
  }

  /** Over every run before and after it: a candidate that was skipped stays skipped until its Legacy is dropped, and never
      supports any memory. */
  lemma SkipIsFinal(limit: nat, before: seq<Event>, k: int, version: nat, events: seq<Event>)
    ensures var d := Run(NOTHING, limit, before);
      Reviewable(d, k, version) ==> TurnedDown(Run(Step(d, limit, DoSkip(k, version)), limit, events), k, d.candidates[k].source)
  {
    var d, lost := Run(NOTHING, limit, before), LostIn(NOTHING, limit, before);
    NothingOk(limit);
    RunKeeps(NOTHING, limit, {}, before);
    if Reviewable(d, k, version) {
      hide Inv, Decides, InUse, LinksDecided, TurnedDown, Reviewable, Step;
      ReachedDecided(limit, before);
      var e := Step(d, limit, DoSkip(k, version));
      SkipStep(d, limit, k, version);
      FirstSkip(d, k, version);
      StepKeeps(d, limit, {} + lost, DoSkip(k, version));
      InvInUse(e, limit, {} + lost + Lost(d, DoSkip(k, version)));
      RunDecides(e, limit, {} + lost + Lost(d, DoSkip(k, version)), events);
      TurnedDownStays(e, Run(e, limit, events), k, d.candidates[k].source);
    }
  }

  lemma SkipStep(d: Db, limit: nat, k: int, version: nat)
    ensures Step(d, limit, DoSkip(k, version)) == Skip(d, k, version)
  {
  }

  // ---- a Legacy that is to be deleted ----

  /** The source is deleted, or an unfinished purge job of its own will delete it. */
  predicate Erasing(d: Db, s: int) {
    && s in d.sources
    && (d.sources[s].state.Deleted?
        || (d.sources[s].state.Deleting? && exists j :: j in d.jobs && d.jobs[j].source == s && d.jobs[j].purge && LiveJob(d.jobs[j])))
  }

  lemma EraseLaterErases(d: Db, s: int, job: int)
    requires s in d.sources
    ensures Erasing(EraseLater(d, s, job), s)
  {
    var e := DeleteSource(d, s, job);
    var f := EraseLater(d, s, job);
    hide WithdrawCandidates, UnlinkSource;
    if !Gone(d.sources[s].state) {
      assert job in e.jobs && e.jobs[job].source == s && e.jobs[job].purge && LiveJob(e.jobs[job]);
    } else if d.sources[s].state.Deleting? && !HasPurge(d.jobs, s) {
      assert job in f.jobs && f.jobs[job].source == s && f.jobs[job].purge && LiveJob(f.jobs[job]);
    }
  }

  lemma EraseLaterLeaves(d: Db, s: int, job: int, r: int)
    requires s in d.sources && Erasing(d, r) && job !in d.jobs
    ensures Erasing(EraseLater(d, s, job), r)
  {
    hide WithdrawCandidates, UnlinkSource;
    var f := EraseLater(d, s, job);
    if d.sources[r].state.Deleting? {
      var j :| j in d.jobs && d.jobs[j].source == r && d.jobs[j].purge && LiveJob(d.jobs[j]);
      assert j in f.jobs && f.jobs[j] == d.jobs[j];
    }
  }

  predicate JobsUsed(d: Db) { forall j :: j in d.jobs ==> j in d.used }

  lemma DeleteDraws(d: Db, s: int, job: int)
    requires s in d.sources && JobsUsed(d)
    ensures var e := DeleteSource(d, s, job); JobsUsed(e)
  {
    hide WithdrawCandidates, UnlinkSource;
  }

  lemma EraseLaterDraws(d: Db, s: int, job: int)
    requires s in d.sources && JobsUsed(d)
    ensures var e := EraseLater(d, s, job); JobsUsed(e) && e.used <= d.used + {job} && e.sources.Keys == d.sources.Keys
  {
    hide DeleteSource, HasPurge, CancelJobs;
    DeleteDraws(d, s, job);
    EraseLaterRemains(d, s, job);
  }

  lemma ReachedJobsUsed(d: Db, limit: nat, lost: set<int>)
    requires Inv(d, limit, lost)
    ensures JobsUsed(d)
  {
  }

  lemma {:induction false} AllAreErased(d: Db, work: seq<(int, int)>, r: int)
    requires JobsUsed(d) && Drawn(d.used, work) && r in d.sources
    requires Erasing(d, r) || exists i :: 0 <= i < |work| && work[i].0 == r
    ensures Erasing(EraseAllLater(d, work), r)
    decreases |work|
  {
    hide Erasing, EraseLater;
    if work != [] {
      var s, job := work[0].0, work[0].1;
      if s !in d.sources {
        if !Erasing(d, r) {
          var i :| 0 <= i < |work| && work[i].0 == r;
          assert work[1..][i - 1] == work[i];
        }
        AllAreErased(d, work[1..], r);
      } else {
        EraseLaterDraws(d, s, job);
        if s == r { EraseLaterErases(d, s, job); }
        else if Erasing(d, r) { EraseLaterLeaves(d, s, job, r); }
        else {
          var i :| 0 <= i < |work| && work[i].0 == r;
          assert work[1..][i - 1] == work[i];
        }
        AllAreErased(EraseLater(d, s, job), work[1..], r);
      }
    }
  }

  /** Over every run before it: a deletion of a Legacy is taken exactly when it is open and none of its sources is being received,
      and leaves every source of it deleted or with a purge job that will delete it, one that lost its own among them. */
  lemma RequestIsComplete(limit: nat, before: seq<Event>, l: int, work: seq<(int, int)>, s: int)
    requires var d := Run(NOTHING, limit, before); Covers(d, l, work)
    ensures var d := Run(NOTHING, limit, before);
      var e := Step(d, limit, DoRequestDeletion(l, work));
      var taken := l in d.legacies && !d.legacies[l]
        && (d.receiving.Some? && d.receiving.value.source in d.sources ==> d.sources[d.receiving.value.source].legacy != l);
      if taken then l in e.legacies && e.legacies[l] && (s in d.sources && d.sources[s].legacy == l ==> Erasing(e, s)) else e == d
  {
    var d, lost := Run(NOTHING, limit, before), LostIn(NOTHING, limit, before);
    NothingOk(limit);
    RunKeeps(NOTHING, limit, {}, before);
    hide Inv, Erasing, EraseAllLater, Step, Run, JobsUsed;
    ReachedJobsUsed(d, limit, {} + lost);
    RequestStep(d, limit, l, work);
    if s in d.sources && d.sources[s].legacy == l {
      assert s in Registry(d, l);
      AllAreErased(d, work, s);
      MarkedErasing(EraseAllLater(d, work), l, s);
    }
  }

  lemma MarkedErasing(d: Db, l: int, s: int)
    requires Erasing(d, s)
    ensures Erasing(d.(legacies := d.legacies[l := true]), s)
  {
  }

  lemma RequestStep(d: Db, limit: nat, l: int, work: seq<(int, int)>)
    ensures Step(d, limit, DoRequestDeletion(l, work)) == RequestDeletion(d, l, work)
  {
    hide RequestDeletion;
  }

  // ---- erasing a Legacy ----

  function EraseKeys(d: Db, run: int, keys: seq<int>): Db
    decreases |keys|
  {
    if keys == [] then d else EraseKeys(EraseKey(d, run, keys[0]), run, keys[1..])
  }

  lemma {:induction false} KeysAreErased(d: Db, run: int, keys: seq<int>)
    requires run in d.finalizers && forall i :: 0 <= i < |keys| ==> keys[i] in d.finalizers[run].registry
    ensures var e := EraseKeys(d, run, keys);
      && run in e.finalizers && e.finalizers[run].registry == d.finalizers[run].registry && e.finalizers[run].legacy == d.finalizers[run].legacy
      && (forall s :: s in e.finalizers[run].erased <==> s in d.finalizers[run].erased || s in keys)
      && e.legacies == d.legacies && e.sources == d.sources && (forall s :: s in keys ==> s !in e.objects)
      && (forall s :: s !in d.objects ==> s !in e.objects)
    decreases |keys|
  {
    if keys != [] {
      KeysAreErased(EraseKey(d, run, keys[0]), run, keys[1..]);
    }
  }

  /** Once every source of a Legacy that is to be deleted is deleted and purged, a worker left alone drops the Legacy. */
  lemma UndisturbedErasure(d: Db, run: int, l: int, keys: seq<int>)
    requires AllErased(d, l) && run !in d.finalizers
    requires (forall i :: 0 <= i < |keys| ==> keys[i] in Registry(d, l)) && forall s :: s in Registry(d, l) ==> s in keys
    ensures var e := DropLegacy(EraseKeys(ReadRegistry(d, run, l), run, keys), run);
      l !in e.legacies && (forall s :: s in keys ==> s !in e.sources && s !in e.objects)
      && (forall s :: s in d.sources && d.sources[s].legacy != l ==> s in e.sources && e.sources[s] == d.sources[s])
  {
    var f := ReadRegistry(d, run, l);
    assert f.finalizers[run] == Finalizer(l, Registry(d, l), {});
    KeysAreErased(f, run, keys);
    var g := EraseKeys(f, run, keys);
    assert forall s :: s in g.finalizers[run].erased <==> s in g.finalizers[run].registry;
    assert g.finalizers[run].erased == g.finalizers[run].registry;
    assert Registry(g, l) == Registry(d, l);
    assert Drops(g, run);
  }

  /** An approval is taken exactly for an open candidate, in the version that was read, whose source is there at the generation
      it was proposed for, clean, not on its way out and not being received. */
  lemma ApprovalIsExact(d: Db, k: int, version: nat, memory: int, link: int)
    requires link !in d.used
    ensures Preserve(d, k, version, memory, link) != d <==>
      && k in d.candidates && d.candidates[k].decision.Pending? && d.candidates[k].version == version && d.candidates[k].content.Some?
      && var s := d.candidates[k].source;
         s in d.sources && d.sources[s].generation == d.candidates[k].generation && d.sources[s].safety.Clean?
         && !d.sources[s].state.Deleting? && !d.sources[s].state.Deleted? && (d.receiving.None? || d.receiving.value.source != s)
  {
    if Approves(d, k, version) { assert Preserve(d, k, version, memory, link).candidates[k].decision.Preserved?; }
  }
}
