// Sources, their processing jobs and their stored bytes (backend/app/services/media_sources.py, media_worker.py,
// media_intelligence.py, media_review.py and legacy_deletion.py), for the Legacies of one owner: the storage
// allowance and its lock are per owner. A database transaction is one step; storage work happens between steps,
// and a process may die at any of them. A source has one artifact, its original, and the object key is the
// artifact's own, so an object is named by its source.
module MediaLifecycle {
  import opened Wrappers
  import opened Sums

  datatype State = Uploading | Queued | Processing | Ready | PartiallyReady | Failed | Deleting | Deleted

  datatype Safety = Unchecked | Clean | Rejected

  datatype Artifact = Reserved | Available(data: string) | Purged

  // visual: the purpose is a visual reference.
  datatype Source = Source(
    legacy: int, visual: bool, state: State, safety: Safety, generation: int, declared: nat, expires: int, artifact: Artifact,
    request: int, digest: int)

  datatype JobState = Waiting | Running | Retrying | Succeeded | Partial | Broken | Cancelled

  datatype Job = Job(source: int, generation: int, purge: bool, state: JobState, token: Option<int>, until: Option<int>, next: Option<int>)

  datatype Decision = Pending | Skipped | Preserved | Withdrawn

  // content is the proposal, its draft and its evidence.
  datatype Candidate = Candidate(source: int, generation: int, version: nat, decision: Decision, content: Option<string>)

  datatype Link = Link(memory: int, candidate: int, source: int, approved: bool)

  /** A receive that holds the owner lock and the source row. */
  datatype Receiving = Receiving(source: int, data: string, stored: bool)

  datatype Phase = Started | Analysed | Erased

  /** A worker that claimed a job, after its first transaction. */
  datatype Worker = Worker(job: int, source: int, purge: bool, phase: Phase)

  /** A worker erasing a whole Legacy: what it read, and the keys it has erased. */
  datatype Finalizer = Finalizer(legacy: int, registry: set<int>, erased: set<int>)

  // legacies maps each Legacy to whether its deletion was requested. cleanups are deletes owed by failed commits.
  datatype Db = Db(
    legacies: map<int, bool>, sources: map<int, Source>, jobs: map<int, Job>, candidates: map<int, Candidate>, links: map<int, Link>,
    objects: map<int, string>, receiving: Option<Receiving>, cleanups: set<int>, workers: map<int, Worker>,
    finalizers: map<int, Finalizer>, used: set<int>, clock: int)

  const NOTHING := Db(map[], map[], map[], map[], map[], map[], None, {}, map[], map[], {}, 0)

  predicate Gone(s: State) { s.Deleting? || s.Deleted? }

  predicate LiveJob(j: Job) { j.state.Waiting? || j.state.Running? || j.state.Retrying? }

  /** The row lock a receive holds until it commits or rolls back. */
  predicate Locked(d: Db, s: int) { d.receiving.Some? && d.receiving.value.source == s }

  // ---- capacity ----

  /** What capacity counts for a source: its stored original, or its unexpired reservation. */
  function Counted(x: Source, now: int): nat {
    match x.artifact
    case Available(data) => |data|
    case _ => if x.state.Uploading? && x.expires > now then x.declared else 0
  }

  ghost function Capacity(d: Db): nat {
    Sum(map s | s in d.sources :: Counted(d.sources[s], d.clock))
  }

  // ---- changes of one source ----

  function SetSource(d: Db, s: int, x: Source): Db { d.(sources := d.sources[s := x]) }

  function CancelJobs(jobs: map<int, Job>, s: int): map<int, Job> {
    map j | j in jobs :: if jobs[j].source == s && LiveJob(jobs[j]) then jobs[j].(state := Cancelled, token := None, until := None) else jobs[j]
  }

  function WithdrawCandidates(candidates: map<int, Candidate>, s: int): map<int, Candidate> {
    map k | k in candidates ::
      if candidates[k].source != s then candidates[k]
      else candidates[k].(content := None, decision := if candidates[k].decision.Pending? then Withdrawn else candidates[k].decision)
  }

  function UnlinkSource(links: map<int, Link>, s: int): map<int, Link> {
    map k | k in links :: if links[k].source == s then links[k].(approved := false) else links[k]
  }

  function PurgeJob(s: int, generation: int): Job { Job(s, generation, true, Waiting, None, None, None) }

  /** MediaSourceService.delete; job is the id of the purge job it adds. */
  function DeleteSource(d: Db, s: int, job: int): Db
    requires s in d.sources
  {
    var x := d.sources[s];
    if Gone(x.state) then d
    else
      d.(sources := d.sources[s := x.(state := Deleting, generation := x.generation + 1)],
         jobs := CancelJobs(d.jobs, s)[job := PurgeJob(s, x.generation + 1)],
         candidates := WithdrawCandidates(d.candidates, s), links := UnlinkSource(d.links, s), used := d.used + {job})
  }

  predicate HasPurge(jobs: map<int, Job>, s: int) {
    exists j :: j in jobs && jobs[j].source == s && jobs[j].purge && LiveJob(jobs[j])
  }

  /** One source of request_deletion: an expired reservation gets the purge job it lacks. */
  function EraseLater(d: Db, s: int, job: int): Db
    requires s in d.sources
  {
    var e := DeleteSource(d, s, job);
    if e.sources[s].state.Deleting? && !HasPurge(e.jobs, s)
    then e.(jobs := e.jobs[job := PurgeJob(s, e.sources[s].generation)], used := e.used + {job}) else e
  }

  function EraseAllLater(d: Db, work: seq<(int, int)>): Db
    decreases |work|
  {
    if work == [] then d
    else if work[0].0 !in d.sources then EraseAllLater(d, work[1..])
    else EraseAllLater(EraseLater(d, work[0].0, work[0].1), work[1..])
  }

  /** The ids drawn for the purge jobs are new and distinct. */
  predicate Drawn(used: set<int>, work: seq<(int, int)>) {
    (forall i :: 0 <= i < |work| ==> work[i].1 !in used) && (forall i, j :: 0 <= i < j < |work| ==> work[i].1 != work[j].1)
  }

  // ---- uploads ----

  datatype Upload = Upload(id: int, job: int, legacy: int, visual: bool, request: int, digest: int, declared: nat, expires: int)

  function FindRequest(d: Db, u: Upload): bool {
    exists s :: s in d.sources && d.sources[s].legacy == u.legacy && d.sources[s].request == u.request
  }

  predicate SameRequest(x: Source, y: Source) { x.legacy == y.legacy && x.request == y.request }

  /** The unique key of the source table: one source for a request key of a Legacy. */
  ghost predicate OneRequest(sources: map<int, Source>) {
    forall s, r :: s in sources && r in sources && SameRequest(sources[s], sources[r]) ==> s == r
  }

  /** create, under the owner lock; a repeated request key never makes a second source. */
  ghost predicate Creates(d: Db, u: Upload, limit: nat) {
    && d.receiving.None? && u.legacy in d.legacies && !d.legacies[u.legacy] && !FindRequest(d, u)
    && Capacity(d) + u.declared <= limit && u.id !in d.used && u.job !in d.used && u.id != u.job && u.declared >= 1
  }

  ghost function Create(d: Db, u: Upload, limit: nat): Db {
    if !Creates(d, u, limit) then d
    else
      d.(sources := d.sources[u.id := Source(u.legacy, u.visual, Uploading, Unchecked, 1, u.declared, u.expires, Reserved, u.request, u.digest)],
         jobs := d.jobs[u.job := Job(u.id, 1, false, Waiting, None, None, None)], used := d.used + {u.id, u.job})
  }

  // Busy stands for the lock waits, NotOpen for a Legacy that is missing or being deleted and for an empty file.
  datatype Reservation = Made(source: int) | Repeated(source: int) | KeyConflict | Full | NotOpen | Busy | NotDrawn

  /** What create answers. */
  ghost function ReservationOf(d: Db, u: Upload, limit: nat): Reservation {
    if d.receiving.Some? then Busy
    else if u.legacy !in d.legacies || d.legacies[u.legacy] || u.declared < 1 then NotOpen
    else if FindRequest(d, u) then
      var s :| s in d.sources && d.sources[s].legacy == u.legacy && d.sources[s].request == u.request;
      if d.sources[s].visual == u.visual && d.sources[s].digest == u.digest then Repeated(s) else KeyConflict
    else if Capacity(d) + u.declared > limit then Full
    else if u.id in d.used || u.job in d.used || u.id == u.job then NotDrawn
    else Made(u.id)
  }

  /** receive up to the storage write. */
  function BeginReceive(d: Db, s: int, data: string): Db {
    if d.receiving.Some? || s !in d.sources || !d.sources[s].state.Uploading? then d
    else
      var x := d.sources[s];
      if x.expires <= d.clock then SetSource(d, s, x.(state := Deleting, generation := x.generation + 1))
      else if |data| != x.declared then d
      else d.(receiving := Some(Receiving(s, data, false)))
  }

  datatype Receipt = Accepted | Stored | NotUploading | TooLate | WrongSize | Missing | Waits

  /** What receive answers: Stored for the bytes it already has. */
  function ReceiptOf(d: Db, s: int, data: string): Receipt {
    if d.receiving.Some? then Waits
    else if s !in d.sources then Missing
    else
      var x := d.sources[s];
      if !x.state.Uploading? then
        if (x.state.Queued? || x.state.Processing? || x.state.Ready? || x.state.PartiallyReady?) && x.artifact == Available(data) then Stored else NotUploading
      else if x.expires <= d.clock then TooLate
      else if |data| != x.declared then WrongSize
      else Accepted
  }

  function StoreObject(d: Db): Db {
    if d.receiving.None? || d.receiving.value.stored then d
    else d.(objects := d.objects[d.receiving.value.source := d.receiving.value.data], receiving := Some(d.receiving.value.(stored := true)))
  }

  function CommitReceive(d: Db): Db {
    if d.receiving.None? || !d.receiving.value.stored || d.receiving.value.source !in d.sources then d
    else
      var s := d.receiving.value.source;
      var x := d.sources[s];
      SetSource(d, s, x.(state := Queued, safety := if x.visual then Unchecked else Clean, artifact := Available(d.receiving.value.data))).(receiving := None)
  }

  /** The receive ends without a commit: owed: its commit failed, and it still has to delete what it stored. */
  function AbandonReceive(d: Db, owed: bool): Db {
    if d.receiving.None? then d
    else d.(receiving := None, cleanups := if owed && d.receiving.value.stored then d.cleanups + {d.receiving.value.source} else d.cleanups)
  }

  function EraseObject(d: Db, s: int): Db { d.(objects := d.objects - {s}) }

  function CleanUp(d: Db, s: int): Db {
    if s !in d.cleanups then d else EraseObject(d, s).(cleanups := d.cleanups - {s})
  }

  /** The extraction job of the source's generation. */
  predicate Extracts(d: Db, s: int, j: int)
    requires s in d.sources
  {
    j in d.jobs && d.jobs[j].source == s && !d.jobs[j].purge && d.jobs[j].generation == d.sources[s].generation
  }

  function Requeued(d: Db, s: int): map<int, Job>
    requires s in d.sources
  {
    map j | j in d.jobs :: if Extracts(d, s, j) then d.jobs[j].(state := Waiting, token := None, until := None, next := Some(d.clock)) else d.jobs[j]
  }

  predicate HasExtract(d: Db, s: int)
    requires s in d.sources
  {
    exists j :: j in d.jobs && Extracts(d, s, j)
  }

  predicate Retries(d: Db, s: int, job: int) {
    && s in d.sources && !Locked(d, s) && (d.sources[s].state.Failed? || d.sources[s].state.PartiallyReady?)
    && (HasExtract(d, s) || job !in d.used)
  }

  function Retry(d: Db, s: int, job: int): Db {
    if !Retries(d, s, job) then d
    else
      d.(sources := d.sources[s := d.sources[s].(state := Queued)],
         jobs := if HasExtract(d, s) then Requeued(d, s) else d.jobs[job := Job(s, d.sources[s].generation, false, Waiting, None, None, None)],
         used := if HasExtract(d, s) then d.used else d.used + {job})
  }

  // ---- workers ----

  predicate Claimable(d: Db, j: int) {
    && j in d.jobs && LiveJob(d.jobs[j]) && d.jobs[j].source in d.sources && !d.sources[d.jobs[j].source].state.Deleted?
    && (d.jobs[j].next.None? || d.jobs[j].next.value <= d.clock)
    && (d.jobs[j].token.None? || (d.jobs[j].until.Some? && d.jobs[j].until.value <= d.clock))
  }

  function LeaseJob(d: Db, j: int, token: int, until: int): Db
    requires j in d.jobs
  {
    d.(jobs := d.jobs[j := d.jobs[j].(state := Running, token := Some(token), until := Some(until))],
       workers := d.workers[token := Worker(j, d.jobs[j].source, d.jobs[j].purge, Started)], used := d.used + {token})
  }

  /** A claimed extraction moves its queued source on. */
  function StartSource(d: Db, j: int): Db
    requires j in d.jobs && d.jobs[j].source in d.sources
  {
    var x := d.sources[d.jobs[j].source];
    if !d.jobs[j].purge && x.generation == d.jobs[j].generation && x.state.Queued? then SetSource(d, d.jobs[j].source, x.(state := Processing)) else d
  }

  function ClaimJob(d: Db, j: int, token: int, lease: nat): Db {
    if !Claimable(d, j) || Locked(d, d.jobs[j].source) || token in d.used then d
    else StartSource(LeaseJob(d, j, token, d.clock + lease), j)
  }

  /** The job still belongs to the worker. */
  predicate Holding(d: Db, token: int) {
    token in d.workers && d.workers[token].job in d.jobs && d.jobs[d.workers[token].job].token == Some(token)
  }

  /** The fence of every worker result: the job is held, its source is there at the job's generation, and not gone. */
  predicate Current(d: Db, token: int) {
    && Holding(d, token) && d.workers[token].source in d.sources && !Locked(d, d.workers[token].source)
    && d.sources[d.workers[token].source].generation == d.jobs[d.workers[token].job].generation
    && !Gone(d.sources[d.workers[token].source].state) && !d.workers[token].purge
  }

  function EndJob(d: Db, token: int, state: JobState): Db
    requires Holding(d, token)
  {
    var j := d.workers[token].job;
    d.(jobs := d.jobs[j := d.jobs[j].(state := state, token := None, until := None)])
  }

  // Thirty seconds.
  const RETRY_WAIT := 30_000_000

  /** The worker gives its job back, for later. */
  function DeferJob(d: Db, token: int): Db
    requires Holding(d, token)
  {
    var j := d.workers[token].job;
    d.(jobs := d.jobs[j := d.jobs[j].(state := Retrying, token := None, until := None, next := Some(d.clock + RETRY_WAIT))])
  }

  function Finish(d: Db, token: int, state: JobState, x: Source): Db
    requires Holding(d, token)
  {
    SetSource(EndJob(d, token, state), d.workers[token].source, x)
  }

  /** process_claim: the stored bytes are read and analysed, or the claim fails. */
  function Analyse(d: Db, token: int): Db {
    if !Current(d, token) || d.sources[d.workers[token].source].visual || d.workers[token].source !in d.objects then d
    else d.(workers := d.workers[token := d.workers[token].(phase := Analysed)])
  }

  /** The proposals that are not candidates yet. */
  function Added(d: Db, s: int, generation: int, found: map<int, string>): map<int, Candidate> {
    map k | k in found && k !in d.candidates && k !in d.used :: Candidate(s, generation, 1, Pending, Some(found[k]))
  }

  function AddCandidates(d: Db, added: map<int, Candidate>): Db {
    d.(candidates := d.candidates + added, used := d.used + added.Keys)
  }

  /** Some proposal has a candidate now, new or found again. */
  predicate Persists(d: Db, s: int, generation: int, found: map<int, string>) {
    Added(d, s, generation, found) != map[]
    || exists k :: k in found && k in d.candidates && d.candidates[k].source == s && d.candidates[k].generation == generation
  }

  /** _persist, with the proposals of the analysis. */
  function Persist(d: Db, token: int, found: map<int, string>): Db {
    if !Current(d, token) || !d.workers[token].phase.Analysed? || d.sources[d.workers[token].source].visual then d
    else
      var s, x := d.workers[token].source, d.sources[d.workers[token].source];
      var some := Persists(d, s, x.generation, found);
      AddCandidates(Finish(d, token, if some then Succeeded else Partial, x.(state := if some then Ready else PartiallyReady)),
                    Added(d, s, x.generation, found))
  }

  /** _fail and _deferred_extract. */
  function FailJob(d: Db, token: int): Db {
    if !Current(d, token) then d else Finish(d, token, Broken, d.sources[d.workers[token].source].(state := Failed))
  }

  /** The other branch of _deferred_extract: the source is gone or has moved on. */
  function CancelStale(d: Db, token: int): Db {
    if !Holding(d, token) || d.workers[token].purge || Locked(d, d.workers[token].source) then d
    else if d.workers[token].source in d.sources && !d.sources[d.workers[token].source].state.Deleting?
            && d.sources[d.workers[token].source].generation == d.jobs[d.workers[token].job].generation then d
    else EndJob(d, token, Cancelled)
  }

  /** _validate_visual_reference: ok is the verdict on the bytes it read; a claim on an open upload goes back to wait. */
  function ValidateVisual(d: Db, token: int, ok: bool): Db {
    if !Current(d, token) || !d.sources[d.workers[token].source].visual then d
    else
      var j := d.jobs[d.workers[token].job];
      var x := d.sources[d.workers[token].source];
      if !j.state.Running? || j.until.None? || j.until.value <= d.clock then d
      else if x.state.Uploading? then DeferJob(d, token)
      else Finish(d, token, if ok then Succeeded else Broken, x.(state := if ok then Ready else Failed, safety := if ok then Clean else Rejected))
  }

  /** _purge's storage work: only a worker that held its purge job gets here, and it may by now have lost it. */
  function EraseForPurge(d: Db, token: int): Db {
    if token !in d.workers || !d.workers[token].purge then d
    else EraseObject(d, d.workers[token].source).(workers := d.workers[token := d.workers[token].(phase := Erased)])
  }

  function RetryPurge(d: Db, token: int): Db {
    if !Holding(d, token) || !d.workers[token].purge then d else DeferJob(d, token)
  }

  predicate Purges(d: Db, token: int) {
    && Holding(d, token) && d.workers[token].purge && d.workers[token].phase.Erased? && d.workers[token].source in d.sources
    && d.sources[d.workers[token].source].state.Deleting?
    && d.sources[d.workers[token].source].generation == d.jobs[d.workers[token].job].generation
  }

  function FinishPurge(d: Db, token: int): Db {
    if !Purges(d, token) then d
    else Finish(d, token, Succeeded, d.sources[d.workers[token].source].(state := Deleted, artifact := Purged))
  }

  // ---- review ----

  predicate Reviewable(d: Db, k: int, version: nat) {
    && k in d.candidates && d.candidates[k].decision.Pending? && d.candidates[k].version == version
    && d.candidates[k].source in d.sources && d.candidates[k].generation == d.sources[d.candidates[k].source].generation
    && !Locked(d, d.candidates[k].source)
  }

  function Skip(d: Db, k: int, version: nat): Db {
    if !Reviewable(d, k, version) then d else d.(candidates := d.candidates[k := d.candidates[k].(decision := Skipped)])
  }

  predicate Approves(d: Db, k: int, version: nat) {
    && Reviewable(d, k, version) && !Gone(d.sources[d.candidates[k].source].state) && d.sources[d.candidates[k].source].safety.Clean?
    && d.candidates[k].content.Some?
  }

  function Preserve(d: Db, k: int, version: nat, memory: int, link: int): Db {
    if !Approves(d, k, version) || link in d.used then d
    else d.(candidates := d.candidates[k := d.candidates[k].(decision := Preserved)],
            links := d.links[link := Link(memory, k, d.candidates[k].source, true)], used := d.used + {link})
  }

  /** The filter of load_evidence: a memory without source links, or with one that is still approved. */
  predicate Usable(d: Db, memory: int) {
    (forall k :: k in d.links ==> d.links[k].memory != memory) || (exists k :: k in d.links && d.links[k].memory == memory && d.links[k].approved)
  }

  // ---- erasing a Legacy ----

  predicate Registered(d: Db, l: int, s: int) { s in d.sources && d.sources[s].legacy == l }

  function Registry(d: Db, l: int): set<int> { set s | s in d.sources && d.sources[s].legacy == l }

  predicate AllErased(d: Db, l: int) {
    l in d.legacies && d.legacies[l] && forall s :: s in Registry(d, l) ==> d.sources[s].state.Deleted? && d.sources[s].artifact.Purged?
  }

  /** work pairs every source of the Legacy, and no other, with the id of a purge job. */
  predicate Covers(d: Db, l: int, work: seq<(int, int)>) {
    && (forall s :: s in Registry(d, l) ==> exists i :: 0 <= i < |work| && work[i].0 == s)
    && (forall i :: 0 <= i < |work| ==> Registered(d, l, work[i].0)) && Drawn(d.used, work)
  }

  function RequestDeletion(d: Db, l: int, work: seq<(int, int)>): Db {
    if l !in d.legacies || d.legacies[l] || !Covers(d, l, work) then d
    else if d.receiving.Some? && Registered(d, l, d.receiving.value.source) then d
    else var e := EraseAllLater(d, work); e.(legacies := e.legacies[l := true])
  }

  function ReadRegistry(d: Db, run: int, l: int): Db {
    if run in d.finalizers || !AllErased(d, l) then d else d.(finalizers := d.finalizers[run := Finalizer(l, Registry(d, l), {})])
  }

  function EraseKey(d: Db, run: int, s: int): Db {
    if run !in d.finalizers || s !in d.finalizers[run].registry then d
    else EraseObject(d, s).(finalizers := d.finalizers[run := d.finalizers[run].(erased := d.finalizers[run].erased + {s})])
  }

  predicate Drops(d: Db, run: int) {
    && run in d.finalizers && d.finalizers[run].erased == d.finalizers[run].registry && AllErased(d, d.finalizers[run].legacy)
    && Registry(d, d.finalizers[run].legacy) == d.finalizers[run].registry
  }

  function DropLegacy(d: Db, run: int): Db {
    if !Drops(d, run) then d
    else
      var l, gone := d.finalizers[run].legacy, d.finalizers[run].registry;
      d.(legacies := d.legacies - {l}, sources := d.sources - gone,
         jobs := map j | j in d.jobs && d.jobs[j].source !in gone :: d.jobs[j],
         candidates := map k | k in d.candidates && d.candidates[k].source !in gone :: d.candidates[k],
         links := map k | k in d.links && d.links[k].source !in gone :: d.links[k])
  }

  // ---- runs ----

  datatype Event =
    | DoTick(at: int)
    | DoNewLegacy(legacy: int)
    | DoCreate(upload: Upload)
    | DoBeginReceive(source: int, data: string)
    | DoStore
    | DoCommit
    | DoAbandon(owed: bool)
    | DoCleanUp(source: int)
    | DoDelete(source: int, job: int)
    | DoRetry(source: int, job: int)
    | DoClaim(job: int, token: int, lease: nat)
    | DoAnalyse(token: int)
    | DoPersist(token: int, found: map<int, string>)
    | DoFail(token: int)
    | DoCancelStale(token: int)
    | DoValidate(token: int, ok: bool)
    | DoErase(token: int)
    | DoRetryPurge(token: int)
    | DoFinishPurge(token: int)
    | DoSkip(candidate: int, version: nat)
    | DoPreserve(candidate: int, version: nat, memory: int, link: int)
    | DoRequestDeletion(legacy: int, work: seq<(int, int)>)
    | DoReadRegistry(run: int, legacy: int)
    | DoEraseKey(run: int, source: int)
    | DoDropLegacy(run: int)

  ghost function Step(d: Db, limit: nat, e: Event): Db {
    match e
    case DoTick(at) => d.(clock := Max(d.clock, at))
    case DoNewLegacy(l) => if l in d.used then d else d.(legacies := d.legacies[l := false], used := d.used + {l})
    case DoCreate(u) => Create(d, u, limit)
    case DoBeginReceive(s, data) => BeginReceive(d, s, data)
    case DoStore => StoreObject(d)
    case DoCommit => CommitReceive(d)
    case DoAbandon(owed) => AbandonReceive(d, owed)
    case DoCleanUp(s) => CleanUp(d, s)
    case DoDelete(s, job) => if s !in d.sources || Locked(d, s) || job in d.used then d else DeleteSource(d, s, job)
    case DoRetry(s, job) => Retry(d, s, job)
    case DoClaim(j, token, lease) => ClaimJob(d, j, token, lease)
    case DoAnalyse(token) => Analyse(d, token)
    case DoPersist(token, found) => Persist(d, token, found)
    case DoFail(token) => FailJob(d, token)
    case DoCancelStale(token) => CancelStale(d, token)
    case DoValidate(token, ok) => ValidateVisual(d, token, ok)
    case DoErase(token) => EraseForPurge(d, token)
    case DoRetryPurge(token) => RetryPurge(d, token)
    case DoFinishPurge(token) => FinishPurge(d, token)
    case DoSkip(k, version) => Skip(d, k, version)
    case DoPreserve(k, version, memory, link) => Preserve(d, k, version, memory, link)
    case DoRequestDeletion(l, work) => RequestDeletion(d, l, work)
    case DoReadRegistry(run, l) => ReadRegistry(d, run, l)
    case DoEraseKey(run, s) => EraseKey(d, run, s)
    case DoDropLegacy(run) => DropLegacy(d, run)
  }

  ghost function Run(d: Db, limit: nat, events: seq<Event>): Db
    decreases |events|
  {
    if events == [] then d else Run(Step(d, limit, events[0]), limit, events[1..])
  }
}
