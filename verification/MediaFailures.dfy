// The two promises of the media lifecycle that the code does not always meet: runs from an empty database that
// break them, and how long the damage lasts.
module MediaFailures {
  import opened Wrappers
  import opened Sums
  import opened MediaLifecycle
  import opened MediaSafety
  import opened MediaGuarantees

  lemma RunFrom(d: Db, limit: nat, events: seq<Event>, k: nat)
    requires k < |events|
    ensures Run(d, limit, events[k..]) == Run(Step(d, limit, events[k]), limit, events[k + 1..])
  {
    assert events[k..][1..] == events[k + 1..];
  }

  /** An upload that any owner with enough allowance left can reserve, for a new Legacy. */
  predicate CanReserve(u: Upload, limit: nat) {
    1 <= u.declared <= limit && u.legacy != u.id && u.legacy != u.job && u.id != u.job
  }

  function ReservedSource(u: Upload): Source {
    Source(u.legacy, u.visual, Uploading, Unchecked, 1, u.declared, u.expires, Reserved, u.request, u.digest)
  }

  /** A database with this one source. */
  predicate Holds(d: Db, u: Upload, x: Source, receiving: Option<Receiving>, objects: map<int, string>, cleanups: set<int>) {
    d.sources == map[u.id := x] && d.receiving == receiving && d.objects == objects && d.cleanups == cleanups
  }

  lemma Reserves(u: Upload, limit: nat)
    requires CanReserve(u, limit)
    ensures var d := Step(Step(NOTHING, limit, DoNewLegacy(u.legacy)), limit, DoCreate(u));
      Holds(d, u, ReservedSource(u), None, map[], {}) && d.clock == 0 && d.jobs == map[u.job := Job(u.id, 1, false, Waiting, None, None, None)]
  {
    var d := Step(NOTHING, limit, DoNewLegacy(u.legacy));
    assert (map s | s in d.sources :: Counted(d.sources[s], d.clock)) == map[];
    assert Creates(d, u, limit);
  }

  // ---- an expired reservation ----

  /** Being deleted, with no purge job of any kind. */
  ghost predicate Strands(d: Db, s: int) {
    s in d.sources && d.sources[s].state.Deleting? && forall j :: j in d.jobs && d.jobs[j].source == s ==> !d.jobs[j].purge
  }

  function ExpiredUpload(u: Upload, late: int, data: string): seq<Event> {
    [DoNewLegacy(u.legacy), DoCreate(u), DoTick(late), DoBeginReceive(u.id, data)]
  }

  lemma Lapses(d: Db, u: Upload, limit: nat, late: int, data: string)
    requires Holds(d, u, ReservedSource(u), None, map[], {}) && d.jobs == map[u.job := Job(u.id, 1, false, Waiting, None, None, None)]
    requires u.expires <= late
    ensures Strands(Step(Step(d, limit, DoTick(late)), limit, DoBeginReceive(u.id, data)), u.id)
  {
  }

  /** Under every allowance, a reservation that is used only after it expired is being deleted with no job to purge it. */
  lemma ExpiredUploadStrands(u: Upload, limit: nat, late: int, data: string)
    requires CanReserve(u, limit) && u.expires <= late
    ensures Strands(Run(NOTHING, limit, ExpiredUpload(u, late, data)), u.id)
  {
    hide Step, Strands, Holds;
    var events := ExpiredUpload(u, late, data);
    var d1 := Step(NOTHING, limit, events[0]);
    var d2 := Step(d1, limit, events[1]);
    var d3 := Step(d2, limit, events[2]);
    Reserves(u, limit);
    Lapses(d2, u, limit, late, data);
    assert events[0..] == events;
    RunFrom(NOTHING, limit, events, 0);
    RunFrom(d1, limit, events, 1);
    RunFrom(d2, limit, events, 2);
    RunFrom(d3, limit, events, 3);
  }

  lemma CreateStrands(d: Db, limit: nat, s: int, u: Upload)
    requires Strands(d, s) && s in d.used
    ensures Strands(Create(d, u, limit), s)
  {
  }

  lemma BeginStrands(d: Db, s: int, r: int, data: string)
    requires Strands(d, s)
    ensures Strands(BeginReceive(d, r, data), s)
  {
  }

  lemma UploadsStrand(d: Db, limit: nat, lost: set<int>, s: int, e: Event)
    requires Inv(d, limit, lost) && Strands(d, s) && (e.DoCreate? || e.DoBeginReceive?)
    ensures Strands(Step(d, limit, e), s)
  {
    assert s in d.used;
    hide Inv, Strands, Create, BeginReceive;
    if e.DoCreate? { CreateStrands(d, limit, s, e.upload); } else { BeginStrands(d, s, e.source, e.data); }
  }

  lemma EndsStrand(d: Db, limit: nat, lost: set<int>, s: int, e: Event)
    requires Inv(d, limit, lost) && Strands(d, s) && (e.DoStore? || e.DoCommit? || e.DoAbandon? || e.DoCleanUp?)
    ensures Strands(Step(d, limit, e), s)
  {
    assert ReceivingOk(d.receiving, d.sources);
    hide Inv;
  }

  lemma DeleteStrands(d: Db, s: int, r: int, job: int)
    requires Strands(d, s) && r in d.sources
    ensures Strands(DeleteSource(d, r, job), s)
  {
    hide WithdrawCandidates, UnlinkSource;
  }

  lemma RetryStrands(d: Db, s: int, r: int, job: int)
    requires Strands(d, s)
    ensures Strands(Retry(d, r, job), s)
  {
  }

  lemma ClaimStrands(d: Db, s: int, j: int, token: int, lease: nat)
    requires Strands(d, s)
    ensures Strands(ClaimJob(d, j, token, lease), s)
  {
  }

  lemma ResultsStrand(d: Db, limit: nat, s: int, e: Event)
    requires Strands(d, s) && (e.DoAnalyse? || e.DoFail? || e.DoCancelStale?)
    ensures Strands(Step(d, limit, e), s)
  {
  }

  lemma VerdictStrands(d: Db, s: int, token: int, ok: bool)
    requires Strands(d, s)
    ensures Strands(ValidateVisual(d, token, ok), s)
  {
  }

  lemma PersistStrands(d: Db, s: int, token: int, found: map<int, string>)
    requires Strands(d, s)
    ensures Strands(Persist(d, token, found), s)
  {
    hide Persists, Added;
  }

  lemma PurgesStrand(d: Db, limit: nat, lost: set<int>, s: int, e: Event)
    requires Inv(d, limit, lost) && Strands(d, s) && (e.DoErase? || e.DoRetryPurge? || e.DoFinishPurge?)
    ensures Strands(Step(d, limit, e), s)
  {
    assert KindsOk(d.workers, d.jobs, d.used);
    hide Inv;
  }

  lemma ReviewsStrand(d: Db, limit: nat, s: int, e: Event)
    requires Strands(d, s) && (e.DoTick? || e.DoNewLegacy? || e.DoSkip? || e.DoPreserve? || e.DoReadRegistry? || e.DoEraseKey?)
    ensures Strands(Step(d, limit, e), s)
  {
    hide Approves, Reviewable, AllErased;
  }

  lemma DropStrands(d: Db, s: int, run: int)
    requires Strands(d, s)
    ensures Strands(DropLegacy(d, run), s)
  {
    if Drops(d, run) { assert s !in Registry(d, d.finalizers[run].legacy); }
  }

  lemma EraseLaterStrands(d: Db, s: int, r: int, job: int)
    requires Strands(d, s) && r in d.sources && r != s
    ensures Strands(EraseLater(d, r, job), s)
  {
    hide HasPurge, DeleteSource;
    DeleteStrands(d, s, r, job);
  }

  lemma {:induction false} EraseAllLaterStrands(d: Db, s: int, work: seq<(int, int)>)
    requires Strands(d, s) && forall i :: 0 <= i < |work| ==> work[i].0 != s
    ensures Strands(EraseAllLater(d, work), s)
    decreases |work|
  {
    hide Strands, EraseLater;
    if work != [] {
      if work[0].0 in d.sources { EraseLaterStrands(d, s, work[0].0, work[0].1); }
      EraseAllLaterStrands(if work[0].0 in d.sources then EraseLater(d, work[0].0, work[0].1) else d, s, work[1..]);
    }
  }

  lemma RequestStrands(d: Db, s: int, l: int, work: seq<(int, int)>)
    requires Strands(d, s) && d.sources[s].legacy != l
    ensures Strands(RequestDeletion(d, l, work), s)
  {
    if RequestDeletion(d, l, work) != d {
      forall i | 0 <= i < |work| ensures work[i].0 != s { assert Registered(d, l, work[i].0); }
      EraseAllLaterStrands(d, s, work);
    }
  }

  lemma StepStrands(d: Db, limit: nat, lost: set<int>, s: int, e: Event)
    requires Inv(d, limit, lost) && Strands(d, s) && !(e.DoRequestDeletion? && e.legacy == d.sources[s].legacy)
    ensures Strands(Step(d, limit, e), s)
  {
    hide Inv, Strands, Create, BeginReceive, CommitReceive, DeleteSource, Retry, ClaimJob, Persist, FailJob, CancelStale, ValidateVisual,
      FinishPurge, Preserve, DropLegacy, RequestDeletion, Analyse, EraseForPurge, RetryPurge;
    match e
    case DoRequestDeletion(l, work) => RequestStrands(d, s, l, work);
    case DoDelete(r, job) => if r in d.sources { DeleteStrands(d, s, r, job); }
    case DoRetry(r, job) => RetryStrands(d, s, r, job);
    case DoClaim(j, token, lease) => ClaimStrands(d, s, j, token, lease);
    case DoDropLegacy(run) => DropStrands(d, s, run);
    case DoCreate(_) => UploadsStrand(d, limit, lost, s, e);
    case DoBeginReceive(_, _) => UploadsStrand(d, limit, lost, s, e);
    case DoStore => EndsStrand(d, limit, lost, s, e);
    case DoCommit => EndsStrand(d, limit, lost, s, e);
    case DoAbandon(_) => EndsStrand(d, limit, lost, s, e);
    case DoCleanUp(_) => EndsStrand(d, limit, lost, s, e);
    case DoAnalyse(_) => ResultsStrand(d, limit, s, e);
    case DoFail(_) => ResultsStrand(d, limit, s, e);
    case DoCancelStale(_) => ResultsStrand(d, limit, s, e);
    case DoValidate(token, ok) => VerdictStrands(d, s, token, ok);
    case DoPersist(token, found) => PersistStrands(d, s, token, found);
    case DoErase(_) => PurgesStrand(d, limit, lost, s, e);
    case DoRetryPurge(_) => PurgesStrand(d, limit, lost, s, e);
    case DoFinishPurge(_) => PurgesStrand(d, limit, lost, s, e);
    case _ => ReviewsStrand(d, limit, s, e);
  }

  /** Nothing but a request to delete its whole Legacy ever gets such a source a purge job. */
  lemma {:induction false} StrandsForever(d: Db, limit: nat, lost: set<int>, events: seq<Event>, s: int)
    requires Inv(d, limit, lost) && Strands(d, s)
    requires forall i :: 0 <= i < |events| ==> !(events[i].DoRequestDeletion? && events[i].legacy == d.sources[s].legacy)
    ensures Strands(Run(d, limit, events), s)
    decreases |events|
  {
    if events != [] {
      var e := Step(d, limit, events[0]);
      StepStrands(d, limit, lost, s, events[0]);
      StepFollows(d, limit, lost, events[0]);
      StepKeeps(d, limit, lost, events[0]);
      assert e.sources[s].legacy == d.sources[s].legacy;
      hide Inv, Step, Strands, Follows;
      StrandsForever(e, limit, lost + Lost(d, events[0]), events[1..], s);
    }
  }

  // ---- a late delete ----

  /** The commit of a first receive fails, the same upload is repeated, and then the first one deletes what it stored. */
  function RepeatedUpload(u: Upload, data: string): seq<Event> {
    [DoNewLegacy(u.legacy), DoCreate(u), DoBeginReceive(u.id, data), DoStore, DoAbandon(true),
     DoBeginReceive(u.id, data), DoStore, DoCommit, DoCleanUp(u.id)]
  }

  lemma FirstTry(d: Db, u: Upload, limit: nat, data: string)
    requires Holds(d, u, ReservedSource(u), None, map[], {}) && d.clock == 0 < u.expires && |data| == u.declared
    ensures var e := Step(Step(Step(d, limit, DoBeginReceive(u.id, data)), limit, DoStore), limit, DoAbandon(true));
      Holds(e, u, ReservedSource(u), None, map[u.id := data], {u.id}) && e.clock == 0
  {
    hide StoreObject, AbandonReceive;
    var f := Step(d, limit, DoBeginReceive(u.id, data));
    assert Holds(f, u, ReservedSource(u), Some(Receiving(u.id, data, false)), map[], {});
    Stores(f, u, data);
    Abandons(StoreObject(f), u, data);
  }

  lemma Stores(d: Db, u: Upload, data: string)
    requires d.receiving == Some(Receiving(u.id, data, false))
    ensures Holds(d, u, ReservedSource(u), d.receiving, d.objects, d.cleanups) ==>
      Holds(StoreObject(d), u, ReservedSource(u), Some(Receiving(u.id, data, true)), d.objects[u.id := data], d.cleanups)
    ensures StoreObject(d).clock == d.clock
  {
  }

  lemma Abandons(d: Db, u: Upload, data: string)
    requires Holds(d, u, ReservedSource(u), Some(Receiving(u.id, data, true)), map[u.id := data], {})
    ensures Holds(AbandonReceive(d, true), u, ReservedSource(u), None, map[u.id := data], {u.id}) && AbandonReceive(d, true).clock == d.clock
  {
    assert {} + {u.id} == {u.id};
  }

  lemma SecondTry(d: Db, u: Upload, limit: nat, data: string)
    requires Holds(d, u, ReservedSource(u), None, map[u.id := data], {u.id}) && d.clock == 0 < u.expires && |data| == u.declared
    ensures var e := Step(Step(Step(d, limit, DoBeginReceive(u.id, data)), limit, DoStore), limit, DoCommit);
      Holds(e, u, Uploaded(u, data), None, map[u.id := data], {u.id})
  {
    hide StoreObject, CommitReceive;
    var f := Step(d, limit, DoBeginReceive(u.id, data));
    assert Holds(f, u, ReservedSource(u), Some(Receiving(u.id, data, false)), map[u.id := data], {u.id});
    Stores(f, u, data);
    Accepts(StoreObject(f), u, data);
  }

  lemma Accepts(d: Db, u: Upload, data: string)
    requires Holds(d, u, ReservedSource(u), Some(Receiving(u.id, data, true)), map[u.id := data][u.id := data], {u.id})
    ensures Holds(CommitReceive(d), u, Uploaded(u, data), None, map[u.id := data], {u.id})
  {
    assert map[u.id := data][u.id := data] == map[u.id := data];
  }

  lemma DeletesLate(d: Db, u: Upload, limit: nat, data: string)
    requires Holds(d, u, Uploaded(u, data), None, map[u.id := data], {u.id})
    ensures CleansUpTooLate(d, DoCleanUp(u.id)) && OriginalsKept(d)
    ensures var e := Step(d, limit, DoCleanUp(u.id)); e.sources == d.sources && u.id !in e.objects
  {
  }

  /** Under every allowance, this run ends with an accepted original, not on its way out, whose bytes are gone. */
  lemma RepeatedUploadLosesItsBytes(u: Upload, limit: nat, data: string)
    requires CanReserve(u, limit) && u.expires > 0 && |data| == u.declared
    ensures var d := Run(NOTHING, limit, RepeatedUpload(u, data));
      u.id in d.sources && d.sources[u.id] == Uploaded(u, data) && u.id !in d.objects && !OriginalsKept(d)
  {
    hide Step, OriginalsKept;
    var events := RepeatedUpload(u, data);
    var d1 := Step(NOTHING, limit, events[0]);
    var d2 := Step(d1, limit, events[1]);
    var d3 := Step(d2, limit, events[2]);
    var d4 := Step(d3, limit, events[3]);
    var d5 := Step(d4, limit, events[4]);
    var d6 := Step(d5, limit, events[5]);
    var d7 := Step(d6, limit, events[6]);
    var d8 := Step(d7, limit, events[7]);
    var d9 := Step(d8, limit, events[8]);
    Reserves(u, limit);
    FirstTry(d2, u, limit, data);
    SecondTry(d5, u, limit, data);
    DeletesLate(d8, u, limit, data);
    assert !OriginalsKept(d9) by { CleanUpLoses(d8, limit, events[8]); }
    assert events[0..] == events;
    RunFrom(NOTHING, limit, events, 0);
    RunFrom(d1, limit, events, 1);
    RunFrom(d2, limit, events, 2);
    RunFrom(d3, limit, events, 3);
    RunFrom(d4, limit, events, 4);
    RunFrom(d5, limit, events, 5);
    RunFrom(d6, limit, events, 6);
    RunFrom(d7, limit, events, 7);
    RunFrom(d8, limit, events, 8);
  }
}
