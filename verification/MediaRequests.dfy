// Upload requests: a request key of a Legacy has one source for good, and what its repetition and a receive are answered with.
module MediaRequests {
  import opened Wrappers
  import opened Sums
  import opened MediaLifecycle
  import opened MediaSafety
  import opened MediaGuarantees

  /** Over every run, two sources of one Legacy with the same request key are the same source. */
  lemma OneSourcePerRequest(limit: nat, events: seq<Event>)
    ensures OneRequest(Run(NOTHING, limit, events).sources)
  {
    NothingOk(limit);
    RunFollows(NOTHING, limit, {}, events);
  }

  /** The source of a reservation keeps its key, its purpose and its digest for as long as it is there. */
  predicate Requested(d: Db, u: Upload) {
    u.id in d.sources && d.sources[u.id].legacy == u.legacy && d.sources[u.id].request == u.request
    && d.sources[u.id].visual == u.visual && d.sources[u.id].digest == u.digest
  }

  lemma RequestedAnswers(d: Db, u: Upload, again: Upload, limit: nat)
    requires OneRequest(d.sources) && Requested(d, u) && again.legacy == u.legacy && again.request == u.request
    ensures Create(d, again, limit) == d
    ensures ReservationOf(d, again, limit) == if d.receiving.Some? then Busy
      else if u.legacy !in d.legacies || d.legacies[u.legacy] || again.declared < 1 then NotOpen
      else if again.visual == u.visual && again.digest == u.digest then Repeated(u.id) else KeyConflict
  {
    assert FindRequest(d, again);
    forall s | s in d.sources && d.sources[s].legacy == u.legacy && d.sources[s].request == u.request ensures s == u.id {
      assert SameRequest(d.sources[s], d.sources[u.id]);
    }
  }

  /** Once a request key was accepted, whatever ran in between, its repetition leaves the tables unchanged while its source is
      kept, and is answered with that source, or with a conflict if it asks for something else. */
  lemma RepeatIsAnswered(limit: nat, before: seq<Event>, u: Upload, events: seq<Event>, again: Upload)
    requires again.legacy == u.legacy && again.request == u.request
    ensures var d := Run(NOTHING, limit, before);
      var f := Run(Step(d, limit, DoCreate(u)), limit, events);
      ReservationOf(d, u, limit).Made? && u.id in f.sources ==>
        && Step(f, limit, DoCreate(again)) == f
        && ReservationOf(f, again, limit) == (if f.receiving.Some? then Busy
             else if u.legacy !in f.legacies || f.legacies[u.legacy] || again.declared < 1 then NotOpen
             else if again.visual == u.visual && again.digest == u.digest then Repeated(u.id) else KeyConflict)
  {
    var d, lost := Run(NOTHING, limit, before), LostIn(NOTHING, limit, before);
    NothingOk(limit);
    RunKeeps(NOTHING, limit, {}, before);
    OneSourcePerRequest(limit, before);
    if ReservationOf(d, u, limit).Made? {
      var e := Step(d, limit, DoCreate(u));
      assert Creates(d, u, limit) && Requested(e, u);
      hide Inv, Step, Creates;
      StepKeeps(d, limit, {} + lost, DoCreate(u));
      StepFollows(d, limit, {} + lost, DoCreate(u));
      RunFollows(e, limit, {} + lost + Lost(d, DoCreate(u)), events);
      var f := Run(e, limit, events);
      if u.id in f.sources {
        RequestedAnswers(f, u, again, limit);
        CreateStep(f, limit, again);
      }
    }
  }

  lemma CreateStep(d: Db, limit: nat, u: Upload)
    ensures Step(d, limit, DoCreate(u)) == Create(d, u, limit)
  {
  }

  /** Stored originals, and reservations that have not expired. */
  ghost function Occupancy(d: Db): nat {
    Sum(map s | s in d.sources ::
          if d.sources[s].artifact.Available? then |d.sources[s].artifact.data|
          else if d.sources[s].state.Uploading? && d.clock < d.sources[s].expires then d.sources[s].declared else 0)
  }

  lemma OccupancyIsCapacity(d: Db)
    ensures Occupancy(d) == Capacity(d)
  {
    assert (map s | s in d.sources ::
              if d.sources[s].artifact.Available? then |d.sources[s].artifact.data|
              else if d.sources[s].state.Uploading? && d.clock < d.sources[s].expires then d.sources[s].declared else 0)
        == (map s | s in d.sources :: Counted(d.sources[s], d.clock));
  }

  /** A new request key of an open Legacy is refused for the allowance exactly when the file does not fit beside what is stored and
      reserved; otherwise it gets a reservation of its size until it expires, with an extraction job that waits. */
  lemma CreateIsExact(d: Db, u: Upload, limit: nat)
    requires d.receiving.None? && u.legacy in d.legacies && !d.legacies[u.legacy] && u.declared >= 1
    requires u.id !in d.used && u.job !in d.used && u.id != u.job
    requires forall s :: s in d.sources && d.sources[s].legacy == u.legacy ==> d.sources[s].request != u.request
    ensures ReservationOf(d, u, limit) == if Occupancy(d) + u.declared > limit then Full else Made(u.id)
    ensures Create(d, u, limit) == if Occupancy(d) + u.declared > limit then d else
      d.(sources := d.sources[u.id := Source(u.legacy, u.visual, Uploading, Unchecked, 1, u.declared, u.expires, Reserved, u.request, u.digest)],
         jobs := d.jobs[u.job := Job(u.id, 1, false, Waiting, None, None, None)], used := d.used + {u.id, u.job})
  {
    OccupancyIsCapacity(d);
    assert !FindRequest(d, u);
    hide Occupancy, Capacity;
  }

  /** Source s is on its way out, and nothing else has changed. */
  predicate StartsDeletion(d: Db, e: Db, s: int) {
    && s in d.sources && e == d.(sources := d.sources[s := d.sources[s].(state := Deleting, generation := d.sources[s].generation + 1)])
  }

  /** A receive is taken exactly for an open reservation, in time and with the declared number of bytes; a late one starts the
      deletion of the source, a repeated one is told that its bytes are stored, and any other changes nothing. */
  lemma ReceiveIsExact(d: Db, s: int, data: string)
    requires d.receiving.None?
    ensures var r, e := ReceiptOf(d, s, data), BeginReceive(d, s, data);
      && (r.Accepted? <==> s in d.sources && d.sources[s].state.Uploading? && d.clock < d.sources[s].expires && |data| == d.sources[s].declared)
      && (r.Accepted? ==> e == d.(receiving := Some(Receiving(s, data, false))))
      && (r.TooLate? ==> StartsDeletion(d, e, s))
      && (!r.Accepted? && !r.TooLate? ==> e == d)
      && (r.TooLate? <==> s in d.sources && d.sources[s].state.Uploading? && d.sources[s].expires <= d.clock)
      && (r.Stored? <==> s in d.sources && d.sources[s].artifact == Available(data) && d.sources[s].state in {Queued, Processing, Ready, PartiallyReady})
  {
    if s in d.sources && d.sources[s].state.Uploading? { if d.sources[s].expires <= d.clock {} else {} }
  }
}
