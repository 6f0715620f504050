// The source, job, review and object tables, updated in place. A method is one transaction, or one worker's
// whole job when nothing interferes, and leaves exactly the state the step functions of MediaLifecycle describe.
module MediaTables {
  import opened Wrappers
  import opened Sums
  import opened MediaLifecycle

  class SourceTables {
    var legacies: map<int, bool>
    var sources: map<int, Source>
    var jobs: map<int, Job>
    var candidates: map<int, Candidate>
    var links: map<int, Link>
    var objects: map<int, string>
    var receiving: Option<Receiving>
    var cleanups: set<int>
    var workers: map<int, Worker>
    var finalizers: map<int, Finalizer>
    var used: set<int>
    var clock: int

    ghost function View(): Db
      reads this
    {
      Db(legacies, sources, jobs, candidates, links, objects, receiving, cleanups, workers, finalizers, used, clock)
    }

    constructor ()
      ensures View() == NOTHING
    {
      legacies, sources, jobs, candidates, links, objects := map[], map[], map[], map[], map[], map[];
      receiving, cleanups, workers, finalizers, used, clock := None, {}, map[], map[], {}, 0;
    }

    /** plan_usage.capacity: stored originals and unexpired reservations. */
    method Occupied() returns (n: nat)
      ensures n == Capacity(View())
    {
      ghost var all := map s | s in sources :: Counted(sources[s], clock);
      ghost var left := all;
      var keys := set s | s in sources;
      n := 0;
      while exists k :: k in keys
        invariant keys == left.Keys && keys <= sources.Keys
        invariant forall s :: s in left ==> left[s] == Counted(sources[s], clock)
        invariant Sum(all) == n + Sum(left)
        decreases keys
      {
        var s :| s in keys;
        SumRemove(left, s);
        n := n + Counted(sources[s], clock);
        keys, left := keys - {s}, left - {s};
      }
      assert left == map[];
    }

    method CreateUpload(u: Upload, limit: nat) returns (r: Reservation)
      requires OneRequest(sources)
      modifies this
      ensures View() == Create(old(View()), u, limit) && r == ReservationOf(old(View()), u, limit)
    {
      if receiving.Some? { return Busy; }
      if u.legacy !in legacies || legacies[u.legacy] || u.declared < 1 { return NotOpen; }
      if exists s :: s in sources && sources[s].legacy == u.legacy && sources[s].request == u.request {
        var s :| s in sources && sources[s].legacy == u.legacy && sources[s].request == u.request;
        assert forall k :: k in sources && sources[k].legacy == u.legacy && sources[k].request == u.request ==> SameRequest(sources[k], sources[s]);
        return if sources[s].visual == u.visual && sources[s].digest == u.digest then Repeated(s) else KeyConflict;
      }
      var occupied := Occupied();
      if occupied + u.declared > limit { return Full; }
      if u.id in used || u.job in used || u.id == u.job { return NotDrawn; }
      sources := sources[u.id := Source(u.legacy, u.visual, Uploading, Unchecked, 1, u.declared, u.expires, Reserved, u.request, u.digest)];
      jobs := jobs[u.job := Job(u.id, 1, false, Waiting, None, None, None)];
      used := used + {u.id, u.job};
      r := Made(u.id);
    }

    /** A receive whose storage write and commit both succeed. */
    method ReceiveUpload(s: int, data: string) returns (r: Receipt)
      modifies this
      ensures View() == if old(receiving).Some? then old(View())
        else CommitReceive(StoreObject(BeginReceive(old(View()), s, data)))
      ensures r == ReceiptOf(old(View()), s, data)
    {
      if receiving.Some? { return Waits; }
      if s !in sources { return Missing; }
      var x := sources[s];
      if !x.state.Uploading? {
        var kept := x.state.Queued? || x.state.Processing? || x.state.Ready? || x.state.PartiallyReady?;
        return if kept && x.artifact == Available(data) then Stored else NotUploading;
      }
      if x.expires <= clock {
        sources := sources[s := x.(state := Deleting, generation := x.generation + 1)];
        return TooLate;
      }
      if |data| != x.declared { return WrongSize; }
      objects := objects[s := data];
      var y := x.(state := Queued, safety := Clean);
      if x.visual { y := y.(safety := Unchecked); }
      sources := sources[s := y.(artifact := Available(data))];
      r := Accepted;
    }

    method Delete(s: int, job: int)
      requires s in sources
      modifies this
      ensures View() == DeleteSource(old(View()), s, job)
    {
      var x := sources[s];
      if Gone(x.state) { return; }
      sources := sources[s := x.(state := Deleting, generation := x.generation + 1)];
      jobs := CancelJobs(jobs, s);
      candidates := WithdrawCandidates(candidates, s);
      links := UnlinkSource(links, s);
      jobs := jobs[job := Job(s, x.generation + 1, true, Waiting, None, None, None)];
      used := used + {job};
    }

    /** _purge of a worker that holds its job. */
    method Purge(token: int) returns (purged: bool)
      modifies this
      ensures View() == FinishPurge(EraseForPurge(old(View()), token), token)
      ensures purged == Purges(EraseForPurge(old(View()), token), token)
      ensures purged ==> token in workers && workers[token].source !in objects
    {
      if token !in workers || !workers[token].purge { return false; }
      var w := workers[token];
      objects := objects - {w.source};
      workers := workers[token := w.(phase := Erased)];
      if w.job !in jobs || jobs[w.job].token != Some(token) || w.source !in sources { return false; }
      var x := sources[w.source];
      if !x.state.Deleting? || x.generation != jobs[w.job].generation { return false; }
      jobs := jobs[w.job := jobs[w.job].(state := Succeeded, token := None, until := None)];
      sources := sources[w.source := x.(state := Deleted, artifact := Purged)];
      purged := true;
    }

    /** _finalize_id after its first read: every registered key is erased before the rows are dropped. */
    method EraseLegacy(run: int)
      requires run in finalizers && finalizers[run].erased == {}
      modifies this
      ensures forall s :: s in objects <==> s in old(objects) && s !in old(finalizers)[run].registry
      ensures forall s :: s in objects ==> objects[s] == old(objects)[s]
      ensures View() == DropLegacy(old(View()).(objects := objects, finalizers := old(finalizers)[run := Completed(old(finalizers)[run])]), run)
    {
      EraseKeys(finalizers[run].registry);
      finalizers := finalizers[run := Completed(finalizers[run])];
      Drop(run, finalizers[run]);
    }

    static function Completed(f: Finalizer): Finalizer { f.(erased := f.registry) }

    method EraseKeys(registry: set<int>)
      modifies this`objects
      ensures forall s :: s in objects <==> s in old(objects) && s !in registry
      ensures forall s :: s in objects ==> objects[s] == old(objects)[s]
    {
      var left := registry;
      while exists s :: s in left
        invariant left <= registry
        invariant forall s :: s in objects <==> s in old(objects) && (s !in registry || s in left)
        invariant forall s :: s in objects ==> objects[s] == old(objects)[s]
        decreases left
      {
        var s :| s in left;
        objects := objects - {s};
        left := left - {s};
      }
    }

    /** The recheck before the rows go: the deletion still stands, the registry is unchanged and all of it is erased. */
    method MayDrop(f: Finalizer) returns (may: bool)
      ensures may == (Registry(View(), f.legacy) == f.registry && AllErased(View(), f.legacy))
    {
      if !(f.legacy in legacies && legacies[f.legacy]) { return false; }
      var current := set s | s in sources && sources[s].legacy == f.legacy;
      if current != f.registry { return false; }
      may := forall s :: s in current ==> sources[s].state.Deleted? && sources[s].artifact.Purged?;
    }

    method Drop(run: int, f: Finalizer)
      requires run in finalizers && finalizers[run] == f && f.erased == f.registry
      modifies this`legacies, this`sources, this`jobs, this`candidates, this`links
      ensures View() == DropLegacy(old(View()), run)
    {
      var may := MayDrop(f);
      if !may { return; }
      legacies, sources := legacies - {f.legacy}, sources - f.registry;
      jobs := map j | j in jobs && jobs[j].source !in f.registry :: jobs[j];
      candidates := map k | k in candidates && candidates[k].source !in f.registry :: candidates[k];
      links := map k | k in links && links[k].source !in f.registry :: links[k];
    }
  }
}
