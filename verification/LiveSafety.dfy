// What every run of the live-call operations keeps: the row conditions, one open call per actor,
// generation fencing, single-use tickets, the logout cutoff and non-overlapping voice intervals.
module LiveSafety {
  import opened Wrappers
  import opened VoiceLedger
  import opened LiveSessions

  // ---- the invariant ----

  /** ck_realtime_terminal and ck_realtime_lease, and what the operations rely on beside them. */
  ghost predicate RowOk(r: Row, clock: int) {
    && (Terminal(r.state) ==> r.endedAt.Some? && r.active.None? && r.ticket.None?)
    && (!Terminal(r.state) ==> r.endedAt.None? && r.active == Some(r.info.actor) && r.reason.None? && r.revokedAt.None?)
    && (Live(r.state) <==> r.owner.Some?) && (r.owner.Some? <==> r.leaseUntil.Some?)
    && (r.state.Reconnecting? <==> r.reconnectUntil.Some?)
    && (r.state.Authorized? ==> r.ticket.Some? && r.ticketUntil.Some? && r.ticketUsed.None?)
    && (r.revokedAt.Some? ==> r.revokedAt.value <= clock)
    && (r.reason == Some(Logout) ==> r.revokedAt.Some?)
    && (r.unanswered != {} ==> (r.state.Connected? || Terminal(r.state)) && r.conversation.Some?)
    && 0 <= r.generation
  }

  ghost predicate RowsOk(rows: seq<Row>, clock: int) {
    forall i :: 0 <= i < |rows| ==> RowOk(rows[i], clock)
  }

  predicate Open(r: Row) { !r.dropped && !Terminal(r.state) }

  ghost predicate OnePerActor(rows: seq<Row>) {
    forall i, j :: 0 <= i < |rows| && 0 <= j < |rows| && i != j && Open(rows[i]) && Open(rows[j]) ==> rows[i].info.actor != rows[j].info.actor
  }

  /** A row holds only tickets drawn for it. */
  ghost predicate TicketsOk(rows: seq<Row>, issued: map<int, int>) {
    forall i :: 0 <= i < |rows| && rows[i].ticket.Some? ==> rows[i].ticket.value in issued && issued[rows[i].ticket.value] == i
  }

  /** The interval may still grow: its session holds the connection the interval was opened for. */
  predicate Growable(rows: seq<Row>, k: IKey) {
    0 <= k.session < |rows| && !rows[k.session].dropped && rows[k.session].state.Connected? && rows[k.session].generation == k.generation
  }

  ghost predicate KeyOk(rows: seq<Row>, k: IKey, iv: Interval, clock: int) {
    && 0 <= k.session < |rows|
    && var r := rows[k.session];
       && iv.user == r.info.actor && iv.mode == r.info.scope.mode && k.generation <= r.generation && iv.until <= clock
       && (k.generation == r.generation ==> r.state.Connected? || r.dropped)
       && (iv.ended.None? ==> k.generation == r.generation)
  }

  ghost predicate KeysOk(rows: seq<Row>, l: Ledger, clock: int) {
    forall k :: k in l.intervals ==> KeyOk(rows, k, l.intervals[k], clock)
  }

  predicate Apart(a: Interval, b: Interval) { a.until <= b.started || b.until <= a.started }

  /** No microsecond of an actor is counted in two intervals. */
  ghost predicate Separate(l: Ledger) {
    forall j, k :: j in l.intervals && k in l.intervals && j != k && l.intervals[j].user == l.intervals[k].user ==>
      Apart(l.intervals[j], l.intervals[k])
  }

  ghost predicate Latest(rows: seq<Row>, l: Ledger) {
    forall j, k :: j in l.intervals && k in l.intervals && j != k && l.intervals[j].user == l.intervals[k].user && Growable(rows, k) ==>
      l.intervals[j].until <= l.intervals[k].started
  }

  ghost predicate BooksOk(rows: seq<Row>, l: Ledger, clock: int) {
    KeysOk(rows, l, clock) && Separate(l) && Latest(rows, l)
  }

  ghost predicate Inv(d: Db, c: Config) {
    && RowsOk(d.rows, d.clock) && OnePerActor(d.rows) && TicketsOk(d.rows, d.issued)
    && BooksOk(d.rows, d.ledger, d.clock) && LedgerOk(d.ledger, c.plans)
  }

  // ---- what no later step undoes ----

  predicate Evolves(a: Row, b: Row) {
    && b.info == a.info
    && (a.dropped ==> b == a)
    && a.generation <= b.generation
    && (a.generation == b.generation ==> b.owner == a.owner && (Live(b.state) <==> Live(a.state)) && (a.state.Connected? ==> b.state.Connected?))
    && (Terminal(a.state) ==> b.state == a.state && b.generation == a.generation && b.endedAt == a.endedAt && b.unanswered == a.unanswered)
    && (a.reason == Some(Logout) && a.revokedAt.Some? ==> b.reason == Some(Logout) && b.revokedAt.Some? && a.revokedAt.value <= b.revokedAt.value)
    && (a.conversation.Some? ==> b.conversation == a.conversation)
  }

  /** The ticket was drawn and can no longer be consumed. */
  predicate Spent(d: Db, raw: int) {
    raw in d.issued && !(0 <= d.issued[raw] < |d.rows| && !d.rows[d.issued[raw]].dropped && d.rows[d.issued[raw]].ticket == Some(raw)
                         && d.rows[d.issued[raw]].ticketUsed.None?)
  }

  predicate TicketMoves(a: Row, b: Row) {
    b.ticket.None? || (b.ticket == a.ticket && (a.ticketUsed.Some? ==> b.ticketUsed.Some?))
  }

  ghost predicate After(d: Db, e: Db) {
    && |d.rows| <= |e.rows| && d.clock <= e.clock
    && (forall i :: 0 <= i < |d.rows| ==> Evolves(d.rows[i], e.rows[i]))
    && (forall x :: x in d.issued ==> x in e.issued && e.issued[x] == d.issued[x])
    && (forall x :: Spent(d, x) ==> Spent(e, x))
    && Later(d.ledger, e.ledger)
  }

  lemma AfterTrans(a: Db, b: Db, c: Db)
    requires After(a, b) && After(b, c)
    ensures After(a, c)
  {
    LaterTrans(a.ledger, b.ledger, c.ledger);
    forall i | 0 <= i < |a.rows| ensures Evolves(a.rows[i], c.rows[i]) {
      assert Evolves(a.rows[i], b.rows[i]) && Evolves(b.rows[i], c.rows[i]);
    }
  }

  // ---- the ledger grows ----

  lemma OneGrowable(rows: seq<Row>, j: IKey, k: IKey)
    requires OnePerActor(rows) && Growable(rows, j) && Growable(rows, k)
    requires rows[j.session].info.actor == rows[k.session].info.actor
    ensures j == k
  {
  }

  /** An interval that is being written: new at the present moment, or the actor's growing one. */
  ghost predicate Writable(rows: seq<Row>, l: Ledger, key: IKey, iv: Interval, t: int) {
    && Growable(rows, key) && iv.user == rows[key.session].info.actor && iv.mode == rows[key.session].info.scope.mode
    && iv.started <= iv.until <= t
    && if key in l.intervals then l.intervals[key].started == iv.started else iv.started == t
  }

  lemma WriteApart(rows: seq<Row>, l: Ledger, key: IKey, iv: Interval, t: int, j: IKey)
    requires BooksOk(rows, l, t) && Writable(rows, l, key, iv, t) && j in l.intervals && j != key && l.intervals[j].user == iv.user
    ensures l.intervals[j].until <= iv.started
  {
    assert KeyOk(rows, j, l.intervals[j], t);
    if key in l.intervals { assert KeyOk(rows, key, l.intervals[key], t); }
  }

  lemma WriteKeepsBooks(rows: seq<Row>, l: Ledger, key: IKey, iv: Interval, t: int, w: Ledger)
    requires BooksOk(rows, l, t) && OnePerActor(rows) && Writable(rows, l, key, iv, t) && w.intervals == l.intervals[key := iv]
    ensures BooksOk(rows, w, t)
  {
    forall k | k in w.intervals ensures KeyOk(rows, k, w.intervals[k], t) {
      if k != key { assert KeyOk(rows, k, l.intervals[k], t); }
    }
    forall j, k | j in w.intervals && k in w.intervals && j != k && w.intervals[j].user == w.intervals[k].user
      ensures Apart(w.intervals[j], w.intervals[k]) {
      if k == key { WriteApart(rows, l, key, iv, t, j); } else if j == key { WriteApart(rows, l, key, iv, t, k); }
    }
    forall j, k | j in w.intervals && k in w.intervals && j != k && w.intervals[j].user == w.intervals[k].user && Growable(rows, k)
      ensures w.intervals[j].until <= w.intervals[k].started {
      assert KeyOk(rows, k, w.intervals[k], t);
      if k == key { WriteApart(rows, l, key, iv, t, j); } else if j == key { OneGrowable(rows, j, k); }
    }
  }

  /** Closing an interval where it stands moves nothing. */
  lemma EndKeepsBooks(rows: seq<Row>, l: Ledger, key: IKey, iv: Interval, t: int, w: Ledger)
    requires BooksOk(rows, l, t) && w.intervals == l.intervals[key := iv] && key in l.intervals
    requires iv.user == l.intervals[key].user && iv.mode == l.intervals[key].mode && iv.ended.Some?
    requires iv.started == l.intervals[key].started && iv.until == l.intervals[key].until
    ensures BooksOk(rows, w, t)
  {
    forall k | k in w.intervals ensures KeyOk(rows, k, w.intervals[k], t) { assert KeyOk(rows, k, l.intervals[k], t); }
    forall j, k | j in w.intervals && k in w.intervals && j != k && w.intervals[j].user == w.intervals[k].user
      ensures Apart(w.intervals[j], w.intervals[k]) {
      assert Apart(l.intervals[j], l.intervals[k]);
    }
  }

  predicate Closed(l: Ledger, k: IKey) {
    k in l.intervals ==> l.intervals[k].ended.Some?
  }

  lemma TouchedWritable(d: Db, c: Config, i: int, ready: bool, ending: bool, recovered: bool)
    requires Inv(d, c) && 0 <= i < |d.rows| && !d.rows[i].dropped
    requires (ending && !ready) || (d.rows[i].state.Connected? && d.clock < Expiry(d.rows[i]))
    ensures var touched := Touched(d.ledger, VoicedOf(i, d.rows[i]), d.clock, ready, ending, recovered);
      touched.Some? ==> Writable(d.rows, d.ledger, IKey(i, d.rows[i].generation), touched.value, d.clock)
  {
    var k := IKey(i, d.rows[i].generation);
    if k in d.ledger.intervals { assert KeyOk(d.rows, k, d.ledger.intervals[k], d.clock); }
  }

  lemma WritableKeeps(d: Db, c: Config, k: IKey, iv: Interval)
    requires Inv(d, c) && Writable(d.rows, d.ledger, k, iv, d.clock) && Extends(d.ledger, k, iv)
    ensures var l := Write(d.ledger, c.plans, k, iv); BooksOk(d.rows, l, d.clock) && LedgerOk(l, c.plans) && Later(d.ledger, l)
  {
    WriteKeepsBooks(d.rows, d.ledger, k, iv, d.clock, Write(d.ledger, c.plans, k, iv));
    WriteKeeps(d.ledger, c.plans, k, iv);
    WriteLater(d.ledger, c.plans, k, iv);
  }

  lemma LaterRefl(l: Ledger)
    ensures Later(l, l)
  {
  }

  /** The ledger that tracking leaves is as good as the one before, and continues it. */
  lemma TrackKeeps(d: Db, c: Config, i: int, ready: bool, ending: bool, recovered: bool)
    requires Inv(d, c) && 0 <= i < |d.rows| && !d.rows[i].dropped
    requires (ending && !ready) || (d.rows[i].state.Connected? && d.clock < Expiry(d.rows[i]))
    ensures var l := TrackAt(d, c, i, d.clock, ready, ending, recovered).ledger;
      BooksOk(d.rows, l, d.clock) && LedgerOk(l, c.plans) && Later(d.ledger, l)
  {
    var v := VoicedOf(i, d.rows[i]);
    VoiceWrites(d.ledger, c.plans, v, d.clock, ready, ending, recovered);
    TouchedWritable(d, c, i, ready, ending, recovered);
    var touched := Touched(d.ledger, v, d.clock, ready, ending, recovered);
    if touched.Some? { WritableKeeps(d, c, v.key, touched.value); } else { LaterRefl(d.ledger); }
  }

  lemma TrackCloses(d: Db, c: Config, i: int, recovered: bool)
    requires LedgerOk(d.ledger, c.plans) && 0 <= i < |d.rows|
    ensures Closed(TrackAt(d, c, i, d.clock, false, true, recovered).ledger, IKey(i, d.rows[i].generation))
  {
    VoiceWrites(d.ledger, c.plans, VoicedOf(i, d.rows[i]), d.clock, false, true, recovered);
  }

  // ---- one row changes ----

  /** b may replace row i: nothing it promised is undone, and a left connection leaves no open interval. */
  ghost predicate Fits(d: Db, i: int, b: Row) {
    && 0 <= i < |d.rows| && RowOk(b, d.clock) && Evolves(d.rows[i], b)
    && (d.rows[i].generation < b.generation ==> Closed(d.ledger, IKey(i, d.rows[i].generation)))
  }

  lemma RowKeepsKeys(rows: seq<Row>, l: Ledger, clock: int, i: int, b: Row)
    requires 0 <= i < |rows| && KeysOk(rows, l, clock) && Evolves(rows[i], b)
    requires rows[i].generation < b.generation ==> Closed(l, IKey(i, rows[i].generation))
    ensures KeysOk(rows[i := b], l, clock)
  {
    forall k | k in l.intervals ensures KeyOk(rows[i := b], k, l.intervals[k], clock) {
      assert KeyOk(rows, k, l.intervals[k], clock);
    }
  }

  lemma RowKeepsLatest(rows: seq<Row>, l: Ledger, clock: int, i: int, b: Row)
    requires 0 <= i < |rows| && BooksOk(rows, l, clock) && Evolves(rows[i], b)
    ensures Latest(rows[i := b], l)
  {
    forall j, k | j in l.intervals && k in l.intervals && j != k && l.intervals[j].user == l.intervals[k].user && Growable(rows[i := b], k)
      ensures l.intervals[j].until <= l.intervals[k].started {
      assert KeyOk(rows, k, l.intervals[k], clock);
      assert Growable(rows, k);
    }
  }

  lemma RowKeepsActors(rows: seq<Row>, i: int, b: Row)
    requires 0 <= i < |rows| && OnePerActor(rows) && Evolves(rows[i], b)
    ensures OnePerActor(rows[i := b])
  {
    assert Open(b) ==> Open(rows[i]);
    var after := rows[i := b];
    forall j, k | 0 <= j < |rows| && 0 <= k < |rows| && j != k && Open(after[j]) && Open(after[k])
      ensures after[j].info.actor != after[k].info.actor {
      assert Open(rows[j]) && Open(rows[k]);
    }
  }

  lemma RowKeepsSpent(d: Db, i: int, b: Row)
    requires 0 <= i < |d.rows| && Evolves(d.rows[i], b) && TicketMoves(d.rows[i], b)
    ensures forall x :: Spent(d, x) ==> Spent(Change(d, i, b), x)
  {
  }

  lemma ChangeKeeps(d: Db, c: Config, i: int, b: Row)
    requires Inv(d, c) && Fits(d, i, b) && TicketMoves(d.rows[i], b)
    ensures Inv(Change(d, i, b), c) && After(d, Change(d, i, b))
  {
    RowKeepsKeys(d.rows, d.ledger, d.clock, i, b);
    RowKeepsLatest(d.rows, d.ledger, d.clock, i, b);
    RowKeepsActors(d.rows, i, b);
    RowKeepsSpent(d, i, b);
    LaterRefl(d.ledger);
  }

  lemma LedgerKeeps(d: Db, c: Config, l: Ledger)
    requires Inv(d, c) && BooksOk(d.rows, l, d.clock) && LedgerOk(l, c.plans) && Later(d.ledger, l)
    ensures Inv(d.(ledger := l), c) && After(d, d.(ledger := l))
  {
  }

  /** Tracking row i and then replacing it. */
  lemma TrackChangeKeeps(d: Db, c: Config, i: int, ready: bool, ending: bool, recovered: bool, b: Row)
    requires Inv(d, c) && 0 <= i < |d.rows| && !d.rows[i].dropped
    requires (ending && !ready) || (d.rows[i].state.Connected? && d.clock < Expiry(d.rows[i]))
    requires RowOk(b, d.clock) && Evolves(d.rows[i], b) && TicketMoves(d.rows[i], b) && (ending || b.generation == d.rows[i].generation)
    ensures var e := Change(TrackAt(d, c, i, d.clock, ready, ending, recovered), i, b); Inv(e, c) && After(d, e)
  {
    TrackKeeps(d, c, i, ready, ending, recovered);
    if ending { TrackCloses(d, c, i, recovered); }
    var e := TrackAt(d, c, i, d.clock, ready, ending, recovered);
    LedgerKeeps(d, c, e.ledger);
    ChangeKeeps(e, c, i, b);
    AfterTrans(d, e, Change(e, i, b));
  }

  // ---- the operations on one row ----

  lemma NotConnectedClosed(d: Db, c: Config, i: int)
    requires Inv(d, c) && 0 <= i < |d.rows| && !d.rows[i].dropped && !d.rows[i].state.Connected?
    ensures Closed(d.ledger, IKey(i, d.rows[i].generation))
  {
    var k := IKey(i, d.rows[i].generation);
    assert k in d.ledger.intervals ==> KeyOk(d.rows, k, d.ledger.intervals[k], d.clock);
  }

  function Recovered(r: Row, c: Config, t: int, release: bool): Row {
    if release then Release(RecoverRow(r, c, t)) else RecoverRow(r, c, t)
  }

  lemma RecoveredFits(r: Row, c: Config, t: int, release: bool)
    requires RowOk(r, t) && !r.dropped && (release || !RecoverRow(r, c, t).state.Reconnecting?)
    requires release ==> !Terminal(r.state)
    ensures var b := Recovered(r, c, t, release); RowOk(b, t) && Evolves(r, b) && TicketMoves(r, b)
    ensures r.state.Connected? && r.generation < Recovered(r, c, t, release).generation ==> Lapsed(r, t)
  {
  }

  lemma RecoverKeeps(d: Db, c: Config, i: int, release: bool)
    requires Inv(d, c) && 0 <= i < |d.rows| && !d.rows[i].dropped && (release ==> !Terminal(d.rows[i].state))
    requires release || !RecoverRow(d.rows[i], c, d.clock).state.Reconnecting?
    ensures var e := if release then RecoverRelease(d, c, i, d.clock) else Recover(d, c, i, d.clock);
      Inv(e, c) && After(d, e) && e.rows == d.rows[i := Recovered(d.rows[i], c, d.clock, release)]
  {
    var r, t := d.rows[i], d.clock;
    var b := Recovered(r, c, t, release);
    assert RowOk(r, t);
    RecoveredFits(r, c, t, release);
    assert d.rows[i := RecoverRow(r, c, t)][i := b] == d.rows[i := b];
    if Lapsed(r, t) {
      TrackChangeKeeps(d, c, i, false, true, true, b);
    } else {
      if !r.state.Connected? { NotConnectedClosed(d, c, i); }
      ChangeKeeps(d, c, i, b);
    }
  }

  lemma ReleaseKeeps(d: Db, c: Config, i: int)
    requires Inv(d, c) && Present(d, i) && d.rows[i].active.Some?
    ensures var e := RecoverRelease(d, c, i, d.clock); Inv(e, c) && After(d, e)
  {
    assert RowOk(d.rows[i], d.clock);
    RecoverKeeps(d, c, i, true);
  }

  lemma RevokeRowKeeps(d: Db, c: Config, i: int, reason: Reason)
    requires Inv(d, c) && 0 <= i < |d.rows| && !d.rows[i].dropped
    ensures var e := RevokeRow(d, c, i, d.clock, reason); Inv(e, c) && After(d, e)
  {
    var r := d.rows[i];
    assert RowOk(r, d.clock);
    if !Terminal(r.state) {
      TrackChangeKeeps(d, c, i, false, true, false, Finish(r, Revoked, reason, d.clock).(unanswered := {}));
    } else if reason.Logout? {
      ChangeKeeps(d, c, i, r.(revokedAt := Some(d.clock), reason := Some(Logout)));
    } else {
      AfterRefl(d);
    }
  }

  lemma AfterRefl(d: Db)
    ensures After(d, d)
  {
    LaterRefl(d.ledger);
  }

  lemma ConsumeKeeps(d: Db, c: Config, raw: int, origin: string, owner: string, scope: Option<Scope>)
    requires Inv(d, c)
    ensures var e := Consume(d, c, d.clock, raw, origin, owner, scope).0; Inv(e, c) && After(d, e)
  {
    AfterRefl(d);
    var out := Consume(d, c, d.clock, raw, origin, owner, scope).1;
    if out.Acquired? {
      var r := d.rows[out.session];
      assert RowOk(r, d.clock);
      NotConnectedClosed(d, c, out.session);
      ChangeKeeps(d, c, out.session, Connect(r, c, d.clock, owner));
    }
  }

  lemma OwnedKeeps(d: Db, c: Config, i: int, owner: string, generation: int, scope: Option<Scope>, ready: bool)
    requires Inv(d, c)
    ensures var e := Owned(d, c, d.clock, i, owner, generation, scope, ready).0; Inv(e, c) && After(d, e)
  {
    AfterRefl(d);
    if Present(d, i) && Holds(d.rows[i], owner, generation, d.clock) && Reauthorize(d.rows[i], scope, d.clock).None? {
      assert RowOk(d.rows[i], d.clock);
      var e := Change(d, i, Renew(d.rows[i], c, d.clock, ready));
      ChangeKeeps(d, c, i, Renew(d.rows[i], c, d.clock, ready));
      if e.rows[i].state.Connected? {
        TrackKeeps(e, c, i, ready, false, false);
        var f := TrackAt(e, c, i, d.clock, ready, false, false);
        LedgerKeeps(e, c, f.ledger);
        AfterTrans(d, e, f);
      }
    }
  }

  lemma CloseFits(r: Row, c: Config, t: int, why: Reason)
    requires RowOk(r, t) && r.owner.Some? && !r.dropped
    ensures var b := Close(r.(unanswered := {}), c, t, why); RowOk(b, t) && Evolves(r, b) && TicketMoves(r, b)
  {
  }

  lemma CloseOwnedKeeps(d: Db, c: Config, i: int, owner: string, generation: int, reason: Option<Reason>, scope: Option<Scope>)
    requires Inv(d, c)
    ensures var e := CloseOwned(d, c, d.clock, i, owner, generation, reason, scope).0; Inv(e, c) && After(d, e)
  {
    AfterRefl(d);
    if Present(d, i) && d.rows[i].owner == Some(owner) && d.rows[i].generation == generation {
      var why := ClosingReason(d.rows[i], d.clock, reason, scope);
      assert RowOk(d.rows[i], d.clock);
      CloseFits(d.rows[i], c, d.clock, why);
      TrackChangeKeeps(d, c, i, false, true, false, Close(d.rows[i].(unanswered := {}), c, d.clock, why));
    }
  }

  lemma SweepKeeps(d: Db, c: Config, i: int)
    requires Inv(d, c)
    ensures var e := Sweep(d, c, d.clock, i).0; Inv(e, c) && After(d, e)
  {
    hide Inv, After;
    AfterRefl(d);
    if Present(d, i) && d.rows[i].active.Some? { ReleaseKeeps(d, c, i); }
  }

  lemma AdmitKeeps(d: Db, c: Config, i: int, actor: int, owner: string, generation: int, scope: Option<Scope>, chat: int, textBusy: bool, turn: int)
    requires Inv(d, c)
    ensures var e := Admit(d, d.clock, i, actor, owner, generation, scope, chat, textBusy, turn).0; Inv(e, c) && After(d, e)
  {
    AfterRefl(d);
    var out := Admit(d, d.clock, i, actor, owner, generation, scope, chat, textBusy, turn);
    if out.1.Done? {
      assert RowOk(d.rows[i], d.clock);
      ChangeKeeps(d, c, i, out.0.rows[i]);
    }
  }

  lemma TerminateKeeps(d: Db, c: Config, i: int, owner: string, generation: int, scope: Option<Scope>, turn: int)
    requires Inv(d, c)
    ensures var e := Terminate(d, d.clock, i, owner, generation, scope, turn).0; Inv(e, c) && After(d, e)
  {
    AfterRefl(d);
    var out := Terminate(d, d.clock, i, owner, generation, scope, turn);
    if out.1.Done? {
      assert RowOk(d.rows[i], d.clock);
      ChangeKeeps(d, c, i, out.0.rows[i]);
    }
  }

  lemma ReconcileKeeps(d: Db, c: Config, k: IKey)
    requires Inv(d, c)
    ensures var e := ReconcileVoice(d, c, d.clock, k).0; Inv(e, c) && After(d, e)
  {
    AfterRefl(d);
    if ReconcileVoice(d, c, d.clock, k).1.Done? {
      var iv := d.ledger.intervals[k].(ended := Some(d.ledger.intervals[k].until), uncertain := true);
      EndOrphanKeeps(d.ledger, c.plans, k);
      EndKeepsBooks(d.rows, d.ledger, k, iv, d.clock, Write(d.ledger, c.plans, k, iv));
      WriteLater(d.ledger, c.plans, k, iv);
      LedgerKeeps(d, c, EndOrphan(d.ledger, c.plans, k));
    }
  }

  lemma DropKeeps(d: Db, c: Config, i: int)
    requires Inv(d, c) && Present(d, i)
    ensures var e := Change(d, i, d.rows[i].(dropped := true)); Inv(e, c) && After(d, e)
  {
    assert RowOk(d.rows[i], d.clock);
    ChangeKeeps(d, c, i, d.rows[i].(dropped := true));
  }

  // ---- the operations over several rows ----

  lemma RecoverIfActiveKeeps(d: Db, c: Config, actor: int, i: int)
    requires Inv(d, c) && 0 <= i < |d.rows|
    ensures var e := RecoverIfActive(d, c, actor, i, d.clock); Inv(e, c) && After(d, e)
  {
    hide Inv, After;
    if !d.rows[i].dropped && d.rows[i].active == Some(actor) { ReleaseKeeps(d, c, i); } else { AfterRefl(d); }
  }

  lemma {:induction false} RecoverActorKeeps(d: Db, c: Config, actor: int, i: nat)
    requires Inv(d, c)
    ensures var e := RecoverActor(d, c, actor, d.clock, i); Inv(e, c) && After(d, e)
    decreases |d.rows| - i
  {
    hide Inv, After;
    if i >= |d.rows| {
      AfterRefl(d);
    } else {
      RecoverIfActiveKeeps(d, c, actor, i);
      var e := RecoverIfActive(d, c, actor, i, d.clock);
      RecoverActorKeeps(e, c, actor, i + 1);
      AfterTrans(d, e, RecoverActor(e, c, actor, d.clock, i + 1));
    }
  }

  lemma RevokeIfMatchedKeeps(d: Db, c: Config, actor: int, legacy: Option<int>, i: int, reason: Reason)
    requires Inv(d, c) && 0 <= i < |d.rows|
    ensures var e := RevokeIfMatched(d, c, actor, legacy, i, d.clock, reason); Inv(e, c) && After(d, e)
  {
    hide Inv, After;
    if Matched(d.rows[i], actor, legacy) { RevokeRowKeeps(d, c, i, reason); } else { AfterRefl(d); }
  }

  lemma {:induction false} RevokeFromKeeps(d: Db, c: Config, actor: int, legacy: Option<int>, reason: Reason, i: nat)
    requires Inv(d, c)
    ensures var e := RevokeFrom(d, c, actor, legacy, d.clock, reason, i); Inv(e, c) && After(d, e)
    decreases |d.rows| - i
  {
    hide Inv, After;
    if i >= |d.rows| {
      AfterRefl(d);
    } else {
      RevokeIfMatchedKeeps(d, c, actor, legacy, i, reason);
      var e := RevokeIfMatched(d, c, actor, legacy, i, d.clock, reason);
      RevokeFromKeeps(e, c, actor, legacy, reason, i + 1);
      AfterTrans(d, e, RevokeFrom(e, c, actor, legacy, d.clock, reason, i + 1));
    }
  }

  // ---- new tickets ----

  /** Row i gets a ticket never drawn before. */
  lemma TicketKeeps(d: Db, c: Config, i: int, b: Row, raw: int)
    requires Inv(d, c) && Fits(d, i, b) && raw !in d.issued && b.ticket == Some(raw)
    ensures var e := Change(d, i, b).(issued := d.issued[raw := i]); Inv(e, c) && After(d, e)
  {
    RowKeepsKeys(d.rows, d.ledger, d.clock, i, b);
    RowKeepsLatest(d.rows, d.ledger, d.clock, i, b);
    RowKeepsActors(d.rows, i, b);
    LaterRefl(d.ledger);
  }

  function Reissued(r: Row, c: Config, t: int, raw: int): Row {
    WithTicket(r.(generation := r.generation + 1), c, t, raw)
  }

  lemma ReissuedFits(r: Row, c: Config, t: int, raw: int)
    requires RowOk(r, t) && !r.dropped && r.state.Reconnecting?
    ensures RowOk(Reissued(r, c, t, raw), t) && Evolves(r, Reissued(r, c, t, raw))
  {
  }

  lemma ReissueKeeps(d: Db, c: Config, i: int, raw: int)
    requires Inv(d, c) && Present(d, i) && d.rows[i].state.Reconnecting? && raw !in d.issued
    ensures var e := Change(d, i, Reissued(d.rows[i], c, d.clock, raw)).(issued := d.issued[raw := i]); Inv(e, c) && After(d, e)
  {
    assert RowOk(d.rows[i], d.clock);
    ReissuedFits(d.rows[i], c, d.clock, raw);
    NotConnectedClosed(d, c, i);
    TicketKeeps(d, c, i, Reissued(d.rows[i], c, d.clock, raw), raw);
  }

  /** A granted reconnect is a recovery, with its turns released, followed by a new ticket. */
  lemma GrantedIsReissue(d: Db, c: Config, i: int, actor: int, origin: string, scope: Option<Scope>, raw: int)
    requires Reconnect(d, c, d.clock, i, actor, origin, scope, raw).1.Granted?
    ensures Present(d, i) && raw !in d.issued
    ensures var e := RecoverRelease(d, c, i, d.clock);
      && e.rows[i].state.Reconnecting? && e.rows[i].dropped == d.rows[i].dropped && e.issued == d.issued && e.clock == d.clock
      && Reconnect(d, c, d.clock, i, actor, origin, scope, raw).0 == Change(e, i, Reissued(e.rows[i], c, d.clock, raw)).(issued := d.issued[raw := i])
  {
    var x, e := Recover(d, c, i, d.clock), RecoverRelease(d, c, i, d.clock);
    assert x.rows[i].(unanswered := {}) == e.rows[i];
    assert x.rows[i := Reissued(e.rows[i], c, d.clock, raw)] == e.rows[i := Reissued(e.rows[i], c, d.clock, raw)];
  }

  lemma ReconnectKeeps(d: Db, c: Config, i: int, actor: int, origin: string, scope: Option<Scope>, raw: int)
    requires Inv(d, c)
    ensures var e := Reconnect(d, c, d.clock, i, actor, origin, scope, raw).0; Inv(e, c) && After(d, e)
  {
    var out := Reconnect(d, c, d.clock, i, actor, origin, scope, raw);
    if out.1.Granted? {
      GrantedIsReissue(d, c, i, actor, origin, scope, raw);
      ReconnectingIsActive(d, c, i);
      var e := RecoverRelease(d, c, i, d.clock);
      ReleaseKeeps(d, c, i);
      ReissueKeeps(e, c, i, raw);
      AfterTrans(d, e, out.0);
    } else if out.1.error.Conflict? {
      ConflictKeeps(d, c, i, actor, origin, scope, raw);
    } else {
      AfterRefl(d);
    }
  }

  lemma ReconnectingIsActive(d: Db, c: Config, i: int)
    requires Inv(d, c) && Present(d, i) && RecoverRelease(d, c, i, d.clock).rows[i].state.Reconnecting?
    ensures d.rows[i].active.Some?
  {
    assert RowOk(d.rows[i], d.clock);
  }

  lemma ConflictKeeps(d: Db, c: Config, i: int, actor: int, origin: string, scope: Option<Scope>, raw: int)
    requires Inv(d, c) && Reconnect(d, c, d.clock, i, actor, origin, scope, raw).1 == Refused(Conflict)
    ensures var e := Reconnect(d, c, d.clock, i, actor, origin, scope, raw).0; Inv(e, c) && After(d, e)
  {
    assert RowOk(d.rows[i], d.clock);
    RecoverKeeps(d, c, i, false);
  }

  lemma AppendKeepsActors(rows: seq<Row>, clock: int, b: Row)
    requires RowsOk(rows, clock) && OnePerActor(rows) && !Occupied(rows, b.info.actor)
    ensures OnePerActor(rows + [b])
  {
    forall i | 0 <= i < |rows| && Open(rows[i]) ensures rows[i].info.actor != b.info.actor {
      assert RowOk(rows[i], clock);
    }
  }

  lemma AppendKeepsBooks(rows: seq<Row>, l: Ledger, clock: int, b: Row)
    requires BooksOk(rows, l, clock)
    ensures BooksOk(rows + [b], l, clock)
  {
    forall k | k in l.intervals ensures KeyOk(rows + [b], k, l.intervals[k], clock) {
      assert KeyOk(rows, k, l.intervals[k], clock);
    }
  }

  lemma AppendKeeps(d: Db, c: Config, b: Row, raw: int)
    requires Inv(d, c) && raw !in d.issued && b.ticket == Some(raw) && RowOk(b, d.clock) && b.generation == 0
    requires !Occupied(d.rows, b.info.actor)
    ensures var e := d.(rows := d.rows + [b], issued := d.issued[raw := |d.rows|]); Inv(e, c) && After(d, e)
  {
    AppendKeepsActors(d.rows, d.clock, b);
    AppendKeepsBooks(d.rows, d.ledger, d.clock, b);
    LaterRefl(d.ledger);
  }

  lemma NewRowOk(c: Config, t: int, actor: int, scope: Scope, conversation: Option<int>, origin: string, exp: int, raw: int)
    ensures var b := NewRow(c, t, actor, scope, conversation, origin, exp, raw);
      RowOk(b, t) && b.ticket == Some(raw) && b.generation == 0 && b.info.actor == actor
  {
  }

  lemma NewSessionKeeps(d: Db, c: Config, e: Db, b: Row, raw: int)
    requires After(d, e) && Inv(e, c) && raw !in e.issued && b.ticket == Some(raw) && RowOk(b, e.clock) && b.generation == 0
    requires !Occupied(e.rows, b.info.actor)
    ensures var f := e.(rows := e.rows + [b], issued := e.issued[raw := |e.rows|]); Inv(f, c) && After(d, f)
  {
    AppendKeeps(e, c, b, raw);
    AfterTrans(d, e, e.(rows := e.rows + [b], issued := e.issued[raw := |e.rows|]));
  }

  lemma AuthorizeKeeps(d: Db, c: Config, actor: int, scope: Option<Scope>, conversation: Option<int>, origin: string, iat: int, exp: int, raw: int)
    requires Inv(d, c)
    ensures var e := Authorize(d, c, d.clock, actor, scope, conversation, origin, iat, exp, raw).0; Inv(e, c) && After(d, e)
  {
    if Authorize(d, c, d.clock, actor, scope, conversation, origin, iat, exp, raw).1.Granted? {
      RecoverActorKeeps(d, c, actor, 0);
      NewRowOk(c, d.clock, actor, scope.value, conversation, origin, exp, raw);
      NewSessionKeeps(d, c, RecoverActor(d, c, actor, d.clock, 0), NewRow(c, d.clock, actor, scope.value, conversation, origin, exp, raw), raw);
    } else {
      AfterRefl(d);
    }
  }

  // ---- one transaction, and any number of them ----

  lemma ClockKeeps(d: Db, c: Config, t: int)
    requires Inv(d, c) && d.clock <= t
    ensures Inv(d.(clock := t), c) && After(d, d.(clock := t))
  {
    forall i | 0 <= i < |d.rows| ensures RowOk(d.rows[i], t) { assert RowOk(d.rows[i], d.clock); }
    forall k | k in d.ledger.intervals ensures KeyOk(d.rows, k, d.ledger.intervals[k], t) {
      assert KeyOk(d.rows, k, d.ledger.intervals[k], d.clock);
    }
    LaterRefl(d.ledger);
  }

  lemma EventKeeps(d: Db, c: Config, e: Event)
    requires Inv(d, c)
    ensures var f := Step(d, c, d.clock, e).0; Inv(f, c) && After(d, f)
  {
    hide Inv, After;
    assert d.(clock := d.clock) == d;
    match e
    case DoAuthorize(actor, scope, conversation, origin, iat, exp, raw) => AuthorizeKeeps(d, c, actor, scope, conversation, origin, iat, exp, raw);
    case DoReconnect(i, actor, origin, scope, raw) => ReconnectKeeps(d, c, i, actor, origin, scope, raw);
    case DoConsume(raw, origin, owner, scope) => ConsumeKeeps(d, c, raw, origin, owner, scope);
    case DoOwned(i, owner, generation, scope, ready) => OwnedKeeps(d, c, i, owner, generation, scope, ready);
    case DoClose(i, owner, generation, reason, scope) => CloseOwnedKeeps(d, c, i, owner, generation, reason, scope);
    case DoRevoke(actor, legacy, why) => RevokeFromKeeps(d, c, actor, legacy, why, 0);
    case DoSweep(i) => SweepKeeps(d, c, i);
    case DoAdmit(i, actor, owner, generation, scope, chat, textBusy, turn) =>
      AdmitKeeps(d, c, i, actor, owner, generation, scope, chat, textBusy, turn);
    case DoTerminate(i, owner, generation, scope, turn) => TerminateKeeps(d, c, i, owner, generation, scope, turn);
    case DoReconcile(k) => ReconcileKeeps(d, c, k);
    case DoDrop(i) => AfterRefl(d); if Present(d, i) { DropKeeps(d, c, i); }
  }

  lemma StepKeeps(d: Db, c: Config, at: int, e: Event)
    requires Inv(d, c)
    ensures Inv(Step(d, c, at, e).0, c) && After(d, Step(d, c, at, e).0)
  {
    hide Inv, After;
    var t := Max(d.clock, at);
    ClockKeeps(d, c, t);
    EventKeeps(d.(clock := t), c, e);
    AfterTrans(d, d.(clock := t), Step(d.(clock := t), c, t, e).0);
  }

  /** Every run keeps the invariant, and undoes nothing of what was true before it. */
  lemma {:induction false} RunKeeps(d: Db, c: Config, events: seq<(int, Event)>)
    requires Inv(d, c)
    ensures Inv(Run(d, c, events), c) && After(d, Run(d, c, events))
    decreases |events|
  {
    hide Inv, After;
    if events == [] {
      AfterRefl(d);
    } else {
      var e := Step(d, c, events[0].0, events[0].1).0;
      StepKeeps(d, c, events[0].0, events[0].1);
      RunKeeps(e, c, events[1..]);
      AfterTrans(d, e, Run(e, c, events[1..]));
    }
  }
}
