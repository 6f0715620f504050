// The promises of the live-call service, over every run.
module LiveGuarantees {
  import opened Wrappers
  import opened Sums
  import opened VoiceLedger
  import opened LiveSessions
  import opened LiveSafety

  lemma NoCallsOk(c: Config)
    ensures Inv(NO_CALLS, c)
  {
    var l := NO_CALLS.ledger;
    forall user, mode, day ensures Recorded(l.quota, user, mode, day) == Min(Allowance(c.plans, user, mode), Sum(Observed(l, c.plans.cutover, user, mode, day))) {
      assert Amounts(l.quota, user, mode, day) == map[];
      assert Observed(l, c.plans.cutover, user, mode, day) == map[];
    }
  }

  // ---- billing ----

  /** Over every run: no instant of an actor lies in two intervals, each interval is split into its UTC
      days without loss, and the recorded quota is what was observed, capped at the allowance. */
  lemma EveryRunBillsOnce(c: Config, events: seq<(int, Event)>, j: IKey, k: IKey)
    ensures var l := Run(NO_CALLS, c, events).ledger;
      && (j in l.intervals && k in l.intervals && j != k && l.intervals[j].user == l.intervals[k].user ==> Apart(l.intervals[j], l.intervals[k]))
      && (k in l.intervals ==> Sum(DayReceipts(l.voice, k)) == l.intervals[k].until - l.intervals[k].started)
      && VoiceExact(l) && QuotaExact(l, c.plans)
  {
    NoCallsOk(c);
    RunKeeps(NO_CALLS, c, events);
    var l := Run(NO_CALLS, c, events).ledger;
    if k in l.intervals { ReceiptsAddUp(l, k); }
  }

  /** Nothing recorded is lost or reopened by what happens later. */
  lemma RecordsOnlyGrow(d: Db, c: Config, events: seq<(int, Event)>)
    requires Inv(d, c)
    ensures Later(d.ledger, Run(d, c, events).ledger)
  {
    RunKeeps(d, c, events);
  }

  // ---- fencing ----

  /** The connection of generation g is over, whoever owned it. */
  predicate Fenced(d: Db, i: int, g: int) {
    0 <= i < |d.rows| && (d.rows[i].dropped || d.rows[i].generation > g || (d.rows[i].generation == g && !Live(d.rows[i].state)))
  }

  /** The event acts for generation g of session i. */
  predicate ActsFor(e: Event, i: int, g: int) {
    match e
    case DoOwned(session, _, generation, _, _) => session == i && generation == g
    case DoClose(session, _, generation, _, _) => session == i && generation == g
    case DoAdmit(session, _, _, generation, _, _, _, _) => session == i && generation == g
    case DoTerminate(session, _, generation, _, _) => session == i && generation == g
    case _ => false
  }

  lemma FencedRefuses(d: Db, c: Config, i: int, g: int, at: int, e: Event)
    requires Inv(d, c) && Fenced(d, i, g) && ActsFor(e, i, g)
    ensures Step(d, c, at, e).0 == d.(clock := Max(d.clock, at)) && !Step(d, c, at, e).1.Done?
  {
    assert RowOk(d.rows[i], d.clock);
  }

  /** A connection that is over stays over: nothing done in its name is ever accepted again. */
  lemma FencedForever(d: Db, c: Config, events: seq<(int, Event)>, i: int, g: int, at: int, e: Event)
    requires Inv(d, c) && Fenced(d, i, g) && ActsFor(e, i, g)
    ensures var f := Run(d, c, events);
      Fenced(f, i, g) && Step(f, c, at, e).0 == f.(clock := Max(f.clock, at)) && !Step(f, c, at, e).1.Done?
  {
    var f := Run(d, c, events);
    RunKeeps(d, c, events);
    assert Evolves(d.rows[i], f.rows[i]);
    FencedRefuses(f, c, i, g, at, e);
  }

  /** A connection either still holds its session, with its owner and generation, or is over for good. */
  lemma HeldOrFenced(d: Db, c: Config, events: seq<(int, Event)>, i: int)
    requires Inv(d, c) && Present(d, i) && Live(d.rows[i].state)
    ensures var f, g := Run(d, c, events), d.rows[i].generation;
      Fenced(f, i, g) <==> !(Present(f, i) && Live(f.rows[i].state) && f.rows[i].generation == g && f.rows[i].owner == d.rows[i].owner)
  {
    RunKeeps(d, c, events);
    assert Evolves(d.rows[i], Run(d, c, events).rows[i]);
  }

  /** Every connection of a session gets a strictly larger generation than all before it. */
  lemma GenerationsIncrease(d: Db, c: Config, at: int, e: Event, events: seq<(int, Event)>, later: int, f: Event)
    requires Inv(d, c) && e.DoConsume? && f.DoConsume?
    ensures var first := Step(d, c, at, e);
      var second := Step(Run(first.0, c, events), c, later, f);
      first.1.Acquired? && second.1.Acquired? && second.1.session == first.1.session ==> first.1.generation < second.1.generation
  {
    hide Step, Inv, After;
    var first := Step(d, c, at, e);
    var middle := Run(first.0, c, events);
    if first.1.Acquired? && Step(middle, c, later, f).1.Acquired? {
      AcquiredIs(d, c, at, e);
      StepKeeps(d, c, at, e);
      RowsEvolve(first.0, c, events, first.1.session);
      AcquiredIs(middle, c, later, f);
    }
  }

  lemma RowsEvolve(d: Db, c: Config, events: seq<(int, Event)>, i: int)
    requires Inv(d, c) && 0 <= i < |d.rows|
    ensures i < |Run(d, c, events).rows| && Evolves(d.rows[i], Run(d, c, events).rows[i])
  {
    RunKeeps(d, c, events);
  }

  /** consume answers with the generation the row now has, one above what it had. */
  lemma AcquiredIs(d: Db, c: Config, at: int, e: Event)
    requires e.DoConsume? && Step(d, c, at, e).1.Acquired?
    ensures var (f, out) := Step(d, c, at, e);
      0 <= out.session < |d.rows| == |f.rows| && f.rows[out.session].generation == out.generation == d.rows[out.session].generation + 1
  {
  }

  // ---- tickets ----

  lemma SpentRefused(d: Db, c: Config, at: int, raw: int, origin: string, owner: string, scope: Option<Scope>)
    requires Inv(d, c) && Spent(d, raw)
    ensures !Step(d, c, at, DoConsume(raw, origin, owner, scope)).1.Acquired?
  {
  }

  lemma SpentForever(d: Db, c: Config, events: seq<(int, Event)>, at: int, raw: int, origin: string, owner: string, scope: Option<Scope>)
    requires Inv(d, c) && Spent(d, raw)
    ensures !Step(Run(d, c, events), c, at, DoConsume(raw, origin, owner, scope)).1.Acquired?
  {
    RunKeeps(d, c, events);
    SpentRefused(Run(d, c, events), c, at, raw, origin, owner, scope);
  }

  lemma AcquiredSpends(d: Db, c: Config, at: int, raw: int, origin: string, owner: string, scope: Option<Scope>)
    requires Inv(d, c)
    ensures var first := Step(d, c, at, DoConsume(raw, origin, owner, scope));
      first.1.Acquired? ==> raw in d.issued && d.issued[raw] == first.1.session && Spent(first.0, raw)
  {
    var t := Max(d.clock, at);
    if Step(d, c, at, DoConsume(raw, origin, owner, scope)).1.Acquired? {
      hide Consume;
      ConsumeSpends(d.(clock := t), c, t, raw, origin, owner, scope);
    }
  }

  lemma ConsumeSpends(d: Db, c: Config, t: int, raw: int, origin: string, owner: string, scope: Option<Scope>)
    requires TicketsOk(d.rows, d.issued) && Consume(d, c, t, raw, origin, owner, scope).1.Acquired?
    ensures var (f, out) := Consume(d, c, t, raw, origin, owner, scope);
      raw in d.issued && d.issued[raw] == out.session && Spent(f, raw)
  {
    var i := FindTicket(d.rows, raw).value;
    assert d.rows[i].ticket == Some(raw);
  }

  /** A ticket is consumed at most once, and only for the session it was drawn for. */
  lemma ConsumedOnce(d: Db, c: Config, at: int, raw: int, origin: string, owner: string, scope: Option<Scope>,
                     events: seq<(int, Event)>, later: int, origin': string, owner': string, scope': Option<Scope>)
    requires Inv(d, c)
    ensures var first := Step(d, c, at, DoConsume(raw, origin, owner, scope));
      first.1.Acquired? ==>
        raw in d.issued && d.issued[raw] == first.1.session
        && !Step(Run(first.0, c, events), c, later, DoConsume(raw, origin', owner', scope')).1.Acquired?
  {
    hide Inv, After, Step;
    var first := Step(d, c, at, DoConsume(raw, origin, owner, scope));
    if first.1.Acquired? {
      StepKeeps(d, c, at, DoConsume(raw, origin, owner, scope));
      AcquiredSpends(d, c, at, raw, origin, owner, scope);
      SpentForever(first.0, c, events, later, raw, origin', owner', scope');
    }
  }

  /** The session waits for the ticket it was just given. */
  predicate Armed(d: Db, out: Outcome) {
    && out.Granted? && Present(d, out.session)
    && var r := d.rows[out.session];
       r.ticket == Some(out.ticket) && r.ticketUsed.None? && r.ticketUntil.Some? && r.generation == out.generation
       && (r.state.Authorized? || r.state.Reconnecting?)
  }

  lemma AuthorizeArms(d: Db, c: Config, at: int, e: Event)
    requires e.DoAuthorize? && Step(d, c, at, e).1.Granted?
    ensures Armed(Step(d, c, at, e).0, Step(d, c, at, e).1)
  {
  }

  lemma ReconnectArms(d: Db, c: Config, e: Event)
    requires e.DoReconnect? && Step(d, c, d.clock, e).1.Granted?
    ensures Armed(Step(d, c, d.clock, e).0, Step(d, c, d.clock, e).1)
    ensures Step(d, c, d.clock, e).1.session == e.session && Step(d, c, d.clock, e).1.ticket == e.raw && e.raw !in d.issued
  {
    GrantedIsReissue(d, c, e.session, e.actor, e.origin, e.scope, e.raw);
  }

  /** A session holds one ticket at a time. */
  lemma ArmedKills(issued: map<int, int>, f: Db, out: Outcome, prior: int)
    requires Armed(f, out) && out.ticket !in issued && prior in issued && issued[prior] == out.session
    requires prior in f.issued && f.issued[prior] == issued[prior]
    ensures Spent(f, prior)
  {
  }

  lemma GrantedArms(d: Db, c: Config, at: int, e: Event)
    requires (e.DoAuthorize? || e.DoReconnect?) && Step(d, c, at, e).1.Granted?
    ensures Armed(Step(d, c, at, e).0, Step(d, c, at, e).1)
  {
    if e.DoAuthorize? { AuthorizeArms(d, c, at, e); } else { ReconnectArms(d.(clock := Max(d.clock, at)), c, e); }
  }

  /** Within its time, from its origin, with the access and the allowance it was granted for. */
  predicate Timely(r: Row, t: int) {
    !Due(r.ticketUntil, t) && !Due(r.reconnectUntil, t) && t < Expiry(r)
  }

  ghost predicate Works(d: Db, c: Config, out: Outcome, later: int, owner: string)
    requires Armed(d, out)
  {
    var r := d.rows[out.session];
    Step(d, c, later, DoConsume(out.ticket, r.info.origin, owner, Some(r.info.scope))).1 == Acquired(out.session, out.generation + 1)
  }

  lemma ArmedWorks(d: Db, c: Config, out: Outcome, later: int, owner: string)
    requires Inv(d, c) && Armed(d, out)
    ensures var r, t := d.rows[out.session], Max(d.clock, later);
      Works(d, c, out, later, owner)
      <==> Timely(r, t) && !VoiceSpent(d.ledger, c.plans, r.info.actor, r.info.scope.mode, t)
  {
    var r, t := d.rows[out.session], Max(d.clock, later);
    assert RowOk(r, d.clock);
    FindsTicket(d, c, out.session, out.ticket);
    ArmedRefusal(r, d.clock, t);
  }

  lemma ArmedRefusal(r: Row, clock: int, t: int)
    requires RowOk(r, clock) && r.ticketUsed.None? && r.ticketUntil.Some? && (r.state.Authorized? || r.state.Reconnecting?)
    ensures Refusal(r, t, r.info.origin, Some(r.info.scope)).None?
      <==> !Due(r.ticketUntil, t) && !Due(r.reconnectUntil, t) && t < Expiry(r)
  {
  }

  lemma FindsTicket(d: Db, c: Config, i: int, raw: int)
    requires Inv(d, c) && Present(d, i) && d.rows[i].ticket == Some(raw)
    ensures FindTicket(d.rows, raw) == Some(i)
  {
  }

  /** A granted reconnect kills every earlier ticket of the session. */
  lemma ReconnectKillsTickets(d: Db, c: Config, at: int, e: Event, prior: int, events: seq<(int, Event)>,
                              later: int, origin: string, owner: string, scope: Option<Scope>)
    requires Inv(d, c) && e.DoReconnect? && prior in d.issued && d.issued[prior] == e.session
    ensures Step(d, c, at, e).1.Granted? ==>
      !Step(Run(Step(d, c, at, e).0, c, events), c, later, DoConsume(prior, origin, owner, scope)).1.Acquired?
  {
    if Step(d, c, at, e).1.Granted? {
      StepKeeps(d, c, at, e);
      var t := Max(d.clock, at);
      ReconnectArms(d.(clock := t), c, e);
      hide Inv, Step;
      ArmedKills(d.issued, Step(d, c, at, e).0, Step(d, c, at, e).1, prior);
      SpentForever(Step(d, c, at, e).0, c, events, later, prior, origin, owner, scope);
    }
  }

  // ---- logout ----

  lemma {:induction false} RevokeFromMarks(d: Db, c: Config, actor: int, legacy: Option<int>, t: int, k: nat, i: int)
    requires 0 <= i < |d.rows|
    ensures var r := RevokeFrom(d, c, actor, legacy, t, Logout, k).rows[i];
      if k <= i && Matched(d.rows[i], actor, legacy) then r.info == d.rows[i].info && !r.dropped && r.reason == Some(Logout) && r.revokedAt == Some(t)
      else r == d.rows[i]
    decreases |d.rows| - k
  {
    if k < |d.rows| {
      RevokeFromMarks(RevokeIfMatched(d, c, actor, legacy, k, t, Logout), c, actor, legacy, t, k + 1, i);
    }
  }

  /** After a logout that matched a session row, no token issued up to then authorizes again while the row is kept. */
  lemma LogoutCutsOff(d: Db, c: Config, at: int, actor: int, legacy: Option<int>, i: int, events: seq<(int, Event)>, later: int, e: Event)
    requires Inv(d, c) && 0 <= i < |d.rows| && Matched(d.rows[i], actor, legacy)
    requires e.DoAuthorize? && e.actor == actor && e.iat <= Max(d.clock, at)
    ensures var f := Run(Step(d, c, at, DoRevoke(actor, legacy, Logout)).0, c, events);
      i < |f.rows| && (!f.rows[i].dropped ==> Step(f, c, later, e) == (f.(clock := Max(f.clock, later)), Refused(Changed)))
  {
    var t := Max(d.clock, at);
    var g := Step(d, c, at, DoRevoke(actor, legacy, Logout)).0;
    StepKeeps(d, c, at, DoRevoke(actor, legacy, Logout));
    RevokeFromMarks(d.(clock := t), c, actor, legacy, t, 0, i);
    RunKeeps(g, c, events);
    assert Evolves(g.rows[i], Run(g, c, events).rows[i]);
  }

  // ---- one call at a time ----

  /** What authorize makes of one of the actor's rows before it looks for a conflict. */
  function AfterRecovery(r: Row, c: Config, actor: int, t: int): Row {
    if !r.dropped && r.active == Some(actor) then Release(RecoverRow(r, c, t)) else r
  }

  lemma {:induction false} RecoverActorRows(d: Db, c: Config, actor: int, t: int, k: nat, i: int)
    requires 0 <= i < |d.rows|
    ensures RecoverActor(d, c, actor, t, k).rows[i] == if k <= i then AfterRecovery(d.rows[i], c, actor, t) else d.rows[i]
    decreases |d.rows| - k
  {
    if k < |d.rows| { RecoverActorRows(RecoverIfActive(d, c, actor, k, t), c, actor, t, k + 1, i); }
  }

  /** The row still holds the actor after recovery: a live lease, an open reconnect or an unused ticket, none of them past its time. */
  predicate Blocks(r: Row, c: Config, actor: int, t: int) {
    !r.dropped && r.active == Some(actor) && !Terminal(RecoverRow(r, c, t).state)
  }

  lemma RecoveryFreesUnlessBlocking(d: Db, c: Config, actor: int)
    requires Inv(d, c)
    ensures Occupied(RecoverActor(d, c, actor, d.clock, 0).rows, actor) <==> exists i :: 0 <= i < |d.rows| && Blocks(d.rows[i], c, actor, d.clock)
  {
    var e := RecoverActor(d, c, actor, d.clock, 0);
    forall i | 0 <= i < |d.rows| ensures (!e.rows[i].dropped && e.rows[i].active == Some(actor)) <==> Blocks(d.rows[i], c, actor, d.clock) {
      RecoverActorRows(d, c, actor, d.clock, 0, i);
      assert RowOk(d.rows[i], d.clock);
    }
  }

  /** A crashed or abandoned call never bars its actor: authorize reports a conflict exactly while a call is really open. */
  lemma ConflictOnlyWhileOpen(d: Db, c: Config, at: int, e: Event)
    requires Inv(d, c) && e.DoAuthorize? && !CutOff(d.rows, e.actor, e.iat)
    ensures Step(d, c, at, e).1 == Refused(Conflict)
      <==> exists i :: 0 <= i < |d.rows| && Blocks(d.rows[i], c, e.actor, Max(d.clock, at))
  {
    ClockKeeps(d, c, Max(d.clock, at));
    RecoveryFreesUnlessBlocking(d.(clock := Max(d.clock, at)), c, e.actor);
  }

  // ---- what an operation leaves ----

  /** owned renews the connection: it is held, its lease runs, and access and time are left. */
  ghost predicate Renewed(d: Db, c: Config, at: int, e: Event) {
    && e.DoOwned? && Present(d, e.session) && Holds(d.rows[e.session], e.owner, e.generation, Max(d.clock, at))
    && Reauthorize(d.rows[e.session], e.scope, Max(d.clock, at)).None?
  }

  /** Every renewal of a ready connection extends what was observed of the call to the present moment. */
  lemma RenewalObserves(d: Db, c: Config, at: int, e: Event)
    requires Inv(d, c) && Renewed(d, c, at, e) && (e.ready || d.rows[e.session].state.Connected?)
    ensures var k, f := IKey(e.session, e.generation), Step(d, c, at, e).0;
      k in f.ledger.intervals
      && (k in d.ledger.intervals ==> f.ledger.intervals[k].started == d.ledger.intervals[k].started)
      && (k !in d.ledger.intervals ==>
            var info := d.rows[e.session].info;
            f.ledger.intervals[k] == Interval(info.actor, info.scope.mode, Max(d.clock, at), Max(d.clock, at), None, !e.ready))
      && (!(k in d.ledger.intervals && d.ledger.intervals[k].ended.Some?) ==>
            f.ledger.intervals[k].until == Max(d.clock, at) && f.ledger.intervals[k].ended.None?)
  {
    var t, k := Max(d.clock, at), IKey(e.session, e.generation);
    ClockKeeps(d, c, t);
    if k in d.ledger.intervals { assert KeyOk(d.rows, k, d.ledger.intervals[k], d.clock); }
    var r := Renew(d.rows[e.session], c, t, e.ready);
    VoiceWrites(d.ledger, c.plans, VoicedOf(e.session, r), t, e.ready, false, false);
  }

  /** The connection, its ticket, its turns and its interval are all gone. */
  ghost predicate Released(d: Db, i: int, was: Row)
    requires 0 <= i < |d.rows|
  {
    && d.rows[i].owner.None? && d.rows[i].ticket.None? && d.rows[i].unanswered == {} && was.generation < d.rows[i].generation
    && Closed(d.ledger, IKey(i, was.generation))
  }

  /** A close leaves nothing of the connection; the session stays open exactly for a disconnect while access and time last. */
  lemma CloseLeavesNothing(d: Db, c: Config, at: int, e: Event)
    requires Inv(d, c) && e.DoClose? && Step(d, c, at, e).1.Done?
    ensures Present(d, e.session) && var (f, r) := (Step(d, c, at, e).0, d.rows[e.session]);
      && |f.rows| == |d.rows| && Released(f, e.session, r) && (forall j :: 0 <= j < |d.rows| && j != e.session ==> f.rows[j] == d.rows[j])
      && (f.rows[e.session].state.Reconnecting? <==>
            (e.reason == Some(BrowserDisconnect) || e.reason == Some(ProviderDisconnect)) && Reauthorize(r, e.scope, Max(d.clock, at)).None?)
      && (!f.rows[e.session].state.Reconnecting? ==> Terminal(f.rows[e.session].state))
  {
    var t := Max(d.clock, at);
    ClockKeeps(d, c, t);
    TrackCloses(d.(clock := t), c, e.session, false);
  }

  lemma {:induction false} RevokedRow(d: Db, c: Config, actor: int, legacy: Option<int>, t: int, why: Reason, k: nat, i: int)
    requires 0 <= i < |d.rows|
    ensures var r := RevokeFrom(d, c, actor, legacy, t, why, k).rows[i];
      if k <= i && Matched(d.rows[i], actor, legacy)
      then Terminal(r.state) && (!Terminal(d.rows[i].state) ==> r == Finish(d.rows[i], Revoked, why, t).(unanswered := {}))
      else r == d.rows[i]
    decreases |d.rows| - k
  {
    hide Voice;
    if k < |d.rows| { RevokedRow(RevokeIfMatched(d, c, actor, legacy, k, t, why), c, actor, legacy, t, why, k + 1, i); }
  }

  /** After a revocation every matching session is over, with its reason, its ticket and its turns; no other is touched. */
  lemma RevocationLeavesNothing(d: Db, c: Config, at: int, actor: int, legacy: Option<int>, why: Reason, i: int)
    requires Inv(d, c) && 0 <= i < |d.rows|
    ensures var f := Step(d, c, at, DoRevoke(actor, legacy, why)).0;
      && |f.rows| == |d.rows|
      && (Matched(d.rows[i], actor, legacy) ==> Terminal(f.rows[i].state))
      && (Matched(d.rows[i], actor, legacy) && !Terminal(d.rows[i].state) ==>
            f.rows[i].state.Revoked? && f.rows[i].reason == Some(why) && f.rows[i].revokedAt == Some(Max(d.clock, at))
            && f.rows[i].ticket.None? && f.rows[i].unanswered == {} && d.rows[i].generation < f.rows[i].generation)
      && (!Matched(d.rows[i], actor, legacy) ==> f.rows[i] == d.rows[i])
  {
    var t := Max(d.clock, at);
    RevokedRow(d.(clock := t), c, actor, legacy, t, why, 0, i);
  }

  // ---- turns left behind ----

  /** The session is over, yet one of its turns is still pending or streaming. */
  predicate Stranded(r: Row) { !r.dropped && Terminal(r.state) && r.unanswered != {} }

  ghost predicate NoneStranded(rows: seq<Row>) {
    forall i :: 0 <= i < |rows| ==> !Stranded(rows[i])
  }

  /** A reconnect that finds a connected call past its end commits the recovery without releasing its turn. */
  predicate Strands(d: Db, c: Config, t: int, e: Event) {
    && e.DoReconnect? && Present(d, e.session)
    && var r := d.rows[e.session];
       r.info.actor == e.actor && r.info.origin == e.origin && r.state.Connected? && r.unanswered != {}
       && (t >= Expiry(r) || (r.leaseUntil.Some? && t >= r.leaseUntil.value + c.settings.reconnect))
  }

  lemma ConflictStrands(d: Db, c: Config, e: Event)
    requires Inv(d, c) && NoneStranded(d.rows) && e.DoReconnect? && Step(d, c, d.clock, e).1 == Refused(Conflict)
    ensures NoneStranded(Step(d, c, d.clock, e).0.rows) <==> !Strands(d, c, d.clock, e)
  {
    var i := e.session;
    assert RowOk(d.rows[i], d.clock);
    EndStrands(d.rows[i], c, d.clock);
    assert Step(d, c, d.clock, e).0.rows == d.rows[i := RecoverRow(d.rows[i], c, d.clock)];
  }

  lemma GrantStrands(d: Db, c: Config, e: Event)
    requires Inv(d, c) && NoneStranded(d.rows) && e.DoReconnect?
    ensures Step(d, c, d.clock, e).1.Granted? ==> NoneStranded(Step(d, c, d.clock, e).0.rows) && !Strands(d, c, d.clock, e)
  {
    if Step(d, c, d.clock, e).1.Granted? {
      assert d.(clock := d.clock) == d;
      GrantedIsReissue(d, c, e.session, e.actor, e.origin, e.scope, e.raw);
      assert RowOk(d.rows[e.session], d.clock);
      hide Reconnect, Inv, Voice;
      StaysOpen(d.rows[e.session], c, d.clock);
    }
  }

  lemma RefusalStrands(d: Db, c: Config, e: Event)
    requires Inv(d, c) && NoneStranded(d.rows) && e.DoReconnect?
    requires Step(d, c, d.clock, e).1.Refused? && Step(d, c, d.clock, e).1 != Refused(Conflict)
    ensures NoneStranded(Step(d, c, d.clock, e).0.rows) && !Strands(d, c, d.clock, e)
  {
    if Present(d, e.session) && d.rows[e.session].info.actor == e.actor && d.rows[e.session].info.origin == e.origin {
      assert RowOk(d.rows[e.session], d.clock);
      StaysOpen(d.rows[e.session], c, d.clock);
    }
  }

  lemma EndStrands(r: Row, c: Config, t: int)
    requires RowOk(r, t) && !r.dropped && !Stranded(r) && !RecoverRow(r, c, t).state.Reconnecting?
    ensures Stranded(RecoverRow(r, c, t)) <==>
      r.state.Connected? && r.unanswered != {} && (t >= Expiry(r) || (r.leaseUntil.Some? && t >= r.leaseUntil.value + c.settings.reconnect))
  {
  }

  lemma StaysOpen(r: Row, c: Config, t: int)
    requires RowOk(r, t) && RecoverRow(r, c, t).state.Reconnecting?
    ensures !(r.state.Connected? && (t >= Expiry(r) || (r.leaseUntil.Some? && t >= r.leaseUntil.value + c.settings.reconnect)))
  {
  }

  lemma {:induction false} RecoverActorStrands(d: Db, c: Config, actor: int, t: int, i: nat)
    requires NoneStranded(d.rows)
    ensures NoneStranded(RecoverActor(d, c, actor, t, i).rows)
    decreases |d.rows| - i
  {
    if i < |d.rows| {
      RecoverActorStrands(RecoverIfActive(d, c, actor, i, t), c, actor, t, i + 1);
    }
  }

  lemma {:induction false} RevokeFromStrands(d: Db, c: Config, actor: int, legacy: Option<int>, t: int, reason: Reason, i: nat)
    requires NoneStranded(d.rows)
    ensures NoneStranded(RevokeFrom(d, c, actor, legacy, t, reason, i).rows)
    decreases |d.rows| - i
  {
    if i < |d.rows| {
      RevokeFromStrands(RevokeIfMatched(d, c, actor, legacy, i, t, reason), c, actor, legacy, t, reason, i + 1);
    }
  }

  lemma ConsumeStrands(d: Db, c: Config, e: Event)
    requires NoneStranded(d.rows) && e.DoConsume?
    ensures NoneStranded(Step(d, c, d.clock, e).0.rows)
  {
  }

  lemma OwnedStrands(d: Db, c: Config, e: Event)
    requires NoneStranded(d.rows) && e.DoOwned?
    ensures NoneStranded(Step(d, c, d.clock, e).0.rows)
  {
  }

  lemma CloseStrands(d: Db, c: Config, e: Event)
    requires NoneStranded(d.rows) && e.DoClose?
    ensures NoneStranded(Step(d, c, d.clock, e).0.rows)
  {
  }

  lemma OtherStrands(d: Db, c: Config, e: Event)
    requires Inv(d, c) && NoneStranded(d.rows) && !e.DoReconnect? && !(e.DoConsume? || e.DoOwned? || e.DoClose?)
    ensures NoneStranded(Step(d, c, d.clock, e).0.rows)
  {
    match e
    case DoAuthorize(actor, scope, conversation, origin, iat, exp, raw) => RecoverActorStrands(d, c, actor, d.clock, 0);
    case DoRevoke(actor, legacy, why) => RevokeFromStrands(d, c, actor, legacy, d.clock, why, 0);
    case _ =>
  }

  /** The documented promise that a crashed connection never leaves a turn open holds for a step
      exactly when the step is not such a reconnect. */
  lemma StepStrands(d: Db, c: Config, at: int, e: Event)
    requires Inv(d, c) && NoneStranded(d.rows)
    ensures NoneStranded(Step(d, c, at, e).0.rows) <==> !Strands(d, c, Max(d.clock, at), e)
  {
    var t := Max(d.clock, at);
    ClockKeeps(d, c, t);
    var f := d.(clock := t);
    assert Step(d, c, at, e) == Step(f, c, t, e);
    if e.DoReconnect? {
      if Step(f, c, t, e).1 == Refused(Conflict) { ConflictStrands(f, c, e); }
      else if Step(f, c, t, e).1.Granted? { GrantStrands(f, c, e); }
      else { RefusalStrands(f, c, e); }
    }
    else if e.DoConsume? { ConsumeStrands(f, c, e); }
    else if e.DoOwned? { OwnedStrands(f, c, e); }
    else if e.DoClose? { CloseStrands(f, c, e); }
    else { OtherStrands(f, c, e); }
  }

  /** A turn left behind is never closed, and its chat accepts no further spoken turn while the session row is kept. */
  lemma StrandedForever(d: Db, c: Config, i: int, events: seq<(int, Event)>, at: int, e: Event)
    requires Inv(d, c) && 0 <= i < |d.rows| && Stranded(d.rows[i])
    ensures var f := Run(d, c, events);
      && i < |f.rows| && (f.rows[i].dropped || (Stranded(f.rows[i]) && f.rows[i].unanswered == d.rows[i].unanswered))
      && (e.DoAdmit? && Present(f, e.session) && f.rows[e.session].conversation == d.rows[i].conversation && !f.rows[i].dropped ==>
            !Step(f, c, at, e).1.Done?)
  {
    var f := Run(d, c, events);
    RunKeeps(d, c, events);
    assert RowOk(d.rows[i], d.clock);
    assert Evolves(d.rows[i], f.rows[i]);
  }

  // ---- a run that leaves a turn behind ----

  // One caller of one chat, and the moments at which the call begins and is resumed.
  datatype Caller = Caller(actor: int, scope: Scope, origin: string, owner: string, chat: int, turn: int, raw: int, exp: int, begins: int, resumes: int)

  /** Begin, connect, become ready, ask; then the worker dies and the browser resumes the call too late. */
  function CrashedCall(w: Caller): seq<(int, Event)> {
    [(w.begins, DoAuthorize(w.actor, Some(w.scope), None, w.origin, 0, w.exp, w.raw)),
     (w.begins, DoConsume(w.raw, w.origin, w.owner, Some(w.scope))),
     (w.begins, DoOwned(0, w.owner, 1, Some(w.scope), true)),
     (w.begins, DoAdmit(0, w.actor, w.owner, 1, Some(w.scope), w.chat, false, w.turn)),
     (w.resumes, DoReconnect(0, w.actor, w.origin, Some(w.scope), w.raw + 1))]
  }

  predicate CanCall(c: Config, w: Caller) {
    && c.settings.ticket > 0 && c.settings.session > 0 && c.settings.lease > 0 && c.settings.creationsPerMinute > 0
    && 0 <= w.begins < w.exp && w.begins + c.settings.lease + c.settings.reconnect <= w.resumes
  }

  function Begun(c: Config, w: Caller): Row { NewRow(c, w.begins, w.actor, w.scope, None, w.origin, w.exp, w.raw) }

  function Connected(c: Config, w: Caller): Row { Connect(Begun(c, w), c, w.begins, w.owner) }

  function Talking(c: Config, w: Caller): Row { Renew(Connected(c, w), c, w.begins, true) }

  function Asking(c: Config, w: Caller): Row { Talking(c, w).(conversation := Some(w.chat), unanswered := {w.turn}) }

  lemma NothingSpent(l: Ledger, p: Plans, user: int, mode: Mode, t: int)
    requires l.quota == map[]
    ensures !VoiceSpent(l, p, user, mode, t)
  {
    assert Amounts(l.quota, user, mode, DayOf(t)) == map[];
  }

  ghost predicate Only(d: Db, r: Row, t: int) { d.rows == [r] && d.clock == t }

  lemma CallBegins(c: Config, w: Caller, d: Db)
    requires CanCall(c, w) && d.rows == [] && d.issued == map[] && d.clock == 0 && d.ledger.quota == map[]
    ensures var e := Step(d, c, w.begins, CrashedCall(w)[0].1).0; Only(e, Begun(c, w), w.begins) && e.ledger == d.ledger
  {
    NothingSpent(d.ledger, c.plans, w.actor, w.scope.mode, w.begins);
  }

  lemma CallConnects(c: Config, w: Caller, d: Db)
    requires CanCall(c, w) && Only(d, Begun(c, w), w.begins) && d.ledger.quota == map[]
    ensures Only(Step(d, c, w.begins, CrashedCall(w)[1].1).0, Connected(c, w), w.begins)
  {
    NothingSpent(d.ledger, c.plans, w.actor, w.scope.mode, w.begins);
    assert FindTicket(d.rows, w.raw) == Some(0);
  }

  lemma CallTalks(c: Config, w: Caller, d: Db)
    requires CanCall(c, w) && Only(d, Connected(c, w), w.begins)
    ensures Only(Step(d, c, w.begins, CrashedCall(w)[2].1).0, Talking(c, w), w.begins)
  {
  }

  lemma CallAsks(c: Config, w: Caller, d: Db)
    requires CanCall(c, w) && Only(d, Talking(c, w), w.begins)
    ensures Only(Step(d, c, w.begins, CrashedCall(w)[3].1).0, Asking(c, w), w.begins)
  {
    assert {} + {w.turn} == {w.turn};
  }

  lemma CallLapses(c: Config, w: Caller, d: Db)
    requires CanCall(c, w) && Only(d, Asking(c, w), w.begins)
    ensures var e := Step(d, c, w.resumes, CrashedCall(w)[4].1).0; |e.rows| == 1 && Stranded(e.rows[0]) && e.rows[0].unanswered == {w.turn}
  {
  }

  /** Under every configuration that lets a call begin, this five-step run ends with a turn no one will close. */
  lemma CrashedCallStrandsItsTurn(c: Config, w: Caller)
    requires CanCall(c, w)
    ensures var d := Run(NO_CALLS, c, CrashedCall(w)); |d.rows| == 1 && Stranded(d.rows[0]) && d.rows[0].unanswered == {w.turn}
  {
    var events := CrashedCall(w);
    var d1 := Step(NO_CALLS, c, w.begins, events[0].1).0;
    CallBegins(c, w, NO_CALLS);
    var d2 := Step(d1, c, w.begins, events[1].1).0;
    CallConnects(c, w, d1);
    var d3 := Step(d2, c, w.begins, events[2].1).0;
    CallTalks(c, w, d2);
    var d4 := Step(d3, c, w.begins, events[3].1).0;
    CallAsks(c, w, d3);
    CallLapses(c, w, d4);
    assert events[0..] == events;
    RunFrom(NO_CALLS, c, events, 0);
    RunFrom(d1, c, events, 1);
    RunFrom(d2, c, events, 2);
    RunFrom(d3, c, events, 3);
    RunFrom(d4, c, events, 4);
  }

  lemma RunFrom(d: Db, c: Config, events: seq<(int, Event)>, k: nat)
    requires k < |events|
    ensures Run(d, c, events[k..]) == Run(Step(d, c, events[k].0, events[k].1).0, c, events[k + 1..])
  {
    assert events[k..][1..] == events[k + 1..];
  }
}
