// What a session keeps through everything that is not meant for it: a connection its owner, a ticket its force,
// and an actor the way to a new call.
module LiveContinuity {
  import opened Wrappers
  import opened VoiceLedger
  import opened LiveSessions
  import opened LiveSafety
  import opened LiveGuarantees

  // ---- one row, one transaction ----

  /** The event is not about this row, although a pass over all rows may still recover it. */
  predicate Elsewhere(e: Event, i: int, r: Row) {
    match e
    case DoReconnect(session, _, _, _, _) => session != i
    case DoConsume(raw, _, _, _) => r.ticket != Some(raw)
    case DoOwned(session, _, _, _, _) => session != i
    case DoClose(session, _, _, _, _) => session != i
    case DoAdmit(session, _, _, _, _, _, _, _) => session != i
    case DoTerminate(session, _, _, _, _) => session != i
    case DoRevoke(actor, legacy, _) => !Matched(r, actor, legacy)
    case DoDrop(session) => session != i
    case _ => true
  }

  lemma RecoveryPasses(d: Db, c: Config, e: Event, i: int)
    requires 0 <= i < |d.rows| && e.DoAuthorize?
    ensures var f := Step(d, c, d.clock, e).0;
      i < |f.rows| && (f.rows[i] == d.rows[i] || f.rows[i] == Release(RecoverRow(d.rows[i], c, d.clock)))
  {
    RecoverActorRows(d, c, e.actor, d.clock, 0, i);
  }

  lemma RevocationPasses(d: Db, c: Config, e: Event, i: int)
    requires 0 <= i < |d.rows| && e.DoRevoke? && !Matched(d.rows[i], e.actor, e.legacy)
    ensures var f := Step(d, c, d.clock, e).0; i < |f.rows| && f.rows[i] == d.rows[i]
  {
    RevokedRow(d, c, e.actor, e.legacy, d.clock, e.why, 0, i);
  }

  lemma ReconnectPasses(d: Db, c: Config, e: Event, i: int)
    requires 0 <= i < |d.rows| && e.DoReconnect? && e.session != i
    ensures var f := Step(d, c, d.clock, e).0; i < |f.rows| && f.rows[i] == d.rows[i]
  {
    hide RecoverRow, Voice;
  }

  lemma OthersPass(d: Db, c: Config, e: Event, i: int)
    requires 0 <= i < |d.rows| && Elsewhere(e, i, d.rows[i]) && !e.DoAuthorize? && !e.DoRevoke? && !e.DoReconnect?
    ensures var f := Step(d, c, d.clock, e).0;
      i < |f.rows| && (f.rows[i] == d.rows[i] || f.rows[i] == Release(RecoverRow(d.rows[i], c, d.clock)))
  {
    hide RecoverRow, Voice, Close, Reauthorize;
  }

  /** Such an event leaves the row as it was, or recovers it. */
  lemma ElsewherePasses(d: Db, c: Config, e: Event, i: int)
    requires 0 <= i < |d.rows| && Elsewhere(e, i, d.rows[i])
    ensures var f := Step(d, c, d.clock, e).0;
      i < |f.rows| && (f.rows[i] == d.rows[i] || f.rows[i] == Release(RecoverRow(d.rows[i], c, d.clock)))
  {
    hide Step, RecoverRow;
    if e.DoAuthorize? { RecoveryPasses(d, c, e, i); }
    else if e.DoRevoke? { RevocationPasses(d, c, e, i); }
    else if e.DoReconnect? { ReconnectPasses(d, c, e, i); }
    else { OthersPass(d, c, e, i); }
  }

  // ---- a connection ----

  /** Generation g of session i is connected, and its lease runs at least to the given moment. */
  predicate Held(d: Db, i: int, owner: string, g: int, until: int) {
    && Present(d, i) && d.rows[i].owner == Some(owner) && d.rows[i].generation == g && Live(d.rows[i].state)
    && d.rows[i].leaseUntil.Some? && until <= d.rows[i].leaseUntil.value
  }

  /** The event closes the connection, revokes its access, or removes its row. */
  predicate Ends(e: Event, info: Info, i: int, owner: string, g: int) {
    match e
    case DoClose(session, who, generation, _, _) => session == i && who == owner && generation == g
    case DoRevoke(actor, legacy, _) => actor == info.actor && (legacy.None? || legacy.value == info.scope.legacy)
    case DoDrop(session) => session == i
    case _ => false
  }

  lemma EndingEnds(d: Db, c: Config, e: Event, i: int, owner: string, g: int, until: int)
    requires Held(d, i, owner, g, until) && Ends(e, d.rows[i].info, i, owner, g)
    ensures Fenced(Step(d, c, d.clock, e).0, i, g)
  {
    hide Voice;
    if e.DoRevoke? { RevokedRow(d, c, e.actor, e.legacy, d.clock, e.why, 0, i); }
  }

  lemma OwnEventsHold(d: Db, c: Config, e: Event, i: int, owner: string, g: int, until: int)
    requires Held(d, i, owner, g, until) && !Ends(e, d.rows[i].info, i, owner, g) && !Elsewhere(e, i, d.rows[i])
    requires d.clock < until <= d.clock + c.settings.lease && d.clock < Expiry(d.rows[i])
    ensures var f := Step(d, c, d.clock, e).0; Held(f, i, owner, g, until) && f.rows[i].info == d.rows[i].info
  {
    hide Voice;
    assert RecoverRow(d.rows[i], c, d.clock) == d.rows[i];
  }

  lemma HeldStepsHeld(d: Db, c: Config, e: Event, i: int, owner: string, g: int, until: int)
    requires Held(d, i, owner, g, until) && !Ends(e, d.rows[i].info, i, owner, g)
    requires d.clock < until <= d.clock + c.settings.lease && d.clock < Expiry(d.rows[i])
    ensures var f := Step(d, c, d.clock, e).0; Held(f, i, owner, g, until) && f.rows[i].info == d.rows[i].info
  {
    if Elsewhere(e, i, d.rows[i]) {
      assert Release(RecoverRow(d.rows[i], c, d.clock)) == d.rows[i];
      hide Step, RecoverRow;
      ElsewherePasses(d, c, e, i);
    } else {
      OwnEventsHold(d, c, e, i, owner, g, until);
    }
  }

  /** The clock of a step is the later of the two moments. */
  lemma AtItsMoment(d: Db, c: Config, at: int, e: Event)
    ensures Step(d, c, at, e).0.clock == Max(d.clock, at)
    ensures var f := d.(clock := Max(d.clock, at)); Step(d, c, at, e) == Step(f, c, f.clock, e)
  {
    hide Voice, RecoverRow, Refusal, Reauthorize, Close, Finish, ClosingReason, VoiceSpent, Renew, Connect;
  }

  lemma RunClock(d: Db, c: Config, events: seq<(int, Event)>)
    requires Inv(d, c)
    ensures d.clock <= Run(d, c, events).clock
  {
    RunKeeps(d, c, events);
  }

  lemma FencedStays(d: Db, c: Config, events: seq<(int, Event)>, i: int, g: int)
    requires Inv(d, c) && Fenced(d, i, g)
    ensures Fenced(Run(d, c, events), i, g)
  {
    RunKeeps(d, c, events);
    assert Evolves(d.rows[i], Run(d, c, events).rows[i]);
  }

  predicate NoneEnds(events: seq<(int, Event)>, info: Info, i: int, owner: string, g: int) {
    forall k :: 0 <= k < |events| ==> !Ends(events[k].1, info, i, owner, g)
  }

  lemma {:induction false} HeldRuns(d: Db, c: Config, events: seq<(int, Event)>, i: int, owner: string, g: int, until: int)
    requires Inv(d, c) && Held(d, i, owner, g, until) && until <= d.clock + c.settings.lease
    requires Run(d, c, events).clock < until && Run(d, c, events).clock < Expiry(d.rows[i])
    ensures var f := Run(d, c, events);
      if NoneEnds(events, d.rows[i].info, i, owner, g) then Held(f, i, owner, g, until) else Fenced(f, i, g)
    decreases |events|
  {
    if events != [] {
      var (at, e) := events[0];
      var now := d.(clock := Max(d.clock, at));
      var f := Step(d, c, at, e).0;
      var info := d.rows[i].info;
      AtItsMoment(d, c, at, e);
      StepKeeps(d, c, at, e);
      RunClock(f, c, events[1..]);
      assert NoneEnds(events, info, i, owner, g) <==> !Ends(e, info, i, owner, g) && NoneEnds(events[1..], info, i, owner, g) by {
        assert forall k :: 0 < k < |events| ==> events[k] == events[1..][k - 1];
      }
      hide Inv, Step, After, Ends, NoneEnds, Fenced;
      if Ends(e, info, i, owner, g) {
        EndingEnds(now, c, e, i, owner, g, until);
        FencedStays(f, c, events[1..], i, g);
      } else {
        HeldStepsHeld(now, c, e, i, owner, g, until);
        HeldRuns(f, c, events[1..], i, owner, g, until);
      }
    }
  }

  /** The lease of generation g ends at the given moment, unless the connection is over. */
  predicate LeaseEnds(d: Db, i: int, g: int, until: int) {
    Fenced(d, i, g) || (Present(d, i) && d.rows[i].generation == g && d.rows[i].leaseUntil == Some(until))
  }

  predicate NoneRenews(events: seq<(int, Event)>, i: int, owner: string, g: int) {
    forall k :: 0 <= k < |events| ==>
      !(events[k].1.DoOwned? && events[k].1.session == i && events[k].1.owner == owner && events[k].1.generation == g)
  }

  lemma OwnEventsLease(d: Db, c: Config, e: Event, i: int, owner: string, g: int, until: int)
    requires Held(d, i, owner, g, until) && d.rows[i].leaseUntil == Some(until) && !Elsewhere(e, i, d.rows[i])
    requires !(e.DoOwned? && e.owner == owner && e.generation == g)
    ensures LeaseEnds(Step(d, c, d.clock, e).0, i, g, until)
  {
    hide Voice;
    if e.DoRevoke? { RevokedRow(d, c, e.actor, e.legacy, d.clock, e.why, 0, i); }
  }

  lemma LeaseSteps(d: Db, c: Config, e: Event, i: int, owner: string, g: int, until: int)
    requires Held(d, i, owner, g, until) && d.rows[i].leaseUntil == Some(until)
    requires !(e.DoOwned? && e.session == i && e.owner == owner && e.generation == g)
    ensures LeaseEnds(Step(d, c, d.clock, e).0, i, g, until)
  {
    if Elsewhere(e, i, d.rows[i]) {
      hide Step;
      ElsewherePasses(d, c, e, i);
    } else {
      OwnEventsLease(d, c, e, i, owner, g, until);
    }
  }

  lemma StillHeld(d: Db, f: Db, i: int, owner: string, g: int, until: int)
    requires Held(d, i, owner, g, until) && After(d, f) && LeaseEnds(f, i, g, until)
    ensures Fenced(f, i, g) || (Held(f, i, owner, g, until) && f.rows[i].leaseUntil == Some(until))
  {
    assert Evolves(d.rows[i], f.rows[i]);
  }

  lemma {:induction false} LeaseRuns(d: Db, c: Config, events: seq<(int, Event)>, i: int, owner: string, g: int, until: int)
    requires Inv(d, c) && NoneRenews(events, i, owner, g)
    requires Held(d, i, owner, g, until) && d.rows[i].leaseUntil == Some(until)
    ensures LeaseEnds(Run(d, c, events), i, g, until)
    decreases |events|
  {
    if events != [] {
      var (at, e) := events[0];
      var now := d.(clock := Max(d.clock, at));
      var f := Step(d, c, at, e).0;
      hide Inv, Step, After, Fenced;
      AtItsMoment(d, c, at, e);
      StepKeeps(d, c, at, e);
      LeaseSteps(now, c, e, i, owner, g, until);
      StillHeld(d, f, i, owner, g, until);
      if Fenced(f, i, g) {
        FencedStays(f, c, events[1..], i, g);
      } else {
        LeaseRuns(f, c, events[1..], i, owner, g, until);
      }
    }
  }

  /** A connection: session, owner and generation. */
  datatype Connection = Connection(session: int, owner: string, generation: int)

  /** The step opens a connection, or renews one. */
  ghost predicate Opens(d: Db, c: Config, at: int, e: Event) {
    (e.DoConsume? && Step(d, c, at, e).1.Acquired?) || Renewed(d, c, at, e)
  }

  ghost function Opened(d: Db, c: Config, at: int, e: Event): Connection
    requires Opens(d, c, at, e)
  {
    if e.DoConsume? then Connection(Step(d, c, at, e).1.session, e.owner, Step(d, c, at, e).1.generation)
    else Connection(e.session, e.owner, e.generation)
  }

  lemma ConsumedHolds(d: Db, c: Config, t: int, raw: int, origin: string, owner: string, scope: Option<Scope>)
    requires Consume(d, c, t, raw, origin, owner, scope).1.Acquired?
    ensures var (f, out) := Consume(d, c, t, raw, origin, owner, scope);
      Held(f, out.session, owner, out.generation, t + c.settings.lease) && f.rows[out.session].leaseUntil == Some(t + c.settings.lease)
  {
    hide Refusal, VoiceSpent;
  }

  lemma RenewedHolds(d: Db, c: Config, t: int, i: int, owner: string, generation: int, scope: Option<Scope>, ready: bool)
    requires Present(d, i) && Holds(d.rows[i], owner, generation, t) && Reauthorize(d.rows[i], scope, t).None?
    ensures var f := Owned(d, c, t, i, owner, generation, scope, ready).0;
      Held(f, i, owner, generation, t + c.settings.lease) && f.rows[i].leaseUntil == Some(t + c.settings.lease)
  {
    hide Voice, VoiceSpent, Reauthorize;
  }

  lemma OpenedHolds(d: Db, c: Config, at: int, e: Event)
    requires Opens(d, c, at, e)
    ensures var f, k, until := Step(d, c, at, e).0, Opened(d, c, at, e), Max(d.clock, at) + c.settings.lease;
      Held(f, k.session, k.owner, k.generation, until) && f.rows[k.session].leaseUntil == Some(until) && f.clock == Max(d.clock, at)
  {
    var t := Max(d.clock, at);
    AtItsMoment(d, c, at, e);
    hide Consume, Owned, Held, Holds, Reauthorize;
    if e.DoConsume? {
      ConsumedHolds(d.(clock := t), c, t, e.raw, e.origin, e.owner, e.scope);
    } else {
      RenewedHolds(d.(clock := t), c, t, e.session, e.owner, e.generation, e.scope, e.ready);
    }
  }

  lemma HeldIsHeld(d: Db, i: int, owner: string, g: int, until: int, later: int)
    ensures Held(d, i, owner, g, until) && later < until ==> Present(d, i) && Holds(d.rows[i], owner, g, later)
    ensures Fenced(d, i, g) ==> !(Present(d, i) && Holds(d.rows[i], owner, g, later))
    ensures LeaseEnds(d, i, g, until) && until <= later ==> !(Present(d, i) && Holds(d.rows[i], owner, g, later))
  {
  }

  /** A connection just opened or renewed is accepted at the end of any run, until its lease or its access is over,
      exactly when nothing in the run closed it, revoked it or removed its row: no other call, pass or reconciliation ends it. */
  lemma ConnectionStays(d: Db, c: Config, at: int, e: Event, events: seq<(int, Event)>, later: int)
    requires Inv(d, c) && Opens(d, c, at, e)
    ensures var f, k := Step(d, c, at, e).0, Opened(d, c, at, e);
      var h := Run(f, c, events);
      0 <= k.session < |f.rows|
      && (h.clock <= later < Max(d.clock, at) + c.settings.lease && h.clock < Expiry(f.rows[k.session]) ==>
            (NoneEnds(events, f.rows[k.session].info, k.session, k.owner, k.generation)
             <==> Present(h, k.session) && Holds(h.rows[k.session], k.owner, k.generation, later)))
  {
    hide Inv, Step, Opens, Opened, NoneEnds, Holds, Fenced, Expiry, Run;
    var f, k, until := Step(d, c, at, e).0, Opened(d, c, at, e), Max(d.clock, at) + c.settings.lease;
    var h := Run(f, c, events);
    OpenedHolds(d, c, at, e);
    StepKeeps(d, c, at, e);
    if h.clock <= later < until && h.clock < Expiry(f.rows[k.session]) {
      HeldRuns(f, c, events, k.session, k.owner, k.generation, until);
      HeldIsHeld(h, k.session, k.owner, k.generation, until, later);
    }
  }

  /** And once its lease is over it is never accepted again, unless it was renewed in between. */
  lemma LeaseIsLimit(d: Db, c: Config, at: int, e: Event, events: seq<(int, Event)>, later: int)
    requires Inv(d, c) && Opens(d, c, at, e) && Max(d.clock, at) + c.settings.lease <= later
    ensures var f, k := Step(d, c, at, e).0, Opened(d, c, at, e);
      var h := Run(f, c, events);
      NoneRenews(events, k.session, k.owner, k.generation) ==>
        !(Present(h, k.session) && Holds(h.rows[k.session], k.owner, k.generation, later))
  {
    hide Inv, Step, Opens, Opened, NoneRenews, Holds, Fenced, LeaseEnds, Run;
    var f, k := Step(d, c, at, e).0, Opened(d, c, at, e);
    OpenedHolds(d, c, at, e);
    StepKeeps(d, c, at, e);
    if NoneRenews(events, k.session, k.owner, k.generation) {
      LeaseRuns(f, c, events, k.session, k.owner, k.generation, Max(d.clock, at) + c.settings.lease);
      HeldIsHeld(Run(f, c, events), k.session, k.owner, k.generation, Max(d.clock, at) + c.settings.lease, later);
    }
  }

  // ---- a ticket ----

  /** The event presents the ticket from its origin, takes a new one for the session, revokes its access, or removes its row. */
  predicate Takes(e: Event, info: Info, i: int, raw: int) {
    match e
    case DoReconnect(session, actor, origin, _, _) => session == i && actor == info.actor && origin == info.origin
    case DoConsume(ticket, origin, _, _) => ticket == raw && origin == info.origin
    case DoRevoke(actor, legacy, _) => actor == info.actor && (legacy.None? || legacy.value == info.scope.legacy)
    case DoDrop(session) => session == i
    case _ => false
  }

  predicate NoneTakes(events: seq<(int, Event)>, info: Info, i: int, raw: int) {
    forall k :: 0 <= k < |events| ==> !Takes(events[k].1, info, i, raw)
  }

  /** Row i waits for the ticket, as it was granted; or its time was up, and the ticket can no longer be used. */
  predicate Waits(d: Db, i: int, r: Row, raw: int) {
    0 <= i < |d.rows| && (d.rows[i] == r || (Spent(d, raw) && !Timely(r, d.clock)))
  }

  predicate Granting(r: Row, raw: int) {
    !r.dropped && r.ticket == Some(raw) && r.ticketUsed.None? && r.ticketUntil.Some? && (r.state.Authorized? || r.state.Reconnecting?)
  }

  lemma OwnEventsWait(d: Db, c: Config, e: Event, i: int, raw: int)
    requires Inv(d, c) && 0 <= i < |d.rows| && Granting(d.rows[i], raw) && !Takes(e, d.rows[i].info, i, raw) && !Elsewhere(e, i, d.rows[i])
    ensures var f := Step(d, c, d.clock, e).0; i < |f.rows| && f.rows[i] == d.rows[i]
  {
    assert RowOk(d.rows[i], d.clock);
    hide Inv, Voice, RecoverRow, Reauthorize;
  }

  lemma RecoveredIsLate(r: Row, c: Config, t: int, raw: int)
    requires RowOk(r, t) && Granting(r, raw)
    ensures RecoverRow(r, c, t) == r || (!Timely(r, t) && RecoverRow(r, c, t).ticket.None?)
    ensures Release(r) == r && RecoverRow(r, c, t).dropped == r.dropped
  {
  }

  lemma GrantingWaits(d: Db, c: Config, e: Event, i: int, raw: int)
    requires Inv(d, c) && 0 <= i < |d.rows| && Granting(d.rows[i], raw) && !Takes(e, d.rows[i].info, i, raw)
    ensures var f := Step(d, c, d.clock, e).0;
      i < |f.rows| && (f.rows[i] == d.rows[i] || (f.rows[i].ticket.None? && !Timely(d.rows[i], d.clock)))
  {
    assert RowOk(d.rows[i], d.clock);
    hide Inv, Step, Timely, RecoverRow;
    if Elsewhere(e, i, d.rows[i]) {
      ElsewherePasses(d, c, e, i);
      RecoveredIsLate(d.rows[i], c, d.clock, raw);
    } else {
      OwnEventsWait(d, c, e, i, raw);
    }
  }

  lemma WaitStays(d: Db, c: Config, at: int, e: Event, i: int, r: Row, raw: int)
    requires Inv(d, c) && raw in d.issued && d.issued[raw] == i && Waits(d, i, r, raw) && Granting(r, raw) && !Takes(e, r.info, i, raw)
    ensures var f := Step(d, c, at, e).0; Waits(f, i, r, raw) && raw in f.issued && f.issued[raw] == i
  {
    var now, f := d.(clock := Max(d.clock, at)), Step(d, c, at, e).0;
    AtItsMoment(d, c, at, e);
    StepKeeps(d, c, at, e);
    assert After(d, f) && |d.rows| <= |f.rows|;
    if d.rows[i] == r {
      ClockKeeps(d, c, now.clock);
      hide Inv, Step;
      GrantingWaits(now, c, e, i, raw);
    }
  }

  lemma {:induction false} RunWaits(d: Db, c: Config, events: seq<(int, Event)>, i: int, r: Row, raw: int)
    requires Inv(d, c) && raw in d.issued && d.issued[raw] == i && Waits(d, i, r, raw) && Granting(r, raw) && NoneTakes(events, r.info, i, raw)
    ensures var f := Run(d, c, events); Waits(f, i, r, raw) && Inv(f, c)
    decreases |events|
  {
    if events != [] {
      var (at, e) := events[0];
      assert NoneTakes(events[1..], r.info, i, raw) && !Takes(e, r.info, i, raw);
      hide Inv, Step, Waits, Granting, NoneTakes, Takes;
      StepKeeps(d, c, at, e);
      WaitStays(d, c, at, e, i, r, raw);
      RunWaits(Step(d, c, at, e).0, c, events[1..], i, r, raw);
    }
  }

  lemma GrantedIssues(d: Db, c: Config, at: int, e: Event)
    requires (e.DoAuthorize? || e.DoReconnect?) && Step(d, c, at, e).1.Granted?
    ensures var (f, out) := Step(d, c, at, e); out.ticket in f.issued && f.issued[out.ticket] == out.session && out.ticket !in d.issued
  {
    if e.DoReconnect? {
      var t := Max(d.clock, at);
      GrantedIsReissue(d.(clock := t), c, e.session, e.actor, e.origin, e.scope, e.raw);
      hide Reconnect;
    } else {
      hide RecoverActor, VoiceSpent;
    }
  }

  /** After any run in which nobody presents a granted ticket, asks for another, revokes the access or removes the row,
      the ticket connects its session exactly while it is in time and the allowance is not used up. */
  lemma GrantedTicketWorks(d: Db, c: Config, at: int, e: Event, events: seq<(int, Event)>, later: int, owner: string)
    requires Inv(d, c) && (e.DoAuthorize? || e.DoReconnect?) && Step(d, c, at, e).1.Granted?
    ensures var (f, out) := Step(d, c, at, e);
      0 <= out.session < |f.rows|
      && var r, h := f.rows[out.session], Run(f, c, events);
         var t := Max(h.clock, later);
         (NoneTakes(events, r.info, out.session, out.ticket) ==>
            (Step(h, c, later, DoConsume(out.ticket, r.info.origin, owner, Some(r.info.scope))).1 == Acquired(out.session, out.generation + 1)
             <==> Timely(r, t) && !VoiceSpent(h.ledger, c.plans, r.info.actor, r.info.scope.mode, t)))
  {
    var (f, out) := Step(d, c, at, e);
    GrantedArms(d, c, at, e);
    GrantedIssues(d, c, at, e);
    StepKeeps(d, c, at, e);
    var r, h := f.rows[out.session], Run(f, c, events);
    hide Inv, Step, VoiceSpent;
    if NoneTakes(events, r.info, out.session, out.ticket) {
      assert Granting(r, out.ticket) && Waits(f, out.session, r, out.ticket);
      RunWaits(f, c, events, out.session, r, out.ticket);
      if h.rows[out.session] == r {
        ArmedWorks(h, c, out, later, owner);
      } else {
        SpentRefused(h, c, later, out.ticket, r.info.origin, owner, Some(r.info.scope));
      }
    }
  }

  // ---- the next call ----

  /** Whatever ran in between, an actor is refused a new call for an open one only if a session of theirs is open whose own
      time and sign-in are not over; a session that was there before counts only up to the expiry it had then. */
  lemma OnlyUnexpiredBars(d: Db, c: Config, events: seq<(int, Event)>, at: int, e: Event)
    requires Inv(d, c) && e.DoAuthorize?
    ensures var f := Run(d, c, events);
      var t := Max(f.clock, at);
      Step(f, c, at, e).1 == Refused(Conflict) ==>
        exists j :: 0 <= j < |f.rows| && Blocks(f.rows[j], c, e.actor, t) && f.rows[j].info.actor == e.actor && t < Expiry(f.rows[j])
                    && (j < |d.rows| ==> t < Expiry(d.rows[j]))
  {
    var f := Run(d, c, events);
    var t := Max(f.clock, at);
    RunKeeps(d, c, events);
    if Step(f, c, at, e).1 == Refused(Conflict) {
      ConflictOnlyWhileOpen(f, c, at, e);
      var j :| 0 <= j < |f.rows| && Blocks(f.rows[j], c, e.actor, t);
      assert RowOk(f.rows[j], f.clock);
      if j < |d.rows| { assert Evolves(d.rows[j], f.rows[j]); }
    }
  }
}
