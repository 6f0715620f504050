// What each live-call operation answers, and to whom, in terms of what the sessions, the clock and the settings say.
module LiveAnswers {
  import opened Wrappers
  import opened Sums
  import opened VoiceLedger
  import opened LiveSessions
  import opened LiveSafety
  import opened LiveGuarantees
  import opened LiveContinuity
  import opened LiveResumption

  // ---- who may begin a call ----

  /** A call of the actor that is still going on or may still be resumed: within its session and sign-in, and within the time of
      its unused ticket, of its reconnect, or of its lease and the reconnect after it. */
  predicate StillOpen(r: Row, c: Config, actor: int, t: int) {
    && !r.dropped && r.info.actor == actor && !Terminal(r.state) && t < r.info.expires && t < r.info.authExpires
    && (r.state.Authorized? ==> r.ticketUntil.None? || t < r.ticketUntil.value)
    && (r.state.Reconnecting? ==> r.reconnectUntil.None? || t < r.reconnectUntil.value)
    && (Live(r.state) ==> r.leaseUntil.None? || t < r.leaseUntil.value + c.settings.reconnect)
  }

  lemma BlocksIsOpen(r: Row, c: Config, actor: int, t: int, clock: int)
    requires RowOk(r, clock)
    ensures Blocks(r, c, actor, t) <==> StillOpen(r, c, actor, t)
  {
  }

  /** The sessions of the actor that were created in the last minute. */
  function RecentSessions(rows: seq<Row>, actor: int, t: int): set<int> {
    set i | 0 <= i < |rows| && !rows[i].dropped && rows[i].info.actor == actor && t - rows[i].info.created <= 60_000_000
  }

  lemma LastIsRecentOrNot(rows: seq<Row>, actor: int, t: int)
    requires rows != []
    ensures var n := |rows| - 1;
      var now := !rows[n].dropped && rows[n].info.actor == actor && rows[n].info.created >= t - 60_000_000;
      RecentSessions(rows, actor, t) == RecentSessions(rows[..n], actor, t) + if now then {n} else {}
  {
    var n := |rows| - 1;
    forall i | 0 <= i < n ensures i in RecentSessions(rows, actor, t) <==> i in RecentSessions(rows[..n], actor, t) {
      assert rows[..n][i] == rows[i];
    }
  }

  lemma {:induction false} CountsRecent(rows: seq<Row>, actor: int, t: int)
    ensures CountRecent(rows, actor, t - 60_000_000) == |RecentSessions(rows, actor, t)|
    decreases |rows|
  {
    if rows == [] {
      assert RecentSessions(rows, actor, t) == {};
    } else {
      var n := |rows| - 1;
      LastIsRecentOrNot(rows, actor, t);
      CountsRecent(rows[..n], actor, t);
      assert n !in RecentSessions(rows[..n], actor, t);
      hide RecentSessions;
    }
  }

  lemma SpentAfterRecovery(d: Db, c: Config, actor: int, i: nat, user: int, mode: Mode, at: int)
    requires Inv(d, c)
    ensures VoiceSpent(RecoverActor(d, c, actor, d.clock, i).ledger, c.plans, user, mode, at) <==> VoiceSpent(d.ledger, c.plans, user, mode, at)
    decreases |d.rows| - i
  {
    if i < |d.rows| {
      hide Inv, VoiceSpent, RecoverIfActive;
      var e := RecoverIfActive(d, c, actor, i, d.clock);
      RecoverIfActiveKeeps(d, c, actor, i);
      RecoverIfActiveSpends(d, c, actor, i, user, mode, at);
      SpentAfterRecovery(e, c, actor, i + 1, user, mode, at);
    }
  }

  lemma RecoverIfActiveSpends(d: Db, c: Config, actor: int, i: nat, user: int, mode: Mode, at: int)
    requires Inv(d, c) && i < |d.rows|
    ensures var e := RecoverIfActive(d, c, actor, i, d.clock);
      |e.rows| == |d.rows| && e.clock == d.clock
      && (VoiceSpent(e.ledger, c.plans, user, mode, at) <==> VoiceSpent(d.ledger, c.plans, user, mode, at))
  {
    hide Inv, VoiceSpent, Voice, RecoverRow;
    if !d.rows[i].dropped { RecoverySpendsNothing(d, c, i, d.clock, user, mode, at); }
  }

  /** A kept row of the actor says that everything issued up to then is logged out. */
  predicate LoggedOut(rows: seq<Row>, actor: int, iat: int) {
    exists i :: 0 <= i < |rows| && !rows[i].dropped && rows[i].info.actor == actor && rows[i].reason == Some(Logout)
                && rows[i].revokedAt.Some? && iat <= rows[i].revokedAt.value
  }

  ghost predicate HasOpen(d: Db, c: Config, actor: int, t: int) {
    exists i :: 0 <= i < |d.rows| && StillOpen(d.rows[i], c, actor, t)
  }

  lemma RecoveryKeepsRecent(d: Db, c: Config, actor: int, t: int)
    ensures RecentSessions(RecoverActor(d, c, actor, t, 0).rows, actor, t) == RecentSessions(d.rows, actor, t)
  {
    var e := RecoverActor(d, c, actor, t, 0);
    forall i | 0 <= i < |d.rows| ensures e.rows[i].info == d.rows[i].info && e.rows[i].dropped == d.rows[i].dropped {
      RecoverActorRows(d, c, actor, t, 0, i);
    }
    hide RecoverActor;
  }

  lemma OpenIsOccupied(d: Db, c: Config, actor: int)
    requires Inv(d, c)
    ensures Occupied(RecoverActor(d, c, actor, d.clock, 0).rows, actor) <==> HasOpen(d, c, actor, d.clock)
  {
    RecoveryFreesUnlessBlocking(d, c, actor);
    forall i | 0 <= i < |d.rows| ensures Blocks(d.rows[i], c, actor, d.clock) <==> StillOpen(d.rows[i], c, actor, d.clock) {
      assert RowOk(d.rows[i], d.clock);
      BlocksIsOpen(d.rows[i], c, actor, d.clock, d.clock);
    }
    hide Inv, Occupied, RecoverActor, Blocks, StillOpen;
  }

  /** A session as authorize creates it: its own time and its sign-in's, and a first ticket with the time of the settings. */
  predicate Begun(r: Row, c: Config, t: int, e: Event)
    requires e.DoAuthorize? && e.scope.Some?
  {
    && r.info == Info(e.actor, e.scope.value, e.origin, t, Min(t + c.settings.session, e.exp), e.exp) && r.conversation == e.conversation
    && r.state.Authorized? && !r.dropped && r.generation == 0 && r.owner.None? && r.ticketUsed.None?
    && r.ticket == Some(e.raw) && r.ticketUntil == Some(Min(t + c.settings.ticket, Min(t + c.settings.session, e.exp)))
  }

  lemma AuthorizeChecks(d: Db, c: Config, e: Event)
    requires Inv(d, c) && e.DoAuthorize?
    ensures var g := RecoverActor(d, c, e.actor, d.clock, 0);
      && (Occupied(g.rows, e.actor) <==> HasOpen(d, c, e.actor, d.clock))
      && CountRecent(g.rows, e.actor, d.clock - 60_000_000) == |RecentSessions(d.rows, e.actor, d.clock)|
      && (e.scope.Some? ==>
            (VoiceSpent(g.ledger, c.plans, e.actor, e.scope.value.mode, d.clock) <==>
               VoiceSpent(d.ledger, c.plans, e.actor, e.scope.value.mode, d.clock)))
  {
    hide Inv, RecoverActor, HasOpen, Occupied, VoiceSpent, CountRecent, RecentSessions;
    OpenIsOccupied(d, c, e.actor);
    CountsRecent(RecoverActor(d, c, e.actor, d.clock, 0).rows, e.actor, d.clock);
    RecoveryKeepsRecent(d, c, e.actor, d.clock);
    if e.scope.Some? { SpentAfterRecovery(d, c, e.actor, 0, e.actor, e.scope.value.mode, d.clock); }
  }

  lemma LoggedOutIsCutOff(rows: seq<Row>, actor: int, iat: int)
    ensures CutOff(rows, actor, iat) <==> LoggedOut(rows, actor, iat)
  {
  }

  /** Whom authorize turns away and why, and the session it creates for everyone else. */
  lemma AuthorizeIsExact(d: Db, c: Config, e: Event)
    requires Inv(d, c) && e.DoAuthorize?
    ensures var (f, out) := Step(d, c, d.clock, e);
      && out == (if LoggedOut(d.rows, e.actor, e.iat) then Refused(Changed)
           else if HasOpen(d, c, e.actor, d.clock) then Refused(Conflict)
           else if |RecentSessions(d.rows, e.actor, d.clock)| >= c.settings.creationsPerMinute then Refused(TooMany)
           else if e.scope.None? then Refused(NotAuthorized)
           else if VoiceSpent(d.ledger, c.plans, e.actor, e.scope.value.mode, d.clock) then Refused(PlanLimit)
           else if e.raw in d.issued then Refused(NotDrawn)
           else Granted(|d.rows|, e.raw, 0))
      && (out.Refused? ==> f == d)
      && (out.Granted? ==> |f.rows| == |d.rows| + 1 && Begun(f.rows[|d.rows|], c, d.clock, e))
  {
    hide Inv, RecoverActor, HasOpen, Occupied, VoiceSpent, CountRecent, RecentSessions, CutOff, LoggedOut, Begun, NewRow;
    assert d.(clock := d.clock) == d;
    AuthorizeChecks(d, c, e);
    LoggedOutIsCutOff(d.rows, e.actor, e.iat);
    if e.scope.Some? { NewRowBegins(c, d.clock, e); }
  }

  lemma NewRowBegins(c: Config, t: int, e: Event)
    requires e.DoAuthorize? && e.scope.Some?
    ensures Begun(NewRow(c, t, e.actor, e.scope.value, e.conversation, e.origin, e.exp, e.raw), c, t, e)
  {
  }

  // ---- who may resume ----

  /** The session waits for its actor: it was left in time, or it fell silent and its lease and the reconnect are not both over. */
  predicate Resumable(r: Row, c: Config, t: int) {
    && t < r.info.expires && t < r.info.authExpires
    && ((r.state.Reconnecting? && (r.reconnectUntil.None? || t < r.reconnectUntil.value))
        || (Live(r.state) && r.leaseUntil.Some? && r.leaseUntil.value <= t < r.leaseUntil.value + c.settings.reconnect))
  }

  lemma ResumableIsReconnecting(r: Row, c: Config, t: int)
    ensures RecoverRow(r, c, t).state.Reconnecting? <==> Resumable(r, c, t)
    ensures RecoverRow(r, c, t).info == r.info
    ensures Resumable(r, c, t) ==> t < r.info.expires && t < r.info.authExpires
    ensures Resumable(r, c, t) ==> RecoverRow(r, c, t).generation == if r.state.Reconnecting? then r.generation else r.generation + 1
  {
  }

  /** What an actor without the access the session was granted is told. */
  function AccessError(r: Row, scope: Option<Scope>, t: int): Error {
    if t >= r.info.expires || t >= r.info.authExpires then Expired else if scope.None? then NotAuthorized else Changed
  }

  lemma NoAccess(r: Row, scope: Option<Scope>, t: int)
    requires !Terminal(r.state)
    ensures Reauthorize(r, scope, t) == if t < r.info.expires && t < r.info.authExpires && scope == Some(r.info.scope) then None
      else Some(AccessError(r, scope, t))
  {
  }

  /** Whom reconnect turns away and why, and the ticket it grants to everyone else. */
  lemma ReconnectIsExact(d: Db, c: Config, e: Event)
    requires Inv(d, c) && e.DoReconnect?
    ensures Step(d, c, d.clock, e).1 ==
      if !Present(d, e.session) || d.rows[e.session].info.actor != e.actor || d.rows[e.session].info.origin != e.origin then Refused(NotAuthorized)
      else
        var r := d.rows[e.session];
        if !Resumable(r, c, d.clock) then Refused(Conflict)
        else if e.scope.None? then Refused(NotAuthorized)
        else if e.scope != Some(r.info.scope) then Refused(Changed)
        else if VoiceSpent(d.ledger, c.plans, e.actor, r.info.scope.mode, d.clock) then Refused(PlanLimit)
        else if e.raw in d.issued then Refused(NotDrawn)
        else Granted(e.session, e.raw, if r.state.Reconnecting? then r.generation + 1 else r.generation + 2)
  {
    hide Inv, Voice, VoiceSpent, RecoverRow, Resumable, Recover, Reissue, AccessError;
    assert d.(clock := d.clock) == d;
    if Present(d, e.session) {
      var r := d.rows[e.session];
      ResumableIsReconnecting(r, c, d.clock);
      Recovers(d, c, e.session);
      RecoverySpendsNothing(d, c, e.session, d.clock, e.actor, r.info.scope.mode, d.clock);
      var w := Recover(d, c, e.session, d.clock);
      if Resumable(r, c, d.clock) {
        ReissueAnswers(w, c, d.clock, e.session, e.actor, e.scope, e.raw);
      }
    }
  }

  lemma Recovers(d: Db, c: Config, i: int)
    requires Present(d, i)
    ensures var e := Recover(d, c, i, d.clock); |e.rows| == |d.rows| && e.rows[i] == RecoverRow(d.rows[i], c, d.clock) && e.issued == d.issued
  {
    hide Voice, RecoverRow;
  }

  lemma ReissueAnswers(d: Db, c: Config, t: int, i: int, actor: int, scope: Option<Scope>, raw: int)
    requires 0 <= i < |d.rows| && !Terminal(d.rows[i].state) && t < d.rows[i].info.expires && t < d.rows[i].info.authExpires
    ensures var r := d.rows[i];
      Reissue(d, c, t, i, actor, scope, raw).1 ==
        if scope.None? then Refused(NotAuthorized)
        else if scope != Some(r.info.scope) then Refused(Changed)
        else if VoiceSpent(d.ledger, c.plans, actor, r.info.scope.mode, t) then Refused(PlanLimit)
        else if raw in d.issued then Refused(NotDrawn)
        else Granted(i, raw, r.generation + 1)
  {
    hide VoiceSpent;
  }

  // ---- who may connect ----

  /** The ticket is the session's, unused and in time, from its origin, for an actor whose scope is still what it was. */
  predicate Admits(r: Row, raw: int, origin: string, scope: Option<Scope>, t: int) {
    && !r.dropped && r.ticket == Some(raw) && r.ticketUsed.None? && r.ticketUntil.Some? && t < r.ticketUntil.value
    && r.info.origin == origin && scope == Some(r.info.scope) && (r.state.Authorized? || r.state.Reconnecting?)
    && (r.reconnectUntil.Some? && r.state.Reconnecting? ==> t < r.reconnectUntil.value) && t < r.info.expires && t < r.info.authExpires
  }

  lemma AdmitsIsNotRefused(r: Row, raw: int, origin: string, scope: Option<Scope>, t: int)
    requires !r.dropped && r.ticket == Some(raw)
    ensures Refusal(r, t, origin, scope).None? <==> Admits(r, raw, origin, scope, t)
  {
  }

  ghost predicate Connects(d: Db, c: Config, i: int, e: Event)
    requires 0 <= i < |d.rows| && e.DoConsume?
  {
    Admits(d.rows[i], e.raw, e.origin, e.scope, d.clock) && !VoiceSpent(d.ledger, c.plans, d.rows[i].info.actor, d.rows[i].info.scope.mode, d.clock)
  }

  /** consume connects exactly the session that admits the ticket, while allowance is left: the ticket is used up, and the owner
      holds a new generation for the lease of the settings. Otherwise nothing changes. */
  lemma ConsumeIsExact(d: Db, c: Config, e: Event)
    requires Inv(d, c) && e.DoConsume?
    ensures var (f, out) := Step(d, c, d.clock, e);
      && (out.Acquired? <==> (exists i :: 0 <= i < |d.rows| && Connects(d, c, i, e)))
      && (out.Acquired? ==>
            && 0 <= out.session < |d.rows| && Connects(d, c, out.session, e)
            && var r := d.rows[out.session];
            && out.generation == r.generation + 1
            && f == d.(rows := d.rows[out.session := r.(state := Connecting, owner := Some(e.owner), generation := r.generation + 1,
                                                        ticketUsed := Some(d.clock), reconnectUntil := None,
                                                        leaseUntil := Some(d.clock + c.settings.lease))]))
      && (!out.Acquired? ==> f == d)
  {
    assert d.(clock := d.clock) == d;
    var found := FindTicket(d.rows, e.raw);
    if found.Some? { AdmitsIsNotRefused(d.rows[found.value], e.raw, e.origin, e.scope, d.clock); }
    forall i | 0 <= i < |d.rows| && Connects(d, c, i, e) ensures found == Some(i) { FindsTicket(d, c, i, e.raw); }
    hide Inv, FindTicket, Refusal, Admits, VoiceSpent;
    if found.Some? { assert Connects(d, c, found.value, e) <==> Step(d, c, d.clock, e).1.Acquired?; }
  }

  /** What a ticket that is its session's is refused with. */
  lemma TicketErrors(d: Db, c: Config, e: Event, i: int)
    requires Inv(d, c) && e.DoConsume? && Present(d, i) && d.rows[i].ticket == Some(e.raw)
    ensures var r, t, out := d.rows[i], d.clock, Step(d, c, d.clock, e).1;
      out.Refused? ==>
        out.error == (if r.info.origin != e.origin then TicketInvalid
          else if r.ticketUsed.Some? then TicketUsed
          else if r.ticketUntil.None? || t >= r.ticketUntil.value then TicketStale
          else if !r.state.Authorized? && !r.state.Reconnecting? then Conflict
          else if r.state.Reconnecting? && r.reconnectUntil.Some? && t >= r.reconnectUntil.value then Expired
          else if t >= r.info.expires || t >= r.info.authExpires || e.scope != Some(r.info.scope) then AccessError(r, e.scope, t)
          else PlanLimit)
  {
    assert d.(clock := d.clock) == d;
    FindsTicket(d, c, i, e.raw);
    if !Terminal(d.rows[i].state) { NoAccess(d.rows[i], e.scope, d.clock); }
    hide Inv, FindTicket, Reauthorize, VoiceSpent;
  }

  // ---- who may go on ----

  /** The connection is the session's, its lease runs, and its actor still has the scope and the time it was granted. */
  predicate InCall(r: Row, owner: string, g: int, scope: Option<Scope>, t: int) {
    && !r.dropped && r.owner == Some(owner) && r.generation == g && (r.state.Connecting? || r.state.Connected?)
    && (r.leaseUntil.None? || t < r.leaseUntil.value) && scope == Some(r.info.scope) && t < r.info.expires && t < r.info.authExpires
  }

  /** What anyone else is told: another connection that things have changed, and the connection itself what became of its access. */
  function CallError(r: Row, owner: string, g: int, scope: Option<Scope>, t: int): Error {
    if r.owner != Some(owner) || r.generation != g || !(r.state.Connecting? || r.state.Connected?) || (r.leaseUntil.Some? && t >= r.leaseUntil.value)
    then Changed else AccessError(r, scope, t)
  }

  lemma InCallIsHeld(r: Row, owner: string, g: int, scope: Option<Scope>, t: int)
    requires !r.dropped
    ensures Holds(r, owner, g, t) && Reauthorize(r, scope, t).None? <==> InCall(r, owner, g, scope, t)
    ensures !InCall(r, owner, g, scope, t) ==>
      CallError(r, owner, g, scope, t) == if Holds(r, owner, g, t) then Reauthorize(r, scope, t).value else Changed
  {
  }

  /** owned renews exactly a connection in its call, for the lease of the settings, and refuses it for the plan when what is now
      recorded has used up the allowance. */
  lemma OwnedIsExact(d: Db, c: Config, e: Event)
    requires e.DoOwned?
    ensures var (f, out) := Step(d, c, d.clock, e);
      if Present(d, e.session) && InCall(d.rows[e.session], e.owner, e.generation, e.scope, d.clock) then
        var r := d.rows[e.session];
        && f.rows == d.rows[e.session := r.(leaseUntil := Some(d.clock + c.settings.lease), state := if e.ready then Connected else r.state)]
        && out == if VoiceSpent(f.ledger, c.plans, r.info.actor, r.info.scope.mode, d.clock) then Refused(PlanLimit) else Done
      else f == d && out == Refused(if !Present(d, e.session) then NotAuthorized else CallError(d.rows[e.session], e.owner, e.generation, e.scope, d.clock))
  {
    assert d.(clock := d.clock) == d;
    if Present(d, e.session) { InCallIsHeld(d.rows[e.session], e.owner, e.generation, e.scope, d.clock); }
    hide Voice, VoiceSpent, Holds, InCall, CallError;
  }

  /** A turn of the chat is open in one of its sessions. */
  predicate ChatOpen(rows: seq<Row>, chat: int) {
    exists i :: 0 <= i < |rows| && !rows[i].dropped && rows[i].conversation == Some(chat) && rows[i].unanswered != {}
  }

  /** A spoken turn is admitted exactly for its actor's ready call while no turn of its chat is open, and binds the call to that chat. */
  lemma AdmitIsExact(d: Db, c: Config, e: Event)
    requires e.DoAdmit?
    ensures var (f, out) := Step(d, c, d.clock, e);
      && (out.Done? <==>
            && Present(d, e.session) && d.rows[e.session].info.actor == e.actor && d.rows[e.session].state.Connected?
            && InCall(d.rows[e.session], e.owner, e.generation, e.scope, d.clock) && !e.textBusy
            && !ChatOpen(d.rows, if d.rows[e.session].conversation.None? then e.chat else d.rows[e.session].conversation.value))
      && (out.Done? ==>
            var r := d.rows[e.session];
            f == d.(rows := d.rows[e.session := r.(conversation := Some(if r.conversation.None? then e.chat else r.conversation.value),
                                                   unanswered := r.unanswered + {e.turn})]))
      && (!out.Done? ==> f == d)
      && (!out.Done? ==>
            out == Refused(if !Present(d, e.session) || d.rows[e.session].info.actor != e.actor then NotAuthorized
              else if !d.rows[e.session].state.Connected? then Changed
              else if InCall(d.rows[e.session], e.owner, e.generation, e.scope, d.clock) then Busy
              else CallError(d.rows[e.session], e.owner, e.generation, e.scope, d.clock)))
  {
    assert d.(clock := d.clock) == d;
    if Present(d, e.session) { InCallIsHeld(d.rows[e.session], e.owner, e.generation, e.scope, d.clock); }
    hide InCall, Holds, CallError, Reauthorize;
  }

  /** A turn is closed exactly by the ready call it is open in. */
  lemma TerminateIsExact(d: Db, c: Config, e: Event)
    requires e.DoTerminate?
    ensures var (f, out) := Step(d, c, d.clock, e);
      && (out.Done? <==>
            && Present(d, e.session) && d.rows[e.session].state.Connected? && e.turn in d.rows[e.session].unanswered
            && InCall(d.rows[e.session], e.owner, e.generation, e.scope, d.clock))
      && f == (if out.Done? then d.(rows := d.rows[e.session := d.rows[e.session].(unanswered := d.rows[e.session].unanswered - {e.turn})]) else d)
      && (!out.Done? ==>
            out == if !Present(d, e.session) then Refused(NotAuthorized)
              else if !d.rows[e.session].state.Connected? then Refused(Changed)
              else if InCall(d.rows[e.session], e.owner, e.generation, e.scope, d.clock) then Skipped
              else Refused(CallError(d.rows[e.session], e.owner, e.generation, e.scope, d.clock)))
  {
    assert d.(clock := d.clock) == d;
    if Present(d, e.session) { InCallIsHeld(d.rows[e.session], e.owner, e.generation, e.scope, d.clock); }
    hide InCall, Holds, CallError, Reauthorize;
  }

  // ---- how a call ends ----

  /** The reason a close goes by: access that is over counts more than what the caller says. */
  function WhyClosed(r: Row, reason: Option<Reason>, scope: Option<Scope>, t: int): Reason {
    if Terminal(r.state) || t >= r.info.expires || t >= r.info.authExpires || scope != Some(r.info.scope) then
      if t >= r.info.expires || t >= r.info.authExpires then SessionExpired else AccessChanged
    else if reason.None? then BackendError
    else reason.value
  }

  /** How a session that ended for this reason is filed. */
  function FiledAs(why: Reason): State {
    if why in {AccessChanged, Logout} then Revoked
    else if why in {ProviderFailed, BackendError, ProtocolError, QueueOverrun, RateLimit} then Failed
    else Ended
  }

  /** A close is taken exactly from the connection's own owner. A disconnect leaves the session to be resumed; anything else ends it,
      filed under its reason. */
  lemma CloseIsExact(d: Db, c: Config, e: Event)
    requires e.DoClose?
    ensures var (f, out) := Step(d, c, d.clock, e);
      && (out.Done? <==> Present(d, e.session) && d.rows[e.session].owner == Some(e.owner) && d.rows[e.session].generation == e.generation)
      && (!out.Done? ==> f == d)
      && (out.Done? ==>
            var r, w, t := d.rows[e.session], f.rows[e.session], d.clock;
            var why := WhyClosed(r, e.reason, e.scope, t);
            if why in {BrowserDisconnect, ProviderDisconnect} then w.state.Reconnecting?
            else w.state == FiledAs(why) && w.reason == Some(why) && w.endedAt == Some(t) && (w.state.Revoked? ==> w.revokedAt == Some(t)))
  {
    hide Voice, WhyClosed, ClosingReason, Reauthorize;
    assert d.(clock := d.clock) == d;
    if Present(d, e.session) { ClosedFor(d.rows[e.session], e.reason, e.scope, d.clock); }
  }

  /** What was observed of a call is billed up to its close, within its session and sign-in. */
  lemma CloseBills(d: Db, c: Config, e: Event)
    requires Inv(d, c) && e.DoClose? && Step(d, c, d.clock, e).1.Done?
    ensures var f, k := Step(d, c, d.clock, e).0, IKey(e.session, e.generation);
      k in d.ledger.intervals && d.ledger.intervals[k].ended.None? ==>
        var iv := d.ledger.intervals[k];
        var until := Max(iv.until, Min(Min(d.clock, d.rows[e.session].info.expires), d.rows[e.session].info.authExpires));
        k in f.ledger.intervals && f.ledger.intervals[k] == iv.(until := until, ended := Some(until))
  {
    hide Voice, ClosingReason, Close;
    assert d.(clock := d.clock) == d;
    assert IntervalsOk(d.ledger);
    hide LedgerOk;
    VoiceWrites(d.ledger, c.plans, VoicedOf(e.session, d.rows[e.session]), d.clock, false, true, false);
  }

  lemma ClosedFor(r: Row, reason: Option<Reason>, scope: Option<Scope>, t: int)
    ensures ClosingReason(r, t, reason, scope) == WhyClosed(r, reason, scope, t)
  {
  }

  // ---- what is cleaned up ----

  /** What a recovery at t leaves of a session: nothing past its time stays open, and a silent call may still be resumed. */
  predicate CleanedUp(r: Row, c: Config, t: int, w: Row) {
    if Terminal(r.state) then w == r
    else if t >= r.info.expires || t >= r.info.authExpires then w.state.Ended? && w.reason == Some(SessionExpired) && w.endedAt == Some(t)
    else if r.state.Authorized? && r.ticketUntil.Some? && t >= r.ticketUntil.value then
      w.state.Ended? && w.reason == Some(TicketExpired) && w.endedAt == Some(t)
    else if r.state.Reconnecting? && r.reconnectUntil.Some? && t >= r.reconnectUntil.value then
      w.state.Ended? && w.reason == Some(ReconnectExpired) && w.endedAt == Some(t)
    else if Live(r.state) && r.leaseUntil.Some? && t >= r.leaseUntil.value + c.settings.reconnect then
      w.state.Ended? && w.reason == Some(LeaseExpired) && w.endedAt == Some(t)
    else if Live(r.state) && r.leaseUntil.Some? && t >= r.leaseUntil.value then
      w.state.Reconnecting? && w.reconnectUntil == Some(r.leaseUntil.value + c.settings.reconnect) && w.owner.None? && w.ticket.None?
    else w == Release(r)
  }

  lemma RecoveryCleansUp(r: Row, c: Config, t: int)
    requires !Terminal(r.state)
    ensures CleanedUp(r, c, t, Release(RecoverRow(r, c, t)))
    ensures Live(Release(RecoverRow(r, c, t)).state) || Release(RecoverRow(r, c, t)).unanswered == {}
  {
  }

  /** A sweep cleans up the active session it is given, closes its turns unless it is still connected, and bills a silent call
      only up to where it was last observed. */
  lemma SweepIsExact(d: Db, c: Config, e: Event)
    requires Inv(d, c) && e.DoSweep? && Present(d, e.session) && !Terminal(d.rows[e.session].state)
    ensures var f, r, k := Step(d, c, d.clock, e).0, d.rows[e.session], IKey(e.session, d.rows[e.session].generation);
      && |f.rows| == |d.rows| && CleanedUp(r, c, d.clock, f.rows[e.session])
      && (Live(f.rows[e.session].state) || f.rows[e.session].unanswered == {})
      && (forall j :: 0 <= j < |d.rows| && j != e.session ==> f.rows[j] == d.rows[j])
      && (k in d.ledger.intervals && d.ledger.intervals[k].ended.None? && !Live(f.rows[e.session].state) ==>
            var iv := d.ledger.intervals[k];
            k in f.ledger.intervals && f.ledger.intervals[k] == iv.(ended := Some(iv.until), uncertain := true))
  {
    assert d.(clock := d.clock) == d;
    var r, k := d.rows[e.session], IKey(e.session, d.rows[e.session].generation);
    assert RowOk(r, d.clock);
    if k in d.ledger.intervals { assert KeyOk(d.rows, k, d.ledger.intervals[k], d.clock); }
    VoiceWrites(d.ledger, c.plans, VoicedOf(e.session, r), d.clock, false, true, true);
    RecoveryCleansUp(r, c, d.clock);
    if r.state.Connected? { RecoversWhenLapsed(r, c, d.clock); }
    hide Inv, Voice, RecoverRow, CleanedUp, Lapsed, LedgerOk;
  }

  lemma RecoversWhenLapsed(r: Row, c: Config, t: int)
    requires r.state.Connected?
    ensures Live(Release(RecoverRow(r, c, t)).state) <==> !Lapsed(r, t)
  {
  }

  /** Reconciliation ends exactly an open interval whose connection is no longer there or no longer leased, where it was last
      observed, and says that its tail is uncertain. */
  lemma ReconcileIsExact(d: Db, c: Config, e: Event)
    requires LedgerOk(d.ledger, c.plans) && e.DoReconcile?
    ensures var (f, out), k := Step(d, c, d.clock, e), e.key;
      && (out.Done? <==>
            && k in d.ledger.intervals && d.ledger.intervals[k].ended.None?
            && !(Present(d, k.session) && d.rows[k.session].generation == k.generation
                 && (d.rows[k.session].state.Connecting? || d.rows[k.session].state.Connected?)
                 && d.rows[k.session].leaseUntil.Some? && d.clock < d.rows[k.session].leaseUntil.value))
      && (!out.Done? ==> f == d)
      && (out.Done? ==> f.rows == d.rows && var iv := d.ledger.intervals[k];
            f.ledger.intervals == d.ledger.intervals[k := iv.(ended := Some(iv.until), uncertain := true)])
  {
    assert d.(clock := d.clock) == d;
    hide LedgerOk;
  }
}
