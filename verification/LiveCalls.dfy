// The live-call table and the accounting tables it drives, updated in place. Every method is one
// transaction and leaves exactly the state that the step functions of LiveSessions describe.
module LiveCalls {
  import opened Wrappers
  import opened VoiceLedger
  import opened LiveSessions

  class CallTable {
    const config: Config
    const accounts: VoiceAccounts
    var rows: seq<Row>
    var clock: int
    ghost var issued: map<int, int>

    ghost predicate Valid() { accounts.plans == config.plans }

    ghost function View(): Db
      reads this, accounts
    {
      Db(rows, issued, accounts.View(), clock)
    }

    constructor (config: Config)
      ensures Valid() && View() == NO_CALLS && fresh(accounts) && this.config == config
    {
      this.config := config;
      accounts := new VoiceAccounts(config.plans);
      rows, clock, issued := [], 0, map[];
    }

    method Tick(at: int)
      modifies this`clock
      ensures clock == Max(old(clock), at)
    {
      if at > clock { clock := at; }
    }

    /** voice_remaining, reduced to whether anything is left. */
    method NothingLeft(user: int, mode: Mode, t: int) returns (spent: bool)
      requires Valid()
      ensures spent == VoiceSpent(accounts.View(), config.plans, user, mode, t)
    {
      var left := accounts.VoiceRemaining(user, mode, t);
      spent := left.Some? && left.value <= 0.0;
    }

    method FinishAt(i: int, state: State, reason: Reason, t: int)
      requires 0 <= i < |rows|
      modifies this`rows
      ensures rows == old(rows)[i := Finish(old(rows)[i], state, reason, t)]
    {
      var r := rows[i];
      r := r.(state := state, reason := Some(reason), endedAt := Some(t));
      r := r.(active := None, owner := None, leaseUntil := None, reconnectUntil := None);
      r := r.(ticket := None, ticketUntil := None);
      r := r.(generation := r.generation + 1);
      if state.Revoked? { r := r.(revokedAt := Some(t)); }
      rows := rows[i := r];
    }

    method RecoverAt(i: int, t: int)
      requires Valid() && 0 <= i < |rows|
      modifies this`rows, accounts
      ensures View() == Recover(old(View()), config, i, t)
    {
      var r := rows[i];
      if Terminal(r.state) { assert rows == rows[i := r]; return; }
      if r.state.Connected? && (t >= Expiry(r) || Due(r.leaseUntil, t)) {
        accounts.Track(VoicedOf(i, r), t, false, true, true);
      }
      var reason: Option<Reason> := None;
      if t >= Expiry(r) {
        reason := Some(SessionExpired);
      } else if r.state.Authorized? && Due(r.ticketUntil, t) {
        reason := Some(TicketExpired);
      } else if r.state.Reconnecting? && Due(r.reconnectUntil, t) {
        reason := Some(ReconnectExpired);
      } else if Live(r.state) && Due(r.leaseUntil, t) {
        var deadline := r.leaseUntil.value + config.settings.reconnect;
        if t >= deadline {
          reason := Some(LeaseExpired);
        } else {
          rows := rows[i := Detach(r, deadline)];
        }
      }
      if reason.Some? { FinishAt(i, Ended, reason.value, t); }
      assert rows == old(rows)[i := RecoverRow(r, config, t)];
    }

    method ReleaseUnanswered(i: int)
      requires 0 <= i < |rows|
      modifies this`rows
      ensures rows == old(rows)[i := old(rows)[i].(unanswered := {})]
    {
      rows := rows[i := rows[i].(unanswered := {})];
    }

    method RecoverAndRelease(i: int, t: int)
      requires Valid() && 0 <= i < |rows|
      modifies this`rows, accounts
      ensures View() == RecoverRelease(old(View()), config, i, t)
    {
      RecoverAt(i, t);
      if !Live(rows[i].state) { ReleaseUnanswered(i); } else { assert rows == rows[i := rows[i]]; }
    }

    method RecoverAll(actor: int, t: int)
      requires Valid()
      modifies this`rows, accounts
      ensures View() == RecoverActor(old(View()), config, actor, t, 0)
    {
      for i := 0 to |rows|
        invariant |rows| == |old(rows)|
        invariant RecoverActor(old(View()), config, actor, t, 0) == RecoverActor(View(), config, actor, t, i)
      {
        if !rows[i].dropped && rows[i].active == Some(actor) { RecoverAndRelease(i, t); }
      }
    }

    /** Undoes the transaction: what the tables held when it began. */
    method Rollback(was: seq<Row>, intervals: map<IKey, Interval>, voice: Receipts, quota: Receipts)
      modifies this`rows, accounts
      ensures rows == was && accounts.View() == Ledger(intervals, voice, quota)
    {
      rows := was;
      accounts.intervals, accounts.voice, accounts.quota := intervals, voice, quota;
    }

    /** raw is the random ticket: never drawn before. */
    method AuthorizeCall(at: int, actor: int, scope: Option<Scope>, conversation: Option<int>, origin: string, iat: int, exp: int, raw: int)
      returns (out: Outcome)
      requires Valid() && raw !in issued
      modifies this, accounts
      ensures (View(), out) == Step(old(View()), config, at, DoAuthorize(actor, scope, conversation, origin, iat, exp, raw))
    {
      Tick(at);
      if CutOff(rows, actor, iat) { return Refused(Changed); }
      var was, intervals, voice, quota := rows, accounts.intervals, accounts.voice, accounts.quota;
      RecoverAll(actor, clock);
      var error: Option<Error> := None;
      if Occupied(rows, actor) {
        error := Some(Conflict);
      } else if CountRecent(rows, actor, clock - 60_000_000) >= config.settings.creationsPerMinute {
        error := Some(TooMany);
      } else if scope.None? {
        error := Some(NotAuthorized);
      } else {
        var spent := NothingLeft(actor, scope.value.mode, clock);
        if spent { error := Some(PlanLimit); }
      }
      if error.Some? {
        Rollback(was, intervals, voice, quota);
        return Refused(error.value);
      }
      out := Granted(|rows|, raw, 0);
      issued := issued[raw := |rows|];
      rows := rows + [NewRow(config, clock, actor, scope.value, conversation, origin, exp, raw)];
    }

    method ReissueAt(i: int, actor: int, scope: Option<Scope>, raw: int) returns (out: Outcome)
      requires Valid() && 0 <= i < |rows| && raw !in issued
      modifies this`rows, this`issued
      ensures out == Reissue(old(View()), config, clock, i, actor, scope, raw).1
      ensures out.Granted? ==> View() == Reissue(old(View()), config, clock, i, actor, scope, raw).0
      ensures !out.Granted? ==> out.Refused? && issued == old(issued)
    {
      ghost var was := rows;
      ReleaseUnanswered(i);
      var r := rows[i];
      var error := Reauthorize(r, scope, clock);
      if error.Some? { return Refused(error.value); }
      var spent := NothingLeft(actor, r.info.scope.mode, clock);
      if spent { return Refused(PlanLimit); }
      issued := issued[raw := i];
      rows := rows[i := WithTicket(r.(generation := r.generation + 1), config, clock, raw)];
      assert rows == was[i := rows[i]];
      out := Granted(i, raw, r.generation + 1);
    }

    method ReconnectCall(at: int, i: int, actor: int, origin: string, scope: Option<Scope>, raw: int) returns (out: Outcome)
      requires Valid() && raw !in issued
      modifies this, accounts
      ensures (View(), out) == Step(old(View()), config, at, DoReconnect(i, actor, origin, scope, raw))
    {
      Tick(at);
      if !(0 <= i < |rows|) || rows[i].dropped || rows[i].info.actor != actor || rows[i].info.origin != origin {
        return Refused(NotAuthorized);
      }
      var was, intervals, voice, quota := rows, accounts.intervals, accounts.voice, accounts.quota;
      RecoverAt(i, clock);
      if !rows[i].state.Reconnecting? { return Refused(Conflict); }
      out := ReissueAt(i, actor, scope, raw);
      if out.Refused? { Rollback(was, intervals, voice, quota); }
    }

    method ConsumeTicket(at: int, raw: int, origin: string, owner: string, scope: Option<Scope>) returns (out: Outcome)
      requires Valid()
      modifies this, accounts
      ensures (View(), out) == Step(old(View()), config, at, DoConsume(raw, origin, owner, scope))
    {
      Tick(at);
      var found := FindTicket(rows, raw);
      if found.None? { return Refused(TicketInvalid); }
      var r := rows[found.value];
      var refusal := Refusal(r, clock, origin, scope);
      if refusal.Some? { return Refused(refusal.value); }
      var spent := NothingLeft(r.info.actor, r.info.scope.mode, clock);
      if spent { return Refused(PlanLimit); }
      r := r.(ticketUsed := Some(clock), generation := r.generation + 1);
      r := r.(state := State.Connecting, owner := Some(owner), leaseUntil := Some(clock + config.settings.lease), reconnectUntil := None);
      rows := rows[found.value := r];
      out := Acquired(found.value, r.generation);
    }

    method RenewOwned(at: int, i: int, owner: string, generation: int, scope: Option<Scope>, ready: bool) returns (out: Outcome)
      requires Valid()
      modifies this, accounts
      ensures (View(), out) == Step(old(View()), config, at, DoOwned(i, owner, generation, scope, ready))
    {
      Tick(at);
      if !(0 <= i < |rows|) || rows[i].dropped { return Refused(NotAuthorized); }
      if !Holds(rows[i], owner, generation, clock) { return Refused(Changed); }
      var refusal := Reauthorize(rows[i], scope, clock);
      if refusal.Some? { return Refused(refusal.value); }
      rows := rows[i := Renew(rows[i], config, clock, ready)];
      if rows[i].state.Connected? { accounts.Track(VoicedOf(i, rows[i]), clock, ready, false, false); }
      var spent := NothingLeft(rows[i].info.actor, rows[i].info.scope.mode, clock);
      out := if spent then Refused(PlanLimit) else Done;
    }

    method CloseConnection(at: int, i: int, owner: string, generation: int, reason: Option<Reason>, scope: Option<Scope>) returns (out: Outcome)
      requires Valid()
      modifies this, accounts
      ensures (View(), out) == Step(old(View()), config, at, DoClose(i, owner, generation, reason, scope))
    {
      Tick(at);
      if !(0 <= i < |rows|) || rows[i].dropped { return Refused(NotAuthorized); }
      var r := rows[i];
      if r.owner != Some(owner) || r.generation != generation { return Skipped; }
      ReleaseUnanswered(i);
      var why := ClosingReason(r, clock, reason, scope);
      accounts.Track(VoicedOf(i, r), clock, false, true, false);
      if why.BrowserDisconnect? || why.ProviderDisconnect? {
        rows := rows[i := Detach(rows[i], Min(clock + config.settings.reconnect, Expiry(r)))];
      } else {
        FinishAt(i, ClosingState(why), why, clock);
      }
      assert rows == old(rows)[i := Close(r.(unanswered := {}), config, clock, why)];
      out := Done;
    }

    method Revoke(at: int, actor: int, legacy: Option<int>, why: Reason)
      requires Valid()
      modifies this, accounts
      ensures View() == Step(old(View()), config, at, DoRevoke(actor, legacy, why)).0
    {
      Tick(at);
      for i := 0 to |rows|
        invariant |rows| == |old(rows)| && clock == Max(old(clock), at)
        invariant RevokeFrom(old(View()).(clock := clock), config, actor, legacy, clock, why, 0)
               == RevokeFrom(View(), config, actor, legacy, clock, why, i)
      {
        RevokeAt(i, actor, legacy, why);
      }
    }

    method RevokeAt(i: int, actor: int, legacy: Option<int>, why: Reason)
      requires Valid() && 0 <= i < |rows|
      modifies this`rows, accounts
      ensures View() == RevokeIfMatched(old(View()), config, actor, legacy, i, clock, why)
    {
      var r := rows[i];
      if r.dropped || r.info.actor != actor || (legacy.Some? && legacy.value != r.info.scope.legacy) { return; }
      if !Terminal(r.state) {
        accounts.Track(VoicedOf(i, r), clock, false, true, false);
        FinishAt(i, Revoked, why, clock);
        ReleaseUnanswered(i);
        assert rows == old(rows)[i := Finish(r, Revoked, why, clock).(unanswered := {})];
      } else if why.Logout? {
        rows := rows[i := r.(revokedAt := Some(clock), reason := Some(Logout))];
      }
    }

    /** The part of a sweep that serves one actor's row. */
    method SweepRow(at: int, i: int) returns (out: Outcome)
      requires Valid()
      modifies this, accounts
      ensures (View(), out) == Step(old(View()), config, at, DoSweep(i))
    {
      Tick(at);
      if !(0 <= i < |rows|) || rows[i].dropped || rows[i].active.None? { return Skipped; }
      RecoverAndRelease(i, clock);
      out := Done;
    }
  }
}
