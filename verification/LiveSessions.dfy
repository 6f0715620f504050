// Live calls (backend/app/services/realtime_sessions.py) over the voice accounting they drive.
// Each public operation is one transaction: it holds the actor lock, reads the clock and either
// commits its row changes or rolls back. A session is named by its position in the table.
module LiveSessions {
  import opened Wrappers
  import opened VoiceLedger

  datatype State = Authorized | Connecting | Connected | Reconnecting | Ended | Revoked | Failed

  datatype Reason =
    | ClientEnd | BrowserDisconnect | ProviderDisconnect | AccessChanged | Logout | SessionExpired | TicketExpired
    | LeaseExpired | ReconnectExpired | ProtocolError | QueueOverrun | RateLimit | ProviderFailed | IdleTimeout
    | BackendError | PlanLimitReached

  datatype Error =
    | NotAuthorized | Changed | Expired | Conflict | TooMany | TicketInvalid | TicketUsed | TicketStale | PlanLimit
    | NotDrawn | Busy

  datatype Role = Owner | Collaborator | Viewer

  /** What resolve_scope grants: the Legacy, the mode and the role. */
  datatype Scope = Scope(legacy: int, mode: Mode, role: Role)

  /** The columns no operation changes after the row is created. */
  datatype Info = Info(actor: int, scope: Scope, origin: string, created: int, expires: int, authExpires: int)

  // active is active_actor_id; dropped marks a row removed by a cascade;
  // unanswered are the session's conversation turns that are still pending or streaming.
  datatype Row = Row(
    info: Info, conversation: Option<int>, active: Option<int>, state: State, endedAt: Option<int>,
    revokedAt: Option<int>, reason: Option<Reason>, owner: Option<string>, leaseUntil: Option<int>,
    reconnectUntil: Option<int>, generation: int, ticket: Option<int>, ticketUntil: Option<int>,
    ticketUsed: Option<int>, unanswered: set<int>, dropped: bool)

  datatype Settings = Settings(ticket: nat, session: nat, lease: nat, reconnect: nat, creationsPerMinute: nat)

  datatype Config = Config(settings: Settings, plans: Plans)

  // issued names the session every ticket ever drawn was drawn for.
  datatype Db = Db(rows: seq<Row>, issued: map<int, int>, ledger: Ledger, clock: int)

  datatype Outcome =
    | Refused(error: Error)
    | Granted(session: int, ticket: int, generation: int)
    | Acquired(session: int, generation: int)
    | Done
    | Skipped

  predicate Live(s: State) { s.Connecting? || s.Connected? }

  predicate Terminal(s: State) { s.Ended? || s.Revoked? || s.Failed? }

  function Expiry(r: Row): int { Min(r.info.expires, r.info.authExpires) }

  predicate Due(at: Option<int>, t: int) { at.Some? && t >= at.value }

  predicate Present(d: Db, i: int) { 0 <= i < |d.rows| && !d.rows[i].dropped }

  // ---- row changes ----

  function Finish(r: Row, state: State, reason: Reason, t: int): Row {
    r.(state := state, reason := Some(reason), endedAt := Some(t), active := None, owner := None, leaseUntil := None,
       reconnectUntil := None, ticket := None, ticketUntil := None, generation := r.generation + 1,
       revokedAt := if state.Revoked? then Some(t) else r.revokedAt)
  }

  /** Leaves a connection but keeps the session open for a new ticket. */
  function Detach(r: Row, until: int): Row {
    r.(state := Reconnecting, reconnectUntil := Some(until), owner := None, leaseUntil := None, ticket := None,
       generation := r.generation + 1)
  }

  function RecoverRow(r: Row, c: Config, t: int): Row {
    if Terminal(r.state) then r
    else if t >= Expiry(r) then Finish(r, Ended, SessionExpired, t)
    else if r.state.Authorized? && Due(r.ticketUntil, t) then Finish(r, Ended, TicketExpired, t)
    else if r.state.Reconnecting? && Due(r.reconnectUntil, t) then Finish(r, Ended, ReconnectExpired, t)
    else if Live(r.state) && Due(r.leaseUntil, t) then
      var deadline := r.leaseUntil.value + c.settings.reconnect;
      if t >= deadline then Finish(r, Ended, LeaseExpired, t) else Detach(r, deadline)
    else r
  }

  /** release_unanswered, as every caller guards it: only for a session without a connection. */
  function Release(r: Row): Row {
    if Live(r.state) then r else r.(unanswered := {})
  }

  function WithTicket(r: Row, c: Config, t: int, raw: int): Row {
    r.(ticket := Some(raw), ticketUntil := Some(Min(t + c.settings.ticket, Expiry(r))), ticketUsed := None)
  }

  function Connect(r: Row, c: Config, t: int, owner: string): Row {
    r.(ticketUsed := Some(t), generation := r.generation + 1, state := Connecting, owner := Some(owner),
       leaseUntil := Some(t + c.settings.lease), reconnectUntil := None)
  }

  function Renew(r: Row, c: Config, t: int, ready: bool): Row {
    r.(leaseUntil := Some(t + c.settings.lease), state := if ready then Connected else r.state)
  }

  function ClosingState(reason: Reason): State {
    match reason
    case AccessChanged => Revoked
    case Logout => Revoked
    case ProviderFailed => Failed
    case BackendError => Failed
    case ProtocolError => Failed
    case QueueOverrun => Failed
    case RateLimit => Failed
    case _ => Ended
  }

  function Close(r: Row, c: Config, t: int, reason: Reason): Row {
    if reason.BrowserDisconnect? || reason.ProviderDisconnect? then Detach(r, Min(t + c.settings.reconnect, Expiry(r)))
    else Finish(r, ClosingState(reason), reason, t)
  }

  function NewRow(c: Config, t: int, actor: int, scope: Scope, conversation: Option<int>, origin: string, exp: int, raw: int): Row {
    WithTicket(Row(Info(actor, scope, origin, t, Min(t + c.settings.session, exp), exp), conversation, Some(actor), Authorized,
                   None, None, None, None, None, None, 0, None, None, None, {}, false), c, t, raw)
  }

  // ---- checks ----

  /** reauthorize: the fresh scope must be the one the session was created with. */
  function Reauthorize(r: Row, scope: Option<Scope>, t: int): Option<Error> {
    if Terminal(r.state) then Some(if r.state.Revoked? then Changed else Expired)
    else if t >= Expiry(r) then Some(Expired)
    else if scope.None? then Some(NotAuthorized)
    else if scope.value != r.info.scope then Some(Changed)
    else None
  }

  /** The guard shared by owned, bind_once and locked_turn. */
  predicate Holds(r: Row, owner: string, generation: int, t: int) {
    r.owner == Some(owner) && r.generation == generation && Live(r.state) && !Due(r.leaseUntil, t)
  }

  function VoicedOf(i: int, r: Row): Voiced {
    Voiced(IKey(i, r.generation), r.info.actor, r.info.scope.mode, r.info.expires, r.info.authExpires, r.state.Connected?)
  }

  function CountRecent(rows: seq<Row>, actor: int, since: int): nat {
    if rows == [] then 0
    else CountRecent(rows[..|rows| - 1], actor, since)
         + if !rows[|rows| - 1].dropped && rows[|rows| - 1].info.actor == actor && rows[|rows| - 1].info.created >= since then 1 else 0
  }

  predicate Occupied(rows: seq<Row>, actor: int) {
    exists i :: 0 <= i < |rows| && !rows[i].dropped && rows[i].active == Some(actor)
  }

  /** issued <= max(revoked_at) over the actor's retained logout rows. */
  predicate CutOff(rows: seq<Row>, actor: int, iat: int) {
    exists i :: 0 <= i < |rows| && !rows[i].dropped && rows[i].info.actor == actor && rows[i].reason == Some(Logout)
                && rows[i].revokedAt.Some? && iat <= rows[i].revokedAt.value
  }

  function FindTicket(rows: seq<Row>, raw: int): (r: Option<nat>)
    ensures r.Some? ==> r.value < |rows| && !rows[r.value].dropped && rows[r.value].ticket == Some(raw)
    ensures r.None? ==> forall i :: 0 <= i < |rows| ==> rows[i].dropped || rows[i].ticket != Some(raw)
  {
    if rows == [] then None
    else
      var n := |rows| - 1;
      var r := FindTicket(rows[..n], raw);
      if r.Some? then r else if !rows[n].dropped && rows[n].ticket == Some(raw) then Some(n) else None
  }

  // ---- steps on one row ----

  ghost function Change(d: Db, i: int, r: Row): Db
    requires 0 <= i < |d.rows|
  {
    d.(rows := d.rows[i := r])
  }

  ghost function TrackAt(d: Db, c: Config, i: int, t: int, ready: bool, ending: bool, recovered: bool): Db
    requires 0 <= i < |d.rows|
  {
    d.(ledger := Voice(d.ledger, c.plans, VoicedOf(i, d.rows[i]), t, ready, ending, recovered))
  }

  predicate Lapsed(r: Row, t: int) {
    r.state.Connected? && (t >= Expiry(r) || Due(r.leaseUntil, t))
  }

  ghost function Recover(d: Db, c: Config, i: int, t: int): Db
    requires 0 <= i < |d.rows|
  {
    var e := if Lapsed(d.rows[i], t) then TrackAt(d, c, i, t, false, true, true) else d;
    Change(e, i, RecoverRow(d.rows[i], c, t))
  }

  ghost function RecoverRelease(d: Db, c: Config, i: int, t: int): Db
    requires 0 <= i < |d.rows|
  {
    var e := Recover(d, c, i, t);
    Change(e, i, Release(e.rows[i]))
  }

  ghost function RecoverIfActive(d: Db, c: Config, actor: int, i: int, t: int): Db
    requires 0 <= i < |d.rows|
  {
    if !d.rows[i].dropped && d.rows[i].active == Some(actor) then RecoverRelease(d, c, i, t) else d
  }

  /** authorize's pass over the actor's active rows, from position i on. */
  ghost function RecoverActor(d: Db, c: Config, actor: int, t: int, i: nat): (e: Db)
    ensures |e.rows| == |d.rows| && e.issued == d.issued && e.clock == d.clock
    decreases |d.rows| - i
  {
    if i >= |d.rows| then d else RecoverActor(RecoverIfActive(d, c, actor, i, t), c, actor, t, i + 1)
  }

  ghost function RevokeRow(d: Db, c: Config, i: int, t: int, reason: Reason): Db
    requires 0 <= i < |d.rows|
  {
    var r := d.rows[i];
    if !Terminal(r.state) then
      Change(TrackAt(d, c, i, t, false, true, false), i, Finish(r, Revoked, reason, t).(unanswered := {}))
    else if reason.Logout? then Change(d, i, r.(revokedAt := Some(t), reason := Some(Logout)))
    else d
  }

  predicate Matched(r: Row, actor: int, legacy: Option<int>) {
    !r.dropped && r.info.actor == actor && (legacy.None? || legacy.value == r.info.scope.legacy)
  }

  ghost function RevokeIfMatched(d: Db, c: Config, actor: int, legacy: Option<int>, i: int, t: int, reason: Reason): Db
    requires 0 <= i < |d.rows|
  {
    if Matched(d.rows[i], actor, legacy) then RevokeRow(d, c, i, t, reason) else d
  }

  ghost function RevokeFrom(d: Db, c: Config, actor: int, legacy: Option<int>, t: int, reason: Reason, i: nat): (e: Db)
    ensures |e.rows| == |d.rows| && e.issued == d.issued && e.clock == d.clock
    decreases |d.rows| - i
  {
    if i >= |d.rows| then d else RevokeFrom(RevokeIfMatched(d, c, actor, legacy, i, t, reason), c, actor, legacy, t, reason, i + 1)
  }

  // ---- the operations ----

  ghost function Authorize(d: Db, c: Config, t: int, actor: int, scope: Option<Scope>, conversation: Option<int>, origin: string,
                           iat: int, exp: int, raw: int): (Db, Outcome) {
    if CutOff(d.rows, actor, iat) then (d, Refused(Changed))
    else
      var e := RecoverActor(d, c, actor, t, 0);
      if Occupied(e.rows, actor) then (d, Refused(Conflict))
      else if CountRecent(e.rows, actor, t - 60_000_000) >= c.settings.creationsPerMinute then (d, Refused(TooMany))
      else if scope.None? then (d, Refused(NotAuthorized))
      else if VoiceSpent(e.ledger, c.plans, actor, scope.value.mode, t) then (d, Refused(PlanLimit))
      else if raw in d.issued then (d, Refused(NotDrawn))
      else
        var i := |e.rows|;
        (e.(rows := e.rows + [NewRow(c, t, actor, scope.value, conversation, origin, exp, raw)], issued := e.issued[raw := i]),
         Granted(i, raw, 0))
  }

  /** The second half of reconnect: a new generation and ticket for a session that waits for them. */
  ghost function Reissue(d: Db, c: Config, t: int, i: int, actor: int, scope: Option<Scope>, raw: int): (Db, Outcome)
    requires 0 <= i < |d.rows|
  {
    var r := d.rows[i].(unanswered := {});
    if Reauthorize(r, scope, t).Some? then (d, Refused(Reauthorize(r, scope, t).value))
    else if VoiceSpent(d.ledger, c.plans, actor, r.info.scope.mode, t) then (d, Refused(PlanLimit))
    else if raw in d.issued then (d, Refused(NotDrawn))
    else
      (Change(d, i, WithTicket(r.(generation := r.generation + 1), c, t, raw)).(issued := d.issued[raw := i]),
       Granted(i, raw, r.generation + 1))
  }

  ghost function Reconnect(d: Db, c: Config, t: int, i: int, actor: int, origin: string, scope: Option<Scope>, raw: int): (Db, Outcome) {
    if !Present(d, i) || d.rows[i].info.actor != actor || d.rows[i].info.origin != origin then (d, Refused(NotAuthorized))
    else
      var e := Recover(d, c, i, t);
      if !e.rows[i].state.Reconnecting? then (e, Refused(Conflict))
      else
        var out := Reissue(e, c, t, i, actor, scope, raw);
        if out.1.Granted? then out else (d, out.1)
  }

  /** Why a presented ticket is refused, the allowance aside. */
  function Refusal(r: Row, t: int, origin: string, scope: Option<Scope>): Option<Error> {
    if r.info.origin != origin then Some(TicketInvalid)
    else if r.ticketUsed.Some? then Some(TicketUsed)
    else if r.ticketUntil.None? || Due(r.ticketUntil, t) then Some(TicketStale)
    else if !r.state.Authorized? && !r.state.Reconnecting? then Some(Conflict)
    else if r.state.Reconnecting? && Due(r.reconnectUntil, t) then Some(Expired)
    else Reauthorize(r, scope, t)
  }

  ghost function Consume(d: Db, c: Config, t: int, raw: int, origin: string, owner: string, scope: Option<Scope>): (Db, Outcome) {
    var found := FindTicket(d.rows, raw);
    if found.None? then (d, Refused(TicketInvalid))
    else
      var r := d.rows[found.value];
      if Refusal(r, t, origin, scope).Some? then (d, Refused(Refusal(r, t, origin, scope).value))
      else if VoiceSpent(d.ledger, c.plans, r.info.actor, r.info.scope.mode, t) then (d, Refused(PlanLimit))
      else (Change(d, found.value, Connect(r, c, t, owner)), Acquired(found.value, r.generation + 1))
  }

  ghost function Owned(d: Db, c: Config, t: int, i: int, owner: string, generation: int, scope: Option<Scope>, ready: bool): (Db, Outcome) {
    if !Present(d, i) then (d, Refused(NotAuthorized))
    else if !Holds(d.rows[i], owner, generation, t) then (d, Refused(Changed))
    else if Reauthorize(d.rows[i], scope, t).Some? then (d, Refused(Reauthorize(d.rows[i], scope, t).value))
    else
      var e := Change(d, i, Renew(d.rows[i], c, t, ready));
      var f := if e.rows[i].state.Connected? then TrackAt(e, c, i, t, ready, false, false) else e;
      (f, if VoiceSpent(f.ledger, c.plans, f.rows[i].info.actor, f.rows[i].info.scope.mode, t) then Refused(PlanLimit) else Done)
  }

  /** Lost authorization overrides the caller's reason; None stands for a reason outside REASONS. */
  function ClosingReason(r: Row, t: int, reason: Option<Reason>, scope: Option<Scope>): Reason {
    if Reauthorize(r, scope, t).Some? then (if t >= Expiry(r) then SessionExpired else AccessChanged)
    else if reason.None? then BackendError else reason.value
  }

  ghost function CloseOwned(d: Db, c: Config, t: int, i: int, owner: string, generation: int, reason: Option<Reason>,
                            scope: Option<Scope>): (Db, Outcome) {
    if !Present(d, i) then (d, Refused(NotAuthorized))
    else
      var r := d.rows[i];
      if r.owner != Some(owner) || r.generation != generation then (d, Skipped)
      else
        var e := TrackAt(d, c, i, t, false, true, false);
        (Change(e, i, Close(r.(unanswered := {}), c, t, ClosingReason(r, t, reason, scope))), Done)
  }

  /** sweep's transaction for one actor's active row. */
  ghost function Sweep(d: Db, c: Config, t: int, i: int): (Db, Outcome) {
    if !Present(d, i) || d.rows[i].active.None? then (d, Skipped) else (RecoverRelease(d, c, i, t), Done)
  }

  /** accept_turn's rule: a chat has at most one turn that is still pending or streaming. */
  predicate ChatBusy(rows: seq<Row>, conversation: int) {
    exists i :: 0 <= i < |rows| && !rows[i].dropped && rows[i].conversation == Some(conversation) && rows[i].unanswered != {}
  }

  /** admit of a new item: bind_once, then a streaming turn under the same transaction. textBusy: a text turn is still open. */
  ghost function Admit(d: Db, t: int, i: int, actor: int, owner: string, generation: int, scope: Option<Scope>,
                       conversation: int, textBusy: bool, turn: int): (Db, Outcome) {
    if !Present(d, i) || d.rows[i].info.actor != actor then (d, Refused(NotAuthorized))
    else
      var r := d.rows[i];
      if !r.state.Connected? || !Holds(r, owner, generation, t) then (d, Refused(Changed))
      else if Reauthorize(r, scope, t).Some? then (d, Refused(Reauthorize(r, scope, t).value))
      else
        var chat := if r.conversation.None? then conversation else r.conversation.value;
        if textBusy || ChatBusy(d.rows, chat) then (d, Refused(Busy))
        else (Change(d, i, r.(conversation := Some(chat), unanswered := r.unanswered + {turn})), Done)
  }

  /** terminate: locked_turn, then the turn's terminal state. */
  ghost function Terminate(d: Db, t: int, i: int, owner: string, generation: int, scope: Option<Scope>, turn: int): (Db, Outcome) {
    if !Present(d, i) then (d, Refused(NotAuthorized))
    else
      var r := d.rows[i];
      if !r.state.Connected? || !Holds(r, owner, generation, t) then (d, Refused(Changed))
      else if Reauthorize(r, scope, t).Some? then (d, Refused(Reauthorize(r, scope, t).value))
      else if turn !in r.unanswered then (d, Skipped)
      else (Change(d, i, r.(unanswered := r.unanswered - {turn})), Done)
  }

  /** plan_usage.reconcile for one open interval. */
  ghost function ReconcileVoice(d: Db, c: Config, t: int, k: IKey): (Db, Outcome) {
    if k !in d.ledger.intervals || d.ledger.intervals[k].ended.Some? then (d, Skipped)
    else if Present(d, k.session) && d.rows[k.session].generation == k.generation && Live(d.rows[k.session].state)
            && d.rows[k.session].leaseUntil.Some? && !Due(d.rows[k.session].leaseUntil, t) then (d, Skipped)
    else (d.(ledger := EndOrphan(d.ledger, c.plans, k)), Done)
  }

  datatype Event =
    | DoAuthorize(actor: int, scope: Option<Scope>, conversation: Option<int>, origin: string, iat: int, exp: int, raw: int)
    | DoReconnect(session: int, actor: int, origin: string, scope: Option<Scope>, raw: int)
    | DoConsume(raw: int, origin: string, owner: string, scope: Option<Scope>)
    | DoOwned(session: int, owner: string, generation: int, scope: Option<Scope>, ready: bool)
    | DoClose(session: int, owner: string, generation: int, reason: Option<Reason>, scope: Option<Scope>)
    | DoRevoke(actor: int, legacy: Option<int>, why: Reason)
    | DoSweep(session: int)
    | DoAdmit(session: int, actor: int, owner: string, generation: int, scope: Option<Scope>, chat: int, textBusy: bool, turn: int)
    | DoTerminate(session: int, owner: string, generation: int, scope: Option<Scope>, turn: int)
    | DoReconcile(key: IKey)
    | DoDrop(session: int)

  /** One transaction. The clock never runs backwards; refusals other than those of Reconnect and Owned change nothing. */
  ghost function Step(before: Db, c: Config, at: int, e: Event): (Db, Outcome) {
    var t := Max(before.clock, at);
    var d := before.(clock := t);
    match e
    case DoAuthorize(actor, scope, conversation, origin, iat, exp, raw) => Authorize(d, c, t, actor, scope, conversation, origin, iat, exp, raw)
    case DoReconnect(i, actor, origin, scope, raw) => Reconnect(d, c, t, i, actor, origin, scope, raw)
    case DoConsume(raw, origin, owner, scope) => Consume(d, c, t, raw, origin, owner, scope)
    case DoOwned(i, owner, generation, scope, ready) => Owned(d, c, t, i, owner, generation, scope, ready)
    case DoClose(i, owner, generation, reason, scope) => CloseOwned(d, c, t, i, owner, generation, reason, scope)
    case DoRevoke(actor, legacy, why) => (RevokeFrom(d, c, actor, legacy, t, why, 0), Done)
    case DoSweep(i) => Sweep(d, c, t, i)
    case DoAdmit(i, actor, owner, generation, scope, chat, textBusy, turn) => Admit(d, t, i, actor, owner, generation, scope, chat, textBusy, turn)
    case DoTerminate(i, owner, generation, scope, turn) => Terminate(d, t, i, owner, generation, scope, turn)
    case DoReconcile(k) => ReconcileVoice(d, c, t, k)
    case DoDrop(i) => if Present(d, i) then (Change(d, i, d.rows[i].(dropped := true)), Done) else (d, Skipped)
  }

  const NO_CALLS := Db([], map[], Ledger(map[], map[], map[]), 0)

  ghost function Run(d: Db, c: Config, events: seq<(int, Event)>): Db
    decreases |events|
  {
    if events == [] then d else Run(Step(d, c, events[0].0, events[0].1).0, c, events[1..])
  }
}
