// For how long a call that lost its connection can be resumed.
module LiveResumption {
  import opened Wrappers
  import opened Sums
  import opened VoiceLedger
  import opened LiveSessions
  import opened LiveSafety
  import opened LiveGuarantees
  import opened LiveContinuity

  /** The event resumes the session for its actor, revokes its access, or removes its row. */
  predicate Resumes(e: Event, info: Info, i: int) {
    match e
    case DoReconnect(session, actor, origin, _, _) => session == i && actor == info.actor && origin == info.origin
    case DoRevoke(actor, legacy, _) => actor == info.actor && (legacy.None? || legacy.value == info.scope.legacy)
    case DoDrop(session) => session == i
    case _ => false
  }

  predicate NoneResumes(events: seq<(int, Event)>, info: Info, i: int) {
    forall k :: 0 <= k < |events| ==> !Resumes(events[k].1, info, i)
  }

  // ---- a session that waits to be resumed ----

  /** Left by its connection, with nothing of it kept, and open until the given moment. */
  predicate Away(r: Row, until: int) {
    !r.dropped && r.state.Reconnecting? && r.reconnectUntil == Some(until) && r.ticket.None? && r.owner.None? && r.unanswered == {}
  }

  /** Still as it was left, or over because its time is. */
  predicate StaysAway(d: Db, i: int, w: Row, until: int) {
    0 <= i < |d.rows| && (d.rows[i] == w || (Terminal(d.rows[i].state) && Min(until, Expiry(w)) <= d.clock))
  }

  lemma AwayRecovers(w: Row, c: Config, t: int, until: int)
    requires Away(w, until)
    ensures Release(w) == w
    ensures if t < Min(until, Expiry(w)) then RecoverRow(w, c, t) == w
      else Terminal(RecoverRow(w, c, t).state) && Terminal(Release(RecoverRow(w, c, t)).state)
  {
  }

  lemma OwnEventsStayAway(d: Db, c: Config, e: Event, i: int, until: int)
    requires 0 <= i < |d.rows| && Away(d.rows[i], until) && !Resumes(e, d.rows[i].info, i) && !Elsewhere(e, i, d.rows[i])
    ensures var f := Step(d, c, d.clock, e).0; i < |f.rows| && f.rows[i] == d.rows[i]
  {
    hide Voice, RecoverRow, Reauthorize;
  }

  lemma AwayStep(d: Db, c: Config, e: Event, i: int, until: int)
    requires 0 <= i < |d.rows| && Away(d.rows[i], until) && !Resumes(e, d.rows[i].info, i)
    ensures var f := Step(d, c, d.clock, e).0;
      i < |f.rows| && (f.rows[i] == d.rows[i] || (Terminal(f.rows[i].state) && Min(until, Expiry(d.rows[i])) <= d.clock))
  {
    hide Step, RecoverRow;
    if Elsewhere(e, i, d.rows[i]) {
      ElsewherePasses(d, c, e, i);
      AwayRecovers(d.rows[i], c, d.clock, until);
    } else {
      OwnEventsStayAway(d, c, e, i, until);
    }
  }

  lemma StaysAwayStep(d: Db, c: Config, at: int, e: Event, i: int, w: Row, until: int)
    requires Inv(d, c) && StaysAway(d, i, w, until) && Away(w, until) && !Resumes(e, w.info, i)
    ensures StaysAway(Step(d, c, at, e).0, i, w, until)
  {
    var now, f := d.(clock := Max(d.clock, at)), Step(d, c, at, e).0;
    AtItsMoment(d, c, at, e);
    StepKeeps(d, c, at, e);
    assert |d.rows| <= |f.rows| && Evolves(d.rows[i], f.rows[i]);
    if d.rows[i] == w {
      hide Inv, Step;
      AwayStep(now, c, e, i, until);
    }
  }

  lemma {:induction false} RunStaysAway(d: Db, c: Config, events: seq<(int, Event)>, i: int, w: Row, until: int)
    requires Inv(d, c) && StaysAway(d, i, w, until) && Away(w, until) && NoneResumes(events, w.info, i)
    ensures var f := Run(d, c, events); StaysAway(f, i, w, until) && Inv(f, c)
    decreases |events|
  {
    if events != [] {
      assert !Resumes(events[0].1, w.info, i) && NoneResumes(events[1..], w.info, i);
      hide Inv, Step, StaysAway, Away, Resumes, NoneResumes;
      StepKeeps(d, c, events[0].0, events[0].1);
      StaysAwayStep(d, c, events[0].0, events[0].1, i, w, until);
      RunStaysAway(Step(d, c, events[0].0, events[0].1).0, c, events[1..], i, w, until);
    }
  }

  /** Who asks to resume a session, from where, with what access, and the ticket drawn for it. */
  datatype Claim = Claim(actor: int, origin: string, scope: Option<Scope>, raw: int)

  /** The session's own actor asks, from its origin and with the access it was granted. */
  predicate Rightful(w: Claim, info: Info) { w.actor == info.actor && w.origin == info.origin && w.scope == Some(info.scope) }

  ghost function Resumed(d: Db, c: Config, at: int, i: int, w: Claim): Outcome {
    Step(d, c, at, DoReconnect(i, w.actor, w.origin, w.scope, w.raw)).1
  }

  lemma ResumedAtItsMoment(d: Db, c: Config, at: int, i: int, w: Claim)
    ensures Resumed(d, c, at, i, w) == Reconnect(d.(clock := Max(d.clock, at)), c, Max(d.clock, at), i, w.actor, w.origin, w.scope, w.raw).1
  {
  }

  lemma AwayResumes(d: Db, c: Config, i: int, t: int, until: int, w: Claim)
    requires 0 <= i < |d.rows| && Away(d.rows[i], until)
    ensures var r := d.rows[i];
      var out := Reconnect(d, c, t, i, w.actor, w.origin, w.scope, w.raw).1;
      && (out.Granted? <==> (Rightful(w, r.info) && t < Min(until, Expiry(r)) && !VoiceSpent(d.ledger, c.plans, r.info.actor, r.info.scope.mode, t)
            && w.raw !in d.issued))
      && (out.Granted? ==> out == Granted(i, w.raw, r.generation + 1))
  {
    AwayRecovers(d.rows[i], c, t, until);
    hide RecoverRow, Voice, VoiceSpent;
  }

  lemma OverIsNotResumed(d: Db, c: Config, i: int, t: int, w: Claim)
    requires 0 <= i < |d.rows| && Terminal(d.rows[i].state)
    ensures !Reconnect(d, c, t, i, w.actor, w.origin, w.scope, w.raw).1.Granted?
  {
    hide Voice, VoiceSpent;
  }

  lemma RunResumes(d: Db, c: Config, events: seq<(int, Event)>, i: int, until: int, later: int, w: Claim)
    requires Inv(d, c) && 0 <= i < |d.rows| && Away(d.rows[i], until) && NoneResumes(events, d.rows[i].info, i)
    ensures var r, h := d.rows[i], Run(d, c, events);
      var t, out := Max(h.clock, later), Resumed(h, c, later, i, w);
      && (out.Granted? <==> (Rightful(w, r.info) && t < Min(until, Expiry(r)) && !VoiceSpent(h.ledger, c.plans, r.info.actor, r.info.scope.mode, t)
            && w.raw !in h.issued))
      && (out.Granted? ==> out == Granted(i, w.raw, r.generation + 1))
  {
    hide Inv, Run, Step, Resumed, Reconnect, VoiceSpent, NoneResumes, Expiry, Away, Rightful;
    var r, h := d.rows[i], Run(d, c, events);
    var t := Max(h.clock, later);
    var now := h.(clock := t);
    RunStaysAway(d, c, events, i, r, until);
    ResumedAtItsMoment(h, c, later, i, w);
    if h.rows[i] == r { AwayResumes(now, c, i, t, until, w); } else { OverIsNotResumed(now, c, i, t, w); }
  }

  lemma DisconnectLeavesAway(d: Db, c: Config, at: int, e: Event)
    requires Inv(d, c) && e.DoClose? && Step(d, c, at, e).1.Done? && Step(d, c, at, e).0.rows[e.session].state.Reconnecting?
    ensures Present(d, e.session) && var r, w := d.rows[e.session], Step(d, c, at, e).0.rows[e.session];
      && Away(w, Min(Max(d.clock, at) + c.settings.reconnect, Expiry(r))) && w.info == r.info && w.generation == r.generation + 1
  {
    hide Voice, Reauthorize;
  }

  /** A call that was left by a disconnect can be resumed by its actor, from its origin and with its scope, and by nobody else, for exactly the
      reconnect time of the settings, as long as its access lasts and allowance is left, whatever else runs meanwhile. */
  lemma DisconnectIsResumable(d: Db, c: Config, at: int, e: Event, events: seq<(int, Event)>, later: int, w: Claim)
    requires Inv(d, c) && e.DoClose? && Step(d, c, at, e).1.Done? && Step(d, c, at, e).0.rows[e.session].state.Reconnecting?
    ensures Present(d, e.session) && var r, h := d.rows[e.session], Run(Step(d, c, at, e).0, c, events);
      var t, out := Max(h.clock, later), Resumed(h, c, later, e.session, w);
      NoneResumes(events, r.info, e.session) ==>
        && (out.Granted? <==> (Rightful(w, r.info) && t < Max(d.clock, at) + c.settings.reconnect && t < Expiry(r)
              && !VoiceSpent(h.ledger, c.plans, r.info.actor, r.info.scope.mode, t) && w.raw !in h.issued))
        && (out.Granted? ==> out == Granted(e.session, w.raw, r.generation + 2))
  {
    DisconnectLeavesAway(d, c, at, e);
    StepKeeps(d, c, at, e);
    hide Inv, Step, Away, Resumed, VoiceSpent, Run, Rightful;
    var f := Step(d, c, at, e).0;
    if NoneResumes(events, d.rows[e.session].info, e.session) {
      RunResumes(f, c, events, e.session, Min(Max(d.clock, at) + c.settings.reconnect, Expiry(d.rows[e.session])), later, w);
    }
  }

  // ---- a connection that went silent ----

  /** Connected by generation g, with a lease that ends at the given moment. */
  predicate Leased(r: Row, g: int, until: int) {
    !r.dropped && Live(r.state) && r.generation == g && r.leaseUntil == Some(until)
  }

  /** What recovery leaves of a lapsed connection while it can still be resumed. */
  function Faded(r: Row, until: int): Row { Detach(r, until).(unanswered := {}) }

  /** Still connected; or its lease is over and it waits to be resumed; or it is over for good. */
  predicate Fades(d: Db, i: int, r: Row, lease: int, until: int) {
    && 0 <= i < |d.rows|
    && (d.rows[i] == r || (d.rows[i] == Faded(r, until) && lease <= d.clock)
        || (Terminal(d.rows[i].state) && Min(until, Expiry(r)) <= d.clock))
  }

  predicate NoneActs(events: seq<(int, Event)>, i: int, g: int) {
    forall k :: 0 <= k < |events| ==> !ActsFor(events[k].1, i, g)
  }

  lemma LeaseRecovers(r: Row, c: Config, t: int, lease: int)
    requires Leased(r, r.generation, lease)
    ensures var until := lease + c.settings.reconnect;
      if t >= Min(until, Expiry(r)) && (t >= lease || t >= Expiry(r)) then Terminal(RecoverRow(r, c, t).state)
      else RecoverRow(r, c, t) == if t < lease then r else Detach(r, until)
    ensures Release(r) == r && (Terminal(RecoverRow(r, c, t).state) ==> Terminal(Release(RecoverRow(r, c, t)).state))
    ensures Release(Detach(r, lease + c.settings.reconnect)) == Faded(r, lease + c.settings.reconnect)
  {
  }

  lemma OwnEventsFade(d: Db, c: Config, e: Event, i: int, lease: int)
    requires 0 <= i < |d.rows| && Leased(d.rows[i], d.rows[i].generation, lease) && !Elsewhere(e, i, d.rows[i])
    requires !Resumes(e, d.rows[i].info, i) && !ActsFor(e, i, d.rows[i].generation)
    ensures var f := Step(d, c, d.clock, e).0; i < |f.rows| && f.rows[i] == d.rows[i]
  {
    hide Voice, RecoverRow, Reauthorize;
  }

  lemma LeaseStep(d: Db, c: Config, e: Event, i: int, lease: int)
    requires 0 <= i < |d.rows| && Leased(d.rows[i], d.rows[i].generation, lease)
    requires !Resumes(e, d.rows[i].info, i) && !ActsFor(e, i, d.rows[i].generation)
    ensures var f, until := Step(d, c, d.clock, e).0, lease + c.settings.reconnect;
      i < |f.rows| && (f.rows[i] == d.rows[i] || (f.rows[i] == Faded(d.rows[i], until) && lease <= d.clock)
                       || (Terminal(f.rows[i].state) && Min(until, Expiry(d.rows[i])) <= d.clock))
  {
    hide Step, RecoverRow;
    if Elsewhere(e, i, d.rows[i]) {
      ElsewherePasses(d, c, e, i);
      LeaseRecovers(d.rows[i], c, d.clock, lease);
    } else {
      OwnEventsFade(d, c, e, i, lease);
    }
  }

  lemma FadedIsAway(r: Row, until: int)
    requires !r.dropped
    ensures Away(Faded(r, until), until) && Faded(r, until).info == r.info && Expiry(Faded(r, until)) == Expiry(r)
  {
  }

  lemma OverStaysOver(d: Db, c: Config, at: int, e: Event, i: int)
    requires Inv(d, c) && 0 <= i < |d.rows|
    ensures var f := Step(d, c, at, e).0;
      i < |f.rows| && f.clock >= d.clock && (Terminal(d.rows[i].state) ==> Terminal(f.rows[i].state))
  {
    hide Step;
    StepKeeps(d, c, at, e);
    var f := Step(d, c, at, e).0;
    assert |d.rows| <= |f.rows| && Evolves(d.rows[i], f.rows[i]);
    hide Inv;
  }

  lemma FadesStep(d: Db, c: Config, at: int, e: Event, i: int, r: Row, lease: int)
    requires Inv(d, c) && Leased(r, r.generation, lease) && Fades(d, i, r, lease, lease + c.settings.reconnect)
    requires !Resumes(e, r.info, i) && !ActsFor(e, i, r.generation)
    ensures Fades(Step(d, c, at, e).0, i, r, lease, lease + c.settings.reconnect)
  {
    var now, until := d.(clock := Max(d.clock, at)), lease + c.settings.reconnect;
    assert !r.dropped;
    hide Inv, Step, Faded, Away, Leased, ActsFor, Resumes, Expiry, Terminal;
    AtItsMoment(d, c, at, e);
    OverStaysOver(d, c, at, e, i);
    if d.rows[i] == r {
      LeaseStep(now, c, e, i, lease);
    } else if d.rows[i] == Faded(r, until) {
      FadedIsAway(r, until);
      AwayStep(now, c, e, i, until);
    }
  }

  lemma {:induction false} RunFades(d: Db, c: Config, events: seq<(int, Event)>, i: int, r: Row, lease: int)
    requires Inv(d, c) && Leased(r, r.generation, lease) && Fades(d, i, r, lease, lease + c.settings.reconnect)
    requires NoneResumes(events, r.info, i) && NoneActs(events, i, r.generation)
    ensures var f := Run(d, c, events); Fades(f, i, r, lease, lease + c.settings.reconnect) && Inv(f, c)
    decreases |events|
  {
    if events != [] {
      assert !Resumes(events[0].1, r.info, i) && NoneResumes(events[1..], r.info, i);
      assert !ActsFor(events[0].1, i, r.generation) && NoneActs(events[1..], i, r.generation);
      hide Inv, Step, Fades, Leased, Resumes, NoneResumes, ActsFor, NoneActs;
      StepKeeps(d, c, events[0].0, events[0].1);
      FadesStep(d, c, events[0].0, events[0].1, i, r, lease);
      RunFades(Step(d, c, events[0].0, events[0].1).0, c, events[1..], i, r, lease);
    }
  }

  lemma SameObserved(l: Ledger, m: Ledger, p: Plans, user: int, mode: Mode, day: int)
    requires LedgerOk(l, p) && LedgerOk(m, p) && !EntitlementOf(p, user).exempt
    requires forall k :: k in l.intervals <==> k in m.intervals
    requires forall k :: k in l.intervals ==> m.intervals[k].(ended := None, uncertain := false) == l.intervals[k].(ended := None, uncertain := false)
    ensures Recorded(l.quota, user, mode, day) == Recorded(m.quota, user, mode, day)
  {
    var a, b := Observed(l, p.cutover, user, mode, day), Observed(m, p.cutover, user, mode, day);
    forall k ensures k in a <==> k in b ensures k in a ==> a[k] == b[k] {
      if k in l.intervals { assert m.intervals[k].(ended := None, uncertain := false) == l.intervals[k].(ended := None, uncertain := false); }
    }
    assert a == b;
  }

  /** Closing a silent call bills nothing more, so it uses up no allowance. */
  lemma RecoverySpendsNothing(d: Db, c: Config, i: int, t: int, user: int, mode: Mode, at: int)
    requires Inv(d, c) && d.clock == t && 0 <= i < |d.rows| && !d.rows[i].dropped
    ensures VoiceSpent(Recover(d, c, i, t).ledger, c.plans, user, mode, at) <==> VoiceSpent(d.ledger, c.plans, user, mode, at)
  {
    if Lapsed(d.rows[i], t) && !EntitlementOf(c.plans, user).exempt {
      TrackKeeps(d, c, i, false, true, true);
      VoiceWrites(d.ledger, c.plans, VoicedOf(i, d.rows[i]), t, false, true, true);
      SameObserved(d.ledger, TrackAt(d, c, i, t, false, true, true).ledger, c.plans, user, mode, DayOf(at));
    }
  }

  lemma LeasedResumes(d: Db, c: Config, i: int, t: int, lease: int, w: Claim)
    requires Inv(d, c) && d.clock == t && 0 <= i < |d.rows| && Leased(d.rows[i], d.rows[i].generation, lease)
    ensures var r := d.rows[i];
      var out := Reconnect(d, c, t, i, w.actor, w.origin, w.scope, w.raw).1;
      && (out.Granted? <==> (Rightful(w, r.info) && lease <= t < lease + c.settings.reconnect && t < Expiry(r)
            && !VoiceSpent(d.ledger, c.plans, r.info.actor, r.info.scope.mode, t) && w.raw !in d.issued))
      && (out.Granted? ==> out == Granted(i, w.raw, r.generation + 2))
  {
    var r := d.rows[i];
    LeaseRecovers(r, c, t, lease);
    RecoverySpendsNothing(d, c, i, t, r.info.actor, r.info.scope.mode, t);
    hide Inv, RecoverRow, Voice, VoiceSpent, Lapsed;
  }

  /** A call whose connection went silent can be resumed, by the same, from the end of its lease on, for exactly the reconnect time of the
      settings, as long as its access lasts and allowance is left, whatever else runs meanwhile. */
  lemma SilenceIsResumable(d: Db, c: Config, i: int, lease: int, events: seq<(int, Event)>, later: int, w: Claim)
    requires Inv(d, c) && 0 <= i < |d.rows| && Leased(d.rows[i], d.rows[i].generation, lease)
    requires NoneResumes(events, d.rows[i].info, i) && NoneActs(events, i, d.rows[i].generation)
    ensures var r, h := d.rows[i], Run(d, c, events);
      var t, out := Max(h.clock, later), Resumed(h, c, later, i, w);
      && (out.Granted? <==> (Rightful(w, r.info) && lease <= t < lease + c.settings.reconnect && t < Expiry(r)
            && !VoiceSpent(h.ledger, c.plans, r.info.actor, r.info.scope.mode, t) && w.raw !in h.issued))
      && (out.Granted? ==> out == Granted(i, w.raw, r.generation + 2))
  {
    hide Inv, Run, Step, Resumed, Reconnect, VoiceSpent, NoneResumes, NoneActs, Leased, Fades, Expiry, Rightful;
    var r, h := d.rows[i], Run(d, c, events);
    assert Fades(d, i, r, lease, lease + c.settings.reconnect) by { Unfaded(d, i, lease, lease + c.settings.reconnect); }
    RunFades(d, c, events, i, r, lease);
    ResumedAtItsMoment(h, c, later, i, w);
    FadingResumes(h, c, i, Max(h.clock, later), r, lease, w);
  }

  lemma Unfaded(d: Db, i: int, lease: int, until: int)
    requires 0 <= i < |d.rows|
    ensures Fades(d, i, d.rows[i], lease, until)
  {
  }

  lemma FadingResumes(h: Db, c: Config, i: int, t: int, r: Row, lease: int, w: Claim)
    requires Inv(h, c) && h.clock <= t && Leased(r, r.generation, lease) && Fades(h, i, r, lease, lease + c.settings.reconnect)
    ensures var out := Reconnect(h.(clock := t), c, t, i, w.actor, w.origin, w.scope, w.raw).1;
      && (out.Granted? <==> (Rightful(w, r.info) && lease <= t < lease + c.settings.reconnect && t < Expiry(r)
            && !VoiceSpent(h.ledger, c.plans, r.info.actor, r.info.scope.mode, t) && w.raw !in h.issued))
      && (out.Granted? ==> out == Granted(i, w.raw, r.generation + 2))
  {
    var until := lease + c.settings.reconnect;
    FadedIsAway(r, until);
    assert Faded(r, until).generation == r.generation + 1;
    hide Inv, Reconnect, VoiceSpent, Away, Faded, Leased, Expiry, Rightful;
    ClockKeeps(h, c, t);
    if h.rows[i] == r {
      LeasedResumes(h.(clock := t), c, i, t, lease, w);
    } else if h.rows[i] == Faded(r, until) {
      AwayResumes(h.(clock := t), c, i, t, until, w);
    } else {
      OverIsNotResumed(h.(clock := t), c, i, t, w);
    }
  }
}
