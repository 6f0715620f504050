// The effects of a completed turn (backend/app/services/turn_effects.py) and the activity they record
// (progression.record_builder_activity). Any number of runs of apply_effects, for the same or different turns,
// interleave between transactions; each may crash or lose its authorization at any point and be repeated.
module TurnEffects {
  import opened Wrappers

  /** What the memory receipt saves: how many memories changed, and what the last change was. */
  datatype Memory = Memory(count: nat, operation: int, memory: int, date: int)

  // locked is the run holding the turn's row; the receipts are inserted once.
  datatype Turn = Turn(legacy: int, locked: Option<int>, memory: Option<Memory>, activity: Option<bool>)

  datatype Phase =
    | Fresh
    | Storing
    | Staged(result: Memory)
    | RolledBack
    | Remembered(result: Memory)
    | Answered(saved: nat, firstToday: bool)

  /** One run of apply_effects. */
  datatype Process = Process(turn: int, phase: Phase)

  datatype Day = Day(legacy: int, date: int)

  // applied counts the committed memory changes of a turn; activities holds the contribution count of each day,
  // of which others came from elsewhere.
  datatype Db = Db(turns: map<int, Turn>, processes: map<int, Process>, applied: map<int, nat>, activities: map<Day, nat>, others: map<Day, nat>)

  const EMPTY := Db(map[], map[], map[], map[], map[])

  function Times(m: map<int, nat>, t: int): nat { if t in m then m[t] else 0 }

  function Contributions(m: map<Day, nat>, d: Day): nat { if d in m then m[d] else 0 }

  datatype Event =
    | Complete(turn: int, legacy: int)
    | Begin(process: int, turn: int)
    | Lock(process: int)
    | Stored(process: int, result: Memory)
    | StoreFailed(process: int)
    | Commit(process: int)
    | RecordActivity(process: int)
    | Crash(process: int)
    | Elsewhere(day: Day)

  predicate Runs(d: Db, p: int) { p in d.processes && d.processes[p].turn in d.turns }

  predicate Free(d: Db, p: int)
    requires Runs(d, p)
  {
    var t := d.turns[d.processes[p].turn];
    t.locked.None? || t.locked.value == p
  }

  function SetPhase(d: Db, p: int, phase: Phase): Db
    requires p in d.processes
  {
    d.(processes := d.processes[p := d.processes[p].(phase := phase)])
  }

  function SetTurn(d: Db, t: int, turn: Turn): Db { d.(turns := d.turns[t := turn]) }

  function Unlock(d: Db, p: int): Db
    requires Runs(d, p)
  {
    var t := d.processes[p].turn;
    if d.turns[t].locked == Some(p) then SetTurn(d, t, d.turns[t].(locked := None)) else d
  }

  /** lock_turn and the read of the memory receipt, first or after a rollback. A failed store leaves an empty result. */
  function LockStep(d: Db, p: int): Db
    requires Runs(d, p)
  {
    var t := d.processes[p].turn;
    var phase := d.processes[p].phase;
    if !(phase.Fresh? || phase.RolledBack?) || !Free(d, p) then d
    else SetPhase(SetTurn(d, t, d.turns[t].(locked := Some(p))), p, Admitted(d.turns[t], phase))
  }

  function Admitted(t: Turn, phase: Phase): Phase {
    if t.memory.Some? then Remembered(t.memory.value) else if phase.Fresh? then Storing else Staged(Memory(0, 0, 0, 0))
  }

  /** The memory change and its receipt commit together. */
  function CommitStep(d: Db, p: int): Db
    requires Runs(d, p)
  {
    var t := d.processes[p].turn;
    var phase := d.processes[p].phase;
    if !phase.Staged? then d
    else
      SetPhase(SetTurn(d, t, d.turns[t].(locked := None, memory := Some(phase.result))), p, Remembered(phase.result))
        .(applied := if phase.result.count > 0 then d.applied[t := Times(d.applied, t) + 1] else d.applied)
  }

  /** The second transaction: the activity and its receipt commit together. */
  function ActivityStep(d: Db, p: int): Db
    requires Runs(d, p)
  {
    var t := d.processes[p].turn;
    var phase := d.processes[p].phase;
    if !phase.Remembered? || !Free(d, p) then d
    else if d.turns[t].activity.Some? then SetPhase(Unlock(d, p), p, Answered(phase.result.count, d.turns[t].activity.value))
    else
      var day := Day(d.turns[t].legacy, phase.result.date);
      var counts := phase.result.count > 0;
      var first := counts && day !in d.activities;
      SetPhase(SetTurn(d, t, d.turns[t].(locked := None, activity := Some(first))), p, Answered(phase.result.count, first))
        .(activities := if counts then d.activities[day := Contributions(d.activities, day) + 1] else d.activities)
  }

  function Step(d: Db, e: Event): Db {
    match e
    case Complete(t, l) => if t in d.turns then d else SetTurn(d, t, Turn(l, None, None, None))
    case Begin(p, t) => if p in d.processes || t !in d.turns then d else d.(processes := d.processes[p := Process(t, Fresh)])
    case Lock(p) => if Runs(d, p) then LockStep(d, p) else d
    case Stored(p, result) => if Runs(d, p) && d.processes[p].phase.Storing? then SetPhase(d, p, Staged(result)) else d
    case StoreFailed(p) => if Runs(d, p) && d.processes[p].phase.Storing? then SetPhase(Unlock(d, p), p, RolledBack) else d
    case Commit(p) => if Runs(d, p) then CommitStep(d, p) else d
    case RecordActivity(p) => if Runs(d, p) then ActivityStep(d, p) else d
    case Crash(p) => if Runs(d, p) then Unlock(d, p).(processes := d.processes - {p}) else d
    case Elsewhere(day) =>
      d.(activities := d.activities[day := Contributions(d.activities, day) + 1], others := d.others[day := Contributions(d.others, day) + 1])
  }

  function Run(d: Db, events: seq<Event>): Db
    decreases |events|
  {
    if events == [] then d else Run(Step(d, events[0]), events[1..])
  }

  // ---- the invariant ----

  /** The turns whose recorded activity falls on the day. */
  ghost function Contributors(turns: map<int, Turn>, day: Day): set<int> {
    set t | t in turns && Counts(turns[t], day)
  }

  /** The turn has an activity receipt, for memories that did change, on the day. */
  predicate Counts(t: Turn, day: Day) {
    t.activity.Some? && t.memory.Some? && t.memory.value.count > 0 && t.legacy == day.legacy && t.memory.value.date == day.date
  }

  ghost predicate TurnOk(d: Db, t: int)
    requires t in d.turns
  {
    && Times(d.applied, t) == (if d.turns[t].memory.Some? && d.turns[t].memory.value.count > 0 then 1 else 0)
    && (d.turns[t].activity.Some? ==> d.turns[t].memory.Some?)
    && (d.turns[t].activity == Some(true) ==> d.turns[t].memory.value.count > 0)
    && (d.turns[t].locked.Some? ==> d.turns[t].locked.value in d.processes && d.processes[d.turns[t].locked.value].turn == t)
  }

  ghost predicate ProcessOk(d: Db, p: int)
    requires p in d.processes
  {
    && d.processes[p].turn in d.turns
    && var t := d.turns[d.processes[p].turn];
       match d.processes[p].phase
       case Storing => t.locked == Some(p) && t.memory.None?
       case Staged(_) => t.locked == Some(p) && t.memory.None?
       case Remembered(r) => t.memory == Some(r)
       case Answered(saved, first) => t.memory.Some? && t.memory.value.count == saved && t.activity == Some(first)
       case _ => true
  }

  ghost predicate DayOk(turns: map<int, Turn>, activities: map<Day, nat>, others: map<Day, nat>, day: Day) {
    && Contributions(activities, day) == |Contributors(turns, day)| + Contributions(others, day)
    && (day !in activities ==> Contributors(turns, day) == {})
  }

  ghost predicate DaysOk(turns: map<int, Turn>, activities: map<Day, nat>, others: map<Day, nat>) {
    forall day :: DayOk(turns, activities, others, day)
  }

  /** At most one turn of a day was its first. */
  ghost predicate OneFirst(turns: map<int, Turn>) {
    forall s, t :: s in turns && t in turns && s != t && turns[s].activity == Some(true) && turns[t].activity == Some(true) ==>
      !(turns[s].memory.Some? && turns[t].memory.Some? && turns[s].legacy == turns[t].legacy
        && turns[s].memory.value.date == turns[t].memory.value.date)
  }

  ghost predicate Inv(d: Db) {
    && (forall t :: t in d.turns ==> TurnOk(d, t))
    && (forall t :: t in d.applied ==> t in d.turns)
    && (forall p :: p in d.processes ==> ProcessOk(d, p))
    && DaysOk(d.turns, d.activities, d.others)
    && OneFirst(d.turns)
  }

  // ---- the steps keep it ----

  lemma SameDays(a: map<int, Turn>, b: map<int, Turn>, t: int, day: Day)
    requires t in b && (forall s :: s in b ==> s == t || s in a) && (forall s :: s in a ==> s in b && (s == t || a[s] == b[s]))
    requires if t in a then Counts(a[t], day) == Counts(b[t], day) else !Counts(b[t], day)
    ensures Contributors(b, day) == Contributors(a, day)
  {
    forall s ensures s in Contributors(b, day) <==> s in Contributors(a, day) {
      if s in b && s in a && s != t { assert a[s] == b[s]; }
    }
  }

  /** A turn that gains a counted activity joins the contributors of its day and of no other. */
  lemma JoinsDay(a: map<int, Turn>, t: int, turn: Turn, day: Day)
    requires t in a && (forall e :: !Counts(a[t], e)) && Counts(turn, day)
    ensures Contributors(a[t := turn], day) == Contributors(a, day) + {t} && t !in Contributors(a, day)
  {
    var b := a[t := turn];
    forall s ensures s in Contributors(b, day) <==> s in Contributors(a, day) + {t} {
      if s != t { assert s in a <==> s in b; }
    }
  }

  /** Changing a turn without changing which days it counts for. */
  lemma TurnKeepsDays(d: Db, t: int, turn: Turn)
    requires t in d.turns && DaysOk(d.turns, d.activities, d.others) && forall day :: Counts(d.turns[t], day) == Counts(turn, day)
    ensures DaysOk(d.turns[t := turn], d.activities, d.others)
  {
    var turns := d.turns[t := turn];
    forall day ensures DayOk(turns, d.activities, d.others, day) {
      SameDays(d.turns, turns, t, day);
      assert DayOk(d.turns, d.activities, d.others, day);
    }
  }

  lemma CompleteKeeps(d: Db, t: int, l: int)
    requires Inv(d) && t !in d.turns
    ensures Inv(SetTurn(d, t, Turn(l, None, None, None)))
  {
    var e := SetTurn(d, t, Turn(l, None, None, None));
    forall day ensures DayOk(e.turns, e.activities, e.others, day) {
      SameDays(d.turns, e.turns, t, day);
      assert DayOk(d.turns, d.activities, d.others, day);
    }
    forall s | s in e.turns ensures TurnOk(e, s) { if s != t { assert TurnOk(d, s); } }
    forall p | p in e.processes ensures ProcessOk(e, p) { assert ProcessOk(d, p); }
  }

  lemma BeginKeeps(d: Db, p: int, t: int)
    requires Inv(d) && p !in d.processes && t in d.turns
    ensures Inv(d.(processes := d.processes[p := Process(t, Fresh)]))
  {
    var e := d.(processes := d.processes[p := Process(t, Fresh)]);
    forall s | s in e.turns ensures TurnOk(e, s) { assert TurnOk(d, s); }
    forall q | q in e.processes ensures ProcessOk(e, q) { if q != p { assert ProcessOk(d, q); } }
  }

  /** A run takes or gives back its turn's row and changes phase; no receipt changes. */
  lemma MoveKeeps(d: Db, p: int, locked: Option<int>, phase: Phase)
    requires Inv(d) && Runs(d, p) && Free(d, p) && (locked.None? || locked == Some(p))
    requires var e := SetPhase(SetTurn(d, d.processes[p].turn, d.turns[d.processes[p].turn].(locked := locked)), p, phase); ProcessOk(e, p)
    ensures Inv(SetPhase(SetTurn(d, d.processes[p].turn, d.turns[d.processes[p].turn].(locked := locked)), p, phase))
  {
    var t := d.processes[p].turn;
    var e := SetPhase(SetTurn(d, t, d.turns[t].(locked := locked)), p, phase);
    TurnKeepsDays(d, t, e.turns[t]);
    forall s | s in e.turns ensures TurnOk(e, s) { assert TurnOk(d, s); }
    forall q | q in e.processes ensures ProcessOk(e, q) { assert ProcessOk(d, q); }
  }

  lemma LockKeeps(d: Db, p: int)
    requires Inv(d) && Runs(d, p)
    ensures Inv(LockStep(d, p))
  {
    var phase := d.processes[p].phase;
    if (phase.Fresh? || phase.RolledBack?) && Free(d, p) {
      hide Inv;
      MoveKeeps(d, p, Some(p), Admitted(d.turns[d.processes[p].turn], phase));
    }
  }

  lemma StoredKeeps(d: Db, p: int, result: Memory)
    requires Inv(d) && Runs(d, p) && d.processes[p].phase.Storing?
    ensures Inv(SetPhase(d, p, Staged(result)))
  {
    var e := SetPhase(d, p, Staged(result));
    forall s | s in e.turns ensures TurnOk(e, s) { assert TurnOk(d, s); }
    forall q | q in e.processes ensures ProcessOk(e, q) { assert ProcessOk(d, q); }
  }

  lemma RollbackKeeps(d: Db, p: int)
    requires Inv(d) && Runs(d, p) && d.processes[p].phase.Storing?
    ensures Inv(SetPhase(Unlock(d, p), p, RolledBack))
  {
    assert ProcessOk(d, p);
    hide Inv;
    MoveKeeps(d, p, None, RolledBack);
  }

  lemma CommitKeeps(d: Db, p: int)
    requires Inv(d) && Runs(d, p)
    ensures Inv(CommitStep(d, p))
  {
    if d.processes[p].phase.Staged? {
      var t, e := d.processes[p].turn, CommitStep(d, p);
      assert ProcessOk(d, p) && TurnOk(d, t);
      TurnKeepsDays(d, t, e.turns[t]);
      forall s | s in e.turns ensures TurnOk(e, s) { assert TurnOk(d, s); }
      forall q | q in e.processes ensures ProcessOk(e, q) { assert ProcessOk(d, q); }
    }
  }

  lemma CrashKeeps(d: Db, p: int)
    requires Inv(d) && Runs(d, p)
    ensures Inv(Unlock(d, p).(processes := d.processes - {p}))
  {
    var t, e := d.processes[p].turn, Unlock(d, p).(processes := d.processes - {p});
    TurnKeepsDays(d, t, d.turns[t].(locked := None));
    forall s | s in e.turns ensures TurnOk(e, s) { assert TurnOk(d, s); }
    forall q | q in e.processes ensures ProcessOk(e, q) { assert ProcessOk(d, q); }
  }

  lemma ElsewhereKeeps(d: Db, day: Day)
    requires Inv(d)
    ensures Inv(Step(d, Elsewhere(day)))
  {
    var e := Step(d, Elsewhere(day));
    forall x ensures DayOk(e.turns, e.activities, e.others, x) { assert DayOk(d.turns, d.activities, d.others, x); }
    forall s | s in e.turns ensures TurnOk(e, s) { assert TurnOk(d, s); }
    forall q | q in e.processes ensures ProcessOk(e, q) { assert ProcessOk(d, q); }
  }

  /** A turn that already has its activity receipt is only read. */
  lemma RepeatKeeps(d: Db, p: int)
    requires Inv(d) && Runs(d, p) && d.processes[p].phase.Remembered? && d.turns[d.processes[p].turn].activity.Some? && Free(d, p)
    ensures Inv(ActivityStep(d, p))
  {
    var t := d.turns[d.processes[p].turn];
    assert ProcessOk(d, p);
    MoveKeeps(d, p, None, Answered(d.processes[p].phase.result.count, t.activity.value));
    if t.locked.None? { assert d.turns[d.processes[p].turn := t] == d.turns; }
  }

  lemma RecordKeepsDays(d: Db, p: int)
    requires Inv(d) && Runs(d, p) && d.processes[p].phase.Remembered? && d.turns[d.processes[p].turn].activity.None? && Free(d, p)
    ensures var e := ActivityStep(d, p); DaysOk(e.turns, e.activities, e.others) && OneFirst(e.turns)
  {
    var t, e, r := d.processes[p].turn, ActivityStep(d, p), d.processes[p].phase.result;
    assert ProcessOk(d, p);
    var mine := Day(d.turns[t].legacy, r.date);
    forall day ensures DayOk(e.turns, e.activities, e.others, day) {
      assert DayOk(d.turns, d.activities, d.others, day);
      if r.count > 0 && day == mine { JoinsDay(d.turns, t, e.turns[t], day); } else { SameDays(d.turns, e.turns, t, day); }
    }
    if e.turns[t].activity == Some(true) { FirstOfDay(d, mine); }
  }

  /** While a day has no activity, no turn was its first. */
  lemma FirstOfDay(d: Db, day: Day)
    requires Inv(d) && day !in d.activities
    ensures forall s :: s in d.turns && d.turns[s].activity == Some(true) && d.turns[s].memory.Some? ==>
      !(d.turns[s].legacy == day.legacy && d.turns[s].memory.value.date == day.date)
  {
    assert DayOk(d.turns, d.activities, d.others, day);
    forall s | s in d.turns && d.turns[s].activity == Some(true) && d.turns[s].memory.Some?
      ensures !(d.turns[s].legacy == day.legacy && d.turns[s].memory.value.date == day.date) {
      assert TurnOk(d, s) && s !in Contributors(d.turns, day);
    }
  }

  lemma RecordKeeps(d: Db, p: int)
    requires Inv(d) && Runs(d, p) && d.processes[p].phase.Remembered? && d.turns[d.processes[p].turn].activity.None? && Free(d, p)
    ensures Inv(ActivityStep(d, p))
  {
    var t, e := d.processes[p].turn, ActivityStep(d, p);
    assert ProcessOk(d, p) && TurnOk(d, t);
    RecordKeepsDays(d, p);
    forall s | s in e.turns ensures TurnOk(e, s) { assert TurnOk(d, s); }
    forall q | q in e.processes ensures ProcessOk(e, q) { assert ProcessOk(d, q); }
  }

  lemma ActivityKeeps(d: Db, p: int)
    requires Inv(d) && Runs(d, p)
    ensures Inv(ActivityStep(d, p))
  {
    if d.processes[p].phase.Remembered? {
      if Free(d, p) { if d.turns[d.processes[p].turn].activity.Some? { RepeatKeeps(d, p); } else { RecordKeeps(d, p); } }
    }
  }

  lemma StepKeeps(d: Db, e: Event)
    requires Inv(d)
    ensures Inv(Step(d, e))
  {
    hide Inv;
    match e
    case Complete(t, l) => if t !in d.turns { CompleteKeeps(d, t, l); }
    case Begin(p, t) => if p !in d.processes && t in d.turns { BeginKeeps(d, p, t); }
    case Lock(p) => if Runs(d, p) { LockKeeps(d, p); }
    case Stored(p, result) => if Runs(d, p) && d.processes[p].phase.Storing? { StoredKeeps(d, p, result); }
    case StoreFailed(p) => if Runs(d, p) && d.processes[p].phase.Storing? { RollbackKeeps(d, p); }
    case Commit(p) => if Runs(d, p) { CommitKeeps(d, p); }
    case RecordActivity(p) => if Runs(d, p) { ActivityKeeps(d, p); }
    case Crash(p) => if Runs(d, p) { CrashKeeps(d, p); }
    case Elsewhere(day) => ElsewhereKeeps(d, day);
  }

  lemma {:induction false} RunKeeps(d: Db, events: seq<Event>)
    requires Inv(d)
    ensures Inv(Run(d, events))
    decreases |events|
  {
    if events != [] {
      StepKeeps(d, events[0]);
      RunKeeps(Step(d, events[0]), events[1..]);
    }
  }

  // ---- receipts never change ----

  ghost predicate Kept(d: Db, e: Db) {
    forall t :: t in d.turns ==> (t in e.turns && e.turns[t].legacy == d.turns[t].legacy
      && (d.turns[t].memory.Some? ==> e.turns[t].memory == d.turns[t].memory)
      && (d.turns[t].activity.Some? ==> e.turns[t].activity == d.turns[t].activity))
  }

  lemma StepKept(d: Db, e: Event)
    requires Inv(d)
    ensures Kept(d, Step(d, e))
  {
    if e.Commit? && Runs(d, e.process) { assert ProcessOk(d, e.process); }
  }

  lemma {:induction false} RunKept(d: Db, events: seq<Event>)
    requires Inv(d)
    ensures Kept(d, Run(d, events))
    decreases |events|
  {
    if events != [] {
      StepKept(d, events[0]);
      StepKeeps(d, events[0]);
      RunKept(Step(d, events[0]), events[1..]);
    }
  }

  // ---- the promises ----

  /** Over every run: a turn's memory change commits at most once, exactly when its receipt says that memories
      changed; its day counts it once, exactly when that receipt is positive and its activity was recorded. */
  lemma ExactlyOnce(events: seq<Event>, t: int, day: Day)
    ensures var d := Run(EMPTY, events);
      && (t in d.turns ==> Times(d.applied, t) == if d.turns[t].memory.Some? && d.turns[t].memory.value.count > 0 then 1 else 0)
      && Contributions(d.activities, day) == |Contributors(d.turns, day)| + Contributions(d.others, day)
  {
    EmptyOk();
    RunKeeps(EMPTY, events);
    var d := Run(EMPTY, events);
    if t in d.turns { assert TurnOk(d, t); }
    assert DayOk(d.turns, d.activities, d.others, day);
  }

  lemma EmptyOk()
    ensures Inv(EMPTY)
  {
    forall day ensures DayOk(EMPTY.turns, EMPTY.activities, EMPTY.others, day) {
      assert Contributors(EMPTY.turns, day) == {};
    }
  }

  /** However often and however late a turn's effects are repeated, every answer is the same. */
  lemma SameAnswer(d: Db, events: seq<Event>, p: int, q: int)
    requires Inv(d) && p in d.processes && d.processes[p].phase.Answered?
    ensures var e := Run(d, events);
      q in e.processes && e.processes[q].turn == d.processes[p].turn && e.processes[q].phase.Answered? ==> e.processes[q].phase == d.processes[p].phase
  {
    RunKeeps(d, events);
    RunKept(d, events);
    var e := Run(d, events);
    assert ProcessOk(d, p);
    if q in e.processes { assert ProcessOk(e, q); }
  }

  /** At most one turn of a Legacy is told that it was the first of the day. */
  lemma OneFirstToday(events: seq<Event>, p: int, q: int)
    ensures var d := Run(EMPTY, events);
      && (p in d.processes && q in d.processes && d.processes[p].turn != d.processes[q].turn
          && d.processes[p].phase.Answered? && d.processes[q].phase.Answered? && d.processes[p].phase.firstToday && d.processes[q].phase.firstToday
          ==> DayOf(d, p) != DayOf(d, q))
  {
    EmptyOk();
    RunKeeps(EMPTY, events);
    var d := Run(EMPTY, events);
    if p in d.processes { assert ProcessOk(d, p); }
    if q in d.processes { assert ProcessOk(d, q); }
  }

  /** The Legacy and the date saved for the run's turn. */
  function DayOf(d: Db, p: int): Option<Day> {
    if Runs(d, p) && d.turns[d.processes[p].turn].memory.Some?
    then Some(Day(d.turns[d.processes[p].turn].legacy, d.turns[d.processes[p].turn].memory.value.date)) else None
  }

  // ---- one run left alone ----

  /** What the memory service does for a run that stores: a result, or a failure that is rolled back. */
  function StoreEvent(p: int, stored: Option<Memory>): Event {
    if stored.Some? then Stored(p, stored.value) else StoreFailed(p)
  }

  /** The steps of a whole run; those that do not apply to its turn pass without effect. */
  function Alone(p: int, t: int, stored: Option<Memory>): seq<Event> {
    [Begin(p, t), Lock(p), StoreEvent(p, stored), Lock(p), Commit(p), RecordActivity(p)]
  }

  lemma {:induction false} RunSplit(d: Db, a: seq<Event>, b: seq<Event>)
    ensures Run(d, a + b) == Run(Run(d, a), b)
    decreases |a|
  {
    if a == [] {
      assert a + b == b;
    } else {
      RunSplit(Step(d, a[0]), a[1..], b);
      assert (a + b)[1..] == a[1..] + b;
    }
  }

  lemma RunThree(d: Db, a: Event, b: Event, c: Event)
    ensures Run(d, [a, b, c]) == Step(Step(Step(d, a), b), c)
  {
    hide Step;
    var d1 := Step(d, a);
    assert Run(d, [a, b, c]) == Run(d1, [b, c]) by { assert [a, b, c][1..] == [b, c]; }
    var d2 := Step(d1, b);
    assert Run(d1, [b, c]) == Run(d2, [c]) by { assert [b, c][1..] == [c]; }
    assert Run(d2, [c]) == Run(Step(d2, c), []) by { assert [c][1..] == []; }
  }

  /** The run holds its turn's row with this result to save, or has found it saved. */
  ghost predicate Ready(d: Db, e: Db, p: int, t: int, r: Memory) {
    && t in d.turns && p in e.processes && e.processes[p].turn == t && t in e.turns
    && e.turns == d.turns[t := d.turns[t].(locked := e.turns[t].locked)] && e.turns[t].locked == Some(p)
    && e.applied == d.applied && e.activities == d.activities
    && e.processes[p].phase == if d.turns[t].memory.Some? then Remembered(r) else Staged(r)
  }

  /** The result a run goes by: the saved one, what was stored now, or nothing after a failure. */
  function Result(d: Db, t: int, stored: Option<Memory>): Memory
    requires t in d.turns
  {
    if d.turns[t].memory.Some? then d.turns[t].memory.value else if stored.Some? then stored.value else Memory(0, 0, 0, 0)
  }

  lemma AloneBegins(d: Db, p: int, t: int)
    requires t in d.turns && p !in d.processes && d.turns[t].locked.None?
    ensures var e := Step(Step(d, Begin(p, t)), Lock(p));
      && e.turns == d.turns[t := d.turns[t].(locked := Some(p))] && e.applied == d.applied && e.activities == d.activities
      && p in e.processes && e.processes[p] == Process(t, if d.turns[t].memory.Some? then Remembered(d.turns[t].memory.value) else Storing)
  {
  }

  lemma AloneStores(d: Db, p: int, t: int, stored: Option<Memory>)
    requires t in d.turns && p !in d.processes && d.turns[t].locked.None?
    ensures var e := Step(Step(Step(Step(d, Begin(p, t)), Lock(p)), StoreEvent(p, stored)), Lock(p)); Ready(d, e, p, t, Result(d, t, stored))
  {
    hide Step, Ready;
    var e1 := Step(Step(d, Begin(p, t)), Lock(p));
    AloneBegins(d, p, t);
    Settles(d, e1, p, t, stored);
  }

  lemma Settles(d: Db, e: Db, p: int, t: int, stored: Option<Memory>)
    requires t in d.turns && e.turns == d.turns[t := d.turns[t].(locked := Some(p))] && e.applied == d.applied && e.activities == d.activities
    requires p in e.processes && e.processes[p] == Process(t, if d.turns[t].memory.Some? then Remembered(d.turns[t].memory.value) else Storing)
    ensures Ready(d, Step(Step(e, StoreEvent(p, stored)), Lock(p)), p, t, Result(d, t, stored))
  {
    if d.turns[t].memory.Some? {} else if stored.Some? {} else {
      assert Step(e, StoreFailed(p)).turns == d.turns[t := d.turns[t].(locked := None)];
    }
  }

  lemma AloneCommits(d: Db, e: Db, p: int, t: int, r: Memory)
    requires Ready(d, e, p, t, r) && (d.turns[t].memory.Some? ==> d.turns[t].memory.value == r)
    ensures var g := Step(e, Commit(p));
      && p in g.processes && g.processes[p] == Process(t, Remembered(r)) && t in g.turns && (g.turns[t].locked.None? || g.turns[t].locked == Some(p))
      && g.turns == d.turns[t := d.turns[t].(locked := g.turns[t].locked, memory := Some(r))] && g.activities == d.activities
      && g.applied == if d.turns[t].memory.None? && r.count > 0 then d.applied[t := Times(d.applied, t) + 1] else d.applied
  {
  }

  lemma AloneRecords(d: Db, p: int, t: int, r: Memory)
    requires p in d.processes && d.processes[p] == Process(t, Remembered(r)) && t in d.turns && (d.turns[t].locked.None? || d.turns[t].locked == Some(p))
    ensures var e, day, was := Step(d, RecordActivity(p)), Day(d.turns[t].legacy, r.date), d.turns[t].activity;
      var first := if was.Some? then was.value else r.count > 0 && day !in d.activities;
      && p in e.processes && e.processes[p] == Process(t, Answered(r.count, first))
      && e.turns == d.turns[t := d.turns[t].(locked := None, activity := Some(first))] && e.applied == d.applied
      && e.activities == if was.None? && r.count > 0 then d.activities[day := Contributions(d.activities, day) + 1] else d.activities
  {
  }

  /** Whatever other runs are doing, a run that is left alone with its turn saves what was stored, once; counts the turn on its day if
      memories changed, once; and answers with their number and with whether the day had no activity before. */
  lemma UndisturbedRun(d: Db, p: int, t: int, stored: Option<Memory>)
    requires t in d.turns && p !in d.processes && d.turns[t].locked.None? && (d.turns[t].activity.Some? ==> d.turns[t].memory.Some?)
    ensures var e, was := Run(d, Alone(p, t, stored)), d.turns[t];
      var r := if was.memory.Some? then was.memory.value else if stored.Some? then stored.value else Memory(0, 0, 0, 0);
      var day := Day(was.legacy, r.date);
      var first := if was.activity.Some? then was.activity.value else r.count > 0 && day !in d.activities;
      && p in e.processes && e.processes[p].phase == Answered(r.count, first)
      && e.turns == d.turns[t := was.(memory := Some(r), activity := Some(first))]
      && e.applied == (if was.memory.None? && r.count > 0 then d.applied[t := Times(d.applied, t) + 1] else d.applied)
      && e.activities == if was.activity.None? && r.count > 0 then d.activities[day := Contributions(d.activities, day) + 1] else d.activities
  {
    hide Step, Run, Ready;
    var r := Result(d, t, stored);
    assert Alone(p, t, stored) == [Begin(p, t), Lock(p), StoreEvent(p, stored)] + [Lock(p), Commit(p), RecordActivity(p)];
    RunSplit(d, [Begin(p, t), Lock(p), StoreEvent(p, stored)], [Lock(p), Commit(p), RecordActivity(p)]);
    RunThree(d, Begin(p, t), Lock(p), StoreEvent(p, stored));
    var e1 := Step(Step(Step(d, Begin(p, t)), Lock(p)), StoreEvent(p, stored));
    RunThree(e1, Lock(p), Commit(p), RecordActivity(p));
    AloneStores(d, p, t, stored);
    AloneCommits(d, Step(e1, Lock(p)), p, t, r);
    AloneRecords(Step(Step(e1, Lock(p)), Commit(p)), p, t, r);
  }

  // ---- the tables, updated in place ----

  class EffectTables {
    var turns: map<int, Turn>
    var applied: map<int, nat>
    var activities: map<Day, nat>

    constructor ()
      ensures turns == map[] && applied == map[] && activities == map[]
    {
      turns, applied, activities := map[], map[], map[];
    }

    /** record_builder_activity inside the caller's transaction. */
    method RecordBuilderActivity(day: Day) returns (first: bool)
      modifies this`activities
      ensures first == (day !in old(activities)) && activities == old(activities)[day := Contributions(old(activities), day) + 1]
    {
      first := day !in activities;
      if first { activities := activities[day := 1]; } else { activities := activities[day := activities[day] + 1]; }
    }

    /** apply_effects with no other run in between; stored is what the memory service stored, None when it failed. */
    method ApplyEffects(t: int, stored: Option<Memory>) returns (saved: nat, firstToday: bool)
      requires t in turns && turns[t].locked.None? && (turns[t].activity.Some? ==> turns[t].memory.Some?)
      modifies this
      ensures var was := old(turns)[t];
        var r := if was.memory.Some? then was.memory.value else if stored.Some? then stored.value else Memory(0, 0, 0, 0);
        var day := Day(was.legacy, r.date);
        && saved == r.count && turns == old(turns)[t := was.(memory := Some(r), activity := Some(firstToday))]
        && applied == (if was.memory.None? && r.count > 0 then old(applied)[t := Times(old(applied), t) + 1] else old(applied))
        && (was.activity.Some? ==> firstToday == was.activity.value && activities == old(activities))
        && (was.activity.None? ==> firstToday == (r.count > 0 && day !in old(activities)))
        && (was.activity.None? ==>
              activities == if r.count > 0 then old(activities)[day := Contributions(old(activities), day) + 1] else old(activities))
    {
      var turn := turns[t];
      var r := Memory(0, 0, 0, 0);
      if turn.memory.Some? {
        r := turn.memory.value;
      } else {
        if stored.Some? { r := stored.value; }
        if r.count > 0 { applied := applied[t := (if t in applied then applied[t] else 0) + 1]; }
        turns := turns[t := turn.(memory := Some(r))];
      }
      saved := r.count;
      if turn.activity.Some? {
        firstToday := turn.activity.value;
      } else {
        firstToday := false;
        if r.count > 0 { firstToday := RecordBuilderActivity(Day(turn.legacy, r.date)); }
        turns := turns[t := turn.(memory := Some(r), activity := Some(firstToday))];
      }
    }
  }
}
