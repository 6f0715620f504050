// Admission of text turns under plan enforcement (backend/app/services/turn_lifecycle.py, plan_enforcement.py and
// plan_usage.py): the check of the day's allowance, the new turn and its receipt are one transaction under the
// user's admission lock, and each later state of the turn is saved together with its receipt.
module TextQuota {
  import opened Wrappers
  import opened Sums
  import Reconciler
  import VoiceLedger

  // base is the turn as its receipt sees it.
  datatype Turn = Turn(user: int, conversation: int, mode: VoiceLedger.Mode, key: Option<int>, digest: int, accepted: int, claim: Option<int>,
                       base: Reconciler.Turn)

  /** What a receipt is charged to. */
  datatype Account = Account(user: int, mode: VoiceLedger.Mode, day: int)

  // receipts are the quota receipts by turn, and accounts their columns that no update changes.
  datatype Db = Db(turns: map<int, Turn>, receipts: map<int, Reconciler.Receipt>, accounts: map<int, Account>, used: set<int>)

  // tracking is the immutable marker from which turns are tracked at all.
  datatype Config = Config(plans: VoiceLedger.Plans, tracking: int)

  datatype Request = Request(id: int, user: int, conversation: int, mode: VoiceLedger.Mode, key: Option<int>, digest: int, spoken: bool,
                             streaming: bool, at: int)

  datatype Error = KeyConflict | InProgress | AlreadyCompleted | AlreadyOver | PlanLimit | NotDrawn

  datatype Outcome = Accepted(id: int) | Replayed(id: int) | Refused(error: Error)

  function TextLimit(plan: VoiceLedger.PlanName): nat {
    match plan
    case Free => 40
    case Plus => 120
    case Pro => 400
  }

  function Limit(c: Config, user: int): nat { TextLimit(VoiceLedger.EntitlementOf(c.plans, user).plan) }

  predicate Exempt(c: Config, user: int) { VoiceLedger.EntitlementOf(c.plans, user).exempt }

  function AccountOf(t: Turn): Account { Account(t.user, t.mode, VoiceLedger.DayOf(t.accepted)) }

  /** The turn has a quota receipt: it is no spoken one, and tracking and enforcement had begun. */
  predicate Charged(c: Config, t: Turn) { !t.base.spoken && t.accepted >= c.tracking && t.accepted >= c.plans.cutover }

  predicate Active(t: Turn) { t.base.state.Pending? || t.base.state.Streaming? }

  function Taken(r: Reconciler.Receipt): nat { r.amount + r.reserved }

  ghost function Holdings(d: Db, a: Account): map<int, nat> {
    map id | id in d.receipts && id in d.accounts && d.accounts[id] == a :: Taken(d.receipts[id])
  }

  /** totals: what is recorded and reserved for a user, a mode and a day. */
  ghost function Used(d: Db, a: Account): nat { Sum(Holdings(d, a)) }

  /** check_text */
  ghost predicate Spent(d: Db, c: Config, user: int, mode: VoiceLedger.Mode, at: int) {
    !Exempt(c, user) && Used(d, Account(user, mode, VoiceLedger.DayOf(at))) >= Limit(c, user)
  }

  /** _turn, for the quota receipt. */
  function Track(d: Db, c: Config, id: int): Db {
    if id !in d.turns || !Charged(c, d.turns[id]) then d
    else
      d.(receipts := Reconciler.Put(d.receipts, id, Reconciler.Expected(d.turns[id].base)),
         accounts := if id in d.receipts then d.accounts else d.accounts[id := AccountOf(d.turns[id])])
  }

  /** The turn of the same request key; the key is unique per user and conversation. */
  predicate SameRequest(t: Turn, q: Request) {
    q.key.Some? && t.user == q.user && t.conversation == q.conversation && t.key == q.key
  }

  /** existing_result */
  function Answer(t: Turn, id: int, q: Request): Outcome {
    if t.digest != q.digest then Refused(KeyConflict)
    else if q.spoken then Replayed(id)
    else if t.base.state.Completed? then (if q.streaming then Refused(AlreadyCompleted) else Replayed(id))
    else Refused(if Active(t) then InProgress else AlreadyOver)
  }

  /** A text turn waits for a spoken one; a spoken turn waits for any. */
  predicate Busy(d: Db, q: Request) {
    exists id :: id in d.turns && d.turns[id].conversation == q.conversation && Active(d.turns[id]) && (q.spoken || d.turns[id].base.spoken)
  }

  function NewTurn(q: Request): Turn {
    Turn(q.user, q.conversation, q.mode, q.key, q.digest, q.at, None, Reconciler.Turn(q.spoken, Reconciler.Pending))
  }

  /** accept_turn up to its commit. */
  ghost function Accept(d: Db, c: Config, q: Request): (Db, Outcome) {
    if exists id :: id in d.turns && SameRequest(d.turns[id], q) then
      var id :| id in d.turns && SameRequest(d.turns[id], q);
      (d, Answer(d.turns[id], id, q))
    else if !q.spoken && Spent(d, c, q.user, q.mode, q.at) then (d, Refused(PlanLimit))
    else if Busy(d, q) then (d, Refused(InProgress))
    else if q.id in d.used then (d, Refused(NotDrawn))
    else (Track(d.(turns := d.turns[q.id := NewTurn(q)], used := d.used + {q.id}), c, q.id), Accepted(q.id))
  }

  function SetState(d: Db, c: Config, id: int, state: Reconciler.TurnState, claim: Option<int>): Db
    requires id in d.turns
  {
    Track(d.(turns := d.turns[id := d.turns[id].(claim := claim, base := d.turns[id].base.(state := state))]), c, id)
  }

  /** claim_turn: nobody has claimed the turn yet. */
  function Claim(d: Db, c: Config, id: int, token: int): Db {
    if id !in d.turns || !d.turns[id].base.state.Pending? || d.turns[id].claim.Some? then d
    else SetState(d, c, id, Reconciler.Streaming, Some(token))
  }

  /** finish_turn */
  function Finish(d: Db, c: Config, id: int, token: int, state: Reconciler.TurnState): Db {
    if id !in d.turns || !Reconciler.Terminal(state) || !d.turns[id].base.state.Streaming? || d.turns[id].claim != Some(token) then d
    else SetState(d, c, id, state, d.turns[id].claim)
  }

  /** fail_turn */
  function Fail(d: Db, c: Config, id: int, token: int, interrupted: bool): Db {
    if id !in d.turns || !Active(d.turns[id]) || d.turns[id].claim != Some(token) then d
    else SetState(d, c, id, if interrupted then Reconciler.Interrupted else Reconciler.Failed, d.turns[id].claim)
  }

  /** A chat is deleted with its turns; their receipts stay. */
  function Remove(d: Db, conversation: int): Db {
    d.(turns := map id | id in d.turns && d.turns[id].conversation != conversation :: d.turns[id])
  }

  datatype Event =
    | DoAccept(request: Request)
    | DoClaim(id: int, token: int)
    | DoFinish(id: int, token: int, state: Reconciler.TurnState)
    | DoFail(id: int, token: int, interrupted: bool)
    | DoReconcile(id: int)
    | DoRemove(conversation: int)

  ghost function Step(d: Db, c: Config, e: Event): Db {
    match e
    case DoAccept(q) => Accept(d, c, q).0
    case DoClaim(id, token) => Claim(d, c, id, token)
    case DoFinish(id, token, state) => Finish(d, c, id, token, state)
    case DoFail(id, token, interrupted) => Fail(d, c, id, token, interrupted)
    case DoReconcile(id) => Track(d, c, id)
    case DoRemove(conversation) => Remove(d, conversation)
  }

  ghost function Run(d: Db, c: Config, events: seq<Event>): Db
    decreases |events|
  {
    if events == [] then d else Run(Step(d, c, events[0]), c, events[1..])
  }

  /** The turns from before enforcement have no quota receipts. */
  function Start(before: map<int, Turn>): Db { Db(before, map[], map[], before.Keys) }

  ghost predicate Historic(c: Config, before: map<int, Turn>) {
    && (forall id :: id in before ==> !Charged(c, before[id]))
    && forall i, j :: i in before && j in before && before[i].key.Some? && SameKey(before[i], before[j]) ==> i == j
  }

  predicate SameKey(t: Turn, u: Turn) { t.user == u.user && t.conversation == u.conversation && t.key == u.key }

  // ---- the invariant ----

  /** Every charged turn has the receipt of its state, and no other turn has one. */
  ghost predicate Booked(d: Db, c: Config) {
    && (forall id :: id in d.receipts ==> id in d.used && Reconciler.Balanced(d.receipts[id]))
    && (forall id :: id in d.receipts <==> id in d.accounts) && (forall id :: id in d.turns ==> id in d.used)
    && (forall id :: id in d.turns && Charged(c, d.turns[id]) ==>
          id in d.receipts && d.receipts[id] == Reconciler.Expected(d.turns[id].base) && d.accounts[id] == AccountOf(d.turns[id]))
    && (forall id :: id in d.turns && !Charged(c, d.turns[id]) ==> id !in d.receipts)
  }

  ghost predicate KeysUnique(d: Db) {
    forall i, j :: i in d.turns && j in d.turns && d.turns[i].key.Some? && SameKey(d.turns[i], d.turns[j]) ==> i == j
  }

  ghost predicate WithinLimits(d: Db, c: Config) {
    forall a: Account :: !Exempt(c, a.user) ==> Used(d, a) <= Limit(c, a.user)
  }

  ghost predicate Inv(d: Db, c: Config) { Booked(d, c) && KeysUnique(d) && WithinLimits(d, c) }

  // ---- what an operation adds ----

  lemma UsedFalls(d: Db, e: Db, a: Account)
    requires forall id :: id in Holdings(e, a) ==> id in Holdings(d, a) && Holdings(e, a)[id] <= Holdings(d, a)[id]
    ensures Used(e, a) <= Used(d, a)
  {
    hide Holdings;
    var m, n := Holdings(e, a), Holdings(d, a);
    forall id | id in m ensures id in n && m[id] <= n[id] {}
    SumBelow(m, n);
  }

  /** A receipt is rewritten for less or the same. */
  ghost predicate Lowers(d: Db, e: Db) {
    && e.accounts == d.accounts
    && forall id :: id in e.receipts ==> id in d.receipts && Taken(e.receipts[id]) <= Taken(d.receipts[id])
  }

  lemma LowersKeeps(d: Db, e: Db, c: Config)
    requires Lowers(d, e) && WithinLimits(d, c)
    ensures WithinLimits(e, c)
  {
    forall a: Account | !Exempt(c, a.user) ensures Used(e, a) <= Limit(c, a.user) {
      UsedFalls(d, e, a);
    }
  }

  /** A legal move of a turn: never out of a final state. */
  predicate Moves(t: Reconciler.Turn, state: Reconciler.TurnState) { !Reconciler.Terminal(t.state) || state == t.state }

  /** Turn id becomes t, its receipt follows it, and nothing else moves. */
  ghost predicate Follows(d: Db, c: Config, e: Db, id: int, t: Turn) {
    && id in d.turns && e.turns == d.turns[id := t] && e.accounts == d.accounts && e.used == d.used
    && SameKey(t, d.turns[id]) && AccountOf(t) == AccountOf(d.turns[id]) && (Charged(c, t) <==> Charged(c, d.turns[id]))
    && e.receipts == if Charged(c, t) then d.receipts[id := Reconciler.Expected(t.base)] else d.receipts
  }

  lemma BookedReceipt(d: Db, c: Config, id: int)
    requires Booked(d, c) && id in d.turns
    ensures Charged(c, d.turns[id]) ==> id in d.receipts && d.receipts[id] == Reconciler.Expected(d.turns[id].base)
  {
    hide AccountOf, Charged, Reconciler.Expected;
  }

  lemma MovesReceipt(t: Reconciler.Turn, state: Reconciler.TurnState, m: map<int, Reconciler.Receipt>, id: int)
    requires Moves(t, state) && id in m && m[id] == Reconciler.Expected(t)
    ensures Reconciler.Put(m, id, Reconciler.Expected(t.(state := state))) == m[id := Reconciler.Expected(t.(state := state))]
    ensures Taken(Reconciler.Expected(t.(state := state))) <= Taken(m[id])
  {
  }

  lemma SetStateFollows(d: Db, c: Config, id: int, state: Reconciler.TurnState, claim: Option<int>)
    requires Booked(d, c) && id in d.turns && Moves(d.turns[id].base, state)
    ensures var t := d.turns[id].(claim := claim, base := d.turns[id].base.(state := state));
      Follows(d, c, SetState(d, c, id, state, claim), id, t) && (Charged(c, t) ==> id in d.receipts && Taken(Reconciler.Expected(t.base)) <= Taken(d.receipts[id]))
  {
    hide Booked, AccountOf, Charged, Moves, SameKey, Taken, Reconciler.Put, Reconciler.Expected;
    var t := d.turns[id].(claim := claim, base := d.turns[id].base.(state := state));
    SameColumns(c, d.turns[id], t);
    BookedReceipt(d, c, id);
    if Charged(c, t) { MovesReceipt(d.turns[id].base, state, d.receipts, id); }
  }

  lemma SameColumns(c: Config, t: Turn, u: Turn)
    requires u == t.(claim := u.claim, base := t.base.(state := u.base.state))
    ensures SameKey(u, t) && AccountOf(u) == AccountOf(t) && (Charged(c, u) <==> Charged(c, t))
  {
    hide VoiceLedger.DayOf;
  }

  lemma ExpectedBalanced(t: Reconciler.Turn)
    ensures Reconciler.Balanced(Reconciler.Expected(t))
  {
  }

  lemma FollowsBooks(d: Db, c: Config, e: Db, id: int, t: Turn)
    requires Booked(d, c) && Follows(d, c, e, id, t)
    ensures Booked(e, c)
  {
    ExpectedBalanced(t.base);
    hide AccountOf, Charged, SameKey, Reconciler.Balanced, Reconciler.Expected;
  }

  lemma FollowsKeys(d: Db, c: Config, e: Db, id: int, t: Turn)
    requires KeysUnique(d) && Follows(d, c, e, id, t)
    ensures KeysUnique(e)
  {
    hide AccountOf, Charged, Reconciler.Expected;
  }

  lemma FollowsLowers(d: Db, c: Config, e: Db, id: int, t: Turn)
    requires Booked(d, c) && Follows(d, c, e, id, t) && (Charged(c, t) ==> id in d.receipts && Taken(Reconciler.Expected(t.base)) <= Taken(d.receipts[id]))
    ensures Lowers(d, e)
  {
    hide Booked, AccountOf, Charged, SameKey, Reconciler.Expected, Taken;
  }

  lemma SetStateBooks(d: Db, c: Config, id: int, state: Reconciler.TurnState, claim: Option<int>)
    requires Booked(d, c) && KeysUnique(d) && id in d.turns && Moves(d.turns[id].base, state)
    ensures var e := SetState(d, c, id, state, claim); Booked(e, c) && KeysUnique(e) && Lowers(d, e)
  {
    var t := d.turns[id].(claim := claim, base := d.turns[id].base.(state := state));
    SetStateFollows(d, c, id, state, claim);
    hide Follows, SetState, Booked, KeysUnique, Lowers, AccountOf;
    FollowsBooks(d, c, SetState(d, c, id, state, claim), id, t);
    FollowsKeys(d, c, SetState(d, c, id, state, claim), id, t);
    FollowsLowers(d, c, SetState(d, c, id, state, claim), id, t);
  }

  lemma SetStateKeeps(d: Db, c: Config, id: int, state: Reconciler.TurnState, claim: Option<int>)
    requires Inv(d, c) && id in d.turns && Moves(d.turns[id].base, state)
    ensures Inv(SetState(d, c, id, state, claim), c)
  {
    SetStateBooks(d, c, id, state, claim);
    hide SetState, Booked, KeysUnique, Lowers, WithinLimits;
    LowersKeeps(d, SetState(d, c, id, state, claim), c);
  }

  lemma TrackKeeps(d: Db, c: Config, id: int)
    requires Inv(d, c)
    ensures Track(d, c, id) == d
  {
    if id in d.turns && Charged(c, d.turns[id]) {
      assert Reconciler.Put(d.receipts, id, Reconciler.Expected(d.turns[id].base)) == d.receipts;
    }
  }

  lemma RemoveKeeps(d: Db, c: Config, conversation: int)
    requires Inv(d, c)
    ensures Inv(Remove(d, conversation), c)
  {
    var e := Remove(d, conversation);
    LowersKeeps(d, e, c);
  }

  lemma AcceptedIs(d: Db, c: Config, q: Request)
    requires Booked(d, c) && q.id !in d.used
    ensures var e := Track(d.(turns := d.turns[q.id := NewTurn(q)], used := d.used + {q.id}), c, q.id);
      && e.turns == d.turns[q.id := NewTurn(q)] && e.used == d.used + {q.id} && q.id !in d.receipts && q.id !in d.turns
      && (Charged(c, NewTurn(q)) ==>
            e.receipts == d.receipts[q.id := Reconciler.Receipt(0, 1, 0, Reconciler.Pending)] && e.accounts == d.accounts[q.id := AccountOf(NewTurn(q))])
      && (!Charged(c, NewTurn(q)) ==> e.receipts == d.receipts && e.accounts == d.accounts)
  {
  }

  lemma AcceptBooks(d: Db, c: Config, q: Request)
    requires Booked(d, c) && KeysUnique(d) && Accept(d, c, q).1.Accepted?
    ensures Booked(Accept(d, c, q).0, c) && KeysUnique(Accept(d, c, q).0)
  {
    AcceptedIs(d, c, q);
    hide Spent, Busy, Track;
    var e := Accept(d, c, q).0;
    forall i | i in d.turns ensures !SameRequest(d.turns[i], q) {}
  }

  lemma HoldingsGrow(d: Db, e: Db, id: int, a: Account, b: Account)
    requires id !in d.receipts && id !in d.accounts
    requires e.receipts == d.receipts[id := Reconciler.Receipt(0, 1, 0, Reconciler.Pending)] && e.accounts == d.accounts[id := a]
    ensures Used(e, b) == Used(d, b) + if a == b then 1 else 0
  {
    if a == b {
      assert Holdings(e, b) == Holdings(d, b)[id := 1];
      SumUpdate(Holdings(d, b), id, 1);
      assert Holdings(d, b) - {id} == Holdings(d, b);
    } else {
      assert Holdings(e, b) == Holdings(d, b);
    }
  }

  lemma AcceptKeeps(d: Db, c: Config, q: Request)
    requires Inv(d, c)
    ensures Inv(Accept(d, c, q).0, c)
  {
    if Accept(d, c, q).1.Accepted? {
      AcceptBooks(d, c, q);
      AcceptedIs(d, c, q);
      hide Booked, KeysUnique, Track, Busy;
      var e := Accept(d, c, q).0;
      assert q.id in d.receipts <==> q.id in d.accounts by { KeysMatch(d, c); }
      forall b: Account | !Exempt(c, b.user) ensures Used(e, b) <= Limit(c, b.user) {
        if Charged(c, NewTurn(q)) {
          HoldingsGrow(d, e, q.id, AccountOf(NewTurn(q)), b);
        } else {
          assert Holdings(e, b) == Holdings(d, b);
        }
      }
    }
  }

  lemma KeysMatch(d: Db, c: Config)
    requires Booked(d, c)
    ensures forall id :: id in d.receipts <==> id in d.accounts
  {
  }

  lemma StepKeeps(d: Db, c: Config, e: Event)
    requires Inv(d, c)
    ensures Inv(Step(d, c, e), c)
  {
    hide Inv, Accept, SetState, Track, Remove;
    match e
    case DoAccept(q) => AcceptKeeps(d, c, q);
    case DoClaim(id, token) => if Claim(d, c, id, token) != d { SetStateKeeps(d, c, id, Reconciler.Streaming, Some(token)); }
    case DoFinish(id, token, state) => if Finish(d, c, id, token, state) != d { SetStateKeeps(d, c, id, state, d.turns[id].claim); }
    case DoFail(id, token, interrupted) =>
      if Fail(d, c, id, token, interrupted) != d {
        SetStateKeeps(d, c, id, if interrupted then Reconciler.Interrupted else Reconciler.Failed, d.turns[id].claim);
      }
    case DoReconcile(id) => TrackKeeps(d, c, id);
    case DoRemove(conversation) => RemoveKeeps(d, c, conversation);
  }

  lemma {:induction false} RunKeeps(d: Db, c: Config, events: seq<Event>)
    requires Inv(d, c)
    ensures Inv(Run(d, c, events), c)
    decreases |events|
  {
    hide Inv, Step;
    if events != [] {
      StepKeeps(d, c, events[0]);
      RunKeeps(Step(d, c, events[0]), c, events[1..]);
    }
  }

  lemma StartOk(c: Config, before: map<int, Turn>)
    requires Historic(c, before)
    ensures Inv(Start(before), c)
  {
    forall a: Account ensures Used(Start(before), a) == 0 { assert Holdings(Start(before), a) == map[]; }
  }

  // ---- what it promises ----

  /** The turns of an account that were answered, or may still be. */
  function Answers(d: Db, c: Config, a: Account): set<int> {
    set id | id in d.turns && Charged(c, d.turns[id]) && AccountOf(d.turns[id]) == a && (Active(d.turns[id]) || d.turns[id].base.state.Completed?)
  }

  lemma AnswerHolds(d: Db, c: Config, a: Account, id: int)
    requires Booked(d, c) && id in Answers(d, c, a)
    ensures id in Holdings(d, a) && Holdings(d, a)[id] == 1
  {
  }

  lemma ReceiptOf(d: Db, c: Config, id: int)
    requires Booked(d, c) && id in d.turns && id in d.receipts
    ensures Charged(c, d.turns[id]) && id in d.accounts && d.accounts[id] == AccountOf(d.turns[id])
    ensures d.receipts[id] == Reconciler.Expected(d.turns[id].base)
  {
    hide AccountOf, Reconciler.Balanced;
  }

  lemma HolderAnswers(d: Db, c: Config, a: Account, id: int)
    requires Booked(d, c) && id in Holdings(d, a) && id in d.turns
    ensures Holdings(d, a)[id] == if id in Answers(d, c, a) then 1 else 0
  {
    ReceiptOf(d, c, id);
    hide Booked, AccountOf, Charged;
  }

  lemma AnswersAreUsed(d: Db, c: Config, a: Account)
    requires Booked(d, c)
    ensures |Answers(d, c, a)| <= Used(d, a)
    ensures (forall id :: id in d.accounts && d.accounts[id] == a ==> id in d.turns) ==> |Answers(d, c, a)| == Used(d, a)
  {
    var s, m := Answers(d, c, a), Holdings(d, a);
    assert forall id :: id in m ==> id in d.accounts && d.accounts[id] == a;
    hide Answers, Holdings, Booked;
    forall id | id in s ensures id in m && m[id] == 1 { AnswerHolds(d, c, a, id); }
    CountBelow(s, m);
    if forall id :: id in d.accounts && d.accounts[id] == a ==> id in d.turns {
      forall id | id in m ensures m[id] == if id in s then 1 else 0 { HolderAnswers(d, c, a, id); }
      CountIs(s, m);
    }
  }

  /** Over every run of any users' turns, what a user has recorded and reserved for a mode and day never exceeds the plan's
      limit, and neither do the turns that were answered or may still be; while none of the day's chats was deleted, the two are equal. */
  lemma TextWithinLimit(c: Config, before: map<int, Turn>, events: seq<Event>, a: Account)
    requires Historic(c, before)
    ensures var d := Run(Start(before), c, events);
      && (!Exempt(c, a.user) ==> Used(d, a) <= Limit(c, a.user))
      && |Answers(d, c, a)| <= Used(d, a)
      && ((forall id :: id in d.accounts && d.accounts[id] == a ==> id in d.turns) ==> |Answers(d, c, a)| == Used(d, a))
  {
    hide Answers, Booked, KeysUnique, Used, Historic;
    StartOk(c, before);
    RunKeeps(Start(before), c, events);
    AnswersAreUsed(Run(Start(before), c, events), c, a);
  }

  /** A turn is refused for the plan only when exactly the limit is taken. */
  lemma RefusedOnlyAtLimit(c: Config, before: map<int, Turn>, events: seq<Event>, q: Request)
    requires Historic(c, before)
    ensures var d := Run(Start(before), c, events);
      Accept(d, c, q).1 == Refused(PlanLimit) ==>
        !q.spoken && !Exempt(c, q.user) && Used(d, Account(q.user, q.mode, VoiceLedger.DayOf(q.at))) == Limit(c, q.user)
  {
    hide Booked, KeysUnique, Used, Historic, Busy, Track;
    StartOk(c, before);
    RunKeeps(Start(before), c, events);
  }

  lemma HoldingChanges(d: Db, e: Db, a: Account, id: int, r: Reconciler.Receipt)
    requires id in d.receipts && id in d.accounts && d.accounts[id] == a
    requires e.accounts == d.accounts && e.receipts == d.receipts[id := r]
    ensures Used(e, a) + Taken(d.receipts[id]) == Used(d, a) + Taken(r)
  {
    hide Taken;
    assert Holdings(e, a) == Holdings(d, a)[id := Taken(r)];
    SumUpdate(Holdings(d, a), id, Taken(r));
  }

  lemma ClosesReceipt(d: Db, c: Config, id: int, state: Reconciler.TurnState)
    requires id in d.turns && Charged(c, d.turns[id]) && Reconciler.Terminal(state) && id in d.receipts && d.receipts[id].state.Pending?
    ensures var e := SetState(d, c, id, state, d.turns[id].claim);
      && e.accounts == d.accounts && e.receipts == d.receipts[id := Reconciler.Expected(Reconciler.Turn(false, state))]
  {
    hide AccountOf;
  }

  lemma ClosesUsed(d: Db, c: Config, id: int, state: Reconciler.TurnState)
    requires Booked(d, c) && id in d.turns && Charged(c, d.turns[id]) && Active(d.turns[id]) && Reconciler.Terminal(state)
    ensures var a := AccountOf(d.turns[id]);
      Used(SetState(d, c, id, state, d.turns[id].claim), a) == Used(d, a) - if state.Completed? then 0 else 1
  {
    hide Used, SetState, AccountOf;
    assert id in d.receipts by { hide Reconciler.Balanced; }
    ReceiptOf(d, c, id);
    ClosesReceipt(d, c, id, state);
    HoldingChanges(d, SetState(d, c, id, state, d.turns[id].claim), AccountOf(d.turns[id]), id, Reconciler.Expected(Reconciler.Turn(false, state)));
    hide Booked, Charged;
  }

  /** An answered turn keeps its place in the day's limit, and a failed or interrupted one gives it back, once. */
  lemma OnlyFailureGivesBack(d: Db, c: Config, id: int, token: int, state: Reconciler.TurnState, interrupted: bool)
    requires Inv(d, c) && id in d.turns && Charged(c, d.turns[id]) && d.turns[id].base.state.Streaming? && d.turns[id].claim == Some(token)
    requires Reconciler.Terminal(state)
    ensures var a := AccountOf(d.turns[id]);
      && Used(Finish(d, c, id, token, state), a) == Used(d, a) - (if state.Completed? then 0 else 1)
      && Used(Fail(d, c, id, token, interrupted), a) == Used(d, a) - 1
      && Fail(Finish(d, c, id, token, state), c, id, token, interrupted) == Finish(d, c, id, token, state)
  {
    ClosesUsed(d, c, id, state);
    ClosesUsed(d, c, id, if interrupted then Reconciler.Interrupted else Reconciler.Failed);
    Finished(d, c, id, state);
    hide Inv, Used, SetState;
  }

  lemma Finished(d: Db, c: Config, id: int, state: Reconciler.TurnState)
    requires id in d.turns && Reconciler.Terminal(state)
    ensures var e := SetState(d, c, id, state, d.turns[id].claim); id in e.turns && !Active(e.turns[id])
  {
  }

  // ---- repeated requests ----

  /** What has become of a turn: who claimed it first, and how that one ended it. */
  datatype Life = Life(holder: Option<int>, ended: Option<Reconciler.TurnState>)

  /** The first claim holds the turn, and only its holder ends it, once. */
  function Lives(l: Life, id: int, e: Event): Life {
    if l.ended.Some? then l
    else match e
      case DoClaim(turn, token) => if turn == id && l.holder.None? then Life(Some(token), None) else l
      case DoFinish(turn, token, state) =>
        if turn == id && l.holder == Some(token) && state in {Reconciler.Completed, Reconciler.Failed, Reconciler.Interrupted}
        then Life(l.holder, Some(state)) else l
      case DoFail(turn, token, interrupted) =>
        if turn == id && l.holder == Some(token) then Life(l.holder, Some(if interrupted then Reconciler.Interrupted else Reconciler.Failed)) else l
      case _ => l
  }

  function LifeOf(l: Life, id: int, events: seq<Event>): Life
    decreases |events|
  {
    if events == [] then l else LifeOf(Lives(l, id, events[0]), id, events[1..])
  }

  const UNCLAIMED := Life(None, None)

  /** The turn is still there, for the same request and as far as its life has come. */
  predicate Kept(d: Db, id: int, t: Turn, l: Life) {
    && id in d.turns && SameKey(d.turns[id], t) && d.turns[id].digest == t.digest && d.turns[id].claim == l.holder
    && d.turns[id].base.state == match l.ended
         case Some(state) => state
         case None => if l.holder.Some? then Reconciler.Streaming else Reconciler.Pending
  }

  lemma StepRemembers(d: Db, c: Config, e: Event, id: int, t: Turn, l: Life)
    requires Inv(d, c) && Kept(d, id, t, l) && e != DoRemove(t.conversation)
    requires l.ended.Some? ==> Reconciler.Terminal(l.ended.value)
    ensures Kept(Step(d, c, e), id, t, Lives(l, id, e))
  {
    assert id in d.used;
    hide Inv, Spent, Busy, Track, Answer;
    match e
    case DoAccept(q) =>
      TrackTurns(d.(turns := d.turns[q.id := NewTurn(q)], used := d.used + {q.id}), c, q.id);
      if Accept(d, c, q).1.Accepted? {}
    case DoClaim(i, token) => if i in d.turns { SetStateTurns(d, c, i, Reconciler.Streaming, Some(token)); } hide SetState;
    case DoFinish(i, token, state) => if i in d.turns { SetStateTurns(d, c, i, state, d.turns[i].claim); } hide SetState;
    case DoFail(i, token, interrupted) =>
      if i in d.turns { SetStateTurns(d, c, i, if interrupted then Reconciler.Interrupted else Reconciler.Failed, d.turns[i].claim); }
      hide SetState;
    case DoReconcile(i) => TrackTurns(d, c, i);
    case DoRemove(_) =>
  }

  lemma TrackTurns(d: Db, c: Config, id: int)
    ensures Track(d, c, id).turns == d.turns
  {
    hide Charged, AccountOf;
  }

  lemma SetStateTurns(d: Db, c: Config, id: int, state: Reconciler.TurnState, claim: Option<int>)
    requires id in d.turns
    ensures SetState(d, c, id, state, claim).turns == d.turns[id := d.turns[id].(claim := claim, base := d.turns[id].base.(state := state))]
  {
    TrackTurns(d.(turns := d.turns[id := d.turns[id].(claim := claim, base := d.turns[id].base.(state := state))]), c, id);
    hide Track;
  }

  lemma {:induction false} RunRemembers(d: Db, c: Config, events: seq<Event>, id: int, t: Turn, l: Life)
    requires Inv(d, c) && Kept(d, id, t, l) && forall k :: 0 <= k < |events| ==> events[k] != DoRemove(t.conversation)
    requires l.ended.Some? ==> Reconciler.Terminal(l.ended.value)
    ensures Kept(Run(d, c, events), id, t, LifeOf(l, id, events)) && Inv(Run(d, c, events), c)
    decreases |events|
  {
    hide Inv, Step, Kept;
    if events != [] {
      StepKeeps(d, c, events[0]);
      StepRemembers(d, c, events[0], id, t, l);
      RunRemembers(Step(d, c, events[0]), c, events[1..], id, t, Lives(l, id, events[0]));
    }
  }

  /** A request that was accepted once is never charged again: whatever ran in between, while the chat is kept, its repetition
      changes nothing. It is answered from the first turn, by what became of that: replayed once it was completed, unless it
      asks for a stream; in progress until its holder ended it; over after a failure; and a conflict if it asks for something else. */
  lemma RepeatsAreFree(d: Db, c: Config, q: Request, events: seq<Event>, again: Request)
    requires Inv(d, c) && Accept(d, c, q).1.Accepted? && forall k :: 0 <= k < |events| ==> events[k] != DoRemove(q.conversation)
    requires again.key.Some? && again.key == q.key && again.user == q.user && again.conversation == q.conversation
    ensures var f, ended := Run(Accept(d, c, q).0, c, events), LifeOf(UNCLAIMED, q.id, events).ended;
      && Accept(f, c, again).0 == f
      && Accept(f, c, again).1 ==
           if again.digest != q.digest then Refused(KeyConflict)
           else if again.spoken then Replayed(q.id)
           else if ended.None? then Refused(InProgress)
           else if ended != Some(Reconciler.Completed) then Refused(AlreadyOver)
           else if again.streaming then Refused(AlreadyCompleted)
           else Replayed(q.id)
  {
    var e := Accept(d, c, q).0;
    AcceptKeeps(d, c, q);
    AcceptedIs(d, c, q);
    assert Kept(e, q.id, NewTurn(q), UNCLAIMED);
    hide Booked, WithinLimits, Spent, Busy, Track;
    RunRemembers(e, c, events, q.id, NewTurn(q), UNCLAIMED);
    EndIsFinal(UNCLAIMED, q.id, events);
    OneAnswer(Run(e, c, events), c, q.id, again);
  }

  lemma {:induction false} EndIsFinal(l: Life, id: int, events: seq<Event>)
    requires l.ended.Some? ==> Reconciler.Terminal(l.ended.value)
    ensures LifeOf(l, id, events).ended.Some? ==> Reconciler.Terminal(LifeOf(l, id, events).ended.value)
    decreases |events|
  {
    if events != [] { EndIsFinal(Lives(l, id, events[0]), id, events[1..]); }
  }

  lemma OneAnswer(d: Db, c: Config, id: int, q: Request)
    requires KeysUnique(d) && id in d.turns && SameRequest(d.turns[id], q)
    ensures Accept(d, c, q) == (d, Answer(d.turns[id], id, q))
  {
    forall j | j in d.turns && SameRequest(d.turns[j], q) ensures j == id {
      assert SameKey(d.turns[j], d.turns[id]);
    }
  }

  // ---- one chat ----

  /** An open spoken turn is the only open turn of its chat. */
  ghost predicate SpokenAlone(d: Db) {
    forall i, j :: (i in d.turns && j in d.turns && d.turns[i].base.spoken && Active(d.turns[i]) && Active(d.turns[j])
                    && d.turns[i].conversation == d.turns[j].conversation) ==> i == j
  }

  /** A turn is open in the chat that a new one has to wait for: any for a spoken turn, a spoken one for a text turn. */
  predicate Occupied(d: Db, conversation: int, spoken: bool) {
    exists id :: id in d.turns && d.turns[id].conversation == conversation && (d.turns[id].base.state.Pending? || d.turns[id].base.state.Streaming?)
                 && (spoken || d.turns[id].base.spoken)
  }

  lemma StepKeepsAlone(d: Db, c: Config, e: Event)
    requires Inv(d, c) && SpokenAlone(d)
    ensures SpokenAlone(Step(d, c, e))
  {
    match e
    case DoAccept(q) =>
      if Accept(d, c, q).1.Accepted? {
        AcceptedIs(d, c, q);
        hide Inv, Track, Spent;
      }
    case DoClaim(id, token) => hide Track; if Claim(d, c, id, token) != d { MovesKeepAlone(d, Claim(d, c, id, token), id); }
    case DoFinish(id, token, state) => if Finish(d, c, id, token, state) != d { MovesKeepAlone(d, Finish(d, c, id, token, state), id); }
    case DoFail(id, token, interrupted) => if Fail(d, c, id, token, interrupted) != d { MovesKeepAlone(d, Fail(d, c, id, token, interrupted), id); }
    case DoReconcile(id) => TrackKeeps(d, c, id);
    case DoRemove(_) => hide Inv;
  }

  lemma MovesKeepAlone(d: Db, e: Db, id: int)
    requires SpokenAlone(d) && id in d.turns && id in e.turns && Active(d.turns[id]) && e.turns == d.turns[id := e.turns[id]]
    requires e.turns[id].conversation == d.turns[id].conversation && e.turns[id].base.spoken == d.turns[id].base.spoken
    ensures SpokenAlone(e)
  {
  }

  /** Over every run, an open spoken turn is the only open turn of its chat. */
  lemma {:induction false} SpokenStaysAlone(d: Db, c: Config, events: seq<Event>)
    requires Inv(d, c) && SpokenAlone(d)
    ensures SpokenAlone(Run(d, c, events))
    decreases |events|
  {
    hide Inv, Step, SpokenAlone;
    if events != [] {
      StepKeeps(d, c, events[0]);
      StepKeepsAlone(d, c, events[0]);
      SpokenStaysAlone(Step(d, c, events[0]), c, events[1..]);
    }
  }

  /** A new request is refused for the plan exactly when the day is used up, otherwise exactly when its chat is occupied, and is
      otherwise accepted: pending and unclaimed. */
  lemma AcceptIsExact(d: Db, c: Config, q: Request)
    requires Booked(d, c) && q.id !in d.used && forall id :: id in d.turns ==> !SameRequest(d.turns[id], q)
    ensures var (e, out) := Accept(d, c, q);
      && (out == Refused(PlanLimit) <==>
            !q.spoken && !Exempt(c, q.user) && Used(d, Account(q.user, q.mode, VoiceLedger.DayOf(q.at))) >= Limit(c, q.user))
      && (out == Refused(InProgress) <==> out != Refused(PlanLimit) && Occupied(d, q.conversation, q.spoken))
      && (out == Accepted(q.id) <==> out != Refused(PlanLimit) && !Occupied(d, q.conversation, q.spoken))
      && (!out.Accepted? ==> e == d)
      && (out.Accepted? ==>
            e.turns == d.turns[q.id := Turn(q.user, q.conversation, q.mode, q.key, q.digest, q.at, None, Reconciler.Turn(q.spoken, Reconciler.Pending))])
  {
    AcceptedIs(d, c, q);
    if Busy(d, q) {
      var id :| id in d.turns && d.turns[id].conversation == q.conversation && Active(d.turns[id]) && (q.spoken || d.turns[id].base.spoken);
      assert Occupied(d, q.conversation, q.spoken);
    }
    hide Booked, Used, Track;
  }

  /** An accepted turn takes one place of its user, its mode and its day, exactly when it is a text turn under tracking and
      enforcement, and none of anybody else's. */
  lemma AcceptTakesOne(d: Db, c: Config, q: Request, a: Account)
    requires Booked(d, c) && Accept(d, c, q).1.Accepted?
    ensures var mine := a == Account(q.user, q.mode, VoiceLedger.DayOf(q.at)) && !q.spoken && c.tracking <= q.at && c.plans.cutover <= q.at;
      Used(Accept(d, c, q).0, a) == Used(d, a) + if mine then 1 else 0
  {
    AcceptedIs(d, c, q);
    KeysMatch(d, c);
    var e := Accept(d, c, q).0;
    hide Booked, Track, Spent, Busy, VoiceLedger.DayOf;
    if Charged(c, NewTurn(q)) {
      HoldingsGrow(d, e, q.id, AccountOf(NewTurn(q)), a);
    } else {
      assert Holdings(e, a) == Holdings(d, a);
    }
  }

  // ---- the tables, updated in place ----

  class TextTables {
    const config: Config
    var turns: map<int, Turn>
    var receipts: map<int, Reconciler.Receipt>
    var accounts: map<int, Account>
    var used: set<int>

    ghost function View(): Db
      reads this
    {
      Db(turns, receipts, accounts, used)
    }

    constructor (config: Config, before: map<int, Turn>)
      ensures View() == Start(before) && this.config == config
    {
      this.config := config;
      turns, receipts, accounts, used := before, map[], map[], before.Keys;
    }

    /** The sum query of totals. */
    method Totals(a: Account) returns (n: nat)
      ensures n == Used(View(), a)
    {
      ghost var all := Holdings(View(), a);
      ghost var left := all;
      var keys := set id | id in receipts && id in accounts && accounts[id] == a;
      n := 0;
      while exists id :: id in keys
        invariant keys == left.Keys
        invariant forall id :: id in left ==> id in receipts && left[id] == Taken(receipts[id])
        invariant Sum(all) == n + Sum(left)
        decreases keys
      {
        var id :| id in keys;
        SumRemove(left, id);
        n := n + receipts[id].amount + receipts[id].reserved;
        keys, left := keys - {id}, left - {id};
      }
      assert left == map[];
    }

    method TrackTurn(id: int)
      modifies this`receipts, this`accounts
      ensures View() == Track(old(View()), config, id)
    {
      if id !in turns || !Charged(config, turns[id]) { return; }
      var r := Reconciler.Expected(turns[id].base);
      if id !in receipts {
        receipts, accounts := receipts[id := r], accounts[id := AccountOf(turns[id])];
      } else if receipts[id].state.Pending? || receipts[id].state == r.state {
        receipts := receipts[id := r];
      }
    }

    /** accept_turn up to its commit; the request keys are unique by constraint. */
    method AcceptTurn(q: Request) returns (out: Outcome)
      requires KeysUnique(View())
      modifies this
      ensures (View(), out) == Accept(old(View()), config, q)
    {
      if exists id :: id in turns && SameRequest(turns[id], q) {
        var id :| id in turns && SameRequest(turns[id], q);
        OneAnswer(View(), config, id, q);
        return Answer(turns[id], id, q);
      }
      if !q.spoken && !Exempt(config, q.user) {
        var taken := Totals(Account(q.user, q.mode, VoiceLedger.DayOf(q.at)));
        if taken >= Limit(config, q.user) { return Refused(PlanLimit); }
      }
      if exists id :: id in turns && turns[id].conversation == q.conversation && Active(turns[id]) && (q.spoken || turns[id].base.spoken) {
        return Refused(InProgress);
      }
      if q.id in used { return Refused(NotDrawn); }
      turns := turns[q.id := NewTurn(q)];
      used := used + {q.id};
      TrackTurn(q.id);
      out := Accepted(q.id);
    }

    method ClaimTurn(id: int, token: int)
      modifies this
      ensures View() == Claim(old(View()), config, id, token)
    {
      if id !in turns || !turns[id].base.state.Pending? || turns[id].claim.Some? { return; }
      turns := turns[id := turns[id].(claim := Some(token), base := turns[id].base.(state := Reconciler.Streaming))];
      TrackTurn(id);
    }

    method FinishTurn(id: int, token: int, state: Reconciler.TurnState)
      modifies this
      ensures View() == Finish(old(View()), config, id, token, state)
    {
      if id !in turns || !Reconciler.Terminal(state) || !turns[id].base.state.Streaming? || turns[id].claim != Some(token) { return; }
      turns := turns[id := turns[id].(base := turns[id].base.(state := state))];
      TrackTurn(id);
    }

    method FailTurn(id: int, token: int, interrupted: bool)
      modifies this
      ensures View() == Fail(old(View()), config, id, token, interrupted)
    {
      if id !in turns || !Active(turns[id]) || turns[id].claim != Some(token) { return; }
      var state := if interrupted then Reconciler.Interrupted else Reconciler.Failed;
      turns := turns[id := turns[id].(base := turns[id].base.(state := state))];
      TrackTurn(id);
    }
  }
}
