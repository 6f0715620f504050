// Text receipts and their repair (backend/app/services/plan_usage.py): a receipt per turn, and a wrapping
// cursor that revisits every turn in bounded passes.
module Reconciler {
  import opened Wrappers

  datatype TurnState = Pending | Streaming | Completed | Failed | Interrupted

  /** A conversation turn; spoken turns have no text receipt. */
  datatype Turn = Turn(spoken: bool, state: TurnState)

  datatype Receipt = Receipt(amount: nat, reserved: nat, released: nat, state: TurnState)

  predicate Terminal(s: TurnState) { s.Completed? || s.Failed? || s.Interrupted? }

  // ids are the turns accepted since tracking began, by ascending id.
  datatype Db = Db(ids: seq<int>, turns: map<int, Turn>, receipts: map<int, Receipt>, cursor: int)

  // ---- one receipt ----

  function Expected(t: Turn): Receipt {
    var state := if Terminal(t.state) then t.state else Pending;
    Receipt(if state.Completed? then 1 else 0, if state.Pending? then 1 else 0, if state.Failed? || state.Interrupted? then 1 else 0, state)
  }

  /** _put: a terminal receipt is not reopened, nor moved to another terminal state. */
  function Put(m: map<int, Receipt>, id: int, r: Receipt): map<int, Receipt> {
    if id !in m || m[id].state.Pending? || m[id].state == r.state then m[id := r] else m
  }

  /** _turn */
  function Track(m: map<int, Receipt>, turns: map<int, Turn>, id: int): map<int, Receipt> {
    if id !in turns || turns[id].spoken then m else Put(m, id, Expected(turns[id]))
  }

  function TrackAll(m: map<int, Receipt>, turns: map<int, Turn>, ids: seq<int>): map<int, Receipt>
    decreases |ids|
  {
    if ids == [] then m else TrackAll(Track(m, turns, ids[0]), turns, ids[1..])
  }

  // ---- one pass ----

  /** How many of the ascending ids do not exceed the cursor. */
  function Rank(ids: seq<int>, cursor: int): (n: nat)
    ensures n <= |ids|
  {
    if ids == [] || ids[0] > cursor then 0 else 1 + Rank(ids[1..], cursor)
  }

  function Batch(ids: seq<int>, cursor: int, size: nat): seq<int> {
    var from := Rank(ids, cursor);
    ids[from..Min(from + size, |ids|)]
  }

  function NextCursor(ids: seq<int>, cursor: int, size: nat): int
    requires size > 0
  {
    var batch := Batch(ids, cursor, size);
    if |batch| == size then batch[size - 1] else 0
  }

  function Pass(d: Db, size: nat): Db
    requires size > 0
  {
    d.(receipts := TrackAll(d.receipts, d.turns, Batch(d.ids, d.cursor, size)), cursor := NextCursor(d.ids, d.cursor, size))
  }

  function Passes(d: Db, size: nat, n: nat): Db
    requires size > 0
    decreases n
  {
    if n == 0 then d else Passes(Pass(d, size), size, n - 1)
  }

  // ---- what the tables hold ----

  ghost predicate Ascending(ids: seq<int>) {
    (forall i :: 0 <= i < |ids| ==> ids[i] > 0) && forall i, j :: 0 <= i < j < |ids| ==> ids[i] < ids[j]
  }

  predicate Balanced(r: Receipt) {
    && r.amount + r.reserved + r.released == 1
    && (r.amount == 1 <==> r.state.Completed?) && (r.reserved == 1 <==> r.state.Pending?) && !r.state.Streaming?
  }

  /** A receipt belongs to a text turn, charges it once, and says no more than the turn's own final state. */
  ghost predicate ReceiptsOk(receipts: map<int, Receipt>, turns: map<int, Turn>) {
    forall id :: id in receipts ==> (id in turns && !turns[id].spoken && Balanced(receipts[id])
      && (Terminal(receipts[id].state) ==> receipts[id].state == turns[id].state))
  }

  ghost predicate Inv(d: Db) {
    Ascending(d.ids) && ReceiptsOk(d.receipts, d.turns) && (forall i :: 0 <= i < |d.ids| ==> d.ids[i] in d.turns)
  }

  lemma TrackSettles(m: map<int, Receipt>, turns: map<int, Turn>, id: int)
    requires ReceiptsOk(m, turns)
    ensures ReceiptsOk(Track(m, turns, id), turns)
    ensures id in turns && !turns[id].spoken ==> id in Track(m, turns, id) && Track(m, turns, id)[id] == Expected(turns[id])
    ensures forall x :: x in m ==> x in Track(m, turns, id) && (Terminal(m[x].state) ==> Track(m, turns, id)[x] == m[x])
  {
  }

  ghost predicate Settled(m: map<int, Receipt>, turns: map<int, Turn>, id: int) {
    id in turns && !turns[id].spoken ==> id in m && m[id] == Expected(turns[id])
  }

  lemma TrackKeepsSettled(m: map<int, Receipt>, turns: map<int, Turn>, id: int, other: int)
    requires ReceiptsOk(m, turns) && Settled(m, turns, other)
    ensures Settled(Track(m, turns, id), turns, other)
  {
  }

  lemma {:induction false} TrackAllKeeps(m: map<int, Receipt>, turns: map<int, Turn>, ids: seq<int>)
    requires ReceiptsOk(m, turns)
    ensures ReceiptsOk(TrackAll(m, turns, ids), turns)
    ensures forall x :: x in m && Terminal(m[x].state) ==> x in TrackAll(m, turns, ids) && TrackAll(m, turns, ids)[x] == m[x]
    decreases |ids|
  {
    if ids != [] {
      TrackSettles(m, turns, ids[0]);
      TrackAllKeeps(Track(m, turns, ids[0]), turns, ids[1..]);
    }
  }

  lemma {:induction false} TrackAllSettles(m: map<int, Receipt>, turns: map<int, Turn>, ids: seq<int>, id: int)
    requires ReceiptsOk(m, turns) && (id in ids || Settled(m, turns, id))
    ensures Settled(TrackAll(m, turns, ids), turns, id)
    decreases |ids|
  {
    if ids != [] {
      var n := Track(m, turns, ids[0]);
      TrackSettles(m, turns, ids[0]);
      if id != ids[0] {
        if Settled(m, turns, id) { TrackKeepsSettled(m, turns, ids[0], id); } else { assert id in ids[1..]; }
      }
      TrackAllSettles(n, turns, ids[1..], id);
    }
  }

  // ---- the cursor ----

  lemma {:induction false} RankIs(ids: seq<int>, cursor: int, i: nat)
    requires Ascending(ids) && i < |ids|
    ensures ids[i] <= cursor <==> i < Rank(ids, cursor)
  {
    if ids[0] > cursor {
      assert ids[0] <= ids[i];
    } else if i > 0 {
      RankIs(ids[1..], cursor, i - 1);
    }
  }

  lemma RankAt(ids: seq<int>, i: nat)
    requires Ascending(ids) && i < |ids|
    ensures Rank(ids, ids[i]) == i + 1
  {
    RankIs(ids, ids[i], i);
    if i + 1 < |ids| { RankIs(ids, ids[i], i + 1); }
  }

  lemma RankZero(ids: seq<int>)
    requires Ascending(ids)
    ensures Rank(ids, 0) == 0
  {
  }

  /** A pass moves the cursor on by a full batch, or back to the start. */
  lemma PassMoves(d: Db, size: nat)
    requires Inv(d) && size > 0
    ensures var from := Rank(d.ids, d.cursor);
      Rank(d.ids, Pass(d, size).cursor) == if from + size <= |d.ids| then from + size else 0
  {
    var from := Rank(d.ids, d.cursor);
    if from + size <= |d.ids| { RankAt(d.ids, from + size - 1); } else { RankZero(d.ids); }
  }

  lemma PassSame(d: Db, size: nat)
    requires size > 0
    ensures Pass(d, size).ids == d.ids && Pass(d, size).turns == d.turns
  {
  }

  lemma PassKeeps(d: Db, size: nat)
    requires Inv(d) && size > 0
    ensures Inv(Pass(d, size))
  {
    TrackAllKeeps(d.receipts, d.turns, Batch(d.ids, d.cursor, size));
  }

  lemma PassSettles(d: Db, size: nat, i: nat)
    requires Inv(d) && size > 0 && i < |d.ids|
    requires Settled(d.receipts, d.turns, d.ids[i]) || Rank(d.ids, d.cursor) <= i < Rank(d.ids, d.cursor) + size
    ensures Settled(Pass(d, size).receipts, d.turns, d.ids[i])
  {
    var from := Rank(d.ids, d.cursor);
    if from <= i < from + size { assert Batch(d.ids, d.cursor, size)[i - from] == d.ids[i]; }
    TrackAllSettles(d.receipts, d.turns, Batch(d.ids, d.cursor, size), d.ids[i]);
  }

  lemma {:induction false} PassesKeep(d: Db, size: nat, n: nat)
    requires Inv(d) && size > 0
    ensures Inv(Passes(d, size, n)) && Passes(d, size, n).ids == d.ids && Passes(d, size, n).turns == d.turns
    decreases n
  {
    if n > 0 {
      PassKeeps(d, size);
      PassesKeep(Pass(d, size), size, n - 1);
    }
  }

  lemma {:induction false} PassesKeepSettled(d: Db, size: nat, n: nat, i: nat)
    requires Inv(d) && size > 0 && i < |d.ids| && Settled(d.receipts, d.turns, d.ids[i])
    ensures Settled(Passes(d, size, n).receipts, d.turns, d.ids[i])
    decreases n
  {
    if n > 0 {
      PassKeeps(d, size);
      PassSettles(d, size, i);
      PassesKeepSettled(Pass(d, size), size, n - 1, i);
    }
  }

  /** How many passes the cursor needs from position from until it is back at the start. */
  ghost function ToWrap(n: nat, size: nat, from: nat): nat
    requires size > 0 && from <= n
    decreases n - from
  {
    if from + size <= n then 1 + ToWrap(n, size, from + size) else 1
  }

  lemma {:induction false} WrapTakes(n: nat, size: nat, from: nat)
    requires size > 0 && from <= n
    ensures 1 <= ToWrap(n, size, from) && (ToWrap(n, size, from) - 1) * size <= n - from
    decreases n - from
  {
    if from + size <= n { WrapTakes(n, size, from + size); }
  }

  lemma Quotient(k: nat, n: nat, size: nat)
    requires size > 0 && k * size <= n
    ensures k <= n / size
  {
    var q := n / size;
    Divided(n, size);
    if k > q { Multiply(k, q + 1, size); }
  }

  lemma Divided(n: nat, size: nat)
    requires size > 0
    ensures n < (n / size + 1) * size
  {
    assert n == size * (n / size) + n % size;
  }

  lemma Multiply(x: nat, y: nat, z: nat)
    requires x >= y
    ensures x * z >= y * z
  {
  }

  lemma WrapBound(n: nat, size: nat, from: nat)
    requires size > 0 && from <= n
    ensures ToWrap(n, size, from) <= n / size + 1
  {
    WrapTakes(n, size, from);
    Quotient(ToWrap(n, size, from) - 1, n, size);
  }

  /** Until it wraps, the cursor visits everything ahead of it; after ToWrap passes it stands at the start. */
  lemma {:induction false} OneCycle(d: Db, size: nat, i: nat)
    requires Inv(d) && size > 0 && i < |d.ids|
    ensures var from := Rank(d.ids, d.cursor);
      var e := Passes(d, size, ToWrap(|d.ids|, size, from));
      Rank(d.ids, e.cursor) == 0 && (from <= i ==> Settled(e.receipts, d.turns, d.ids[i]))
    decreases |d.ids| - Rank(d.ids, d.cursor)
  {
    hide Inv, Settled, Pass;
    var n, from := |d.ids|, Rank(d.ids, d.cursor);
    PassKeeps(d, size);
    PassMoves(d, size);
    PassSame(d, size);
    if from + size <= n {
      OneCycle(Pass(d, size), size, i);
      if from <= i < from + size {
        PassSettles(d, size, i);
        PassesKeepSettled(Pass(d, size), size, ToWrap(n, size, from + size), i);
      }
    } else {
      assert Passes(Pass(d, size), size, 0) == Pass(d, size);
      if from <= i { PassSettles(d, size, i); }
    }
  }

  lemma {:induction false} PassesSplit(d: Db, size: nat, a: nat, b: nat)
    requires size > 0
    ensures Passes(d, size, a + b) == Passes(Passes(d, size, a), size, b)
    decreases a
  {
    if a > 0 { PassesSplit(Pass(d, size), size, a - 1, b); }
  }

  /** A text turn is charged once it was answered, released once it failed, and reserved until then; a spoken turn has no receipt. */
  ghost predicate Right(m: map<int, Receipt>, id: int, t: Turn) {
    if t.spoken then id !in m
    else id in m && m[id] == match t.state
      case Completed => Receipt(1, 0, 0, Completed)
      case Failed => Receipt(0, 0, 1, Failed)
      case Interrupted => Receipt(0, 0, 1, Interrupted)
      case _ => Receipt(0, 1, 0, Pending)
  }

  lemma SettledIsRight(m: map<int, Receipt>, turns: map<int, Turn>, id: int)
    requires ReceiptsOk(m, turns) && id in turns && Settled(m, turns, id)
    ensures Right(m, id, turns[id])
  {
  }

  /** From any cursor, every text turn's receipt is right after two cycles: 2 * (N / size + 1) passes for N turns. */
  lemma TwoCyclesSettle(d: Db, size: nat, i: nat)
    requires Inv(d) && size > 0 && i < |d.ids|
    ensures d.ids[i] in d.turns && Right(Passes(d, size, 2 * (|d.ids| / size + 1)).receipts, d.ids[i], d.turns[d.ids[i]])
  {
    assert d.ids[i] in d.turns;
    PassesKeep(d, size, 2 * (|d.ids| / size + 1));
    TwoCyclesReach(d, size, i);
    hide Passes, Settled, Right;
    SettledIsRight(Passes(d, size, 2 * (|d.ids| / size + 1)).receipts, d.turns, d.ids[i]);
  }

  lemma TwoCyclesReach(d: Db, size: nat, i: nat)
    requires Inv(d) && size > 0 && i < |d.ids|
    ensures Settled(Passes(d, size, 2 * (|d.ids| / size + 1)).receipts, d.turns, d.ids[i])
  {
    hide Inv, Settled, Passes, ToWrap, Rank;
    var bound := |d.ids| / size + 1;
    var cycles := ToWrap(|d.ids|, size, Rank(d.ids, d.cursor)) + ToWrap(|d.ids|, size, 0);
    WrapBound(|d.ids|, size, Rank(d.ids, d.cursor));
    WrapBound(|d.ids|, size, 0);
    Cycles(d, size, i);
    PassesKeep(d, size, cycles);
    PassesKeepSettled(Passes(d, size, cycles), size, 2 * bound - cycles, i);
    PassesSplit(d, size, cycles, 2 * bound - cycles);
  }

  lemma Cycles(d: Db, size: nat, i: nat)
    requires Inv(d) && size > 0 && i < |d.ids|
    ensures Settled(Passes(d, size, ToWrap(|d.ids|, size, Rank(d.ids, d.cursor)) + ToWrap(|d.ids|, size, 0)).receipts, d.turns, d.ids[i])
  {
    hide Inv, Settled, Passes, ToWrap, Rank;
    var first := ToWrap(|d.ids|, size, Rank(d.ids, d.cursor));
    OneCycle(d, size, i);
    PassesKeep(d, size, first);
    OneCycle(Passes(d, size, first), size, i);
    PassesSplit(d, size, first, ToWrap(|d.ids|, size, 0));
  }

  // ---- turns and receipts over runs ----

  datatype Event =
    | Accept(id: int, spoken: bool)
    | Finish(id: int, state: TurnState)
    | TrackTurn(id: int)
    | Reconcile(size: nat)

  /** A turn is accepted and finished once; tracking it then may be lost and left to a later pass. */
  function Step(d: Db, e: Event): Db {
    match e
    case Accept(id, spoken) =>
      if id in d.turns || id <= 0 || (d.ids != [] && id <= d.ids[|d.ids| - 1]) then d
      else d.(ids := d.ids + [id], turns := d.turns[id := Turn(spoken, Pending)])
    case Finish(id, state) =>
      if id !in d.turns || Terminal(d.turns[id].state) then d else d.(turns := d.turns[id := d.turns[id].(state := state)])
    case TrackTurn(id) => d.(receipts := Track(d.receipts, d.turns, id))
    case Reconcile(size) => if size == 0 then d else Pass(d, size)
  }

  function Run(d: Db, events: seq<Event>): Db
    decreases |events|
  {
    if events == [] then d else Run(Step(d, events[0]), events[1..])
  }

  const EMPTY := Db([], map[], map[], 0)

  lemma StepKeeps(d: Db, e: Event)
    requires Inv(d)
    ensures Inv(Step(d, e))
    ensures forall x :: x in d.receipts && Terminal(d.receipts[x].state) ==> x in Step(d, e).receipts && Step(d, e).receipts[x] == d.receipts[x]
  {
    match e
    case Accept(_, _) =>
    case Finish(_, _) =>
    case TrackTurn(id) => TrackSettles(d.receipts, d.turns, id);
    case Reconcile(size) =>
      if size > 0 {
        PassKeeps(d, size);
        TrackAllKeeps(d.receipts, d.turns, Batch(d.ids, d.cursor, size));
      }
  }

  /** Over every run each receipt charges its turn exactly once, and a terminal receipt is final. */
  lemma {:induction false} RunKeeps(d: Db, events: seq<Event>)
    requires Inv(d)
    ensures Inv(Run(d, events))
    ensures forall x :: x in d.receipts && Terminal(d.receipts[x].state) ==> x in Run(d, events).receipts && Run(d, events).receipts[x] == d.receipts[x]
    decreases |events|
  {
    if events != [] {
      StepKeeps(d, events[0]);
      RunKeeps(Step(d, events[0]), events[1..]);
    }
  }

  /** Whatever tracking was lost before, two cycles of undisturbed passes leave every text turn with the receipt of its state. */
  lemma LostTrackingIsRepaired(events: seq<Event>, size: nat, id: int)
    requires size > 0
    ensures var d := Run(EMPTY, events);
      id in d.ids ==> id in d.turns && Right(Passes(d, size, 2 * (|d.ids| / size + 1)).receipts, id, d.turns[id])
  {
    RunKeeps(EMPTY, events);
    var d := Run(EMPTY, events);
    if id in d.ids {
      var i :| 0 <= i < |d.ids| && d.ids[i] == id;
      TwoCyclesSettle(d, size, i);
    }
  }

  // ---- the tables, updated in place ----

  class UsageTables {
    var ids: seq<int>
    var turns: map<int, Turn>
    var receipts: map<int, Receipt>
    var cursor: int

    ghost function View(): Db
      reads this
    {
      Db(ids, turns, receipts, cursor)
    }

    constructor ()
      ensures View() == EMPTY
    {
      ids, turns, receipts, cursor := [], map[], map[], 0;
    }

    method TrackReceipt(id: int)
      modifies this`receipts
      ensures receipts == Track(old(receipts), turns, id)
    {
      if id !in turns || turns[id].spoken { return; }
      var state := if Terminal(turns[id].state) then turns[id].state else Pending;
      var r := Receipt(if state.Completed? then 1 else 0, if state.Pending? then 1 else 0,
                       if state.Failed? || state.Interrupted? then 1 else 0, state);
      if id !in receipts || receipts[id].state.Pending? || receipts[id].state == state { receipts := receipts[id := r]; }
    }

    /** The turns part of reconcile. */
    method ReconcileTurns(size: nat) returns (seen: nat)
      requires size > 0
      modifies this`receipts, this`cursor
      ensures View() == Pass(old(View()), size) && seen == |Batch(ids, old(cursor), size)|
    {
      var from := Rank(ids, cursor);
      var batch := ids[from..Min(from + size, |ids|)];
      for k := 0 to |batch|
        invariant cursor == old(cursor)
        invariant TrackAll(old(receipts), turns, batch) == TrackAll(receipts, turns, batch[k..])
      {
        TrackReceipt(batch[k]);
        assert batch[k..][1..] == batch[k + 1..];
      }
      cursor := if |batch| == size then batch[|batch| - 1] else 0;
      seen := |batch|;
    }
  }
}
