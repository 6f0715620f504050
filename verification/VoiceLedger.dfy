// Plan accounting of live calls (backend/app/services/plan_usage.py and plan_enforcement.py):
// an interval of observed voice time is cut at UTC midnights into day receipts, and a second set of
// receipts is capped at the owner's daily allowance. Times are integer microseconds.
module VoiceLedger {
  import opened Wrappers
  import opened Sums

  const DAY := 86400 * 1_000_000

  function DayOf(t: int): int { t / DAY }

  // ---- _segments ----

  datatype Segment = Segment(day: int, micros: nat)

  /** The first midnight after t. */
  function Boundary(t: int): (b: int)
    ensures t < b <= t + DAY && b == (DayOf(t) + 1) * DAY
  {
    (DayOf(t) + 1) * DAY
  }

  function Segments(start: int, end: int): seq<Segment>
    decreases Max(0, end - start)
  {
    if start >= end then []
    else
      var stop := Min(end, Boundary(start));
      [Segment(DayOf(start), stop - start)] + Segments(stop, end)
  }

  /** How much of [start, end) falls in UTC day d. */
  function Overlap(start: int, end: int, d: int): nat {
    Max(0, Min(end, (d + 1) * DAY) - Max(start, d * DAY))
  }

  function Total(segs: seq<Segment>): nat {
    if segs == [] then 0 else segs[0].micros + Total(segs[1..])
  }

  predicate Ascending(segs: seq<Segment>) {
    forall i, j :: 0 <= i < j < |segs| ==> segs[i].day < segs[j].day
  }

  ghost predicate Days(segs: seq<Segment>, start: int, end: int) {
    && (forall i :: 0 <= i < |segs| ==> segs[i].micros == Overlap(start, end, segs[i].day) > 0 && DayOf(start) <= segs[i].day)
    && Ascending(segs)
  }

  lemma DayBounds(t: int)
    ensures DayOf(t) * DAY <= t < (DayOf(t) + 1) * DAY
  {
  }

  lemma DayOfMidnight(d: int)
    ensures DayOf(d * DAY) == d
  {
  }

  lemma DayMonotone(a: int, b: int)
    ensures a < b ==> (a + 1) * DAY <= b * DAY
  {
  }

  /** Each piece lies inside one UTC day and is all of the interval that falls there; days ascend. */
  lemma {:induction false} SegmentsAreDays(start: int, end: int)
    ensures Days(Segments(start, end), start, end)
    decreases Max(0, end - start)
  {
    if start < end {
      var stop, d := Min(end, Boundary(start)), DayOf(start);
      DayBounds(start);
      var rest := Segments(stop, end);
      SegmentsAreDays(stop, end);
      if stop < end {
        DayOfMidnight(d + 1);
        forall i | 0 <= i < |rest| ensures rest[i].micros == Overlap(start, end, rest[i].day) && d < rest[i].day {
          DayMonotone(d, rest[i].day);
        }
      }
    }
  }

  lemma {:induction false} SegmentsTotal(start: int, end: int)
    ensures Total(Segments(start, end)) == Max(0, end - start)
    decreases Max(0, end - start)
  {
    if start < end { SegmentsTotal(Min(end, Boundary(start)), end); }
  }

  /** The piece of day d, if there is one. */
  function FindDay(segs: seq<Segment>, d: int): Option<nat>
    decreases |segs|
  {
    if segs == [] then None else if segs[0].day == d then Some(segs[0].micros) else FindDay(segs[1..], d)
  }

  /** A day has a piece exactly when the interval touches it, and the piece is all that falls there. */
  lemma {:induction false} SegmentsFind(start: int, end: int, d: int)
    ensures FindDay(Segments(start, end), d) == if Overlap(start, end, d) > 0 then Some(Overlap(start, end, d)) else None
    decreases Max(0, end - start)
  {
    if start < end {
      DayBounds(start);
      var stop := Min(end, Boundary(start));
      SegmentsFind(stop, end, d);
      DayMonotone(d, DayOf(start));
      DayMonotone(DayOf(start), d);
    }
  }

  method ComputeSegments(start: int, end: int) returns (segs: seq<Segment>)
    ensures segs == Segments(start, end)
    ensures Total(segs) == Max(0, end - start) && Days(segs, start, end)
  {
    var cursor := start;
    segs := [];
    while cursor < end
      invariant Segments(start, end) == segs + Segments(cursor, end)
      decreases end - cursor
    {
      var boundary := (cursor / DAY + 1) * DAY;
      var stop := if end <= boundary then end else boundary;
      segs := segs + [Segment(cursor / DAY, stop - cursor)];
      cursor := stop;
    }
    assert segs == Segments(start, end);
    SegmentsTotal(start, end);
    SegmentsAreDays(start, end);
  }

  // ---- rows ----

  datatype Mode = Rya | Legacy

  /** An interval belongs to one session and one connection generation. */
  datatype IKey = IKey(session: int, generation: int)

  datatype Interval = Interval(user: int, mode: Mode, started: int, until: int, ended: Option<int>, uncertain: bool)

  datatype RKey = RKey(key: IKey, day: int)

  // Voice receipts are only ever pending or completed.
  datatype Receipt = Receipt(user: int, mode: Mode, amount: nat, completed: bool)

  type Receipts = map<RKey, Receipt>

  datatype Ledger = Ledger(intervals: map<IKey, Interval>, voice: Receipts, quota: Receipts)

  datatype PlanName = Free | Plus | Pro

  datatype Entitlement = Entitlement(plan: PlanName, exempt: bool)

  // cutover is the immutable enforcement marker.
  datatype Plans = Plans(cutover: int, rows: map<int, Entitlement>)

  function EntitlementOf(p: Plans, user: int): Entitlement {
    if user in p.rows then p.rows[user] else Entitlement(Free, false)
  }

  function VoiceLimitMs(plan: PlanName, mode: Mode): nat {
    match (plan, mode)
    case (Free, Rya) => 60_000
    case (Free, Legacy) => 60_000
    case (Plus, Rya) => 180_000
    case (Plus, Legacy) => 180_000
    case (Pro, Rya) => 600_000
    case (Pro, Legacy) => 600_000
  }

  function Allowance(p: Plans, user: int, mode: Mode): nat {
    VoiceLimitMs(EntitlementOf(p, user).plan, mode) * 1000
  }

  function Lookup(m: Receipts, q: RKey): Option<Receipt> {
    if q in m then Some(m[q]) else None
  }

  /** _put: insert, or update amount and state unless that would reopen a completed receipt. */
  function Put(m: Receipts, q: RKey, r: Receipt): Receipts {
    if q !in m then m[q := r]
    else if !m[q].completed || r.completed then m[q := m[q].(amount := r.amount, completed := r.completed)]
    else m
  }

  // ---- the aggregate queries ----

  ghost function KeysOn(m: Receipts, user: int, mode: Mode, day: int): (r: set<IKey>)
    ensures forall k :: k in r <==> RKey(k, day) in m && m[RKey(k, day)].user == user && m[RKey(k, day)].mode == mode
  {
    set q | q in m && q.day == day && m[q].user == user && m[q].mode == mode :: q.key
  }

  ghost function Amounts(m: Receipts, user: int, mode: Mode, day: int): map<IKey, nat> {
    map k | k in KeysOn(m, user, mode, day) :: m[RKey(k, day)].amount
  }

  /** totals: what the user has recorded for the day. */
  ghost function Recorded(m: Receipts, user: int, mode: Mode, day: int): nat {
    Sum(Amounts(m, user, mode, day))
  }

  /** The same, without one operation key. */
  ghost function RecordedElsewhere(m: Receipts, user: int, mode: Mode, day: int, key: IKey): nat {
    Sum(Amounts(m, user, mode, day) - {key})
  }

  /** voice_remaining <= 0 for a user who is not exempt. */
  ghost predicate VoiceSpent(l: Ledger, p: Plans, user: int, mode: Mode, t: int) {
    !EntitlementOf(p, user).exempt && Recorded(l.quota, user, mode, DayOf(t)) >= Allowance(p, user, mode)
  }

  // ---- _voice_receipts and voice_receipts ----

  function ReceiptFor(iv: Interval, amount: nat): Receipt {
    Receipt(iv.user, iv.mode, amount, iv.ended.Some?)
  }

  function PutAll(m: Receipts, key: IKey, iv: Interval, segs: seq<Segment>): Receipts
    decreases |segs|
  {
    if segs == [] then m
    else PutAll(Put(m, RKey(key, segs[0].day), ReceiptFor(iv, segs[0].micros)), key, iv, segs[1..])
  }

  /** What a day's piece may add to the quota: never beyond what the other receipts leave. */
  ghost function Capped(m: Receipts, p: Plans, key: IKey, iv: Interval, s: Segment): nat {
    if EntitlementOf(p, iv.user).exempt then s.micros
    else Capping(RecordedElsewhere(m, iv.user, iv.mode, s.day, key), s.micros, Allowance(p, iv.user, iv.mode))
  }

  ghost function CapAll(m: Receipts, p: Plans, key: IKey, iv: Interval, segs: seq<Segment>): Receipts
    decreases |segs|
  {
    if segs == [] then m
    else CapAll(Put(m, RKey(key, segs[0].day), ReceiptFor(iv, Capped(m, p, key, iv, segs[0]))), p, key, iv, segs[1..])
  }

  lemma CapStep(m: Receipts, p: Plans, key: IKey, iv: Interval, segs: seq<Segment>, i: nat)
    requires i < |segs|
    ensures CapAll(m, p, key, iv, segs[i..])
      == CapAll(Put(m, RKey(key, segs[i].day), ReceiptFor(iv, Capped(m, p, key, iv, segs[i]))), p, key, iv, segs[i + 1..])
  {
    assert segs[i..][1..] == segs[i + 1..];
  }

  lemma CapNone(m: Receipts, p: Plans, key: IKey, iv: Interval, segs: seq<Segment>)
    ensures CapAll(m, p, key, iv, segs[|segs|..]) == m
  {
  }

  /** Writes an interval and both sets of its receipts. */
  ghost function Write(l: Ledger, p: Plans, key: IKey, iv: Interval): Ledger {
    Ledger(l.intervals[key := iv],
           PutAll(l.voice, key, iv, Segments(iv.started, iv.until)),
           CapAll(l.quota, p, key, iv, Segments(Max(iv.started, p.cutover), iv.until)))
  }

  // ---- _voice and the orphan branch of reconcile ----

  // What _voice reads of the live session: its key, its user and mode, and its two expiries.
  datatype Voiced = Voiced(key: IKey, user: int, mode: Mode, expires: int, authExpires: int, connected: bool)

  function Opened(v: Voiced, ts: int, ready: bool): Interval {
    Interval(v.user, v.mode, ts, ts, None, !ready)
  }

  function Extended(iv: Interval, ts: int, ending: bool, recovered: bool): Interval {
    var until := if recovered then iv.until else Max(iv.until, ts);
    iv.(until := until, ended := if ending then Some(until) else None, uncertain := iv.uncertain || (ending && recovered))
  }

  ghost function Voice(l: Ledger, p: Plans, v: Voiced, t: int, ready: bool, ending: bool, recovered: bool): Ledger {
    var ts := Min(Min(t, v.expires), v.authExpires);
    if v.key !in l.intervals && !ready && (ending || !v.connected) then l
    else
      var iv := if v.key in l.intervals then l.intervals[v.key] else Opened(v, ts, ready);
      if iv.ended.Some? then l else Write(l, p, v.key, Extended(iv, ts, ending, recovered))
  }

  ghost function EndOrphan(l: Ledger, p: Plans, key: IKey): Ledger
    requires key in l.intervals
  {
    var iv := l.intervals[key];
    if iv.ended.Some? then l else Write(l, p, key, iv.(ended := Some(iv.until), uncertain := true))
  }

  // ---- what a ledger holds ----

  function Micros(iv: Interval, d: int): nat {
    Overlap(iv.started, iv.until, d)
  }

  function MicrosSince(iv: Interval, cutover: int, d: int): nat {
    Overlap(Max(iv.started, cutover), iv.until, d)
  }

  /** Every observed microsecond of the user's calls since the cutover that falls in the day. */
  ghost function Observed(l: Ledger, cutover: int, user: int, mode: Mode, day: int): map<IKey, nat> {
    map k | k in l.intervals && l.intervals[k].user == user && l.intervals[k].mode == mode :: MicrosSince(l.intervals[k], cutover, day)
  }

  function ExpectedVoice(l: Ledger, q: RKey): Option<Receipt> {
    if q.key in l.intervals && Micros(l.intervals[q.key], q.day) > 0
    then Some(ReceiptFor(l.intervals[q.key], Micros(l.intervals[q.key], q.day))) else None
  }

  ghost predicate IntervalsOk(l: Ledger) {
    forall k :: k in l.intervals ==> (l.intervals[k].started <= l.intervals[k].until
      && (l.intervals[k].ended.Some? ==> l.intervals[k].ended.value == l.intervals[k].until))
  }

  /** The voice receipts are exactly the days of the intervals. */
  ghost predicate VoiceExact(l: Ledger) {
    forall q :: Lookup(l.voice, q) == ExpectedVoice(l, q)
  }

  ghost predicate QuotaEntry(l: Ledger, cutover: int, q: RKey)
    requires q in l.quota
  {
    && q.key in l.intervals
    && var iv := l.intervals[q.key];
       l.quota[q].user == iv.user && l.quota[q].mode == iv.mode && l.quota[q].completed == iv.ended.Some?
       && l.quota[q].amount <= MicrosSince(iv, cutover, q.day) && MicrosSince(iv, cutover, q.day) > 0
  }

  ghost predicate QuotaBounded(l: Ledger, cutover: int) {
    forall q :: q in l.quota ==> QuotaEntry(l, cutover, q)
  }

  /** The recorded quota of a day is what was observed, capped at the allowance: neither lost nor overshot. */
  ghost predicate QuotaExact(l: Ledger, p: Plans) {
    forall user, mode, day :: !EntitlementOf(p, user).exempt ==>
      Recorded(l.quota, user, mode, day) == Min(Allowance(p, user, mode), Sum(Observed(l, p.cutover, user, mode, day)))
  }

  ghost predicate LedgerOk(l: Ledger, p: Plans) {
    IntervalsOk(l) && VoiceExact(l) && QuotaBounded(l, p.cutover) && QuotaExact(l, p)
  }

  /** iv may replace what the ledger holds under key: nothing, or an open interval that iv extends. */
  ghost predicate Extends(l: Ledger, key: IKey, iv: Interval) {
    && iv.started <= iv.until && (iv.ended.Some? ==> iv.ended.value == iv.until)
    && (key in l.intervals ==>
          var prior := l.intervals[key];
          prior.ended.None? && prior.user == iv.user && prior.mode == iv.mode && prior.started == iv.started && prior.until <= iv.until)
  }

  // ---- writing receipts ----

  /** A receipt already held under key for the day is open and belongs to the interval's user and mode. */
  ghost predicate OpenAt(m: Receipts, key: IKey, iv: Interval, d: int) {
    RKey(key, d) in m ==> !m[RKey(key, d)].completed && m[RKey(key, d)].user == iv.user && m[RKey(key, d)].mode == iv.mode
  }

  lemma {:induction false} FindLater(segs: seq<Segment>, d: int)
    requires Ascending(segs) && segs != [] && d <= segs[0].day
    ensures FindDay(segs[1..], d) == None
    decreases |segs|
  {
    var rest := segs[1..];
    if rest != [] { FindLater(rest, d); }
  }

  lemma {:induction false} PutAllOther(m: Receipts, key: IKey, iv: Interval, segs: seq<Segment>, q: RKey)
    requires q.key != key || FindDay(segs, q.day).None?
    ensures Lookup(PutAll(m, key, iv, segs), q) == Lookup(m, q)
    decreases |segs|
  {
    if segs != [] {
      PutAllOther(Put(m, RKey(key, segs[0].day), ReceiptFor(iv, segs[0].micros)), key, iv, segs[1..], q);
    }
  }

  /** Each written day ends up with the receipt of its piece. */
  lemma {:induction false} PutAllFound(m: Receipts, key: IKey, iv: Interval, segs: seq<Segment>, d: int)
    requires Ascending(segs) && FindDay(segs, d).Some? && OpenAt(m, key, iv, d)
    ensures Lookup(PutAll(m, key, iv, segs), RKey(key, d)) == Some(ReceiptFor(iv, FindDay(segs, d).value))
    decreases |segs|
  {
    var q := RKey(key, segs[0].day);
    var n := Put(m, q, ReceiptFor(iv, segs[0].micros));
    if segs[0].day == d {
      FindLater(segs, d);
      PutAllOther(n, key, iv, segs[1..], q);
    } else {
      PutAllFound(n, key, iv, segs[1..], d);
    }
  }

  ghost predicate SameDay(m: Receipts, n: Receipts, day: int) {
    forall k :: Lookup(m, RKey(k, day)) == Lookup(n, RKey(k, day))
  }

  lemma AmountsSame(m: Receipts, n: Receipts, user: int, mode: Mode, day: int)
    requires SameDay(m, n, day)
    ensures Amounts(m, user, mode, day) == Amounts(n, user, mode, day)
  {
    forall k ensures k in KeysOn(m, user, mode, day) <==> k in KeysOn(n, user, mode, day)
      ensures k in KeysOn(m, user, mode, day) ==> m[RKey(k, day)] == n[RKey(k, day)] {
      assert Lookup(m, RKey(k, day)) == Lookup(n, RKey(k, day));
    }
  }

  lemma PutSameDay(m: Receipts, q: RKey, r: Receipt, day: int)
    requires day != q.day
    ensures SameDay(m, Put(m, q, r), day)
  {
  }

  /** The pieces, each capped against the quota receipts as they are in m. */
  ghost function CapSegments(m: Receipts, p: Plans, key: IKey, iv: Interval, segs: seq<Segment>): (r: seq<Segment>)
    ensures |r| == |segs| && forall i :: 0 <= i < |segs| ==> r[i] == Segment(segs[i].day, Capped(m, p, key, iv, segs[i]))
    decreases |segs|
  {
    if segs == [] then []
    else [Segment(segs[0].day, Capped(m, p, key, iv, segs[0]))] + CapSegments(m, p, key, iv, segs[1..])
  }

  lemma CappedSame(m: Receipts, n: Receipts, p: Plans, key: IKey, iv: Interval, s: Segment)
    requires SameDay(m, n, s.day)
    ensures Capped(n, p, key, iv, s) == Capped(m, p, key, iv, s)
  {
    AmountsSame(m, n, iv.user, iv.mode, s.day);
  }

  lemma {:induction false} CapSegmentsOtherDay(m: Receipts, q: RKey, r: Receipt, p: Plans, key: IKey, iv: Interval, segs: seq<Segment>)
    requires forall i :: 0 <= i < |segs| ==> segs[i].day != q.day
    ensures CapSegments(Put(m, q, r), p, key, iv, segs) == CapSegments(m, p, key, iv, segs)
  {
    if segs != [] {
      CapSegmentsOtherDay(m, q, r, p, key, iv, segs[1..]);
      assert Capped(Put(m, q, r), p, key, iv, segs[0]) == Capped(m, p, key, iv, segs[0]) by {
        PutSameDay(m, q, r, segs[0].day);
        CappedSame(m, Put(m, q, r), p, key, iv, segs[0]);
      }
    }
  }

  /** Capping a day does not depend on the pieces of other days written before it. */
  lemma {:induction false} CapAllIsPutAll(m: Receipts, p: Plans, key: IKey, iv: Interval, segs: seq<Segment>)
    requires Ascending(segs)
    ensures CapAll(m, p, key, iv, segs) == PutAll(m, key, iv, CapSegments(m, p, key, iv, segs))
    decreases |segs|
  {
    if segs != [] {
      var first, r := RKey(key, segs[0].day), ReceiptFor(iv, Capped(m, p, key, iv, segs[0]));
      var n := Put(m, first, r);
      CapAllIsPutAll(n, p, key, iv, segs[1..]);
      CapSegmentsOtherDay(m, first, r, p, key, iv, segs[1..]);
      assert CapSegments(m, p, key, iv, segs)[1..] == CapSegments(m, p, key, iv, segs[1..]);
    }
  }

  lemma {:induction false} CapSegmentsFind(m: Receipts, p: Plans, key: IKey, iv: Interval, segs: seq<Segment>, d: int)
    ensures FindDay(CapSegments(m, p, key, iv, segs), d) == match FindDay(segs, d)
      case None => None
      case Some(micros) => Some(Capped(m, p, key, iv, Segment(d, micros)))
    decreases |segs|
  {
    if segs != [] {
      CapSegmentsFind(m, p, key, iv, segs[1..], d);
      assert CapSegments(m, p, key, iv, segs)[1..] == CapSegments(m, p, key, iv, segs[1..]);
    }
  }

  // ---- the voice receipts stay exact ----

  lemma OverlapGrows(start: int, a: int, b: int, d: int)
    requires a <= b
    ensures Overlap(start, a, d) <= Overlap(start, b, d)
  {
  }

  lemma WriteVoiceAt(l: Ledger, p: Plans, key: IKey, iv: Interval, q: RKey)
    requires VoiceExact(l) && Extends(l, key, iv)
    ensures Lookup(Write(l, p, key, iv).voice, q) == ExpectedVoice(Write(l, p, key, iv), q)
  {
    var segs := Segments(iv.started, iv.until);
    SegmentsAreDays(iv.started, iv.until);
    SegmentsFind(iv.started, iv.until, q.day);
    assert Lookup(l.voice, q) == ExpectedVoice(l, q);
    if q.key == key && Micros(iv, q.day) > 0 {
      PutAllFound(l.voice, key, iv, segs, q.day);
    } else {
      PutAllOther(l.voice, key, iv, segs, q);
      if key in l.intervals { OverlapGrows(iv.started, l.intervals[key].until, iv.until, q.day); }
    }
  }

  lemma WriteVoice(l: Ledger, p: Plans, key: IKey, iv: Interval)
    requires VoiceExact(l) && Extends(l, key, iv)
    ensures VoiceExact(Write(l, p, key, iv))
  {
    forall q ensures Lookup(Write(l, p, key, iv).voice, q) == ExpectedVoice(Write(l, p, key, iv), q) {
      WriteVoiceAt(l, p, key, iv, q);
    }
  }

  // ---- the quota stays exact ----

  /** a is recorded, o observed, and key's observation is about to grow to now. */
  ghost predicate Balanced(a: map<IKey, nat>, o: map<IKey, nat>, key: IKey, now: nat, limit: nat) {
    && (forall k :: k in a ==> k in o && a[k] <= o[k])
    && Sum(a) == Min(limit, Sum(o))
    && (key in o ==> o[key] <= now)
  }

  function Capping(elsewhere: nat, now: nat, limit: nat): nat {
    Min(now, Max(0, limit - elsewhere))
  }

  /** The arithmetic of one capped update. */
  lemma CapKeepsTotal(a: map<IKey, nat>, o: map<IKey, nat>, key: IKey, now: nat, limit: nat)
    requires Balanced(a, o, key, now, limit)
    ensures var capped := Capping(Sum(a - {key}), now, limit);
      && Sum(a[key := capped]) == Min(limit, Sum(o[key := now]))
      && (key in a ==> a[key] <= capped)
  {
    var capped := Capping(Sum(a - {key}), now, limit);
    SumUpdate(a, key, capped);
    SumUpdate(o, key, now);
    SumBelow(a - {key}, o - {key});
  }

  lemma SinceGrows(l: Ledger, cutover: int, key: IKey, iv: Interval, d: int)
    requires Extends(l, key, iv) && key in l.intervals
    ensures MicrosSince(l.intervals[key], cutover, d) <= MicrosSince(iv, cutover, d)
  {
    OverlapGrows(Max(iv.started, cutover), l.intervals[key].until, iv.until, d);
  }

  /** What a write leaves in the quota receipts, entry by entry. */
  ghost function QuotaAfter(l: Ledger, p: Plans, key: IKey, iv: Interval, q: RKey): Option<Receipt> {
    var now := MicrosSince(iv, p.cutover, q.day);
    if q.key != key then Lookup(l.quota, q)
    else if now == 0 then None
    else Some(ReceiptFor(iv, Capped(l.quota, p, key, iv, Segment(q.day, now))))
  }

  lemma WriteQuotaAt(l: Ledger, p: Plans, key: IKey, iv: Interval, q: RKey)
    requires QuotaBounded(l, p.cutover) && Extends(l, key, iv)
    ensures Lookup(Write(l, p, key, iv).quota, q) == QuotaAfter(l, p, key, iv, q)
  {
    var from := Max(iv.started, p.cutover);
    var segs := Segments(from, iv.until);
    SegmentsAreDays(from, iv.until);
    SegmentsFind(from, iv.until, q.day);
    CapAllIsPutAll(l.quota, p, key, iv, segs);
    CapSegmentsFind(l.quota, p, key, iv, segs, q.day);
    var capped := CapSegments(l.quota, p, key, iv, segs);
    if q in l.quota { assert QuotaEntry(l, p.cutover, q); }
    if q.key == key && MicrosSince(iv, p.cutover, q.day) > 0 {
      PutAllFound(l.quota, key, iv, capped, q.day);
    } else {
      PutAllOther(l.quota, key, iv, capped, q);
      if key in l.intervals { SinceGrows(l, p.cutover, key, iv, q.day); }
    }
  }

  /** m is what a write leaves in the quota receipts. */
  ghost predicate Wrote(l: Ledger, p: Plans, key: IKey, iv: Interval, m: Receipts) {
    forall q :: Lookup(m, q) == QuotaAfter(l, p, key, iv, q)
  }

  lemma WriteWrote(l: Ledger, p: Plans, key: IKey, iv: Interval)
    requires QuotaBounded(l, p.cutover) && Extends(l, key, iv)
    ensures Wrote(l, p, key, iv, Write(l, p, key, iv).quota)
  {
    var m := Write(l, p, key, iv).quota;
    forall q ensures Lookup(m, q) == QuotaAfter(l, p, key, iv, q) { WriteQuotaAt(l, p, key, iv, q); }
  }

  lemma WriteQuotaBounded(l: Ledger, p: Plans, key: IKey, iv: Interval, w: Ledger)
    requires QuotaBounded(l, p.cutover) && Extends(l, key, iv)
    requires w.intervals == l.intervals[key := iv] && Wrote(l, p, key, iv, w.quota)
    ensures QuotaBounded(w, p.cutover)
  {
    forall q | q in w.quota ensures QuotaEntry(w, p.cutover, q) {
      assert Lookup(w.quota, q) == QuotaAfter(l, p, key, iv, q);
      if q.key != key { assert QuotaEntry(l, p.cutover, q); }
    }
  }

  ghost function AmountAt(m: Receipts, user: int, mode: Mode, day: int, k: IKey): Option<nat> {
    if k in Amounts(m, user, mode, day) then Some(Amounts(m, user, mode, day)[k]) else None
  }

  lemma AmountLookup(m: Receipts, user: int, mode: Mode, day: int, k: IKey)
    ensures AmountAt(m, user, mode, day, k) == match Lookup(m, RKey(k, day))
      case None => None
      case Some(r) => if r.user == user && r.mode == mode then Some(r.amount) else None
  {
  }

  lemma AmountsByEntry(m: Receipts, user: int, mode: Mode, day: int, a: map<IKey, nat>)
    requires forall k :: AmountAt(m, user, mode, day, k) == if k in a then Some(a[k]) else None
    ensures Amounts(m, user, mode, day) == a
  {
    forall k ensures k in Amounts(m, user, mode, day) <==> k in a
      ensures k in a ==> Amounts(m, user, mode, day)[k] == a[k] {
      assert AmountAt(m, user, mode, day, k) == if k in a then Some(a[k]) else None;
    }
  }

  lemma ElsewhereAt(l: Ledger, p: Plans, key: IKey, iv: Interval, m: Receipts, user: int, mode: Mode, day: int, k: IKey)
    requires QuotaBounded(l, p.cutover) && Extends(l, key, iv) && Wrote(l, p, key, iv, m)
    requires k != key || iv.user != user || iv.mode != mode || MicrosSince(iv, p.cutover, day) == 0
    ensures AmountAt(m, user, mode, day, k) == AmountAt(l.quota, user, mode, day, k)
  {
    var q := RKey(k, day);
    assert Lookup(m, q) == QuotaAfter(l, p, key, iv, q);
    AmountLookup(m, user, mode, day, k);
    AmountLookup(l.quota, user, mode, day, k);
    if q in l.quota {
      assert QuotaEntry(l, p.cutover, q);
      if k == key { SinceGrows(l, p.cutover, key, iv, day); }
    }
  }

  /** Other users, modes and days keep what they recorded. */
  lemma WriteElsewhere(l: Ledger, p: Plans, key: IKey, iv: Interval, m: Receipts, user: int, mode: Mode, day: int)
    requires QuotaBounded(l, p.cutover) && Extends(l, key, iv) && Wrote(l, p, key, iv, m)
    requires iv.user != user || iv.mode != mode || MicrosSince(iv, p.cutover, day) == 0
    ensures Amounts(m, user, mode, day) == Amounts(l.quota, user, mode, day)
  {
    forall k ensures AmountAt(m, user, mode, day, k) == AmountAt(l.quota, user, mode, day, k) {
      ElsewhereAt(l, p, key, iv, m, user, mode, day, k);
    }
    AmountsByEntry(m, user, mode, day, Amounts(l.quota, user, mode, day));
  }

  /** The written day gains exactly the capped amount under its own key. */
  lemma WriteHere(l: Ledger, p: Plans, key: IKey, iv: Interval, m: Receipts, day: int)
    requires QuotaBounded(l, p.cutover) && Extends(l, key, iv) && Wrote(l, p, key, iv, m) && MicrosSince(iv, p.cutover, day) > 0
    ensures Amounts(m, iv.user, iv.mode, day)
      == Amounts(l.quota, iv.user, iv.mode, day)[key := Capped(l.quota, p, key, iv, Segment(day, MicrosSince(iv, p.cutover, day)))]
  {
    var capped := Capped(l.quota, p, key, iv, Segment(day, MicrosSince(iv, p.cutover, day)));
    var a := Amounts(l.quota, iv.user, iv.mode, day)[key := capped];
    forall k ensures AmountAt(m, iv.user, iv.mode, day, k) == if k in a then Some(a[k]) else None {
      if k == key {
        assert Lookup(m, RKey(key, day)) == QuotaAfter(l, p, key, iv, RKey(key, day));
        AmountLookup(m, iv.user, iv.mode, day, key);
      } else {
        ElsewhereAt(l, p, key, iv, m, iv.user, iv.mode, day, k);
      }
    }
    AmountsByEntry(m, iv.user, iv.mode, day, a);
  }

  lemma ObservedAfter(l: Ledger, cutover: int, key: IKey, iv: Interval, w: Ledger, user: int, mode: Mode, day: int)
    requires Extends(l, key, iv) && w.intervals == l.intervals[key := iv]
    ensures Observed(w, cutover, user, mode, day)
      == if iv.user == user && iv.mode == mode then Observed(l, cutover, user, mode, day)[key := MicrosSince(iv, cutover, day)]
         else Observed(l, cutover, user, mode, day)
  {
  }

  lemma AmountsBelowObserved(l: Ledger, cutover: int, user: int, mode: Mode, day: int)
    requires QuotaBounded(l, cutover)
    ensures var a, o := Amounts(l.quota, user, mode, day), Observed(l, cutover, user, mode, day);
      forall k :: k in a ==> k in o && a[k] <= o[k]
  {
    forall k | k in Amounts(l.quota, user, mode, day)
      ensures k in Observed(l, cutover, user, mode, day)
      ensures Amounts(l.quota, user, mode, day)[k] <= Observed(l, cutover, user, mode, day)[k]
    {
      assert QuotaEntry(l, cutover, RKey(k, day));
    }
  }

  lemma IsBalanced(l: Ledger, p: Plans, key: IKey, iv: Interval, day: int)
    requires QuotaBounded(l, p.cutover) && QuotaExact(l, p) && Extends(l, key, iv) && !EntitlementOf(p, iv.user).exempt
    ensures Balanced(Amounts(l.quota, iv.user, iv.mode, day), Observed(l, p.cutover, iv.user, iv.mode, day), key,
                     MicrosSince(iv, p.cutover, day), Allowance(p, iv.user, iv.mode))
  {
    assert Recorded(l.quota, iv.user, iv.mode, day)
      == Min(Allowance(p, iv.user, iv.mode), Sum(Observed(l, p.cutover, iv.user, iv.mode, day)));
    AmountsBelowObserved(l, p.cutover, iv.user, iv.mode, day);
    if key in l.intervals { SinceGrows(l, p.cutover, key, iv, day); }
  }

  lemma ExactGrowth(l: Ledger, p: Plans, key: IKey, iv: Interval, m: Receipts, day: int)
    requires QuotaBounded(l, p.cutover) && Extends(l, key, iv) && !EntitlementOf(p, iv.user).exempt
    requires Wrote(l, p, key, iv, m) && MicrosSince(iv, p.cutover, day) > 0
    requires Balanced(Amounts(l.quota, iv.user, iv.mode, day), Observed(l, p.cutover, iv.user, iv.mode, day), key,
                      MicrosSince(iv, p.cutover, day), Allowance(p, iv.user, iv.mode))
    ensures Recorded(m, iv.user, iv.mode, day)
      == Min(Allowance(p, iv.user, iv.mode), Sum(Observed(l, p.cutover, iv.user, iv.mode, day)[key := MicrosSince(iv, p.cutover, day)]))
  {
    WriteHere(l, p, key, iv, m, day);
    CapKeepsTotal(Amounts(l.quota, iv.user, iv.mode, day), Observed(l, p.cutover, iv.user, iv.mode, day), key,
                  MicrosSince(iv, p.cutover, day), Allowance(p, iv.user, iv.mode));
  }

  lemma ExactStill(l: Ledger, p: Plans, key: IKey, iv: Interval, m: Receipts, day: int)
    requires QuotaBounded(l, p.cutover) && QuotaExact(l, p) && Extends(l, key, iv) && !EntitlementOf(p, iv.user).exempt
    requires Wrote(l, p, key, iv, m) && MicrosSince(iv, p.cutover, day) == 0
    ensures Recorded(m, iv.user, iv.mode, day)
      == Min(Allowance(p, iv.user, iv.mode), Sum(Observed(l, p.cutover, iv.user, iv.mode, day)[key := 0]))
  {
    IsBalanced(l, p, key, iv, day);
    WriteElsewhere(l, p, key, iv, m, iv.user, iv.mode, day);
    SumUpdate(Observed(l, p.cutover, iv.user, iv.mode, day), key, 0);
  }

  lemma WriteQuotaExact(l: Ledger, p: Plans, key: IKey, iv: Interval, w: Ledger)
    requires QuotaBounded(l, p.cutover) && QuotaExact(l, p) && Extends(l, key, iv)
    requires w.intervals == l.intervals[key := iv] && Wrote(l, p, key, iv, w.quota)
    ensures QuotaExact(w, p)
  {
    forall user, mode, day | !EntitlementOf(p, user).exempt
      ensures Recorded(w.quota, user, mode, day) == Min(Allowance(p, user, mode), Sum(Observed(w, p.cutover, user, mode, day)))
    {
      ObservedAfter(l, p.cutover, key, iv, w, user, mode, day);
      if iv.user == user && iv.mode == mode {
        if MicrosSince(iv, p.cutover, day) > 0 {
          IsBalanced(l, p, key, iv, day);
          ExactGrowth(l, p, key, iv, w.quota, day);
        } else {
          ExactStill(l, p, key, iv, w.quota, day);
        }
      } else {
        WriteElsewhere(l, p, key, iv, w.quota, user, mode, day);
        assert Recorded(l.quota, user, mode, day) == Min(Allowance(p, user, mode), Sum(Observed(l, p.cutover, user, mode, day)));
      }
    }
  }

  lemma CappedNotLower(l: Ledger, p: Plans, key: IKey, iv: Interval, day: int)
    requires QuotaBounded(l, p.cutover) && QuotaExact(l, p) && Extends(l, key, iv) && !EntitlementOf(p, iv.user).exempt
    requires RKey(key, day) in l.quota
    ensures l.quota[RKey(key, day)].amount <= Capped(l.quota, p, key, iv, Segment(day, MicrosSince(iv, p.cutover, day)))
  {
    var a, o := Amounts(l.quota, iv.user, iv.mode, day), Observed(l, p.cutover, iv.user, iv.mode, day);
    assert QuotaEntry(l, p.cutover, RKey(key, day));
    assert key in a;
    IsBalanced(l, p, key, iv, day);
    CapKeepsTotal(a, o, key, MicrosSince(iv, p.cutover, day), Allowance(p, iv.user, iv.mode));
  }

  /** No quota receipt ever decreases, even one whose day is written again when the interval ends. */
  lemma WriteNeverLowers(l: Ledger, p: Plans, key: IKey, iv: Interval, q: RKey)
    requires LedgerOk(l, p) && Extends(l, key, iv) && q in l.quota
    ensures q in Write(l, p, key, iv).quota
    ensures l.quota[q].amount <= Write(l, p, key, iv).quota[q].amount
  {
    WriteQuotaAt(l, p, key, iv, q);
    assert QuotaEntry(l, p.cutover, q);
    if q.key == key {
      SinceGrows(l, p.cutover, key, iv, q.day);
      if !EntitlementOf(p, iv.user).exempt { CappedNotLower(l, p, key, iv, q.day); }
    }
  }

  // ---- the two ways a ledger changes ----

  lemma WriteKeeps(l: Ledger, p: Plans, key: IKey, iv: Interval)
    requires LedgerOk(l, p) && Extends(l, key, iv)
    ensures LedgerOk(Write(l, p, key, iv), p)
  {
    WriteVoice(l, p, key, iv);
    WriteWrote(l, p, key, iv);
    WriteQuotaBounded(l, p, key, iv, Write(l, p, key, iv));
    WriteQuotaExact(l, p, key, iv, Write(l, p, key, iv));
  }

  /** What _voice writes, if it writes at all. */
  function Touched(l: Ledger, v: Voiced, t: int, ready: bool, ending: bool, recovered: bool): Option<Interval> {
    var ts := Min(Min(t, v.expires), v.authExpires);
    if v.key !in l.intervals && !ready && (ending || !v.connected) then None
    else
      var iv := if v.key in l.intervals then l.intervals[v.key] else Opened(v, ts, ready);
      if iv.ended.Some? then None else Some(Extended(iv, ts, ending, recovered))
  }

  lemma VoiceWrites(l: Ledger, p: Plans, v: Voiced, t: int, ready: bool, ending: bool, recovered: bool)
    requires IntervalsOk(l)
    ensures match Touched(l, v, t, ready, ending, recovered)
      case None => Voice(l, p, v, t, ready, ending, recovered) == l
      case Some(iv) => Extends(l, v.key, iv) && Voice(l, p, v, t, ready, ending, recovered) == Write(l, p, v.key, iv)
  {
  }

  lemma EndOrphanKeeps(l: Ledger, p: Plans, key: IKey)
    requires LedgerOk(l, p) && key in l.intervals
    ensures LedgerOk(EndOrphan(l, p, key), p)
  {
    var iv := l.intervals[key];
    if iv.ended.None? { WriteKeeps(l, p, key, iv.(ended := Some(iv.until), uncertain := true)); }
  }

  /** Writing one interval leaves every receipt of the others as it was. */
  lemma WriteLeavesOthers(l: Ledger, p: Plans, key: IKey, iv: Interval, q: RKey)
    requires LedgerOk(l, p) && Extends(l, key, iv) && q.key != key
    ensures Lookup(Write(l, p, key, iv).voice, q) == Lookup(l.voice, q)
    ensures Lookup(Write(l, p, key, iv).quota, q) == Lookup(l.quota, q)
  {
    WriteVoiceAt(l, p, key, iv, q);
    WriteQuotaAt(l, p, key, iv, q);
    assert Lookup(l.voice, q) == ExpectedVoice(l, q);
  }

  // ---- what no later write undoes ----

  /** b continues a: the same call, never shorter, and closed for good once it has ended. */
  predicate Continues(a: Interval, b: Interval) {
    b.user == a.user && b.mode == a.mode && b.started == a.started && a.until <= b.until && (a.ended.Some? ==> b == a)
  }

  /** b may replace receipt a: a completed one is final, and an amount never drops. */
  predicate Keeps(a: Receipt, b: Receipt) {
    b.user == a.user && b.mode == a.mode && (a.completed ==> b == a) && a.amount <= b.amount
  }

  ghost predicate Later(l: Ledger, m: Ledger) {
    && (forall k :: k in l.intervals ==> k in m.intervals && Continues(l.intervals[k], m.intervals[k]))
    && (forall q :: q in l.voice ==> q in m.voice && Keeps(l.voice[q], m.voice[q]))
    && (forall q :: q in l.quota ==> q in m.quota && Keeps(l.quota[q], m.quota[q]))
  }

  lemma LaterTrans(a: Ledger, b: Ledger, c: Ledger)
    requires Later(a, b) && Later(b, c)
    ensures Later(a, c)
  {
  }

  lemma WriteKeepsVoiceAt(l: Ledger, p: Plans, key: IKey, iv: Interval, q: RKey)
    requires LedgerOk(l, p) && Extends(l, key, iv) && q in l.voice
    ensures q in Write(l, p, key, iv).voice && Keeps(l.voice[q], Write(l, p, key, iv).voice[q])
  {
    WriteVoiceAt(l, p, key, iv, q);
    assert Lookup(l.voice, q) == ExpectedVoice(l, q);
    if q.key == key { OverlapGrows(iv.started, l.intervals[key].until, iv.until, q.day); } else { WriteLeavesOthers(l, p, key, iv, q); }
  }

  lemma WriteKeepsQuotaAt(l: Ledger, p: Plans, key: IKey, iv: Interval, q: RKey)
    requires LedgerOk(l, p) && Extends(l, key, iv) && q in l.quota
    ensures q in Write(l, p, key, iv).quota && Keeps(l.quota[q], Write(l, p, key, iv).quota[q])
  {
    WriteNeverLowers(l, p, key, iv, q);
    WriteQuotaAt(l, p, key, iv, q);
    assert QuotaEntry(l, p.cutover, q);
  }

  /** Ended intervals and completed receipts are frozen; open ones only grow. */
  lemma WriteLater(l: Ledger, p: Plans, key: IKey, iv: Interval)
    requires LedgerOk(l, p) && Extends(l, key, iv)
    ensures Later(l, Write(l, p, key, iv))
  {
    var w := Write(l, p, key, iv);
    forall q | q in l.voice ensures q in w.voice && Keeps(l.voice[q], w.voice[q]) { WriteKeepsVoiceAt(l, p, key, iv, q); }
    forall q | q in l.quota ensures q in w.quota && Keeps(l.quota[q], w.quota[q]) { WriteKeepsQuotaAt(l, p, key, iv, q); }
  }

  // ---- conservation: the day receipts of an interval add up to it ----

  /** The recorded voice time of one interval, by day. */
  ghost function DayReceipts(m: Receipts, key: IKey): map<int, nat> {
    map d | d in (set q | q in m && q.key == key :: q.day) :: m[RKey(key, d)].amount
  }

  ghost function AsMap(segs: seq<Segment>): map<int, nat> {
    if segs == [] then map[] else AsMap(segs[..|segs| - 1])[segs[|segs| - 1].day := segs[|segs| - 1].micros]
  }

  lemma {:induction false} TotalSnoc(segs: seq<Segment>, s: Segment)
    ensures Total(segs + [s]) == Total(segs) + s.micros
    decreases |segs|
  {
    if segs != [] {
      TotalSnoc(segs[1..], s);
      assert (segs + [s])[1..] == segs[1..] + [s];
    }
  }

  lemma {:induction false} AsMapTotal(segs: seq<Segment>)
    requires Ascending(segs)
    ensures Sum(AsMap(segs)) == Total(segs)
    ensures forall d :: d in AsMap(segs) ==> exists i :: 0 <= i < |segs| && segs[i].day == d
    ensures forall i :: 0 <= i < |segs| ==> segs[i].day in AsMap(segs) && AsMap(segs)[segs[i].day] == segs[i].micros
    decreases |segs|
  {
    if segs != [] {
      var n := |segs| - 1;
      AsMapTotal(segs[..n]);
      TotalSnoc(segs[..n], segs[n]);
      assert segs[..n] + [segs[n]] == segs;
      SumUpdate(AsMap(segs[..n]), segs[n].day, segs[n].micros);
      assert segs[n].day !in AsMap(segs[..n]);
      assert AsMap(segs[..n]) - {segs[n].day} == AsMap(segs[..n]);
    }
  }

  lemma {:induction false} FoundIn(segs: seq<Segment>, d: int)
    ensures FindDay(segs, d).Some? ==> exists i :: 0 <= i < |segs| && segs[i].day == d && segs[i].micros == FindDay(segs, d).value
    ensures FindDay(segs, d).None? ==> forall i :: 0 <= i < |segs| ==> segs[i].day != d
    decreases |segs|
  {
    if segs != [] && segs[0].day != d {
      FoundIn(segs[1..], d);
      forall i | 0 < i < |segs| ensures segs[i] == segs[1..][i - 1] {}
      if FindDay(segs, d).Some? {
        var i :| 0 <= i < |segs[1..]| && segs[1..][i].day == d && segs[1..][i].micros == FindDay(segs, d).value;
        assert segs[i + 1] == segs[1..][i];
      }
    }
  }

  /** The voice receipts of an interval sum to its length, each inside its own UTC day. */
  lemma ReceiptsAddUp(l: Ledger, key: IKey)
    requires VoiceExact(l) && IntervalsOk(l) && key in l.intervals
    ensures Sum(DayReceipts(l.voice, key)) == l.intervals[key].until - l.intervals[key].started
    ensures forall q :: q in l.voice && q.key == key ==> l.voice[q].amount == Micros(l.intervals[key], q.day) <= DAY
  {
    var iv := l.intervals[key];
    var segs := Segments(iv.started, iv.until);
    SegmentsAreDays(iv.started, iv.until);
    SegmentsTotal(iv.started, iv.until);
    AsMapTotal(segs);
    hide Segments, Total, Sum, FindDay, AsMap, Days;
    var days := DayReceipts(l.voice, key);
    forall q | q in l.voice && q.key == key ensures l.voice[q].amount == Micros(iv, q.day) <= DAY {
      assert Lookup(l.voice, q) == ExpectedVoice(l, q);
    }
    forall d ensures d in days <==> d in AsMap(segs) ensures d in days ==> days[d] == AsMap(segs)[d] {
      assert Lookup(l.voice, RKey(key, d)) == ExpectedVoice(l, RKey(key, d));
      assert d in days <==> RKey(key, d) in l.voice;
      SegmentsFind(iv.started, iv.until, d);
      FoundIn(segs, d);
    }
    assert days == AsMap(segs);
  }

  // ---- the accounting tables ----

  class VoiceAccounts {
    const plans: Plans
    var intervals: map<IKey, Interval>
    var voice: Receipts
    var quota: Receipts

    ghost function View(): Ledger
      reads this
    {
      Ledger(intervals, voice, quota)
    }

    constructor (plans: Plans)
      ensures View() == Ledger(map[], map[], map[]) && this.plans == plans
    {
      this.plans := plans;
      intervals, voice, quota := map[], map[], map[];
    }

    /** The sum query of totals and voice_receipts; without names an operation key to leave out. */
    method RecordedTotal(user: int, mode: Mode, day: int, without: Option<IKey>) returns (n: nat)
      ensures n == if without.None? then Recorded(quota, user, mode, day) else RecordedElsewhere(quota, user, mode, day, without.value)
    {
      var keys := set q | q in quota && q.day == day && quota[q].user == user && quota[q].mode == mode && without != Some(q.key) :: q.key;
      ghost var left := if without.None? then Amounts(quota, user, mode, day) else Amounts(quota, user, mode, day) - {without.value};
      ghost var all := left;
      assert keys == left.Keys by {
        forall k ensures k in keys <==> k in left {
          var q := RKey(k, day);
          assert k in keys <==> q in quota && quota[q].user == user && quota[q].mode == mode && without != Some(k);
        }
      }
      n := 0;
      while keys != {}
        invariant keys == left.Keys
        invariant forall k :: k in left ==> RKey(k, day) in quota && left[k] == quota[RKey(k, day)].amount
        invariant Sum(all) == n + Sum(left)
        decreases keys
      {
        var k :| k in keys;
        SumRemove(left, k);
        n := n + quota[RKey(k, day)].amount;
        keys, left := keys - {k}, left - {k};
      }
      assert left == map[];
    }

    /** voice_remaining, in milliseconds; None when the user is exempt. */
    method VoiceRemaining(user: int, mode: Mode, t: int) returns (ms: Option<real>)
      ensures ms.None? <==> EntitlementOf(plans, user).exempt
      ensures ms.Some? ==> ms.value >= 0.0 && (ms.value <= 0.0 <==> VoiceSpent(View(), plans, user, mode, t))
      ensures ms.Some? && ms.value > 0.0 ==>
        ms.value * 1000.0 == (Allowance(plans, user, mode) - Recorded(quota, user, mode, DayOf(t))) as real
    {
      var e := EntitlementOf(plans, user);
      if e.exempt { return None; }
      var used := RecordedTotal(user, mode, t / DAY, None);
      var left := VoiceLimitMs(e.plan, mode) as real - used as real / 1000.0;
      ms := Some(if left <= 0.0 then 0.0 else left);
    }

    /** What one day's piece of an interval may add to the quota. */
    method QuotaAmount(key: IKey, iv: Interval, s: Segment) returns (micros: nat)
      ensures micros == Capped(quota, plans, key, iv, s)
    {
      micros := s.micros;
      if !EntitlementOf(plans, iv.user).exempt {
        var other := RecordedTotal(iv.user, iv.mode, s.day, Some(key));
        micros := Min(micros, Max(0, Allowance(plans, iv.user, iv.mode) - other));
      }
    }

    /** plan_enforcement.voice_receipts */
    method QuotaReceipts(key: IKey, iv: Interval)
      modifies this`quota
      ensures quota == CapAll(old(quota), plans, key, iv, Segments(Max(iv.started, plans.cutover), iv.until))
    {
      hide Segments, CapAll, Capped, Total, Days, Put;
      var segs := ComputeSegments(Max(iv.started, plans.cutover), iv.until);
      assert segs[0..] == segs;
      for i := 0 to |segs|
        invariant CapAll(old(quota), plans, key, iv, segs) == CapAll(quota, plans, key, iv, segs[i..])
      {
        CapStep(quota, plans, key, iv, segs, i);
        var micros := QuotaAmount(key, iv, segs[i]);
        quota := Put(quota, RKey(key, segs[i].day), ReceiptFor(iv, micros));
      }
      CapNone(quota, plans, key, iv, segs);
    }

    /** plan_usage._voice_receipts */
    method VoiceReceipts(key: IKey)
      requires key in intervals
      modifies this`voice, this`quota
      ensures voice == PutAll(old(voice), key, intervals[key], Segments(intervals[key].started, intervals[key].until))
      ensures quota == CapAll(old(quota), plans, key, intervals[key], Segments(Max(intervals[key].started, plans.cutover), intervals[key].until))
    {
      var iv := intervals[key];
      var segs := ComputeSegments(iv.started, iv.until);
      for i := 0 to |segs|
        invariant quota == old(quota)
        invariant PutAll(old(voice), key, iv, segs) == PutAll(voice, key, iv, segs[i..])
      {
        voice := Put(voice, RKey(key, segs[i].day), ReceiptFor(iv, segs[i].micros));
        assert segs[i..][1..] == segs[i + 1..];
      }
      QuotaReceipts(key, iv);
    }

    method Track(v: Voiced, t: int, ready: bool, ending: bool, recovered: bool)
      modifies this
      ensures View() == Voice(old(View()), plans, v, t, ready, ending, recovered)
    {
      var ts := Min(Min(t, v.expires), v.authExpires);
      if v.key !in intervals {
        if !ready && (ending || !v.connected) { return; }
        intervals := intervals[v.key := Interval(v.user, v.mode, ts, ts, None, !ready)];
      }
      var iv := intervals[v.key];
      if iv.ended.Some? { return; }
      if !recovered { iv := iv.(until := Max(iv.until, ts)); }
      if ending {
        iv := iv.(ended := Some(iv.until), uncertain := iv.uncertain || recovered);
      }
      intervals := intervals[v.key := iv];
      assert intervals == old(intervals)[v.key := iv];
      VoiceReceipts(v.key);
    }

    /** The orphan branch of reconcile, for an interval whose session no longer holds it. */
    method CloseOrphan(key: IKey)
      requires key in intervals
      modifies this
      ensures View() == EndOrphan(old(View()), plans, key)
    {
      var iv := intervals[key];
      if iv.ended.Some? { return; }
      intervals := intervals[key := iv.(ended := Some(iv.until), uncertain := true)];
      VoiceReceipts(key);
    }
  }
}
