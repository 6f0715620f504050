// The reordering buffer for provider transcripts
// (backend/app/services/realtime_transcripts.py, Item and TranscriptOrder).
// Transcripts finish in any order; the buffer releases them only along the committed
// predecessor links. The main result is that what is released does not depend on arrival order.
module TranscriptOrdering {
  import opened Wrappers
  import opened TranscriptText

  const MAX_ITEMS := 256

  // A text of None stands for a payload value that is not a string.
  datatype Body =
    | SpeechStarted
    | SpeechStopped
    | Committed(previous: Option<string>)
    | Delta(delta: Option<string>)
    | Done(transcript: Option<string>)
    | Failed
    | Unrelated

  datatype Event = Event(generation: int, item: string, body: Body)

  datatype Error = QueueOverrun | ProviderFailed | TranscriptInvalid | TranscriptConflict

  datatype Outcome =
    | Quiet
    | Provisional(item: string, delta: string)
    | Raised(error: Error)

  datatype Item = Item(committed: bool, previous: Option<string>, final: Option<string>, failed: bool, resolved: bool)

  /** One value yielded by ready(). */
  datatype Release = Release(item: string, final: Option<string>, failed: bool)

  // keys is the insertion order of the items dictionary.
  datatype Order = Order(generation: int, depth: int, keys: seq<string>, items: map<string, Item>,
                         tail: Option<string>, speaking: bool)

  const FRESH := Item(false, None, None, false, false)

  function Empty(generation: int, depth: int): Order {
    Order(generation, depth, [], map[], None, false)
  }

  function Unresolved(items: map<string, Item>): set<string> {
    set k | k in items && !items[k].resolved
  }

  predicate Unfinished(o: Order) {
    o.speaking || exists k :: k in o.items && !o.items[k].resolved
  }

  predicate PredecessorTaken(items: map<string, Item>, item: string, previous: Option<string>) {
    exists k :: k in items && k != item && items[k].committed && items[k].previous == previous
  }

  predicate Settled(i: Item) {
    i.final.Some? || i.failed
  }

  // ---- observe ----

  function Put(o: Order, key: string, i: Item): Order
    requires key in o.items
  {
    o.(items := o.items[key := i])
  }

  function Admit(o: Order, key: string): Order {
    if key in o.items then o else o.(keys := o.keys + [key], items := o.items[key := FRESH])
  }

  /** The effect of an event on an item that is already in the dictionary. */
  function Record(o: Order, e: Event): (Order, Outcome)
    requires e.item in o.items
  {
    var key, item := e.item, o.items[e.item];
    match e.body
    case SpeechStarted => (o.(speaking := true), Quiet)
    case SpeechStopped => (o.(speaking := false), Quiet)
    case Committed(previous) =>
      if previous.Some? && !ValidIdentity(previous.value) then (o, Raised(ProviderFailed))
      else if previous == Some(key) || (item.committed && item.previous != previous) then (o, Raised(ProviderFailed))
      else if PredecessorTaken(o.items, key, previous) then (o, Raised(ProviderFailed))
      else (Put(o, key, item.(committed := true, previous := previous)), Quiet)
    case Done(transcript) =>
      var final := if transcript.None? then None else Normalize(transcript.value);
      if final.None? then (o, Raised(TranscriptInvalid))
      else if item.failed || (item.final.Some? && item.final != final) then (o, Raised(TranscriptConflict))
      else (Put(o, key, item.(final := final)), Quiet)
    case Failed =>
      if item.final.Some? then (o, Raised(ProviderFailed))
      else (Put(o, key, item.(failed := true)), Quiet)
    case Delta(delta) =>
      if item.resolved then (o, Quiet)
      else if delta.None? || |delta.value| > MAX_TRANSCRIPT then (o, Raised(ProviderFailed))
      else (o, Provisional(key, delta.value))
    case Unrelated => (o, Quiet)
  }

  predicate Relevant(o: Order, e: Event) {
    e.generation == o.generation && !e.body.Unrelated?
  }

  function AfterEvent(o: Order, e: Event): (Order, Outcome) {
    if !Relevant(o, e) then (o, Quiet)
    else if !ValidIdentity(e.item) then (o, Raised(ProviderFailed))
    else if e.item !in o.items && (|o.items| >= MAX_ITEMS || |Unresolved(o.items)| >= o.depth) then (o, Raised(QueueOverrun))
    else Record(Admit(o, e.item), e)
  }

  // ---- ready ----

  predicate Next(o: Order, key: string) {
    key in o.items && o.items[key].committed && !o.items[key].resolved && o.items[key].previous == o.tail
  }

  /** The first key of the dictionary, from position i on, that continues the tail. */
  function FindNext(o: Order, i: nat): (r: Option<string>)
    ensures r.Some? ==> Next(o, r.value)
    ensures r.None? ==> forall j :: i <= j < |o.keys| ==> !Next(o, o.keys[j])
    decreases |o.keys| - i
  {
    if i >= |o.keys| then None
    else if Next(o, o.keys[i]) then Some(o.keys[i])
    else FindNext(o, i + 1)
  }

  function Resolve(o: Order, key: string): Order
    requires key in o.items
  {
    o.(items := o.items[key := o.items[key].(resolved := true)], tail := Some(key))
  }

  function ReleaseOf(o: Order, key: string): Release
    requires key in o.items
  {
    Release(key, o.items[key].final, o.items[key].failed)
  }

  lemma ResolveShrinks(o: Order, key: string)
    requires key in o.items && !o.items[key].resolved
    ensures |Unresolved(Resolve(o, key).items)| < |Unresolved(o.items)|
  {
    assert Unresolved(Resolve(o, key).items) == Unresolved(o.items) - {key};
  }

  function ReadyAll(o: Order): (Order, seq<Release>)
    decreases |Unresolved(o.items)|
  {
    match FindNext(o, 0)
    case None => (o, [])
    case Some(key) =>
      if !Settled(o.items[key]) then (o, [])
      else
        ResolveShrinks(o, key);
        var (rest, out) := ReadyAll(Resolve(o, key));
        (rest, [ReleaseOf(o, key)] + out)
  }

  // ---- the buffer object ----

  class TranscriptOrder {
    const generation: int
    const depth: int
    var keys: seq<string>
    var items: map<string, Item>
    var tail: Option<string>
    var speaking: bool

    ghost function View(): Order
      reads this
    {
      Order(generation, depth, keys, items, tail, speaking)
    }

    constructor (generation: int, depth: int)
      ensures View() == Empty(generation, depth)
    {
      this.generation, this.depth := generation, depth;
      keys, items, tail, speaking := [], map[], None, false;
    }

    method IsUnfinished() returns (r: bool)
      ensures r == Unfinished(View())
    {
      r := speaking || exists k :: k in items && !items[k].resolved;
    }

    method Observe(e: Event) returns (out: Outcome)
      modifies this
      ensures (View(), out) == AfterEvent(old(View()), e)
    {
      if e.generation != generation || e.body.Unrelated? { return Quiet; }
      if !ValidIdentity(e.item) { return Raised(ProviderFailed); }
      var identity := e.item;
      if identity !in items {
        if |items| >= MAX_ITEMS || |set k | k in items && !items[k].resolved| >= depth {
          return Raised(QueueOverrun);
        }
        keys := keys + [identity];
        items := items[identity := FRESH];
      }
      var item := items[identity];
      match e.body {
        case SpeechStarted => speaking := true;
        case SpeechStopped => speaking := false;
        case Committed(previous) =>
          if previous.Some? && !ValidIdentity(previous.value) { return Raised(ProviderFailed); }
          if previous == Some(identity) || (item.committed && item.previous != previous) { return Raised(ProviderFailed); }
          if PredecessorTaken(items, identity, previous) { return Raised(ProviderFailed); }
          items := items[identity := item.(committed := true, previous := previous)];
        case Done(transcript) =>
          if transcript.None? { return Raised(TranscriptInvalid); }
          var final := Normalize(transcript.value);
          if final.None? { return Raised(TranscriptInvalid); }
          if item.failed || (item.final.Some? && item.final != final) { return Raised(TranscriptConflict); }
          items := items[identity := item.(final := final)];
        case Failed =>
          if item.final.Some? { return Raised(ProviderFailed); }
          items := items[identity := item.(failed := true)];
        case Delta(delta) =>
          if !item.resolved {
            if delta.None? || |delta.value| > MAX_TRANSCRIPT { return Raised(ProviderFailed); }
            return Provisional(identity, delta.value);
          }
        case Unrelated =>
      }
      return Quiet;
    }

    method Ready() returns (out: seq<Release>)
      modifies this
      ensures (View(), out) == ReadyAll(old(View()))
    {
      out := [];
      ghost var start := View();
      while true
        invariant keys == start.keys
        invariant ReadyAll(start).0 == ReadyAll(View()).0
        invariant ReadyAll(start).1 == out + ReadyAll(View()).1
        decreases |Unresolved(items)|
      {
        var i, found := 0, None;
        while i < |keys| && found.None?
          invariant 0 <= i <= |keys|
          invariant FindNext(View(), 0) == if found.Some? then found else FindNext(View(), i)
        {
          var k := keys[i];
          if k in items && items[k].committed && !items[k].resolved && items[k].previous == tail {
            found := Some(k);
          }
          i := i + 1;
        }
        assert out + [] == out;
        if found.None? { return; }
        var key := found.value;
        if items[key].final.None? && !items[key].failed { return; }
        ghost var before := View();
        ResolveShrinks(before, key);
        out := out + [Release(key, items[key].final, items[key].failed)];
        items := items[key := items[key].(resolved := true)];
        tail := Some(key);
        assert View() == Resolve(before, key);
        assert ReadyAll(before).1 == [ReleaseOf(before, key)] + ReadyAll(View()).1;
      }
    }
  }

  // ---- runs ----

  datatype Op = See(event: Event) | Ready

  datatype Trace = Trace(order: Order, released: seq<Release>, raised: bool)

  /** Every call of a connection, in order, up to the first one that raises. */
  function Run(start: Order, ops: seq<Op>): Trace {
    if ops == [] then Trace(start, [], false)
    else
      var t := Run(start, ops[..|ops| - 1]);
      if t.raised then t
      else match ops[|ops| - 1]
        case See(e) =>
          var (o, out) := AfterEvent(t.order, e);
          Trace(o, t.released, out.Raised?)
        case Ready =>
          var (o, out) := ReadyAll(t.order);
          Trace(o, t.released + out, false)
  }

  ghost predicate Seen(ops: seq<Op>, e: Event) {
    See(e) in ops
  }

  // ---- the released list is a chain of predecessor links ----

  function Before(released: seq<Release>, i: nat): Option<string>
    requires i <= |released|
  {
    if i == 0 then None else Some(released[i - 1].item)
  }

  /** Entry i is a resolved, settled item, linked to the entry before it and holding what was released. */
  ghost predicate Linked(o: Order, released: seq<Release>, i: nat)
    requires i < |released|
  {
    && released[i].item in o.items
    && var item := o.items[released[i].item];
       && item.committed && item.resolved && Settled(item) && item.previous == Before(released, i)
       && item.final == released[i].final && item.failed == released[i].failed
  }

  ghost predicate Listed(released: seq<Release>, key: string) {
    exists i :: 0 <= i < |released| && released[i].item == key
  }

  ghost predicate Distinct(released: seq<Release>) {
    forall i, j :: 0 <= i < j < |released| ==> released[i].item != released[j].item
  }

  ghost predicate Keyed(o: Order) {
    forall k :: k in o.items ==> k in o.keys
  }

  ghost predicate Injective(o: Order) {
    forall k, l :: (k in o.items && l in o.items && o.items[k].committed && o.items[l].committed
                    && o.items[k].previous == o.items[l].previous) ==> k == l
  }

  /** released lists resolved items, each linked to the one before it, and no others are resolved. */
  ghost predicate Chain(o: Order, released: seq<Release>) {
    && o.tail == Before(released, |released|)
    && (forall i :: 0 <= i < |released| ==> Linked(o, released, i))
    && (forall k :: k in o.items && o.items[k].resolved ==> Listed(released, k))
    && Distinct(released)
  }

  ghost predicate Ordered(o: Order, released: seq<Release>) {
    Keyed(o) && Injective(o) && Chain(o, released)
  }

  /** Nothing more can be released. */
  ghost predicate Exhausted(o: Order) {
    forall k :: Next(o, k) ==> !Settled(o.items[k])
  }

  lemma AdmitKeeps(o: Order, key: string, released: seq<Release>)
    requires Ordered(o, released)
    ensures Ordered(Admit(o, key), released)
  {
    var a := Admit(o, key);
    forall k | k in a.items ensures k in a.keys {
      if k in o.items { assert k in o.keys; }
    }
    forall i | 0 <= i < |released| ensures Linked(a, released, i) {
      assert Linked(o, released, i);
    }
  }

  /** A settled, committed item is frozen: no accepted event alters what it holds. */
  lemma RecordFreezes(o: Order, e: Event, k: string)
    requires e.item in o.items && !Record(o, e).1.Raised? && k in o.items
    ensures var r := Record(o, e).0;
      && k in r.items && r.items[k].resolved == o.items[k].resolved
      && (o.items[k].committed && Settled(o.items[k]) ==> r.items[k] == o.items[k])
  {
  }

  lemma RecordKeeps(o: Order, e: Event, released: seq<Release>)
    requires Ordered(o, released) && e.item in o.items && !Record(o, e).1.Raised?
    ensures Ordered(Record(o, e).0, released)
  {
    var r := Record(o, e).0;
    RecordFrame(o, e);
    RecordInjective(o, e);
    forall i | 0 <= i < |released| ensures Linked(r, released, i) {
      assert Linked(o, released, i);
      RecordFreezes(o, e, released[i].item);
    }
    forall k | k in r.items && r.items[k].resolved ensures Listed(released, k) {
      RecordFreezes(o, e, k);
    }
  }

  lemma RecordFrame(o: Order, e: Event)
    requires e.item in o.items && !Record(o, e).1.Raised?
    ensures var r := Record(o, e).0; r.tail == o.tail && r.keys == o.keys && r.items.Keys == o.items.Keys
  {
  }

  lemma RecordInjective(o: Order, e: Event)
    requires Injective(o) && e.item in o.items && !Record(o, e).1.Raised?
    ensures Injective(Record(o, e).0)
  {
    RecordFrame(o, e);
    var r := Record(o, e).0;
    forall k, l | k in r.items && l in r.items && r.items[k].committed && r.items[l].committed
                  && r.items[k].previous == r.items[l].previous ensures k == l {
      assert k in o.items && l in o.items;
      if k != e.item && l != e.item {
        assert r.items[k] == o.items[k] && r.items[l] == o.items[l];
      }
    }
  }

  lemma ResolveKeeps(o: Order, key: string, released: seq<Release>)
    requires Ordered(o, released) && Next(o, key) && Settled(o.items[key])
    ensures Ordered(Resolve(o, key), released + [ReleaseOf(o, key)])
  {
    var r, n := Resolve(o, key), |released|;
    var more := released + [ReleaseOf(o, key)];
    forall i | 0 <= i < n + 1 ensures Linked(r, more, i) {
      assert Before(more, i) == Before(released, i);
      if i < n { assert Linked(o, released, i) && more[i] == released[i]; }
    }
    forall k | k in r.items && r.items[k].resolved ensures Listed(more, k) {
      if k == key {
        assert more[n].item == k;
      } else {
        assert o.items[k].resolved;
        var i :| 0 <= i < n && released[i].item == k;
        assert more[i].item == k;
      }
    }
    forall i, j | 0 <= i < j < n + 1 ensures more[i].item != more[j].item {
      assert Linked(o, released, i) && more[i] == released[i];
      if j < n { assert more[j] == released[j]; }
    }
  }

  lemma {:induction false} ReadyKeeps(o: Order, released: seq<Release>)
    requires Ordered(o, released)
    ensures Ordered(ReadyAll(o).0, released + ReadyAll(o).1)
    decreases |Unresolved(o.items)|
  {
    assert released + [] == released;
    var found := FindNext(o, 0);
    if found.Some? && Settled(o.items[found.value]) {
      var key := found.value;
      ResolveShrinks(o, key);
      ResolveKeeps(o, key, released);
      var next, more := Resolve(o, key), released + [ReleaseOf(o, key)];
      ReadyKeeps(next, more);
      assert more + ReadyAll(next).1 == released + ReadyAll(o).1;
    }
  }

  lemma {:induction false} ReadyExhausts(o: Order)
    requires Keyed(o) && Injective(o)
    ensures Exhausted(ReadyAll(o).0)
    decreases |Unresolved(o.items)|
  {
    var found := FindNext(o, 0);
    if found.Some? && Settled(o.items[found.value]) {
      ResolveShrinks(o, found.value);
      ReadyExhausts(Resolve(o, found.value));
    } else if found.None? {
      forall k ensures !Next(o, k) {
        if k in o.items {
          var j :| 0 <= j < |o.keys| && o.keys[j] == k;
          assert !Next(o, o.keys[j]);
        }
      }
    }
  }

  lemma ObserveKeeps(o: Order, e: Event, released: seq<Release>)
    requires Ordered(o, released) && !AfterEvent(o, e).1.Raised?
    ensures Ordered(AfterEvent(o, e).0, released)
  {
    if Relevant(o, e) {
      AdmitKeeps(o, e.item, released);
      RecordKeeps(Admit(o, e.item), e, released);
    }
  }

  /** Over every error-free run the buffer releases one chain from None, each item once, and never alters it. */
  lemma {:induction false} RunIsOrdered(generation: int, depth: int, ops: seq<Op>)
    requires !Run(Empty(generation, depth), ops).raised
    ensures Ordered(Run(Empty(generation, depth), ops).order, Run(Empty(generation, depth), ops).released)
    ensures Run(Empty(generation, depth), ops).order.generation == generation
    decreases |ops|
  {
    if ops != [] {
      hide Ordered, ReadyAll;
      var before := ops[..|ops| - 1];
      RunIsOrdered(generation, depth, before);
      var t := Run(Empty(generation, depth), before);
      match ops[|ops| - 1]
      case See(e) => ObserveKeeps(t.order, e, t.released);
      case Ready => ReadyKeeps(t.order, t.released); ReadyGeneration(t.order);
    }
  }

  /** A run that ends with ready() has released everything it could. */
  lemma RunExhausts(generation: int, depth: int, ops: seq<Op>)
    requires ops != [] && ops[|ops| - 1].Ready? && !Run(Empty(generation, depth), ops).raised
    ensures Exhausted(Run(Empty(generation, depth), ops).order)
  {
    var before := ops[..|ops| - 1];
    RunIsOrdered(generation, depth, before);
    ReadyExhausts(Run(Empty(generation, depth), before).order);
  }

  lemma {:induction false} ReadyGeneration(o: Order)
    ensures ReadyAll(o).0.generation == o.generation
    decreases |Unresolved(o.items)|
  {
    match FindNext(o, 0)
    case None =>
    case Some(key) =>
      if Settled(o.items[key]) {
        ResolveShrinks(o, key);
        ReadyGeneration(Resolve(o, key));
      }
  }

  // ---- what an item holds is fixed by the set of events seen ----

  ghost predicate CommitFacts(o: Order, ops: seq<Op>) {
    forall k, p :: Seen(ops, Event(o.generation, k, Committed(p)))
      <==> k in o.items && o.items[k].committed && o.items[k].previous == p
  }

  ghost predicate FailFacts(o: Order, ops: seq<Op>) {
    forall k :: Seen(ops, Event(o.generation, k, Failed)) <==> k in o.items && o.items[k].failed
  }

  ghost predicate FinalFacts(o: Order, ops: seq<Op>) {
    && (forall k, t :: Seen(ops, Event(o.generation, k, Done(Some(t)))) ==>
          k in o.items && o.items[k].final.Some? && o.items[k].final == Normalize(t))
    && (forall k :: k in o.items && o.items[k].final.Some? ==>
          exists t :: Seen(ops, Event(o.generation, k, Done(Some(t)))))
  }

  ghost predicate Facts(o: Order, ops: seq<Op>) {
    CommitFacts(o, ops) && FailFacts(o, ops) && FinalFacts(o, ops)
  }

  /** Two states agree on everything but which items are resolved. */
  ghost predicate SameContent(a: Order, b: Order) {
    && a.generation == b.generation && a.items.Keys == b.items.Keys
    && forall k :: k in a.items ==> a.items[k].(resolved := false) == b.items[k].(resolved := false)
  }

  lemma {:induction false} ReadySameContent(o: Order)
    ensures SameContent(o, ReadyAll(o).0)
    decreases |Unresolved(o.items)|
  {
    match FindNext(o, 0)
    case None =>
    case Some(key) =>
      if Settled(o.items[key]) {
        ResolveShrinks(o, key);
        ReadySameContent(Resolve(o, key));
        assert SameContent(o, Resolve(o, key));
      }
  }

  lemma FactsCarry(a: Order, b: Order, ops: seq<Op>, op: Op)
    requires Facts(a, ops) && SameContent(a, b)
    requires forall e :: op == See(e) ==> e.generation != a.generation || !(e.body.Committed? || e.body.Failed? || e.body.Done?)
    ensures Facts(b, ops + [op])
  {
    forall k ensures k in a.items <==> k in b.items {
      assert k in a.items.Keys <==> k in b.items.Keys;
    }
    forall e: Event | e.generation == a.generation && (e.body.Committed? || e.body.Failed? || e.body.Done?)
      ensures Seen(ops + [op], e) <==> Seen(ops, e)
    {}
    forall k | k in b.items ensures a.items[k].(resolved := false) == b.items[k].(resolved := false) {}
    forall k | k in b.items && b.items[k].final.Some?
      ensures exists t :: Seen(ops + [op], Event(b.generation, k, Done(Some(t))))
    {
      var t :| Seen(ops, Event(a.generation, k, Done(Some(t))));
      assert Seen(ops + [op], Event(b.generation, k, Done(Some(t))));
    }
  }

  lemma AdmitFacts(o: Order, key: string, ops: seq<Op>)
    requires Facts(o, ops)
    ensures Facts(Admit(o, key), ops)
  {
    var a := Admit(o, key);
    forall k | k in a.items && a.items[k].final.Some?
      ensures exists t :: Seen(ops, Event(a.generation, k, Done(Some(t))))
    {
      assert k in o.items && o.items[k].final.Some?;
    }
  }

  lemma CommitRecorded(o: Order, e: Event, ops: seq<Op>)
    requires Facts(o, ops) && e.generation == o.generation && e.item in o.items && e.body.Committed?
    requires !Record(o, e).1.Raised?
    ensures Facts(Record(o, e).0, ops + [See(e)])
  {
    var r, all := Record(o, e).0, ops + [See(e)];
    forall x ensures Seen(all, x) <==> x == e || Seen(ops, x) {}
    forall k, p ensures Seen(all, Event(r.generation, k, Committed(p)))
      <==> k in r.items && r.items[k].committed && r.items[k].previous == p
    {
      assert Seen(ops, Event(o.generation, k, Committed(p))) <==> k in o.items && o.items[k].committed && o.items[k].previous == p;
    }
    forall k | k in r.items && r.items[k].final.Some? ensures exists t :: Seen(all, Event(r.generation, k, Done(Some(t)))) {
      var t :| Seen(ops, Event(o.generation, k, Done(Some(t))));
      assert Seen(all, Event(r.generation, k, Done(Some(t))));
    }
  }

  lemma DoneRecorded(o: Order, e: Event, ops: seq<Op>)
    requires Facts(o, ops) && e.generation == o.generation && e.item in o.items && e.body.Done?
    requires !Record(o, e).1.Raised?
    ensures Facts(Record(o, e).0, ops + [See(e)])
  {
    var r, all := Record(o, e).0, ops + [See(e)];
    forall x ensures Seen(all, x) <==> x == e || Seen(ops, x) {}
    forall k | k in r.items && r.items[k].final.Some? ensures exists t :: Seen(all, Event(r.generation, k, Done(Some(t)))) {
      if k == e.item {
        assert Seen(all, Event(r.generation, k, Done(Some(e.body.transcript.value))));
      } else {
        var t :| Seen(ops, Event(o.generation, k, Done(Some(t))));
        assert Seen(all, Event(r.generation, k, Done(Some(t))));
      }
    }
    assert CommitFacts(r, all) by {
      forall k, p ensures Seen(all, Event(r.generation, k, Committed(p)))
        <==> k in r.items && r.items[k].committed && r.items[k].previous == p
      {
        assert Seen(ops, Event(o.generation, k, Committed(p))) <==> k in o.items && o.items[k].committed && o.items[k].previous == p;
      }
    }
  }

  lemma FailRecorded(o: Order, e: Event, ops: seq<Op>)
    requires Facts(o, ops) && e.generation == o.generation && e.item in o.items && e.body.Failed?
    requires !Record(o, e).1.Raised?
    ensures Facts(Record(o, e).0, ops + [See(e)])
  {
    var r, all := Record(o, e).0, ops + [See(e)];
    forall x ensures Seen(all, x) <==> x == e || Seen(ops, x) {}
    forall k | k in r.items && r.items[k].final.Some? ensures exists t :: Seen(all, Event(r.generation, k, Done(Some(t)))) {
      var t :| Seen(ops, Event(o.generation, k, Done(Some(t))));
      assert Seen(all, Event(r.generation, k, Done(Some(t))));
    }
    assert CommitFacts(r, all) by {
      forall k, p ensures Seen(all, Event(r.generation, k, Committed(p)))
        <==> k in r.items && r.items[k].committed && r.items[k].previous == p
      {
        assert Seen(ops, Event(o.generation, k, Committed(p))) <==> k in o.items && o.items[k].committed && o.items[k].previous == p;
      }
    }
  }

  lemma ObserveFacts(o: Order, e: Event, ops: seq<Op>)
    requires Facts(o, ops) && !AfterEvent(o, e).1.Raised?
    ensures Facts(AfterEvent(o, e).0, ops + [See(e)])
  {
    var (r, out) := AfterEvent(o, e);
    if !Relevant(o, e) {
      FactsCarry(o, o, ops, See(e));
    } else {
      var a := Admit(o, e.item);
      AdmitFacts(o, e.item, ops);
      match e.body
      case Committed(_) => CommitRecorded(a, e, ops);
      case Done(_) => DoneRecorded(a, e, ops);
      case Failed => FailRecorded(a, e, ops);
      case _ => FactsCarry(a, r, ops, See(e));
    }
  }

  lemma {:induction false} RunFacts(generation: int, depth: int, ops: seq<Op>)
    requires !Run(Empty(generation, depth), ops).raised
    ensures Facts(Run(Empty(generation, depth), ops).order, ops)
    decreases |ops|
  {
    if ops != [] {
      var before := ops[..|ops| - 1];
      RunFacts(generation, depth, before);
      var t := Run(Empty(generation, depth), before);
      assert before + [ops[|ops| - 1]] == ops;
      match ops[|ops| - 1]
      case See(e) => ObserveFacts(t.order, e, before);
      case Ready =>
        ReadySameContent(t.order);
        FactsCarry(t.order, ReadyAll(t.order).0, before, Ready);
    }
  }

  /** No item has both a final text and a failure. */
  ghost predicate OneOutcome(o: Order) {
    forall k :: k in o.items && o.items[k].failed ==> o.items[k].final.None?
  }

  lemma {:induction false} RunOneOutcome(generation: int, depth: int, ops: seq<Op>)
    requires !Run(Empty(generation, depth), ops).raised
    ensures OneOutcome(Run(Empty(generation, depth), ops).order)
    decreases |ops|
  {
    if ops != [] {
      var before := ops[..|ops| - 1];
      RunOneOutcome(generation, depth, before);
      var t := Run(Empty(generation, depth), before);
      match ops[|ops| - 1]
      case See(e) => ObserveOneOutcome(t.order, e);
      case Ready =>
        ReadySameContent(t.order);
        SameOneOutcome(t.order, ReadyAll(t.order).0);
    }
  }

  lemma ObserveOneOutcome(o: Order, e: Event)
    requires OneOutcome(o) && !AfterEvent(o, e).1.Raised?
    ensures OneOutcome(AfterEvent(o, e).0)
  {
  }

  lemma SameOneOutcome(a: Order, b: Order)
    requires OneOutcome(a) && SameContent(a, b)
    ensures OneOutcome(b)
  {
    forall k | k in b.items && b.items[k].failed ensures b.items[k].final.None? {
      assert k in a.items.Keys && a.items[k].(resolved := false) == b.items[k].(resolved := false);
    }
  }

  // ---- confluence ----

  /** The second run saw every event of the first, in whatever order and however often. */
  ghost predicate Covers(a: seq<Op>, b: seq<Op>) {
    forall e :: Seen(a, e) ==> Seen(b, e)
  }

  /** What a run has settled, a run that saw more holds alike. */
  lemma SameFacts(a: Order, x: seq<Op>, b: Order, y: seq<Op>, k: string)
    requires Facts(a, x) && Facts(b, y) && a.generation == b.generation && Covers(x, y) && OneOutcome(b)
    requires k in a.items && a.items[k].committed && Settled(a.items[k])
    ensures k in b.items && b.items[k].committed && b.items[k].previous == a.items[k].previous
    ensures b.items[k].final == a.items[k].final && b.items[k].failed == a.items[k].failed
  {
    var g := a.generation;
    assert Seen(x, Event(g, k, Committed(a.items[k].previous)));
    assert Seen(y, Event(g, k, Committed(a.items[k].previous)));
    assert Seen(x, Event(g, k, Failed)) ==> Seen(y, Event(g, k, Failed));
    if a.items[k].final.Some? {
      var t :| Seen(x, Event(g, k, Done(Some(t))));
      assert Seen(y, Event(g, k, Done(Some(t))));
    }
  }

  lemma {:induction false} SamePrefix(a: Order, x: seq<Op>, ra: seq<Release>, b: Order, y: seq<Op>, rb: seq<Release>, n: nat)
    requires Facts(a, x) && Facts(b, y) && a.generation == b.generation && Covers(x, y) && OneOutcome(b)
    requires Ordered(a, ra) && Ordered(b, rb) && n <= |ra| && n <= |rb|
    ensures ra[..n] == rb[..n]
    decreases n
  {
    if n > 0 {
      var i := n - 1;
      SamePrefix(a, x, ra, b, y, rb, i);
      SameBefore(ra, rb, i);
      SameEntry(a, x, ra, b, y, rb, i);
      assert ra[..n] == ra[..i] + [ra[i]] && rb[..n] == rb[..i] + [rb[i]];
    }
  }

  lemma SameBefore(ra: seq<Release>, rb: seq<Release>, i: nat)
    requires i <= |ra| && i <= |rb| && ra[..i] == rb[..i]
    ensures Before(ra, i) == Before(rb, i)
  {
    if i > 0 {
      assert ra[..i][i - 1] == ra[i - 1] && rb[..i][i - 1] == rb[i - 1];
    }
  }

  lemma SameEntry(a: Order, x: seq<Op>, ra: seq<Release>, b: Order, y: seq<Op>, rb: seq<Release>, i: nat)
    requires Facts(a, x) && Facts(b, y) && a.generation == b.generation && Covers(x, y) && OneOutcome(b)
    requires Injective(b) && i < |ra| && i < |rb| && Linked(a, ra, i) && Linked(b, rb, i) && Before(ra, i) == Before(rb, i)
    ensures ra[i] == rb[i]
  {
    SameFacts(a, x, b, y, ra[i].item);
    assert ra[i].item == rb[i].item;
  }

  /** If the run that saw less released more, its next entry could still be released by the other. */
  lemma ShorterHasNext(a: Order, x: seq<Op>, ra: seq<Release>, b: Order, y: seq<Op>, rb: seq<Release>) returns (k: string)
    requires Facts(a, x) && Facts(b, y) && a.generation == b.generation && Covers(x, y) && OneOutcome(b)
    requires Ordered(a, ra) && Ordered(b, rb) && |rb| < |ra|
    ensures Next(b, k) && Settled(b.items[k])
  {
    var n := |rb|;
    SamePrefix(a, x, ra, b, y, rb, n);
    SameBefore(ra, rb, n);
    k := ra[n].item;
    assert Linked(a, ra, n);
    SameFacts(a, x, b, y, k);
    forall i | 0 <= i < n ensures rb[i].item != k {
      assert ra[..n][i] == ra[i] && rb[..n][i] == rb[i];
    }
    assert !Listed(rb, k);
  }

  lemma NotShorter(a: Order, x: seq<Op>, ra: seq<Release>, b: Order, y: seq<Op>, rb: seq<Release>)
    requires Facts(a, x) && Facts(b, y) && a.generation == b.generation && Covers(x, y) && OneOutcome(b)
    requires Ordered(a, ra) && Ordered(b, rb) && Exhausted(b)
    ensures |ra| <= |rb|
  {
    if |rb| < |ra| {
      var k := ShorterHasNext(a, x, ra, b, y, rb);
    }
  }

  /** What was released is never taken back, whatever order the events come in: a run that ends with ready() releases
      at least what any run over some of the same events released, in the same order and with the same contents. */
  lemma MoreEventsReleaseMore(generation: int, depth: int, x: seq<Op>, y: seq<Op>)
    requires Covers(x, y) && y != [] && y[|y| - 1].Ready?
    requires !Run(Empty(generation, depth), x).raised && !Run(Empty(generation, depth), y).raised
    ensures Run(Empty(generation, depth), x).released <= Run(Empty(generation, depth), y).released
  {
    var a, b := Run(Empty(generation, depth), x), Run(Empty(generation, depth), y);
    RunIsOrdered(generation, depth, x);
    RunIsOrdered(generation, depth, y);
    RunExhausts(generation, depth, y);
    RunFacts(generation, depth, x);
    RunFacts(generation, depth, y);
    RunOneOutcome(generation, depth, y);
    NotShorter(a.order, x, a.released, b.order, y, b.released);
    SamePrefix(a.order, x, a.released, b.order, y, b.released, |a.released|);
    assert a.released[..|a.released|] == a.released;
  }

  /** Confluence: the same events, arriving in any order with ready() called anywhere, release the same list. */
  lemma Confluence(generation: int, depth: int, x: seq<Op>, y: seq<Op>)
    requires Covers(x, y) && Covers(y, x)
    requires x != [] && x[|x| - 1].Ready? && y != [] && y[|y| - 1].Ready?
    requires !Run(Empty(generation, depth), x).raised && !Run(Empty(generation, depth), y).raised
    ensures Run(Empty(generation, depth), x).released == Run(Empty(generation, depth), y).released
  {
    MoreEventsReleaseMore(generation, depth, x, y);
    MoreEventsReleaseMore(generation, depth, y, x);
  }
}
