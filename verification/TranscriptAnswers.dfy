// Exactly what the reorder buffer answers to each event, and when and why it refuses one, told from nothing but the
// events a connection has seen and the items it has released.
module TranscriptAnswers {
  import opened Wrappers
  import opened TranscriptText
  import opened TranscriptOrdering

  /** The item an operation speaks of, if this connection's buffer attends to it. */
  predicate Speaks(generation: int, op: Op) {
    op.See? && op.event.generation == generation && !op.event.body.Unrelated?
  }

  /** The distinct items of the events seen. */
  function ItemsSeen(generation: int, ops: seq<Op>): set<string> {
    set op | op in ops && Speaks(generation, op) :: op.event.item
  }

  lemma SeenMore(generation: int, ops: seq<Op>, op: Op)
    ensures ItemsSeen(generation, ops + [op]) == ItemsSeen(generation, ops) + if Speaks(generation, op) then {op.event.item} else {}
  {
    assert forall x :: x in ops + [op] <==> x in ops || x == op;
  }

  lemma ObserveKeys(o: Order, e: Event)
    requires !AfterEvent(o, e).1.Raised?
    ensures AfterEvent(o, e).0.items.Keys == o.items.Keys + if Speaks(o.generation, See(e)) then {e.item} else {}
  {
    if Relevant(o, e) { RecordFrame(Admit(o, e.item), e); }
  }

  /** The dictionary holds exactly the items of the events seen. */
  lemma {:induction false} KeysAreSeen(generation: int, depth: int, ops: seq<Op>)
    requires !Run(Empty(generation, depth), ops).raised
    ensures Run(Empty(generation, depth), ops).order.items.Keys == ItemsSeen(generation, ops)
    ensures Run(Empty(generation, depth), ops).order.depth == depth
    decreases |ops|
  {
    if ops != [] {
      var n := |ops| - 1;
      var t := Run(Empty(generation, depth), ops[..n]);
      KeysAreSeen(generation, depth, ops[..n]);
      RunIsOrdered(generation, depth, ops[..n]);
      assert ops[..n] + [ops[n]] == ops;
      SeenMore(generation, ops[..n], ops[n]);
      match ops[n]
      case See(e) => ObserveKeys(t.order, e); ObserveDepth(t.order, e);
      case Ready => ReadySameContent(t.order); ReadyDepth(t.order);
    }
  }

  lemma ObserveDepth(o: Order, e: Event)
    ensures AfterEvent(o, e).0.depth == o.depth
  {
  }

  lemma {:induction false} ReadyDepth(o: Order)
    ensures ReadyAll(o).0.depth == o.depth
    decreases |Unresolved(o.items)|
  {
    match FindNext(o, 0)
    case None =>
    case Some(key) =>
      if Settled(o.items[key]) {
        ResolveShrinks(o, key);
        ReadyDepth(Resolve(o, key));
      }
  }

  function ReleasedItems(released: seq<Release>): set<string> {
    set i | 0 <= i < |released| :: released[i].item
  }

  lemma {:induction false} ReleasedCount(released: seq<Release>)
    requires Distinct(released)
    ensures |ReleasedItems(released)| == |released|
    decreases |released|
  {
    if released == [] {
      assert ReleasedItems(released) == {};
    } else {
      var n := |released| - 1;
      ReleasedCount(released[..n]);
      ReleasedMore(released[..n], released[n]);
      assert released[..n] + [released[n]] == released;
    }
  }

  lemma ReleasedMore(released: seq<Release>, r: Release)
    ensures ReleasedItems(released + [r]) == ReleasedItems(released) + {r.item}
  {
    var more := released + [r];
    forall k | k in ReleasedItems(released) + {r.item} ensures k in ReleasedItems(more) {
      if k == r.item { assert more[|released|].item == k; }
      else { var i :| 0 <= i < |released| && released[i].item == k; assert more[i].item == k; }
    }
  }

  /** What waits is what was seen and not released. */
  lemma WaitingCount(o: Order, released: seq<Release>)
    requires Ordered(o, released)
    ensures |Unresolved(o.items)| == |o.items| - |released|
  {
    var done := ReleasedItems(released);
    forall k ensures k in done <==> k in o.items && o.items[k].resolved { ItemReleased(o, released, k); }
    ReleasedCount(released);
    assert Unresolved(o.items) + done == o.items.Keys && Unresolved(o.items) * done == {};
    assert |o.items.Keys| == |o.items|;
  }

  lemma ItemReleased(o: Order, released: seq<Release>, item: string)
    requires Ordered(o, released)
    ensures item in ReleasedItems(released) <==> item in o.items && o.items[item].resolved
  {
    if item in ReleasedItems(released) { var i :| 0 <= i < |released| && released[i].item == item; assert Linked(o, released, i); }
    if item in o.items && o.items[item].resolved { assert Listed(released, item); }
  }

  /** A new item finds no room: 256 items were seen, or as many wait as the depth allows. */
  ghost predicate NoRoom(generation: int, depth: int, ops: seq<Op>, item: string) {
    && item !in ItemsSeen(generation, ops)
    && (|ItemsSeen(generation, ops)| >= MAX_ITEMS
        || |ItemsSeen(generation, ops)| - |Run(Empty(generation, depth), ops).released| >= depth)
  }

  ghost predicate CommittedAs(generation: int, ops: seq<Op>, item: string, previous: Option<string>) {
    Seen(ops, Event(generation, item, Committed(previous)))
  }

  ghost predicate EndedWith(generation: int, ops: seq<Op>, item: string, text: string) {
    exists t :: Seen(ops, Event(generation, item, Done(Some(t)))) && Normalize(t) == Some(text)
  }

  /** The link is no identity, is its own predecessor, changes an earlier link, or is already taken by another item. */
  ghost predicate BadLink(generation: int, ops: seq<Op>, item: string, previous: Option<string>) {
    || (previous.Some? && !ValidIdentity(previous.value)) || previous == Some(item)
    || (exists p :: p != previous && CommittedAs(generation, ops, item, p))
    || (exists k :: k != item && CommittedAs(generation, ops, k, previous))
  }

  /** The answer to an event, from nothing but the events seen and the items released before it. */
  ghost predicate Answers(generation: int, depth: int, ops: seq<Op>, e: Event, out: Outcome) {
    var released := ReleasedItems(Run(Empty(generation, depth), ops).released);
    if e.generation != generation || e.body.Unrelated? then out == Quiet
    else if !ValidIdentity(e.item) then out == Raised(ProviderFailed)
    else if NoRoom(generation, depth, ops, e.item) then out == Raised(QueueOverrun)
    else match e.body
      case SpeechStarted => out == Quiet
      case SpeechStopped => out == Quiet
      case Committed(previous) => out == if BadLink(generation, ops, e.item, previous) then Raised(ProviderFailed) else Quiet
      case Done(transcript) =>
        if transcript.None? || |transcript.value| > MAX_TRANSCRIPT || HasControl(transcript.value) then out == Raised(TranscriptInvalid)
        else out == if Seen(ops, Event(generation, e.item, Failed))
                       || exists x :: Some(x) != Normalize(transcript.value) && EndedWith(generation, ops, e.item, x)
                    then Raised(TranscriptConflict) else Quiet
      case Failed => out == if exists x :: EndedWith(generation, ops, e.item, x) then Raised(ProviderFailed) else Quiet
      case Delta(delta) =>
        if e.item in released then out == Quiet
        else out == if delta.None? || |delta.value| > MAX_TRANSCRIPT then Raised(ProviderFailed) else Provisional(e.item, delta.value)
  }

  lemma LinkAnswer(o: Order, ops: seq<Op>, e: Event)
    requires CommitFacts(o, ops) && e.item in o.items && e.body.Committed? && e.generation == o.generation
    ensures Record(o, e).1 == if BadLink(o.generation, ops, e.item, e.body.previous) then Raised(ProviderFailed) else Quiet
  {
    var key, previous, g := e.item, e.body.previous, o.generation;
    if o.items[key].committed { assert CommittedAs(g, ops, key, o.items[key].previous); }
    if PredecessorTaken(o.items, key, previous) {
      var k :| k in o.items && k != key && o.items[k].committed && o.items[k].previous == previous;
      assert CommittedAs(g, ops, k, previous);
    }
    if exists p :: p != previous && CommittedAs(g, ops, key, p) {
      var p :| p != previous && CommittedAs(g, ops, key, p);
      assert o.items[key].previous == p;
    }
    if exists k :: k != key && CommittedAs(g, ops, k, previous) {
      var k :| k != key && CommittedAs(g, ops, k, previous);
      assert k in o.items && o.items[k].committed && o.items[k].previous == previous;
    }
  }

  lemma EndFacts(o: Order, ops: seq<Op>, item: string)
    requires FinalFacts(o, ops) && item in o.items
    ensures forall x :: EndedWith(o.generation, ops, item, x) <==> o.items[item].final == Some(x)
  {
    forall x ensures EndedWith(o.generation, ops, item, x) <==> o.items[item].final == Some(x) {
      if o.items[item].final == Some(x) {
        var t :| Seen(ops, Event(o.generation, item, Done(Some(t))));
        assert Normalize(t) == Some(x);
      }
    }
  }

  lemma EndAnswer(o: Order, ops: seq<Op>, e: Event)
    requires FailFacts(o, ops) && FinalFacts(o, ops) && e.item in o.items && e.generation == o.generation
    ensures e.body.Failed? ==>
      Record(o, e).1 == if exists x :: EndedWith(o.generation, ops, e.item, x) then Raised(ProviderFailed) else Quiet
    ensures e.body.Done? && e.body.transcript.Some? && Normalize(e.body.transcript.value).Some? ==>
      Record(o, e).1 == if Seen(ops, Event(o.generation, e.item, Failed))
                           || exists x :: Some(x) != Normalize(e.body.transcript.value) && EndedWith(o.generation, ops, e.item, x)
                        then Raised(TranscriptConflict) else Quiet
  {
    EndFacts(o, ops, e.item);
    if o.items[e.item].final.Some? { assert EndedWith(o.generation, ops, e.item, o.items[e.item].final.value); }
    assert Seen(ops, Event(o.generation, e.item, Failed)) <==> o.items[e.item].failed;
  }

  /** Over every error-free run, what the next event is answered with, and exactly when it is refused and why. */
  lemma AnswerIsExact(generation: int, depth: int, ops: seq<Op>, e: Event)
    requires !Run(Empty(generation, depth), ops).raised
    ensures Answers(generation, depth, ops, e, AfterEvent(Run(Empty(generation, depth), ops).order, e).1)
  {
    var t := Run(Empty(generation, depth), ops);
    var o := t.order;
    RunIsOrdered(generation, depth, ops);
    RunFacts(generation, depth, ops);
    KeysAreSeen(generation, depth, ops);
    WaitingCount(o, t.released);
    if Relevant(o, e) && ValidIdentity(e.item) && !NoRoom(generation, depth, ops, e.item) {
      var a := Admit(o, e.item);
      AdmitFacts(o, e.item, ops);
      ItemReleased(o, t.released, e.item);
      hide Ordered;
      match e.body
      case Committed(_) => LinkAnswer(a, ops, e);
      case Done(_) => EndAnswer(a, ops, e);
      case Failed => EndAnswer(a, ops, e);
      case _ =>
    }
  }

  // ---- unfinished ----

  /** Of the speech events seen, the last one says that someone started to speak. */
  predicate Talking(generation: int, ops: seq<Op>) {
    if ops == [] then false
    else
      var last := ops[|ops| - 1];
      if Speaks(generation, last) && last.event.body.SpeechStarted? then true
      else if Speaks(generation, last) && last.event.body.SpeechStopped? then false
      else Talking(generation, ops[..|ops| - 1])
  }

  lemma SeenSpeaking(o: Order, e: Event)
    requires !AfterEvent(o, e).1.Raised?
    ensures AfterEvent(o, e).0.speaking == (if Relevant(o, e) && e.body.SpeechStarted? then true
                        else if Relevant(o, e) && e.body.SpeechStopped? then false else o.speaking)
  {
  }

  lemma {:induction false} SpeakingIsTalking(generation: int, depth: int, ops: seq<Op>)
    requires !Run(Empty(generation, depth), ops).raised
    ensures Run(Empty(generation, depth), ops).order.speaking <==> Talking(generation, ops)
    decreases |ops|
  {
    if ops != [] {
      hide AfterEvent, ReadyAll, Ordered;
      var n := |ops| - 1;
      SpeakingIsTalking(generation, depth, ops[..n]);
      RunIsOrdered(generation, depth, ops[..n]);
      var t := Run(Empty(generation, depth), ops[..n]);
      match ops[n]
      case Ready => ReadySpeaking(t.order);
      case See(e) => SeenSpeaking(t.order, e);
    }
  }

  lemma {:induction false} ReadySpeaking(o: Order)
    ensures ReadyAll(o).0.speaking == o.speaking
    decreases |Unresolved(o.items)|
  {
    match FindNext(o, 0)
    case None =>
    case Some(key) =>
      if Settled(o.items[key]) {
        ResolveShrinks(o, key);
        ReadySpeaking(Resolve(o, key));
      }
  }

  /** Over every error-free run the buffer is finished exactly when nobody speaks and every item seen was released. */
  lemma FinishedIsAllReleased(generation: int, depth: int, ops: seq<Op>)
    requires !Run(Empty(generation, depth), ops).raised
    ensures var t := Run(Empty(generation, depth), ops);
      !Unfinished(t.order) <==> !Talking(generation, ops) && ItemsSeen(generation, ops) == ReleasedItems(t.released)
  {
    var t := Run(Empty(generation, depth), ops);
    SpeakingIsTalking(generation, depth, ops);
    RunIsOrdered(generation, depth, ops);
    KeysAreSeen(generation, depth, ops);
    hide Ordered;
    forall k ensures k in ReleasedItems(t.released) <==> k in t.order.items && t.order.items[k].resolved {
      assert Ordered(t.order, t.released);
      ItemReleased(t.order, t.released, k);
    }
    forall k ensures k in ItemsSeen(generation, ops) <==> k in t.order.items { assert k in t.order.items.Keys <==> k in ItemsSeen(generation, ops); }
  }
}
