// That the output gate does finish: a whole response is sealed by the call that completes it, a response that is over
// but not whole is answered with a failure, and any response within the caps can be played and proved.
module PlaybackCompletion {
  import opened Wrappers
  import opened TranscriptText
  import opened PlaybackOutput

  // ---- the seal ----

  lemma {:induction false} SampleSumAtLeast(parts: map<int, Part>, i: int, n: nat)
    requires 0 <= i < n && i in parts
    ensures SampleSum(parts, n) >= parts[i].samples
    decreases n
  {
    if i < n - 1 { SampleSumAtLeast(parts, i, n - 1); }
  }

  lemma WholeIsComplete(o: State)
    requires Shape(o.parts, o.samples) && Whole(o.parts)
    ensures Complete(o) && FinalOf(o.parts).value != []
  {
    var ps := InOrder(o.parts, MAX_PARTS);
    InOrderMembers(o.parts, MAX_PARTS);
    assert 0 in o.parts && o.parts[0] in ps;
    forall i | 0 <= i < |ps| ensures Spoken(ps[i]) && TextOf(ps[i]) != [] { assert ps[i] in ps; }
    SampleSumAtLeast(o.parts, 0, MAX_PARTS);
    FinalIsNormal(o.parts, o.samples);
  }

  /** The end of a call on a response that is over and not yet sealed. */
  lemma CloseSeals(o: State, sent: seq<Sent>, drawn: nat)
    requires Shape(o.parts, o.samples) && o.providerDone && o.seal.None?
    ensures var (s, r) := Close(o, sent, drawn);
      && s.parts == o.parts && s.response == o.response && s.sequence == o.sequence && s.samples == o.samples && s.providerDone
      && (Whole(o.parts) ==> s.seal == Some(drawn) && r == Events(sent + [AudioEnd(BindingOf(o), o.sequence, o.samples, drawn)]))
      && (!Whole(o.parts) ==> s.seal.None? && r == Events([GenerationFailed]))
  {
    if Whole(o.parts) {
      WholeIsComplete(o);
      hide Whole, Shape, FinalOf, AllSpoken, Contiguous;
    } else {
      if Complete(o) { CompleteIsWhole(o); }
      SomeSamples(o);
      hide Whole, FinalOf, Contiguous;
    }
  }

  /** Spoken parts have samples, and a final text joined from texts is not empty. */
  lemma SomeSamples(o: State)
    requires Shape(o.parts, o.samples)
    ensures AllSpoken(o.parts) ==> o.samples > 0
    ensures FinalOf(o.parts).Some? ==> FinalOf(o.parts).value != []
  {
    if AllSpoken(o.parts) {
      var ps := InOrder(o.parts, MAX_PARTS);
      InOrderMembers(o.parts, MAX_PARTS);
      assert ps[0] in ps && Spoken(ps[0]);
      var i :| 0 <= i < MAX_PARTS && i in o.parts && o.parts[i] == ps[0];
      SampleSumAtLeast(o.parts, i, MAX_PARTS);
    }
    if FinalOf(o.parts).Some? { FinalIsNormal(o.parts, o.samples); }
  }

  /** The event is for the present response and not a failure of it. */
  predicate Handled(o: State, e: Event) {
    && !o.retired && e.generation == o.connection && o.response == Some(e.response) && !e.payload.ResponseCreated?
    && !(e.payload.ResponseDone? && !e.payload.completed)
  }

  predicate SameHeader(o: State, s: State) {
    s.session == o.session && s.connection == o.connection && s.turn == o.turn && s.claim == o.claim && s.response == o.response
  }

  lemma UnhandledLeaves(o: State, e: Event, drawn: nat)
    requires !Handled(o, e)
    ensures var s := Provider(o, e, drawn).0; s.parts == o.parts && s.providerDone == o.providerDone && s.seal == o.seal
  {
    hide Close, OnPart;
  }

  lemma PartCloses(o: State, i: int, p: Payload, drawn: nat) returns (m: State, sent: seq<Sent>)
    requires i in o.parts && AboutPart(p) && OnPart(o, i, p, drawn).1.Events?
    ensures OnPart(o, i, p, drawn) == Close(m, sent, drawn) && m.seal == o.seal && m.providerDone == o.providerDone && SameHeader(o, m)
  {
    hide Close;
    m, sent := o, [];
    match p
    case Audio(_, frame) =>
      var c := Counted(o, i, frame.bytes.value / 2);
      m, sent := c.(outstanding := c.outstanding[c.sequence := c.samples]), [AudioSent(BindingOf(c), c.sequence)];
    case AudioDone(_) => m := o.(parts := o.parts[i := o.parts[i].(audioDone := true)]);
    case TextDelta(_, delta) =>
      if o.parts[i].final.None? { m := o.(parts := o.parts[i := o.parts[i].(transcript := o.parts[i].transcript + delta.value)]); }
    case TextDone(_, transcript) => m := o.(parts := o.parts[i := o.parts[i].(final := Normalize(transcript.value))]);
  }

  lemma HandledCloses(o: State, e: Event, drawn: nat) returns (m: State, sent: seq<Sent>)
    requires Handled(o, e) && Provider(o, e, drawn).1.Events?
    ensures Provider(o, e, drawn) == Close(m, sent, drawn) && m.seal == o.seal && SameHeader(o, m)
    ensures m.providerDone == (o.providerDone || e.payload.ResponseDone?)
    ensures !AboutPart(e.payload) ==> m.parts == o.parts && sent == []
  {
    hide Close, OnPart;
    if AboutPart(e.payload) {
      var (s, i) := Place(o, e.payload.part);
      m, sent := PartCloses(s, i.value, e.payload, drawn);
    } else {
      m, sent := if e.payload.ResponseDone? then o.(providerDone := true) else o, [];
    }
  }

  lemma CloseLeaves(m: State, sent: seq<Sent>, drawn: nat)
    ensures var s := Close(m, sent, drawn).0; s.parts == m.parts && s.samples == m.samples && s.sequence == m.sequence && BindingOf(s) == BindingOf(m)
  {
  }

  /** A call that leaves the response over, while it was not whole and over before, draws the seal exactly when the response is
      whole now; the seal is then the last thing sent, with the present position. */
  lemma SealIsExact(o: State, e: Event, drawn: nat)
    requires PartsOk(o) && o.seal.None? && !(o.providerDone && Whole(o.parts))
    ensures var (s, r) := Provider(o, e, drawn);
      r.Events? && s.providerDone ==>
        && (s.seal.Some? <==> Whole(s.parts))
        && (s.seal.Some? ==> (s.seal == Some(drawn) && r.sent != [] && r.sent[|r.sent| - 1]
              == AudioEnd(Binding(o.session, o.connection, o.turn, o.claim, o.response), s.sequence, s.samples, drawn)))
  {
    var (s, r) := Provider(o, e, drawn);
    ProviderKeepsParts(o, e, drawn);
    if r.Events? && s.providerDone {
      if Handled(o, e) {
        var m, sent := HandledCloses(o, e, drawn);
        hide Provider, Close, Whole;
        CloseLeaves(m, sent, drawn);
        CloseSeals(m, sent, drawn);
      } else {
        UnhandledLeaves(o, e, drawn);
      }
    }
  }

  /** The end of the response is answered with a failure exactly when the response is not whole, or was not completed. */
  lemma EndIsAnswered(o: State, e: Event, drawn: nat)
    requires PartsOk(o) && e.payload.ResponseDone? && !o.retired && e.generation == o.connection && o.response == Some(e.response)
    ensures Provider(o, e, drawn).0.parts == o.parts
    ensures Provider(o, e, drawn).1 == Events([GenerationFailed]) <==> !e.payload.completed || !Whole(o.parts)
  {
    if e.payload.completed {
      var m := o.(providerDone := true);
      assert Provider(o, e, drawn) == Close(m, [], drawn);
      hide Provider;
      if o.seal.None? {
        hide Close;
        CloseSeals(m, [], drawn);
        CloseLeaves(m, [], drawn);
        var end := AudioEnd(BindingOf(m), m.sequence, m.samples, drawn);
        assert [] + [end] == [end] && [end][0] != GenerationFailed;
      } else {
        CompleteIsWhole(o);
        WholeIsComplete(o);
      }
    }
  }

  /** The response is sealed exactly when it is over and whole. */
  ghost predicate SealedWhole(o: State) {
    o.providerDone ==> (o.seal.Some? <==> Whole(o.parts))
  }

  lemma StepSealsWhole(t: Trace, c: Call)
    requires PartsOk(t.state) && SealedWhole(t.state) && !t.raised && !Step(t, c).raised
    ensures SealedWhole(Step(t, c).state)
  {
    match c
    case Receive(e, drawn) => ReceiveSealsWhole(t.state, e, drawn);
    case Confirm(a) => AcknowledgeFrame(t.state, a); hide PartsOk, Acknowledge, Whole;
    case Retire =>
  }

  lemma ReceiveSealsWhole(o: State, e: Event, drawn: nat)
    requires PartsOk(o) && SealedWhole(o) && Provider(o, e, drawn).1.Events?
    ensures SealedWhole(Provider(o, e, drawn).0)
  {
    hide PartsOk, Provider, Whole;
    if o.seal.Some? { SealFreezes(o, e, drawn); } else { SealIsExact(o, e, drawn); }
  }

  /** Over every error-free run, a response that is over is sealed exactly when it is whole. */
  lemma {:induction false} RunSealsWhole(session: string, connection: int, turn: int, claim: string, calls: seq<Call>)
    requires !Run(New(session, connection, turn, claim), calls).raised
    ensures SealedWhole(Run(New(session, connection, turn, claim), calls).state)
    decreases |calls|
  {
    if calls != [] {
      RunSealsWhole(session, connection, turn, claim, calls[..|calls| - 1]);
      RunIsGood(session, connection, turn, claim, calls[..|calls| - 1]);
      hide Step, SealedWhole, PartsOk, Buffered, AllSound;
      StepSealsWhole(Run(New(session, connection, turn, claim), calls[..|calls| - 1]), calls[|calls| - 1]);
    }
  }

  // ---- the frames of a run ----

  function Total(sizes: seq<nat>): nat {
    if sizes == [] then 0 else Total(sizes[..|sizes| - 1]) + sizes[|sizes| - 1]
  }

  /** The response the provider announced for this claim, before the output was retired. */
  function Bound(connection: int, claim: string, calls: seq<Call>): Option<string> {
    if calls == [] then None
    else
      var before := calls[..|calls| - 1];
      var last := calls[|calls| - 1];
      if Retire !in before && last.Receive? && last.event.generation == connection && last.event.payload == ResponseCreated(claim)
      then Some(last.event.response) else Bound(connection, claim, before)
  }

  predicate Arrives(connection: int, claim: string, before: seq<Call>, c: Call) {
    && c.Receive? && c.event.generation == connection && c.event.payload.Audio? && c.event.payload.frame.bytes.Some?
    && Bound(connection, claim, before) == Some(c.event.response) && Retire !in before
  }

  /** The samples of the audio frames that arrived for that response, in order. */
  function Sizes(connection: int, claim: string, calls: seq<Call>): seq<nat> {
    if calls == [] then []
    else
      var before := calls[..|calls| - 1];
      var last := calls[|calls| - 1];
      Sizes(connection, claim, before) + if Arrives(connection, claim, before, last) then [last.event.payload.frame.bytes.value / 2] else []
  }

  /** The counters, the acknowledged position and the outstanding frames are those of the frames that arrived. */
  ghost predicate Counts(sequence: int, samples: nat, played: int, playedSequence: int, outstanding: map<int, int>, sizes: seq<nat>) {
    && sequence == |sizes| - 1 && samples == Total(sizes) && (forall k :: 0 <= k < |sizes| ==> sizes[k] > 0)
    && -1 <= playedSequence < |sizes| && played == Total(sizes[..playedSequence + 1])
    && (forall k :: k in outstanding ==> 0 <= k < |sizes| && outstanding[k] == Total(sizes[..k + 1]))
  }

  ghost predicate Tallies(o: State, connection: int, claim: string, calls: seq<Call>) {
    && o.connection == connection && o.claim == claim && o.response == Bound(connection, claim, calls) && (o.retired <==> Retire in calls)
    && Counts(o.sequence, o.samples, o.played, o.playedSequence, o.outstanding, Sizes(connection, claim, calls))
  }

  /** Nothing but an accepted frame moves the counters, and nothing but its announcement the response. */
  lemma ProviderTallies(o: State, e: Event, drawn: nat)
    requires Provider(o, e, drawn).1.Events?
    ensures var s := Provider(o, e, drawn).0;
      && s.connection == o.connection && s.claim == o.claim && s.retired == o.retired
      && s.response == (if !o.retired && e.generation == o.connection && e.payload == ResponseCreated(o.claim) then Some(e.response) else o.response)
      && (if !o.retired && e.generation == o.connection && e.payload.Audio? && o.response == Some(e.response)
          then e.payload.frame.bytes.Some? && e.payload.frame.bytes.value >= 2 && s.sequence == o.sequence + 1 && s.samples == o.samples + e.payload.frame.bytes.value / 2
               && s.played == o.played && s.playedSequence == o.playedSequence && s.outstanding == o.outstanding[s.sequence := s.samples]
          else SameBuffer(o, s))
  {
    if Handled(o, e) && AboutPart(e.payload) {
      var (p, i) := Place(o, e.payload.part);
      hide Place;
      PartTallies(p, i.value, e.payload, drawn);
      PlacedTallies(o, e.payload.part);
    } else if o.retired || e.generation != o.connection {
    } else if e.payload.ResponseCreated? {
    } else if o.response == Some(e.response) && !AboutPart(e.payload) {
      hide AllSpoken, FinalOf, Contiguous;
    }
  }

  lemma PlacedTallies(o: State, ref: PartRef)
    ensures var s := Place(o, ref).0;
      SameBuffer(o, s) && s.connection == o.connection && s.claim == o.claim && s.retired == o.retired && s.response == o.response
  {
  }

  lemma PartTallies(o: State, i: int, p: Payload, drawn: nat)
    requires i in o.parts && AboutPart(p) && OnPart(o, i, p, drawn).1.Events?
    ensures var s := OnPart(o, i, p, drawn).0;
      && s.connection == o.connection && s.claim == o.claim && s.retired == o.retired && s.response == o.response
      && (if p.Audio?
          then p.frame.bytes.Some? && p.frame.bytes.value >= 2 && s.sequence == o.sequence + 1 && s.samples == o.samples + p.frame.bytes.value / 2
               && s.played == o.played && s.playedSequence == o.playedSequence && s.outstanding == o.outstanding[s.sequence := s.samples]
          else SameBuffer(o, s))
  {
    if p.Audio? {
      var c := Counted(o, i, p.frame.bytes.value / 2);
      var m := c.(outstanding := c.outstanding[c.sequence := c.samples]);
      hide Close;
      CloseTallies(m, [AudioSent(BindingOf(c), c.sequence)], drawn);
    } else {
      OnlyAudioTouchesBuffer(o, i, p, drawn);
      var m, sent := PartCloses(o, i, p, drawn);
      hide OnPart, Close;
      CloseTallies(m, sent, drawn);
    }
  }

  lemma CloseTallies(m: State, sent: seq<Sent>, drawn: nat)
    ensures var s := Close(m, sent, drawn).0;
      SameBuffer(m, s) && s.connection == m.connection && s.claim == m.claim && s.retired == m.retired && s.response == m.response
  {
    hide AllSpoken, FinalOf, Contiguous;
  }

  lemma TotalStep(sizes: seq<nat>, n: nat, k: nat)
    requires k <= |sizes|
    ensures (sizes + [n])[..k] == sizes[..k] && Total(sizes + [n]) == Total(sizes) + n
  {
    assert (sizes + [n])[..|sizes|] == sizes;
  }

  lemma SizesStep(connection: int, claim: string, before: seq<Call>, c: Call)
    ensures Sizes(connection, claim, before + [c])
      == Sizes(connection, claim, before) + if Arrives(connection, claim, before, c) then [c.event.payload.frame.bytes.value / 2] else []
    ensures Bound(connection, claim, before + [c])
      == if Retire !in before && c.Receive? && c.event.generation == connection && c.event.payload == ResponseCreated(claim)
         then Some(c.event.response) else Bound(connection, claim, before)
    ensures Retire in before + [c] <==> Retire in before || c == Retire
  {
    assert (before + [c])[..|before|] == before;
  }

  lemma QuietStep(connection: int, claim: string, before: seq<Call>, c: Call)
    requires !Arrives(connection, claim, before, c)
    ensures Sizes(connection, claim, before + [c]) == Sizes(connection, claim, before)
    ensures Bound(connection, claim, before + [c])
      == if Retire !in before && c.Receive? && c.event.generation == connection && c.event.payload == ResponseCreated(claim)
         then Some(c.event.response) else Bound(connection, claim, before)
    ensures Retire in before + [c] <==> Retire in before || c == Retire
  {
    SizesStep(connection, claim, before, c);
    assert Sizes(connection, claim, before) + [] == Sizes(connection, claim, before);
  }

  lemma FrameCounts(o: State, sizes: seq<nat>, n: nat)
    requires Counts(o.sequence, o.samples, o.played, o.playedSequence, o.outstanding, sizes) && n > 0
    ensures Counts(o.sequence + 1, o.samples + n, o.played, o.playedSequence, o.outstanding[o.sequence + 1 := o.samples + n], sizes + [n])
  {
    forall k | 0 <= k <= |sizes| ensures (sizes + [n])[..k] == sizes[..k] { TotalStep(sizes, n, k); }
    TotalStep(sizes, n, 0);
    assert (sizes + [n])[..|sizes| + 1] == sizes + [n];
  }

  lemma FrameTallies(o: State, s: State, connection: int, claim: string, before: seq<Call>, c: Call)
    requires Tallies(o, connection, claim, before) && Arrives(connection, claim, before, c) && c.event.payload.frame.bytes.value >= 2
    requires s.connection == o.connection && s.claim == o.claim && s.retired == o.retired && s.response == o.response
    requires s.sequence == o.sequence + 1 && s.samples == o.samples + c.event.payload.frame.bytes.value / 2
    requires s.played == o.played && s.playedSequence == o.playedSequence && s.outstanding == o.outstanding[s.sequence := s.samples]
    ensures Tallies(s, connection, claim, before + [c])
  {
    SizesStep(connection, claim, before, c);
    hide Sizes, Bound, Counts;
    FrameCounts(o, Sizes(connection, claim, before), c.event.payload.frame.bytes.value / 2);
  }

  lemma ReceiveTallies(o: State, connection: int, claim: string, before: seq<Call>, e: Event, drawn: nat)
    requires Tallies(o, connection, claim, before) && Provider(o, e, drawn).1.Events?
    ensures Tallies(Provider(o, e, drawn).0, connection, claim, before + [Receive(e, drawn)])
  {
    var c := Receive(e, drawn);
    ProviderTallies(o, e, drawn);
    hide Provider;
    if Arrives(connection, claim, before, c) {
      FrameTallies(o, Provider(o, e, drawn).0, connection, claim, before, c);
    } else {
      QuietStep(connection, claim, before, c);
      hide Sizes, Bound, Counts;
    }
  }

  lemma ConfirmTallies(o: State, connection: int, claim: string, before: seq<Call>, a: Ack)
    requires Tallies(o, connection, claim, before)
    ensures Tallies(Acknowledge(o, a).0, connection, claim, before + [Confirm(a)])
  {
    QuietStep(connection, claim, before, Confirm(a));
    ConfirmMoves(o, a);
    var s := Acknowledge(o, a).0;
    hide Acknowledge, Sizes, Bound, Total, Counts;
    if s.playedSequence != o.playedSequence || s.played != o.played || s.outstanding != o.outstanding {
      PositionMoves(o, Sizes(connection, claim, before), a.sequence, a.samples);
    }
  }

  lemma PositionMoves(o: State, sizes: seq<nat>, sequence: int, samples: int)
    requires Counts(o.sequence, o.samples, o.played, o.playedSequence, o.outstanding, sizes) && Confirms(o, sequence, samples)
    ensures Counts(o.sequence, o.samples, samples, sequence, Unplayed(o, sequence), sizes)
  {
  }

  lemma ConfirmMoves(o: State, a: Ack)
    ensures var s := Acknowledge(o, a).0;
      && s.connection == o.connection && s.claim == o.claim && s.response == o.response && s.retired == o.retired
      && s.sequence == o.sequence && s.samples == o.samples
      && ((s.playedSequence == o.playedSequence && s.played == o.played && s.outstanding == o.outstanding)
          || (Confirms(o, a.sequence, a.samples) && s.playedSequence == a.sequence && s.played == a.samples
              && s.outstanding == Unplayed(o, a.sequence)))
  {
    AcknowledgeMoves(o, a);
    if o.retired {} else if a.kind.PlaybackStarted? {}
  }

  lemma RetireTallies(o: State, connection: int, claim: string, before: seq<Call>)
    requires Tallies(o, connection, claim, before)
    ensures Tallies(o.(retired := true), connection, claim, before + [Retire])
  {
    QuietStep(connection, claim, before, Retire);
    hide Sizes, Bound, Total, Counts;
  }

  /** Over every error-free run the counters are those of the frames that arrived. */
  lemma {:induction false} RunTallies(session: string, connection: int, turn: int, claim: string, calls: seq<Call>)
    requires !Run(New(session, connection, turn, claim), calls).raised
    ensures Tallies(Run(New(session, connection, turn, claim), calls).state, connection, claim, calls)
    decreases |calls|
  {
    if calls == [] {
      assert Sizes(connection, claim, calls)[..0] == [];
    } else {
      hide Tallies, Provider, Acknowledge;
      var before := calls[..|calls| - 1];
      var o := Run(New(session, connection, turn, claim), before).state;
      RunTallies(session, connection, turn, claim, before);
      assert before + [calls[|before|]] == calls;
      match calls[|before|]
      case Receive(e, drawn) => ReceiveTallies(o, connection, claim, before, e, drawn);
      case Confirm(a) => ConfirmTallies(o, connection, claim, before, a);
      case Retire => RetireTallies(o, connection, claim, before);
    }
  }

  /** The position is one the browser can have reached: the end of a frame that was sent, or the start. */
  predicate Reached(sizes: seq<nat>, sequence: int, samples: int) {
    -1 <= sequence < |sizes| && samples == Total(sizes[..sequence + 1])
  }

  /** What an acknowledgement does, told from the frames that arrived and the position acknowledged before. */
  ghost predicate Acknowledges(o: State, sizes: seq<nat>, a: Ack, s: State, r: AckReply) {
    if o.retired || a.binding != Binding(o.session, o.connection, o.turn, o.claim, o.response) then s == o && r == Nothing
    else match a.kind
      case PlaybackStarted =>
        if a.sequence == -1 && a.samples == 0 && sizes != [] then s == o.(playbackStarted := true) && r == Nothing
        else s == o && r == AckRaised(ProtocolError)
      case Progress =>
        if a.sequence < o.playedSequence then s == o && r == Nothing
        else if !Reached(sizes, a.sequence, a.samples) then s == o && r == AckRaised(ProtocolError)
        else s.playedSequence == a.sequence && s.played == a.samples && r == Nothing && SameProof(o, s) && s.final == o.final
      case Drained(seal) =>
        s == o && if a.sequence < o.playedSequence then r == Nothing
        else if Reached(sizes, a.sequence, a.samples) && a.sequence == |sizes| - 1 && o.seal == Some(seal) then
          Whole(o.parts) && o.response.Some? && r == Proved(Proof(WholeText(o.parts), o.response.value, a.sequence, a.samples))
        else r == AckRaised(ProtocolError)
  }

  lemma PositionsMatch(o: State, connection: int, claim: string, calls: seq<Call>, a: Ack)
    requires Buffered(o) && Tallies(o, connection, claim, calls)
    ensures a.sequence >= o.playedSequence ==> (Reached(Sizes(connection, claim, calls), a.sequence, a.samples) <==> Repeats(o, a) || Outstanding(o, a))
    ensures a.sequence < o.playedSequence ==> !Repeats(o, a)
  {
    var sizes := Sizes(connection, claim, calls);
    if o.playedSequence < a.sequence < |sizes| { assert a.sequence in o.outstanding; }
  }

  lemma DrainsWhole(o: State, a: Ack)
    requires PartsOk(o) && a.kind.Drained? && o.seal == Some(a.kind.seal) && a.sequence == o.sequence && a.samples == o.samples
    ensures Drains(o, a) && Whole(o.parts) && o.final == Some(WholeText(o.parts))
  {
    CompleteIsWhole(o);
    WholeFinal(o.parts);
    WholeIsComplete(o);
  }

  /** Over every error-free run, what each acknowledgement does: it is taken exactly for a position that was sent and not yet
      passed, and proves the playback exactly at the last position of the sealed response. */
  lemma AcknowledgeIsExact(session: string, connection: int, turn: int, claim: string, calls: seq<Call>, a: Ack)
    requires !Run(New(session, connection, turn, claim), calls).raised
    ensures var o := Run(New(session, connection, turn, claim), calls).state;
      Acknowledges(o, Sizes(connection, claim, calls), a, Acknowledge(o, a).0, Acknowledge(o, a).1)
  {
    var o := Run(New(session, connection, turn, claim), calls).state;
    RunIsGood(session, connection, turn, claim, calls);
    RunTallies(session, connection, turn, claim, calls);
    PositionsMatch(o, connection, claim, calls, a);
    var sizes := Sizes(connection, claim, calls);
    assert o.sequence == |sizes| - 1 && o.samples == Total(sizes) && (sizes != [] ==> sizes[|sizes| - 1] > 0);
    hide Tallies, Buffered, Counts, Run, Sizes;
    AcknowledgesFrom(o, sizes, a);
  }

  lemma AcknowledgesFrom(o: State, sizes: seq<nat>, a: Ack)
    requires PartsOk(o) && o.sequence == |sizes| - 1 && o.samples == Total(sizes) && (sizes != [] ==> sizes[|sizes| - 1] > 0)
    requires a.sequence >= o.playedSequence ==> (Reached(sizes, a.sequence, a.samples) <==> Repeats(o, a) || Outstanding(o, a))
    requires a.sequence < o.playedSequence ==> !Repeats(o, a)
    ensures Acknowledges(o, sizes, a, Acknowledge(o, a).0, Acknowledge(o, a).1)
  {
    if a.kind.Drained? && o.seal == Some(a.kind.seal) && a.sequence == o.sequence && a.samples == o.samples { DrainsWhole(o, a); }
    assert sizes[..|sizes|] == sizes;
    hide PartsOk, Whole, WholeText;
    match a.kind
    case PlaybackStarted => hide Repeats, Outstanding;
    case Progress => hide Drains, Total;
    case Drained(_) => hide Repeats, Outstanding;
  }

  // ---- a whole response, played and proved ----

  /** One part of a response: its item, the samples of its audio frames, and its text. */
  datatype Line = Line(item: string, frames: seq<nat>, text: string)

  /** A response of one output, and the seal it draws. */
  datatype Talk = Talk(session: string, connection: int, turn: int, claim: string, response: string, lines: seq<Line>, seal: nat)

  /** i lines are complete, and j frames of the next. */
  predicate At(lines: seq<Line>, i: nat, j: nat) {
    if i < |lines| then j <= |lines[i].frames| else i == |lines| && j == 0
  }

  /** The frames of the first i lines, and j of the next. */
  function Said(lines: seq<Line>, i: nat, j: nat): seq<nat>
    requires At(lines, i, j)
    decreases i, j
  {
    if j > 0 then Said(lines, i, j - 1) + [lines[i].frames[j - 1]]
    else if i > 0 then Said(lines, i - 1, |lines[i - 1].frames|) else []
  }

  function TextOfLine(l: Line): string {
    if Normalize(l.text).Some? then Normalize(l.text).value else ""
  }

  /** What the texts of the first i lines take in the joined transcript. */
  function Room(lines: seq<Line>, i: nat): nat
    requires i <= |lines|
  {
    if i == 0 then 0 else Room(lines, i - 1) + |TextOfLine(lines[i - 1])| + 1
  }

  /** The response stays within every cap: eight parts, a second a frame, two minutes, and 8000 characters. */
  ghost predicate Speakable(w: Talk) {
    && ValidIdentity(w.response) && 1 <= |w.lines| <= MAX_PARTS
    && (forall i :: 0 <= i < |w.lines| ==> SpeakableLine(w.lines[i]))
    && (forall i, j :: 0 <= i < j < |w.lines| ==> w.lines[i].item != w.lines[j].item)
    && Total(Said(w.lines, |w.lines|, 0)) <= MAX_RESPONSE_SAMPLES && Room(w.lines, |w.lines|) <= MAX_TRANSCRIPT + 1
  }

  predicate SpeakableLine(l: Line) {
    && ValidIdentity(l.item) && l.frames != [] && (forall j :: 0 <= j < |l.frames| ==> 1 <= l.frames[j] <= 24000)
    && Normalize(l.text).Some? && Normalize(l.text).value != []
  }

  function RefOf(w: Talk, i: nat): PartRef
    requires i < |w.lines|
  {
    PartRef(w.lines[i].item, Some(i), 0)
  }

  /** n samples are 2n bytes, in base64. */
  function FrameOf(n: nat): Frame { Frame(Some((2 * n + 2) / 3 * 4), Some(2 * n)) }

  function Heard(w: Talk, p: Payload): Call { Receive(Event(w.connection, w.response, p), w.seal) }

  function Position(w: Talk, kind: AckKind, sizes: seq<nat>): Call {
    Confirm(Ack(kind, Binding(w.session, w.connection, w.turn, w.claim, Some(w.response)), |sizes| - 1, Total(sizes)))
  }

  /** The provider announces the response and sends it part by part; the browser plays every frame at once. */
  function Script(w: Talk, i: nat, j: nat): seq<Call>
    requires At(w.lines, i, j)
    decreases i, j
  {
    if j > 0 then
      Script(w, i, j - 1)
      + [Heard(w, Audio(RefOf(w, i), FrameOf(w.lines[i].frames[j - 1])))]
      + [Position(w, Progress, Said(w.lines, i, j))]
    else if i > 0 then
      Script(w, i - 1, |w.lines[i - 1].frames|)
      + [Heard(w, AudioDone(RefOf(w, i - 1)))] + [Heard(w, TextDone(RefOf(w, i - 1), Some(w.lines[i - 1].text)))]
    else [Heard(w, ResponseCreated(w.claim))]
  }

  /** The whole conversation with the gate. */
  function Playback(w: Talk): seq<Call> {
    Script(w, |w.lines|, 0) + [Heard(w, ResponseDone(true))] + [Position(w, Drained(w.seal), Said(w.lines, |w.lines|, 0))]
  }

  function DonePart(l: Line): Part {
    Part(l.item, "", Some(TextOfLine(l)), true, Total(l.frames))
  }

  /** The state after i lines and j frames, everything played. */
  ghost predicate Spoke(o: State, w: Talk, i: nat, j: nat)
    requires At(w.lines, i, j)
  {
    var sizes := Said(w.lines, i, j);
    && o.session == w.session && o.connection == w.connection && o.turn == w.turn && o.claim == w.claim && o.response == Some(w.response)
    && !o.retired && !o.providerDone && o.seal.None?
    && o.sequence == o.playedSequence == |sizes| - 1 && o.samples == o.played == Total(sizes) && o.outstanding == map[]
    && o.audioIndex == (if j > 0 then i else i - 1)
    && (forall k :: k in o.parts <==> 0 <= k < i || (k == i && j > 0))
    && (forall k :: 0 <= k < i ==> o.parts[k] == DonePart(w.lines[k]))
    && (j > 0 ==> o.parts[i] == Part(w.lines[i].item, "", None, false, Total(w.lines[i].frames[..j])))
  }

  lemma RunMore(start: State, calls: seq<Call>, c: Call)
    ensures Run(start, calls + [c]) == if Run(start, calls).raised then Run(start, calls) else Step(Run(start, calls), c)
  {
    assert (calls + [c])[..|calls|] == calls;
  }

  lemma {:induction false} OtherLengthsAre(parts: map<int, Part>, lines: seq<Line>, i: nat, n: nat)
    requires i < |lines| && forall k :: k in parts ==> k <= i
    requires forall k :: 0 <= k < i ==> k in parts && parts[k] == DonePart(lines[k])
    ensures OtherLengths(parts, i, n) == Room(lines, Min(n, i))
    decreases n
  {
    if n > 0 {
      OtherLengthsAre(parts, lines, i, n - 1);
      hide TextOfLine, Total;
      if n - 1 < i {
        assert TextOf(parts[n - 1]) == TextOfLine(lines[n - 1]) && Min(n, i) == n && Min(n - 1, i) == n - 1;
      } else {
        assert (n - 1 == i || n - 1 !in parts) && Min(n, i) == i && Min(n - 1, i) == i;
      }
    }
  }

  lemma Fits(w: Talk, i: nat, j: nat)
    requires i < |w.lines| && j < |w.lines[i].frames| && SpeakableLine(w.lines[i])
    ensures Said(w.lines, i, j + 1) == Said(w.lines, i, j) + [w.lines[i].frames[j]]
    ensures Total(Said(w.lines, i, j + 1)) == Total(Said(w.lines, i, j)) + w.lines[i].frames[j]
    ensures Total(w.lines[i].frames[..j + 1]) == Total(w.lines[i].frames[..j]) + w.lines[i].frames[j]
    ensures Undecodable(FrameOf(w.lines[i].frames[j])).None?
  {
    TotalStep(Said(w.lines, i, j), w.lines[i].frames[j], 0);
    TotalStep(w.lines[i].frames[..j], w.lines[i].frames[j], 0);
    assert w.lines[i].frames[..j + 1] == w.lines[i].frames[..j] + [w.lines[i].frames[j]];
  }

  lemma OpenClose(m: State, sent: seq<Sent>, drawn: nat)
    requires !m.providerDone
    ensures Close(m, sent, drawn) == (m.(audioDone := AllSpoken(m.parts), final := FinalOf(m.parts)), Events(sent))
  {
    hide AllSpoken, FinalOf, Contiguous;
  }

  lemma AudioAccepted(p: State, i: int, frame: Frame, drawn: nat)
    requires i in p.parts && AcceptsFrame(p, i, frame) && !Exceeds(p, frame.bytes.value / 2)
    ensures var c := Counted(p, i, frame.bytes.value / 2);
      var m := c.(outstanding := c.outstanding[c.sequence := c.samples]);
      OnAudio(p, i, frame, drawn)
      == (m.(audioDone := AllSpoken(m.parts), final := FinalOf(m.parts)), Events([AudioSent(BindingOf(c), c.sequence)]))
  {
    var c := Counted(p, i, frame.bytes.value / 2);
    OpenClose(c.(outstanding := c.outstanding[c.sequence := c.samples]), [AudioSent(BindingOf(c), c.sequence)], drawn);
    hide Close, AllSpoken, FinalOf, Undecodable;
  }

  function Heading(w: Talk, i: nat, j: nat): Part
    requires i < |w.lines| && j <= |w.lines[i].frames|
  {
    Part(w.lines[i].item, "", None, false, Total(w.lines[i].frames[..j]))
  }

  lemma LinePlaces(o: State, w: Talk, i: nat, j: nat)
    requires Speakable(w) && i < |w.lines| && j <= |w.lines[i].frames| && Spoke(o, w, i, j)
    ensures Place(o, RefOf(w, i)) == (o.(parts := o.parts[i := Heading(w, i, j)], item := Some(w.lines[i].item)), Some(i))
  {
    assert w.lines[i].frames[..0] == [] && SpeakableLine(w.lines[i]);
    if j > 0 { assert o.parts[i := Heading(w, i, j)] == o.parts; }
    hide Total, Room, Normalize, ValidIdentity;
  }

  function Placed(o: State, w: Talk, i: nat, j: nat): State
    requires i < |w.lines| && j <= |w.lines[i].frames|
  {
    o.(parts := o.parts[i := Heading(w, i, j)], item := Some(w.lines[i].item))
  }

  lemma FrameIsAccepted(o: State, w: Talk, i: nat, j: nat)
    requires Speakable(w) && i < |w.lines| && j < |w.lines[i].frames| && Spoke(o, w, i, j)
    requires Total(Said(w.lines, i, j + 1)) <= MAX_RESPONSE_SAMPLES
    ensures AcceptsFrame(Placed(o, w, i, j), i, FrameOf(w.lines[i].frames[j])) && !Exceeds(Placed(o, w, i, j), w.lines[i].frames[j])
  {
    assert SpeakableLine(w.lines[i]);
    Fits(w, i, j);
    hide Speakable, Total, Room, Normalize, Undecodable;
  }

  /** The state with frame j of line i counted. */
  function Sending(o: State, w: Talk, i: nat, j: nat): State
    requires i < |w.lines| && j < |w.lines[i].frames|
  {
    var n, parts := w.lines[i].frames[j], o.parts[i := Heading(w, i, j + 1)];
    o.(item := Some(w.lines[i].item), audioIndex := i, samples := o.samples + n, sequence := o.sequence + 1, parts := parts,
       outstanding := o.outstanding[o.sequence + 1 := o.samples + n], audioDone := AllSpoken(parts), final := FinalOf(parts))
  }

  lemma CountedParts(o: State, w: Talk, i: nat, j: nat)
    requires i < |w.lines| && j < |w.lines[i].frames| && SpeakableLine(w.lines[i])
    ensures var c := Counted(Placed(o, w, i, j), i, w.lines[i].frames[j]);
      var m := c.(outstanding := c.outstanding[c.sequence := c.samples]);
      Sending(o, w, i, j) == m.(audioDone := AllSpoken(m.parts), final := FinalOf(m.parts))
  {
    HeadingGrows(o, w, i, j);
    hide AllSpoken, FinalOf, Heading;
  }

  lemma HeadingGrows(o: State, w: Talk, i: nat, j: nat)
    requires i < |w.lines| && j < |w.lines[i].frames| && SpeakableLine(w.lines[i])
    ensures Counted(Placed(o, w, i, j), i, w.lines[i].frames[j]).parts == o.parts[i := Heading(w, i, j + 1)]
  {
    Fits(w, i, j);
    assert o.parts[i := Heading(w, i, j)][i := Heading(w, i, j + 1)] == o.parts[i := Heading(w, i, j + 1)];
    hide Total, SpeakableLine;
  }

  function FrameEvent(w: Talk, i: nat, j: nat): Event
    requires i < |w.lines| && j < |w.lines[i].frames|
  {
    Event(w.connection, w.response, Audio(RefOf(w, i), FrameOf(w.lines[i].frames[j])))
  }

  lemma FrameReaches(o: State, w: Talk, i: nat, j: nat)
    requires Speakable(w) && i < |w.lines| && j < |w.lines[i].frames| && Spoke(o, w, i, j)
    ensures ReachesPart(o, FrameEvent(w, i, j)) && Place(o, RefOf(w, i)) == (Placed(o, w, i, j), Some(i))
  {
    LinePlaces(o, w, i, j);
    hide Place, Speakable, Total;
  }

  lemma FrameIsSent(o: State, w: Talk, i: nat, j: nat)
    requires Speakable(w) && i < |w.lines| && j < |w.lines[i].frames| && Spoke(o, w, i, j)
    requires Total(Said(w.lines, i, j + 1)) <= MAX_RESPONSE_SAMPLES
    ensures var (s, r) := Provider(o, FrameEvent(w, i, j), w.seal); s == Sending(o, w, i, j) && r.Events?
  {
    assert SpeakableLine(w.lines[i]);
    hide Provider, Place, Placed, OnAudio, Speakable, SpeakableLine, AcceptsFrame, Exceeds, Counted, AllSpoken, FinalOf, Spoke, Sending, ReachesPart,
      Said, Total;
    FrameReaches(o, w, i, j);
    ReachedPart(o, FrameEvent(w, i, j), w.seal);
    FrameIsAccepted(o, w, i, j);
    CountedParts(o, w, i, j);
    assert FrameOf(w.lines[i].frames[j]).bytes.value / 2 == w.lines[i].frames[j];
    assert i in Placed(o, w, i, j).parts;
    AudioAccepted(Placed(o, w, i, j), i, FrameOf(w.lines[i].frames[j]), w.seal);
  }

  function Playing(s: State): State { s.(playedSequence := s.sequence, played := s.samples, outstanding := map[]) }

  lemma SendingSpoke(o: State, w: Talk, i: nat, j: nat)
    requires i < |w.lines| && j < |w.lines[i].frames| && SpeakableLine(w.lines[i]) && Spoke(o, w, i, j)
    ensures Spoke(Playing(Sending(o, w, i, j)), w, i, j + 1)
  {
    Fits(w, i, j);
    hide AllSpoken, FinalOf, Total, SpeakableLine;
  }

  lemma SendingFits(o: State, w: Talk, i: nat, j: nat)
    requires i < |w.lines| && j < |w.lines[i].frames| && SpeakableLine(w.lines[i]) && Spoke(o, w, i, j)
    ensures var s, a := Sending(o, w, i, j), Position(w, Progress, Said(w.lines, i, j + 1)).ack;
      && !s.retired && a.binding == BindingOf(s) && a.sequence == s.sequence && a.samples == s.samples
      && s.playedSequence < s.sequence && s.outstanding == map[s.sequence := s.samples]
  {
    Fits(w, i, j);
    hide AllSpoken, FinalOf, Total, SpeakableLine, Heading;
  }

  lemma FramePlays(o: State, w: Talk, i: nat, j: nat)
    requires Speakable(w) && i < |w.lines| && j < |w.lines[i].frames| && Spoke(o, w, i, j)
    requires Total(Said(w.lines, i, j + 1)) <= MAX_RESPONSE_SAMPLES
    ensures var (s, r) := Provider(o, FrameEvent(w, i, j), w.seal);
      var (u, q) := Acknowledge(s, Position(w, Progress, Said(w.lines, i, j + 1)).ack);
      r.Events? && q.Nothing? && Spoke(u, w, i, j + 1)
  {
    assert SpeakableLine(w.lines[i]);
    FrameIsSent(o, w, i, j);
    Fits(w, i, j);
    SendingSpoke(o, w, i, j);
    var s := Sending(o, w, i, j);
    var a := Position(w, Progress, Said(w.lines, i, j + 1)).ack;
    SendingFits(o, w, i, j);
    hide Provider, Acknowledge, Speakable, SpeakableLine, Sending, Spoke, Said, Total;
    ProgressMoves(s, a);
  }

  /** Once the last frame is acknowledged, nothing is outstanding. */
  lemma ProgressMoves(s: State, a: Ack)
    requires !s.retired && a.binding == BindingOf(s) && a.kind.Progress? && a.sequence == s.sequence && a.samples == s.samples
    requires s.playedSequence < s.sequence && s.outstanding == map[s.sequence := s.samples]
    ensures Acknowledge(s, a) == (s.(playedSequence := s.sequence, played := s.samples, outstanding := map[]), Nothing)
  {
    assert (map k | k in s.outstanding && k > a.sequence :: s.outstanding[k]) == map[];
  }

  function Quieted(w: Talk, i: nat): Part
    requires i < |w.lines|
  {
    Part(w.lines[i].item, "", None, true, Total(w.lines[i].frames))
  }

  /** The state with part i replaced and the summary recomputed. */
  function WithPart(o: State, w: Talk, i: nat, p: Part): State
    requires i < |w.lines|
  {
    var parts := o.parts[i := p];
    o.(parts := parts, item := Some(w.lines[i].item), audioDone := AllSpoken(parts), final := FinalOf(parts))
  }

  function EndEvent(w: Talk, i: nat): Event
    requires i < |w.lines|
  {
    Event(w.connection, w.response, AudioDone(RefOf(w, i)))
  }

  function TextEvent(w: Talk, i: nat): Event
    requires i < |w.lines|
  {
    Event(w.connection, w.response, TextDone(RefOf(w, i), Some(w.lines[i].text)))
  }

  lemma AudioEnds(o: State, w: Talk, i: nat)
    requires Speakable(w) && i < |w.lines| && Spoke(o, w, i, |w.lines[i].frames|)
    ensures Provider(o, EndEvent(w, i), w.seal) == (WithPart(o, w, i, Quieted(w, i)), Events([]))
  {
    var f := w.lines[i].frames;
    assert f[..|f|] == f;
    LinePlaces(o, w, i, |f|);
    var m := o.(parts := o.parts[i := Quieted(w, i)], item := Some(w.lines[i].item));
    assert o.parts[i := Heading(w, i, |f|)][i := Quieted(w, i)] == o.parts[i := Quieted(w, i)];
    OpenClose(m, [], w.seal);
    hide Place, Close, Speakable, AllSpoken, FinalOf, Total;
  }

  lemma TextEnds(s: State, w: Talk, i: nat)
    requires i < |w.lines| && SpeakableLine(w.lines[i]) && i in s.parts && s.parts[i] == Quieted(w, i)
    requires s.connection == w.connection && s.response == Some(w.response) && !s.retired && !s.providerDone && i < MAX_PARTS
    requires OtherLengths(s.parts, i, MAX_PARTS) + |TextOfLine(w.lines[i])| <= MAX_TRANSCRIPT
    ensures Provider(s, TextEvent(w, i), w.seal) == (WithPart(s, w, i, DonePart(w.lines[i])), Events([]))
  {
    var m := s.(parts := s.parts[i := DonePart(w.lines[i])], item := Some(w.lines[i].item));
    OpenClose(m, [], w.seal);
    hide Close, AllSpoken, FinalOf, Total, Normalize, OtherLengths;
  }

  lemma LineRoom(o: State, w: Talk, i: nat)
    requires i < |w.lines| && Spoke(o, w, i, |w.lines[i].frames|)
    ensures var s := WithPart(o, w, i, Quieted(w, i));
      && s.parts[i] == Quieted(w, i) && s.connection == w.connection && s.response == Some(w.response) && !s.retired && !s.providerDone
      && OtherLengths(s.parts, i, MAX_PARTS) == Room(w.lines, Min(MAX_PARTS, i))
  {
    OtherLengthsAre(o.parts[i := Quieted(w, i)], w.lines, i, MAX_PARTS);
    hide AllSpoken, FinalOf, Total, OtherLengths, Room;
  }

  lemma LineSpoke(o: State, w: Talk, i: nat)
    requires i < |w.lines| && SpeakableLine(w.lines[i]) && Spoke(o, w, i, |w.lines[i].frames|)
    ensures Spoke(WithPart(WithPart(o, w, i, Quieted(w, i)), w, i, DonePart(w.lines[i])), w, i + 1, 0)
  {
    assert Said(w.lines, i + 1, 0) == Said(w.lines, i, |w.lines[i].frames|);
    assert |w.lines[i].frames| > 0;
    hide AllSpoken, FinalOf, Total, SpeakableLine, Said, DonePart;
  }

  lemma LineEnds(o: State, w: Talk, i: nat)
    requires Speakable(w) && i < |w.lines| && Spoke(o, w, i, |w.lines[i].frames|) && Room(w.lines, i + 1) <= MAX_TRANSCRIPT + 1
    ensures var (s, r) := Provider(o, EndEvent(w, i), w.seal);
      var (u, q) := Provider(s, TextEvent(w, i), w.seal);
      r.Events? && q.Events? && Spoke(u, w, i + 1, 0)
  {
    assert SpeakableLine(w.lines[i]) && i < MAX_PARTS && Min(MAX_PARTS, i) == i;
    assert Room(w.lines, i + 1) == Room(w.lines, i) + |TextOfLine(w.lines[i])| + 1;
    var s := WithPart(o, w, i, Quieted(w, i));
    AudioEnds(o, w, i);
    LineRoom(o, w, i);
    LineSpoke(o, w, i);
    hide Provider, Speakable, SpeakableLine, Spoke, WithPart, OtherLengths, Room;
    TextEnds(s, w, i);
  }

  lemma RoomGrows(lines: seq<Line>, i: nat, n: nat)
    requires i <= n <= |lines|
    ensures Room(lines, i) <= Room(lines, n)
    decreases n
  {
    if i < n { RoomGrows(lines, i, n - 1); }
  }

  /** So far nothing was refused, and everything sent was played. */
  ghost predicate Plays(w: Talk, i: nat, j: nat)
    requires At(w.lines, i, j)
  {
    var t := Run(New(w.session, w.connection, w.turn, w.claim), Script(w, i, j)); !t.raised && t.proofs == [] && Spoke(t.state, w, i, j)
  }

  lemma FrameScript(w: Talk, i: nat, j: nat)
    requires Speakable(w) && i < |w.lines| && j < |w.lines[i].frames| && Plays(w, i, j) && Total(Said(w.lines, i, j + 1)) <= MAX_RESPONSE_SAMPLES
    ensures Plays(w, i, j + 1)
  {
    var start, calls, heard := New(w.session, w.connection, w.turn, w.claim), Script(w, i, j), Receive(FrameEvent(w, i, j), w.seal);
    var played := Position(w, Progress, Said(w.lines, i, j + 1));
    assert Script(w, i, j + 1) == calls + [heard] + [played];
    hide Speakable, Provider, Acknowledge, Spoke, Said, Script, Run;
    FramePlays(Run(start, calls).state, w, i, j);
    RunMore(start, calls, heard);
    RunMore(start, calls + [heard], played);
  }

  lemma LineScript(w: Talk, i: nat)
    requires Speakable(w) && i < |w.lines| && Plays(w, i, |w.lines[i].frames|) && Room(w.lines, i + 1) <= MAX_TRANSCRIPT + 1
    ensures Plays(w, i + 1, 0)
  {
    var start, calls := New(w.session, w.connection, w.turn, w.claim), Script(w, i, |w.lines[i].frames|);
    var ended, text := Receive(EndEvent(w, i), w.seal), Receive(TextEvent(w, i), w.seal);
    assert Script(w, i + 1, 0) == calls + [ended] + [text];
    hide Speakable, Provider, Spoke, Room, Script, Run;
    LineEnds(Run(start, calls).state, w, i);
    RunMore(start, calls, ended);
    RunMore(start, calls + [ended], text);
  }

  lemma {:induction false} ScriptPlays(w: Talk, i: nat, j: nat)
    requires Speakable(w) && At(w.lines, i, j) && Total(Said(w.lines, i, j)) <= MAX_RESPONSE_SAMPLES
    ensures Plays(w, i, j)
    decreases i, j
  {
    if j > 0 {
      assert SpeakableLine(w.lines[i]);
      Fits(w, i, j - 1);
      hide Speakable, Plays, Said, Total;
      ScriptPlays(w, i, j - 1);
      FrameScript(w, i, j - 1);
    } else if i > 0 {
      RoomGrows(w.lines, i, |w.lines|);
      assert Said(w.lines, i, 0) == Said(w.lines, i - 1, |w.lines[i - 1].frames|);
      assert Room(w.lines, i) <= MAX_TRANSCRIPT + 1;
      hide Speakable, Plays, Said, Total, Room;
      ScriptPlays(w, i - 1, |w.lines[i - 1].frames|);
      LineScript(w, i - 1);
    } else {
      ScriptBegins(w);
    }
  }

  lemma ScriptBegins(w: Talk)
    requires Speakable(w)
    ensures Plays(w, 0, 0)
  {
    RunMore(New(w.session, w.connection, w.turn, w.claim), [], Heard(w, ResponseCreated(w.claim)));
    assert [] + Script(w, 0, 0) == Script(w, 0, 0);
    assert Said(w.lines, 0, 0) == [];
  }

  function LineTexts(lines: seq<Line>): seq<string> {
    seq(|lines|, i requires 0 <= i < |lines| => TextOfLine(lines[i]))
  }

  lemma SpokeCount(o: State, w: Talk)
    requires Spoke(o, w, |w.lines|, 0)
    ensures |o.parts| == |w.lines| && forall k :: k in o.parts <==> 0 <= k < |w.lines|
  {
    assert o.parts.Keys == Span(-1, |w.lines| - 1);
    assert |o.parts.Keys| == |o.parts|;
  }

  lemma LineIsSpoken(l: Line)
    requires SpeakableLine(l)
    ensures var p := DonePart(l); Spoken(p) && p.final.Some? && p.final.value != []
  {
    assert l.frames[|l.frames| - 1] > 0;
    hide Normalize;
  }

  lemma DoneIsWhole(parts: map<int, Part>, lines: seq<Line>)
    requires |parts| == |lines| > 0 && forall k :: k in parts <==> 0 <= k < |lines|
    requires forall k :: 0 <= k < |lines| ==> parts[k] == DonePart(lines[k]) && SpeakableLine(lines[k])
    ensures Whole(parts)
  {
    hide SpeakableLine, Total, Spoken;
    forall k | 0 <= k < |lines| ensures Spoken(parts[k]) && parts[k].final.Some? && parts[k].final.value != [] { LineIsSpoken(lines[k]); }
  }

  lemma DoneTexts(parts: map<int, Part>, lines: seq<Line>)
    requires Whole(parts) && |parts| == |lines| && forall k :: 0 <= k < |lines| ==> parts[k] == DonePart(lines[k])
    ensures WholeText(parts) == Join(LineTexts(lines))
  {
    hide Total, Spoken, Join;
    assert seq(|parts|, i requires 0 <= i < |parts| => parts[i].final.value) == LineTexts(lines);
  }

  lemma SpokeIsWhole(o: State, w: Talk)
    requires Speakable(w) && Spoke(o, w, |w.lines|, 0)
    ensures Whole(o.parts) && WholeText(o.parts) == Join(LineTexts(w.lines))
  {
    SpokeCount(o, w);
    hide SpeakableLine, Total, Said, Whole, WholeText, DonePart, LineTexts;
    DoneIsWhole(o.parts, w.lines);
    DoneTexts(o.parts, w.lines);
  }

  lemma WholeEnds(o: State, w: Talk)
    requires PartsOk(o) && Whole(o.parts) && Spoke(o, w, |w.lines|, 0)
    ensures var (s, r) := Provider(o, Event(w.connection, w.response, ResponseDone(true)), w.seal);
      && r.Events? && s.seal == Some(w.seal) && s.providerDone && s.parts == o.parts && SameHeader(o, s) && !s.retired && SameBuffer(o, s)
  {
    var m := o.(providerDone := true);
    assert Provider(o, Event(w.connection, w.response, ResponseDone(true)), w.seal) == Close(m, [], w.seal);
    hide Provider, Whole;
    CloseSeals(m, [], w.seal);
    CloseSameBuffer(m, [], w.seal);
    CloseLeaves(m, [], w.seal);
  }

  /** Any response within the caps, in any number of parts and frames and with any texts, is proved once it was sent whole and
      played to its end, and the proof carries its position and its texts. */
  lemma PlayedIsProved(w: Talk)
    requires Speakable(w)
    ensures var t := Run(New(w.session, w.connection, w.turn, w.claim), Playback(w));
      var sizes := Said(w.lines, |w.lines|, 0);
      !t.raised && t.proofs == [Proof(Join(LineTexts(w.lines)), w.response, |sizes| - 1, Total(sizes))]
  {
    var start, n := New(w.session, w.connection, w.turn, w.claim), |w.lines|;
    var calls, done, drained := Script(w, n, 0), Heard(w, ResponseDone(true)), Position(w, Drained(w.seal), Said(w.lines, n, 0));
    var t := Run(start, calls);
    ScriptPlays(w, n, 0);
    RunIsGood(w.session, w.connection, w.turn, w.claim, calls);
    SpokeIsWhole(t.state, w);
    WholeEnds(t.state, w);
    ProviderKeepsParts(t.state, done.event, w.seal);
    RunMore(start, calls, done);
    RunMore(start, calls + [done], drained);
    DrainProves(t.state, w);
    hide Provider, Acknowledge, PartsOk, Whole, WholeText, Speakable, Script, Total, Said, Spoke, Good, SameBuffer;
  }

  lemma DrainProves(o: State, w: Talk)
    requires PartsOk(o) && Whole(o.parts) && WholeText(o.parts) == Join(LineTexts(w.lines)) && Spoke(o, w, |w.lines|, 0)
    ensures var s := Provider(o, Event(w.connection, w.response, ResponseDone(true)), w.seal).0;
      var sizes := Said(w.lines, |w.lines|, 0);
      Acknowledge(s, Position(w, Drained(w.seal), sizes).ack)
      == (s, Proved(Proof(Join(LineTexts(w.lines)), w.response, |sizes| - 1, Total(sizes))))
  {
    var e := Event(w.connection, w.response, ResponseDone(true));
    var s, a := Provider(o, e, w.seal).0, Position(w, Drained(w.seal), Said(w.lines, |w.lines|, 0)).ack;
    WholeEnds(o, w);
    ProviderKeepsParts(o, e, w.seal);
    assert Repeats(s, a) && a.binding == BindingOf(s) && s.response.Some? by { hide Provider, PartsOk, Whole, Total, Said; }
    hide Provider, PartsOk, Whole, WholeText, Total, Said;
    DrainsWhole(s, a);
  }
}
