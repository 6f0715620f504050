// Exactly which provider events the output gate refuses.
module PlaybackRefusals {
  import opened Wrappers
  import opened TranscriptText
  import opened PlaybackOutput
  import opened PlaybackCompletion

  /** The event names a part it may speak of: a known one by its item, or, while the response lasts, a new one by a new item. */
  predicate NamesPart(o: State, ref: PartRef) {
    && ValidIdentity(ref.item) && ref.contentIndex == 0 && ref.outputIndex.Some? && 0 <= ref.outputIndex.value < 8
    && (if ref.outputIndex.value in o.parts then o.parts[ref.outputIndex.value].id == ref.item
        else !o.providerDone && forall k :: k in o.parts ==> o.parts[k].id != ref.item)
  }

  /** The frame is in turn: for the part that is playing or the next one, and before the end of either part or response. */
  predicate InTurn(o: State, i: int) {
    !o.providerDone && (i in o.parts ==> !o.parts[i].audioDone) && (i == o.audioIndex || i == o.audioIndex + 1)
  }

  /** One to 24000 samples of two bytes, in at most 96000 characters of base64. */
  predicate WellFormed(f: Frame) {
    f.encoded.Some? && f.encoded.value <= 96000 && f.bytes.Some? && f.bytes.value % 2 == 0 && 2 <= f.bytes.value <= 48000
  }

  /** Twenty seconds unheard, two minutes in all, and 512 frames outstanding. */
  predicate Affords(o: State, n: nat) {
    o.samples + n <= o.played + 480000 && o.samples + n <= 2880000 && |o.outstanding| < 512
  }

  predicate Legal(o: State, e: Event) {
    if o.retired || e.generation != o.connection then true
    else if e.payload.ResponseCreated? then
      e.payload.generationId == o.claim ==> ValidIdentity(e.response) && (o.response.None? || o.response == Some(e.response))
    else if o.response != Some(e.response) then true
    else match e.payload
      case FunctionCall => false
      case Audio(ref, f) => NamesPart(o, ref) && InTurn(o, ref.outputIndex.value) && WellFormed(f) && Affords(o, f.bytes.value / 2)
      case AudioDone(ref) => NamesPart(o, ref)
      case TextDelta(ref, delta) =>
        NamesPart(o, ref) && delta.Some?
        && DraftLengths(o.parts, 8) + (if ref.outputIndex.value in o.parts then 0 else 1) + |delta.value| <= 8000
      case TextDone(ref, text) =>
        NamesPart(o, ref) && text.Some? && Normalize(text.value).Some? && Normalize(text.value).value != []
        && OtherLengths(o.parts, ref.outputIndex.value, 8) + |Normalize(text.value).value| <= 8000
        && (ref.outputIndex.value in o.parts && o.parts[ref.outputIndex.value].final.Some? ==>
              o.parts[ref.outputIndex.value].final == Normalize(text.value))
      case _ => true
  }

  lemma PlacesNamed(o: State, ref: PartRef)
    ensures Place(o, ref).1.Some? <==> NamesPart(o, ref)
    ensures var (s, i) := Place(o, ref);
      i.Some? ==>
        i == ref.outputIndex && s.parts == o.parts[i.value := if i.value in o.parts then o.parts[i.value] else Part(ref.item, "", None, false, 0)]
        && s == o.(parts := s.parts, item := Some(ref.item))
  {
    if NamesPart(o, ref) && ref.outputIndex.value in o.parts { assert o.parts[ref.outputIndex.value := o.parts[ref.outputIndex.value]] == o.parts; }
    hide ValidIdentity;
  }

  lemma {:induction false} DraftsWith(parts: map<int, Part>, i: int, p: Part, n: nat)
    requires i !in parts && 0 <= i && p.transcript == ""
    ensures DraftLengths(parts[i := p], n) == DraftLengths(parts, n) + if i < n then 1 else 0
  {
    if n > 0 { DraftsWith(parts, i, p, n - 1); }
  }

  lemma {:induction false} OthersWithout(parts: map<int, Part>, i: int, p: Part, n: nat)
    ensures OtherLengths(parts[i := p], i, n) == OtherLengths(parts, i, n)
  {
    if n > 0 { OthersWithout(parts, i, p, n - 1); }
  }

  lemma CloseAnswers(m: State, sent: seq<Sent>, drawn: nat)
    ensures Close(m, sent, drawn).1.Events?
  {
  }

  lemma AudioRefuses(o: State, i: int, f: Frame, drawn: nat)
    requires i in o.parts
    ensures var r := OnAudio(o, i, f, drawn).1;
      && (r.Raised? <==> !(InTurn(o, i) && WellFormed(f) && Affords(o, f.bytes.value / 2)))
      && (r == Raised(QueueOverrun) <==>
            InTurn(o, i) && (f.encoded.None? || f.encoded.value > 96000 || (WellFormed(f) && !Affords(o, f.bytes.value / 2))))
  {
    if AcceptsFrame(o, i, f) {
      var c := Counted(o, i, f.bytes.value / 2);
      CloseAnswers(c.(outstanding := c.outstanding[c.sequence := c.samples]), [AudioSent(BindingOf(c), c.sequence)], drawn);
    }
    hide Close;
  }

  lemma TextRefuses(o: State, i: int, p: Payload, drawn: nat)
    requires i in o.parts && (p.TextDelta? || p.TextDone?)
    ensures p.TextDelta? ==> (OnPart(o, i, p, drawn).1.Raised? <==> p.delta.None? || DraftLengths(o.parts, 8) + |p.delta.value| > 8000)
    ensures p.TextDone? ==>
      (OnPart(o, i, p, drawn).1.Raised? <==>
        !(p.transcript.Some? && Normalize(p.transcript.value).Some? && Normalize(p.transcript.value).value != []
          && OtherLengths(o.parts, i, 8) + |Normalize(p.transcript.value).value| <= 8000
          && (o.parts[i].final.Some? ==> o.parts[i].final == Normalize(p.transcript.value))))
    ensures OnPart(o, i, p, drawn).1 != Raised(QueueOverrun)
  {
    hide Normalize, OtherLengths, DraftLengths, AllSpoken, FinalOf, Contiguous;
  }

  lemma PartRefuses(o: State, e: Event, drawn: nat)
    requires !o.retired && e.generation == o.connection && o.response == Some(e.response) && AboutPart(e.payload) && NamesPart(o, e.payload.part)
    ensures Provider(o, e, drawn).1.Raised? <==> !Legal(o, e)
    ensures Provider(o, e, drawn).1 == Raised(QueueOverrun) <==>
      e.payload.Audio? && InTurn(o, e.payload.part.outputIndex.value)
      && (e.payload.frame.encoded.None? || e.payload.frame.encoded.value > 96000
          || (WellFormed(e.payload.frame) && !Affords(o, e.payload.frame.bytes.value / 2)))
  {
    var ref, p := e.payload.part, e.payload;
    var (s, at) := Place(o, ref);
    PlacesNamed(o, ref);
    var i := ref.outputIndex.value;
    assert Provider(o, e, drawn) == OnPart(s, i, p, drawn);
    var part := if i in o.parts then o.parts[i] else Part(ref.item, "", None, false, 0);
    if i !in o.parts { DraftsWith(o.parts, i, part, 8); }
    OthersWithout(o.parts, i, part, 8);
    hide Provider, Place, NamesPart;
    match p
    case Audio(_, f) => AudioRefuses(s, i, f, drawn); hide OnAudio, WellFormed;
    case AudioDone(_) => CloseAnswers(s.(parts := s.parts[i := s.parts[i].(audioDone := true)]), [], drawn); hide Close;
    case _ => TextRefuses(s, i, p, drawn); hide OnPart, Normalize, OtherLengths, DraftLengths;
  }

  /** An event is refused exactly when it is not legal, and as an overrun exactly when a frame in turn is too long or passes a cap. */
  lemma RefusesIllegal(o: State, e: Event, drawn: nat)
    ensures Provider(o, e, drawn).1.Raised? <==> !Legal(o, e)
    ensures Provider(o, e, drawn).1 == Raised(QueueOverrun) <==>
      Handled(o, e) && e.payload.Audio? && NamesPart(o, e.payload.part) && InTurn(o, e.payload.part.outputIndex.value)
      && (e.payload.frame.encoded.None? || e.payload.frame.encoded.value > 96000
          || (WellFormed(e.payload.frame) && !Affords(o, e.payload.frame.bytes.value / 2)))
  {
    if !o.retired && e.generation == o.connection && o.response == Some(e.response) && AboutPart(e.payload) {
      if NamesPart(o, e.payload.part) {
        PartRefuses(o, e, drawn);
        hide Provider, Legal;
      } else {
        PlacesNamed(o, e.payload.part);
        hide Place, NamesPart;
      }
    } else {
      CloseAnswers(o, [], drawn);
      CloseAnswers(o.(providerDone := true), [], drawn);
      hide Close, OnPart, Place;
    }
  }
}
