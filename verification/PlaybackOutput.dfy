// The live output gate (backend/app/services/realtime_responses.py, Output and PlaybackProof):
// it counts provider audio into a bounded buffer, follows the browser's playback and mints one
// proof that the whole spoken response was played.
module PlaybackOutput {
  import opened Wrappers
  import opened TranscriptText

  const MAX_BUFFER_SAMPLES := 24000 * 20
  const MAX_RESPONSE_SAMPLES := 24000 * 120
  const MAX_FRAME_BYTES := 48000
  const MAX_OUTSTANDING := 512
  const MAX_PARTS := 8

  datatype Error = ProviderFailed | QueueOverrun | TranscriptInvalid | ProtocolError

  // An index of None is a payload value that is not an integer.
  datatype PartRef = PartRef(item: string, outputIndex: Option<int>, contentIndex: int)

  // The base64 text of an audio frame: its length if it is text, and its bytes if it decodes.
  datatype Frame = Frame(encoded: Option<nat>, bytes: Option<nat>)

  datatype Payload =
    | ResponseCreated(generationId: string)
    | ResponseDone(completed: bool)
    | FunctionCall
    | Audio(part: PartRef, frame: Frame)
    | AudioDone(part: PartRef)
    | TextDelta(part: PartRef, delta: Option<string>)
    | TextDone(part: PartRef, transcript: Option<string>)
    | OtherEvent

  datatype Event = Event(generation: int, response: string, payload: Payload)

  datatype Part = Part(id: string, transcript: string, final: Option<string>, audioDone: bool, samples: nat)

  datatype Binding = Binding(session: string, generation: int, turn: int, claim: string, response: Option<string>)

  datatype Sent =
    | Started(binding: Binding)
    | AudioSent(binding: Binding, sequence: int)
    | AudioEnd(binding: Binding, sequence: int, samples: nat, seal: nat)
    | GenerationFailed

  datatype Proof = Proof(transcript: string, response: string, sequence: int, samples: nat)

  datatype Reply = Events(sent: seq<Sent>) | Raised(error: Error)

  datatype AckKind = PlaybackStarted | Progress | Drained(seal: nat)

  datatype Ack = Ack(kind: AckKind, binding: Binding, sequence: int, samples: int)

  datatype AckReply = Nothing | Proved(proof: Proof) | AckRaised(error: Error)

  datatype State = State(
    session: string, connection: int, turn: int, claim: string,
    response: Option<string>, sequence: int, samples: nat, played: int, playedSequence: int,
    outstanding: map<int, int>, final: Option<string>, audioDone: bool, providerDone: bool,
    seal: Option<nat>, retired: bool, playbackStarted: bool, item: Option<string>,
    parts: map<int, Part>, audioIndex: int)

  function New(session: string, connection: int, turn: int, claim: string): State {
    State(session, connection, turn, claim, None, -1, 0, 0, -1, map[], None, false, false, None, false, false, None, map[], -1)
  }

  function BindingOf(o: State): Binding {
    Binding(o.session, o.connection, o.turn, o.claim, o.response)
  }

  // ---- parts in index order ----

  function TextOf(p: Part): string {
    if p.final.Some? then p.final.value else ""
  }

  /** The parts with an index below n, in index order. */
  function InOrder(parts: map<int, Part>, n: nat): seq<Part> {
    if n == 0 then [] else InOrder(parts, n - 1) + if n - 1 in parts then [parts[n - 1]] else []
  }

  function Texts(ps: seq<Part>): seq<string> {
    if ps == [] then [] else Texts(ps[..|ps| - 1]) + [TextOf(ps[|ps| - 1])]
  }

  predicate Spoken(p: Part) {
    p.audioDone && p.samples > 0
  }

  predicate AllSpoken(parts: map<int, Part>) {
    var ps := InOrder(parts, MAX_PARTS);
    ps != [] && forall i :: 0 <= i < |ps| ==> Spoken(ps[i])
  }

  function FinalOf(parts: map<int, Part>): Option<string> {
    var ps := InOrder(parts, MAX_PARTS);
    if ps != [] && forall i :: 0 <= i < |ps| ==> TextOf(ps[i]) != [] then Some(Join(Texts(ps))) else None
  }

  /** sorted(parts) == list(range(len(parts))) */
  predicate Contiguous(parts: map<int, Part>) {
    forall i :: 0 <= i < |parts| ==> i in parts
  }

  /** What the texts of the parts below n, other than skip, take in the joined transcript. */
  function OtherLengths(parts: map<int, Part>, skip: int, n: nat): nat {
    if n == 0 then 0
    else OtherLengths(parts, skip, n - 1) + if n - 1 in parts && n - 1 != skip then |TextOf(parts[n - 1])| + 1 else 0
  }

  function DraftLengths(parts: map<int, Part>, n: nat): nat {
    if n == 0 then 0
    else DraftLengths(parts, n - 1) + if n - 1 in parts then |parts[n - 1].transcript| + 1 else 0
  }

  // ---- provider ----

  /** Finds or creates the part an event speaks about; None stands for realtime_provider_failed. */
  function Place(o: State, ref: PartRef): (r: (State, Option<int>))
    ensures r.1.Some? ==> r.1.value in r.0.parts
  {
    if !ValidIdentity(ref.item) || ref.contentIndex != 0 || ref.outputIndex.None? || !(0 <= ref.outputIndex.value < MAX_PARTS) then (o, None)
    else
      var i := ref.outputIndex.value;
      if i !in o.parts then
        if o.providerDone || exists k :: k in o.parts && o.parts[k].id == ref.item then (o, None)
        else (o.(parts := o.parts[i := Part(ref.item, "", None, false, 0)], item := Some(ref.item)), Some(i))
      else if o.parts[i].id != ref.item then (o, None)
      else (o.(item := Some(ref.item)), Some(i))
  }

  /** The end of every handled event: recompute the summary and seal a complete response once. */
  function Close(o: State, sent: seq<Sent>, drawn: nat): (State, Reply) {
    var s := o.(audioDone := AllSpoken(o.parts), final := FinalOf(o.parts));
    if s.providerDone && (!s.audioDone || s.final.None? || s.final.value == [] || !Contiguous(s.parts)) then
      (s, Events([GenerationFailed]))
    else if s.providerDone && s.samples > 0 && s.seal.None? then
      (s.(seal := Some(drawn)), Events(sent + [AudioEnd(BindingOf(s), s.sequence, s.samples, drawn)]))
    else (s, Events(sent))
  }

  /** The counters after a frame of n samples for part i. */
  function Counted(o: State, i: int, n: nat): State
    requires i in o.parts
  {
    o.(audioIndex := i, samples := o.samples + n, sequence := o.sequence + 1,
       parts := o.parts[i := o.parts[i].(samples := o.parts[i].samples + n)])
  }

  predicate Overruns(o: State) {
    o.samples - o.played > MAX_BUFFER_SAMPLES || o.samples > MAX_RESPONSE_SAMPLES || |o.outstanding| >= MAX_OUTSTANDING
  }

  /** The error a frame is refused with, if it is not 1 to 24000 whole 16-bit samples in base64. */
  function Undecodable(frame: Frame): (r: Option<Error>)
    ensures r.None? ==> frame.bytes.Some?
  {
    if frame.encoded.None? || frame.encoded.value > 2 * MAX_FRAME_BYTES then Some(QueueOverrun)
    else if frame.bytes.None? then Some(ProviderFailed)
    else if frame.bytes.value == 0 || frame.bytes.value % 2 != 0 || frame.bytes.value > MAX_FRAME_BYTES then Some(ProviderFailed)
    else None
  }

  function OnAudio(o: State, i: int, frame: Frame, drawn: nat): (State, Reply)
    requires i in o.parts
  {
    if o.parts[i].audioDone || o.providerDone || i < o.audioIndex || i > o.audioIndex + 1 then (o, Raised(ProviderFailed))
    else if Undecodable(frame).Some? then (o.(audioIndex := i), Raised(Undecodable(frame).value))
    else
      var c := Counted(o, i, frame.bytes.value / 2);
      if Overruns(c) then (c, Raised(QueueOverrun))
      else Close(c.(outstanding := c.outstanding[c.sequence := c.samples]), [AudioSent(BindingOf(c), c.sequence)], drawn)
  }

  function OnText(o: State, i: int, transcript: Option<string>, drawn: nat): (State, Reply)
    requires i in o.parts
  {
    var text := if transcript.None? then None else Normalize(transcript.value);
    if text.None? then (o, Raised(TranscriptInvalid))
    else if text.value == [] || OtherLengths(o.parts, i, MAX_PARTS) + |text.value| > MAX_TRANSCRIPT
            || (o.parts[i].final.Some? && o.parts[i].final != text) then (o, Raised(ProviderFailed))
    else Close(o.(parts := o.parts[i := o.parts[i].(final := text)]), [], drawn)
  }

  function OnDelta(o: State, i: int, delta: Option<string>, drawn: nat): (State, Reply)
    requires i in o.parts
  {
    if delta.None? || DraftLengths(o.parts, MAX_PARTS) + |delta.value| > MAX_TRANSCRIPT then (o, Raised(ProviderFailed))
    else if o.parts[i].final.Some? then Close(o, [], drawn)
    else Close(o.(parts := o.parts[i := o.parts[i].(transcript := o.parts[i].transcript + delta.value)]), [], drawn)
  }

  function OnCreated(o: State, e: Event): (State, Reply)
    requires e.payload.ResponseCreated?
  {
    if e.payload.generationId != o.claim then (o, Events([]))
    else if !ValidIdentity(e.response) || (o.response.Some? && o.response != Some(e.response)) then (o, Raised(ProviderFailed))
    else var s := o.(response := Some(e.response)); (s, Events([Started(BindingOf(s))]))
  }

  predicate AboutPart(p: Payload) {
    p.Audio? || p.AudioDone? || p.TextDelta? || p.TextDone?
  }

  function OnPart(o: State, i: int, p: Payload, drawn: nat): (State, Reply)
    requires i in o.parts && AboutPart(p)
  {
    match p
    case Audio(_, frame) => OnAudio(o, i, frame, drawn)
    case AudioDone(_) => Close(o.(parts := o.parts[i := o.parts[i].(audioDone := true)]), [], drawn)
    case TextDelta(_, delta) => OnDelta(o, i, delta, drawn)
    case TextDone(_, transcript) => OnText(o, i, transcript, drawn)
  }

  /** Output.provider; drawn is the random seal it would draw. */
  function Provider(o: State, e: Event, drawn: nat): (State, Reply) {
    if o.retired || e.generation != o.connection then (o, Events([]))
    else if e.payload.ResponseCreated? then OnCreated(o, e)
    else if o.response != Some(e.response) then (o, Events([]))
    else if e.payload.FunctionCall? then (o, Raised(ProviderFailed))
    else if AboutPart(e.payload) then
      var (s, i) := Place(o, e.payload.part);
      if i.None? then (s, Raised(ProviderFailed)) else OnPart(s, i.value, e.payload, drawn)
    else if e.payload.ResponseDone? then
      if !e.payload.completed then (o, Events([GenerationFailed])) else Close(o.(providerDone := true), [], drawn)
    else Close(o, [], drawn)
  }

  // ---- acknowledge ----

  predicate Repeats(o: State, a: Ack) {
    a.sequence == o.playedSequence && a.samples == o.played
  }

  predicate Outstanding(o: State, a: Ack) {
    a.sequence in o.outstanding && o.outstanding[a.sequence] == a.samples
  }

  predicate Drains(o: State, a: Ack) {
    && a.kind.Drained? && o.providerDone && o.audioDone && o.final.Some? && o.final.value != []
    && o.seal == Some(a.kind.seal) && a.sequence == o.sequence && a.samples == o.samples && o.response.Some?
  }

  /** Output.acknowledge. */
  function Acknowledge(o: State, a: Ack): (State, AckReply) {
    if o.retired || a.binding != BindingOf(o) then (o, Nothing)
    else if a.kind.PlaybackStarted? then
      if a.sequence != -1 || a.samples != 0 || o.samples == 0 then (o, AckRaised(ProtocolError))
      else (o.(playbackStarted := true), Nothing)
    else if !Repeats(o, a) && a.sequence < o.playedSequence then (o, Nothing)
    else if !Repeats(o, a) && !Outstanding(o, a) then (o, AckRaised(ProtocolError))
    else if a.kind.Drained? then
      if Drains(o, a) then (o, Proved(Proof(o.final.value, o.response.value, a.sequence, a.samples)))
      else (o, AckRaised(ProtocolError))
    else
      (o.(playedSequence := a.sequence, played := a.samples,
          outstanding := map k | k in o.outstanding && k > a.sequence :: o.outstanding[k]), Nothing)
  }

  // ---- what terminate stores for a proof ----

  /** The assistant text terminate inserts; None stands for its ValueError. */
  function StoredText(p: Proof): Option<string> {
    if p.response == [] || p.sequence < 0 || p.samples <= 0 then None
    else
      var content := Normalize(p.transcript);
      if content.None? || content.value == [] then None else content
  }

  // ---- the output object ----

  class Output {
    const session: string
    const connection: int
    const turn: int
    const claim: string
    var response: Option<string>
    var sequence: int
    var samples: nat
    var played: int
    var playedSequence: int
    var outstanding: map<int, int>
    var final: Option<string>
    var audioDone: bool
    var providerDone: bool
    var seal: Option<nat>
    var retired: bool
    var playbackStarted: bool
    var item: Option<string>
    var parts: map<int, Part>
    var audioIndex: int

    ghost function View(): State
      reads this
    {
      State(session, connection, turn, claim, response, sequence, samples, played, playedSequence, outstanding,
            final, audioDone, providerDone, seal, retired, playbackStarted, item, parts, audioIndex)
    }

    constructor (session: string, connection: int, turn: int, claim: string)
      ensures View() == New(session, connection, turn, claim)
    {
      this.session, this.connection, this.turn, this.claim := session, connection, turn, claim;
      response, sequence, samples, played, playedSequence, outstanding := None, -1, 0, 0, -1, map[];
      final, audioDone, providerDone, seal, retired, playbackStarted := None, false, false, None, false, false;
      item, parts, audioIndex := None, map[], -1;
    }

    method Retire()
      modifies this
      ensures View() == old(View()).(retired := true)
    {
      retired := true;
    }

    method CurrentBinding() returns (b: Binding)
      ensures b == BindingOf(View())
    {
      b := Binding.Binding(session, connection, turn, claim, response);
    }

    /** ordered = [parts[i] for i in sorted(parts)] */
    method Ordered() returns (ps: seq<Part>)
      ensures ps == InOrder(parts, MAX_PARTS)
    {
      ps := [];
      for i := 0 to MAX_PARTS
        invariant ps == InOrder(parts, i)
      {
        if i in parts { ps := ps + [parts[i]]; }
      }
    }

    method Summarize(sent: seq<Sent>, drawn: nat) returns (r: Reply)
      modifies this
      ensures (View(), r) == Close(old(View()), sent, drawn)
    {
      var ordered := Ordered();
      audioDone := ordered != [] && forall i :: 0 <= i < |ordered| ==> Spoken(ordered[i]);
      final := if ordered != [] && forall i :: 0 <= i < |ordered| ==> TextOf(ordered[i]) != [] then Some(Join(Texts(ordered))) else None;
      if providerDone && (!audioDone || final.None? || final.value == [] || !Contiguous(parts)) {
        return Events([GenerationFailed]);
      }
      var result := sent;
      if providerDone && audioDone && final.Some? && samples > 0 && seal.None? {
        seal := Some(drawn);
        var b := CurrentBinding();
        result := result + [AudioEnd(b, sequence, samples, drawn)];
      }
      return Events(result);
    }

    method Locate(ref: PartRef) returns (index: Option<int>)
      modifies this
      ensures (View(), index) == Place(old(View()), ref)
    {
      if !ValidIdentity(ref.item) || ref.contentIndex != 0 { return None; }
      if ref.outputIndex.None? || !(0 <= ref.outputIndex.value < MAX_PARTS) { return None; }
      var i := ref.outputIndex.value;
      if i !in parts {
        if providerDone || exists k :: k in parts && parts[k].id == ref.item { return None; }
        parts := parts[i := Part(ref.item, "", None, false, 0)];
      } else if parts[i].id != ref.item {
        return None;
      }
      item := Some(ref.item);
      return Some(i);
    }

    method CountFrame(index: int, n: nat)
      requires index in parts
      modifies this
      ensures View() == Counted(old(View()), index, n)
    {
      audioIndex := index;
      samples := samples + n;
      parts := parts[index := parts[index].(samples := parts[index].samples + n)];
      sequence := sequence + 1;
    }

    method ReceiveAudio(index: int, frame: Frame, drawn: nat) returns (r: Reply)
      requires index in parts
      modifies this
      ensures (View(), r) == OnAudio(old(View()), index, frame, drawn)
    {
      if parts[index].audioDone || providerDone || index < audioIndex || index > audioIndex + 1 { return Raised(ProviderFailed); }
      if Undecodable(frame).Some? {
        audioIndex := index;
        return Raised(Undecodable(frame).value);
      }
      CountFrame(index, frame.bytes.value / 2);
      if samples - played > MAX_BUFFER_SAMPLES || samples > MAX_RESPONSE_SAMPLES || |outstanding| >= MAX_OUTSTANDING {
        return Raised(QueueOverrun);
      }
      outstanding := outstanding[sequence := samples];
      var b := CurrentBinding();
      r := Summarize([AudioSent(b, sequence)], drawn);
    }

    method ReceiveText(index: int, transcript: Option<string>, drawn: nat) returns (r: Reply)
      requires index in parts
      modifies this
      ensures (View(), r) == OnText(old(View()), index, transcript, drawn)
    {
      if transcript.None? { return Raised(TranscriptInvalid); }
      var text := Normalize(transcript.value);
      if text.None? { return Raised(TranscriptInvalid); }
      if text.value == [] || OtherLengths(parts, index, MAX_PARTS) + |text.value| > MAX_TRANSCRIPT
         || (parts[index].final.Some? && text != parts[index].final) {
        return Raised(ProviderFailed);
      }
      parts := parts[index := parts[index].(final := text)];
      r := Summarize([], drawn);
    }

    method ReceiveDelta(index: int, delta: Option<string>, drawn: nat) returns (r: Reply)
      requires index in parts
      modifies this
      ensures (View(), r) == OnDelta(old(View()), index, delta, drawn)
    {
      if delta.None? || DraftLengths(parts, MAX_PARTS) + |delta.value| > MAX_TRANSCRIPT { return Raised(ProviderFailed); }
      if parts[index].final.None? {
        parts := parts[index := parts[index].(transcript := parts[index].transcript + delta.value)];
      }
      r := Summarize([], drawn);
    }

    method Receive(e: Event, drawn: nat) returns (r: Reply)
      modifies this
      ensures (View(), r) == Provider(old(View()), e, drawn)
    {
      if retired || e.generation != connection { return Events([]); }
      if e.payload.ResponseCreated? {
        if e.payload.generationId != claim { return Events([]); }
        if !ValidIdentity(e.response) { return Raised(ProviderFailed); }
        if response.Some? && response.value != e.response { return Raised(ProviderFailed); }
        response := Some(e.response);
        var b := CurrentBinding();
        return Events([Started(b)]);
      }
      if response != Some(e.response) { return Events([]); }
      if e.payload.FunctionCall? { return Raised(ProviderFailed); }
      if AboutPart(e.payload) {
        var index := Locate(e.payload.part);
        if index.None? { return Raised(ProviderFailed); }
        match e.payload {
          case Audio(_, frame) => r := ReceiveAudio(index.value, frame, drawn);
          case AudioDone(_) =>
            parts := parts[index.value := parts[index.value].(audioDone := true)];
            r := Summarize([], drawn);
          case TextDelta(_, delta) => r := ReceiveDelta(index.value, delta, drawn);
          case TextDone(_, transcript) => r := ReceiveText(index.value, transcript, drawn);
        }
        return;
      }
      if e.payload.ResponseDone? {
        if !e.payload.completed { return Events([GenerationFailed]); }
        providerDone := true;
      }
      r := Summarize([], drawn);
    }

    method Confirm(a: Ack) returns (r: AckReply)
      modifies this
      ensures (View(), r) == Acknowledge(old(View()), a)
    {
      var b := CurrentBinding();
      if retired || a.binding != b { return Nothing; }
      if a.kind.PlaybackStarted? {
        if a.sequence != -1 || a.samples != 0 || samples == 0 { return AckRaised(ProtocolError); }
        if !playbackStarted { playbackStarted := true; }
        return Nothing;
      }
      if a.sequence == playedSequence && a.samples == played {
      } else if a.sequence < playedSequence {
        return Nothing;
      } else if a.sequence !in outstanding || outstanding[a.sequence] != a.samples {
        return AckRaised(ProtocolError);
      }
      if a.kind.Drained? {
        if !providerDone || !audioDone || final.None? || final.value == [] || seal != Some(a.kind.seal)
           || a.sequence != sequence || a.samples != samples || response.None? {
          return AckRaised(ProtocolError);
        }
        return Proved(Proof(final.value, response.value, a.sequence, a.samples));
      }
      playedSequence, played := a.sequence, a.samples;
      outstanding := map k | k in outstanding && k > a.sequence :: outstanding[k];
      return Nothing;
    }
  }

  // ---- the buffer ----

  function SampleSum(parts: map<int, Part>, n: nat): nat {
    if n == 0 then 0 else SampleSum(parts, n - 1) + if n - 1 in parts then parts[n - 1].samples else 0
  }

  /** Outstanding frames are exactly the unplayed ones, with strictly growing cumulative counts, within the caps. */
  ghost predicate Buffered(o: State) {
    && -1 <= o.playedSequence <= o.sequence && 0 <= o.played <= o.samples
    && (o.playedSequence == -1 ==> o.played == 0)
    && (forall k :: k in o.outstanding <==> o.playedSequence < k <= o.sequence)
    && |o.outstanding| == o.sequence - o.playedSequence <= MAX_OUTSTANDING
    && (forall k :: k in o.outstanding ==> o.played < o.outstanding[k] <= o.samples)
    && (forall k, l :: k in o.outstanding && l in o.outstanding && k < l ==> o.outstanding[k] < o.outstanding[l])
    && (if o.playedSequence == o.sequence then o.played == o.samples else o.outstanding[o.sequence] == o.samples)
    && o.samples - o.played <= MAX_BUFFER_SAMPLES && o.samples <= MAX_RESPONSE_SAMPLES
  }

  // ---- the parts ----

  ghost predicate InRange(parts: map<int, Part>) {
    forall i :: i in parts ==> 0 <= i < MAX_PARTS
  }

  ghost predicate TextsNormal(parts: map<int, Part>) {
    forall i :: i in parts && parts[i].final.Some? ==> parts[i].final.value != [] && Normalized(parts[i].final.value)
  }

  /** What the finished texts below n take in the joined transcript. */
  function TextLengths(parts: map<int, Part>, n: nat): nat {
    if n == 0 then 0
    else TextLengths(parts, n - 1) + if n - 1 in parts && parts[n - 1].final.Some? then |TextOf(parts[n - 1])| + 1 else 0
  }

  ghost predicate Complete(o: State) {
    AllSpoken(o.parts) && FinalOf(o.parts).Some? && Contiguous(o.parts) && o.samples > 0
  }

  ghost predicate Shape(parts: map<int, Part>, samples: nat) {
    && InRange(parts) && TextsNormal(parts) && TextLengths(parts, MAX_PARTS) <= MAX_TRANSCRIPT + 1
    && SampleSum(parts, MAX_PARTS) == samples
  }

  /** A seal exists only on a complete response. */
  ghost predicate Sealable(o: State) {
    && (o.providerDone ==> o.response.Some?)
    && (o.response.Some? ==> ValidIdentity(o.response.value))
    && (o.seal.Some? ==> o.providerDone && Complete(o))
  }

  ghost predicate Summarized(o: State) {
    o.providerDone ==> o.audioDone == AllSpoken(o.parts) && o.final == FinalOf(o.parts)
  }

  ghost predicate PartsOk(o: State) {
    Shape(o.parts, o.samples) && Sealable(o) && Summarized(o)
  }

  ghost predicate Inv(o: State) {
    Buffered(o) && PartsOk(o)
  }

  // ---- sums over the parts ----

  lemma {:induction false} SampleSumUpdate(parts: map<int, Part>, i: int, p: Part, n: nat)
    requires 0 <= i
    ensures SampleSum(parts[i := p], n)
      == SampleSum(parts, n) + if i < n then p.samples - (if i in parts then parts[i].samples else 0) else 0
  {
    if n > 0 { SampleSumUpdate(parts, i, p, n - 1); }
  }

  lemma {:induction false} TextLengthsUpdate(parts: map<int, Part>, i: int, p: Part, n: nat)
    requires 0 <= i
    ensures TextLengths(parts[i := p], n)
      <= OtherLengths(parts, i, n) + if i < n && p.final.Some? then |TextOf(p)| + 1 else 0
  {
    if n > 0 { TextLengthsUpdate(parts, i, p, n - 1); }
  }

  lemma {:induction false} TextLengthsSame(parts: map<int, Part>, i: int, p: Part, n: nat)
    requires p.final == if i in parts then parts[i].final else None
    ensures TextLengths(parts[i := p], n) == TextLengths(parts, n)
  {
    if n > 0 { TextLengthsSame(parts, i, p, n - 1); }
  }

  /** InOrder lists exactly the parts below n. */
  lemma {:induction false} InOrderMembers(parts: map<int, Part>, n: nat)
    ensures forall i :: 0 <= i < n && i in parts ==> parts[i] in InOrder(parts, n)
    ensures forall p :: p in InOrder(parts, n) ==> exists i :: 0 <= i < n && i in parts && parts[i] == p
  {
    if n > 0 { InOrderMembers(parts, n - 1); }
  }

  /** With indexes 0..n-1 present, InOrder lists them one by one. */
  lemma {:induction false} InOrderContiguous(parts: map<int, Part>, n: nat)
    requires forall i :: 0 <= i < n ==> i in parts
    ensures |InOrder(parts, n)| == n && forall i :: 0 <= i < n ==> InOrder(parts, n)[i] == parts[i]
  {
    if n > 0 { InOrderContiguous(parts, n - 1); }
  }

  lemma {:induction false} InOrderBeyond(parts: map<int, Part>, n: nat, m: nat)
    requires n <= m && forall i :: i in parts ==> i < n
    ensures InOrder(parts, m) == InOrder(parts, n)
  {
    if n < m { InOrderBeyond(parts, n, m - 1); }
  }

  function LengthSum(ps: seq<Part>): nat {
    if ps == [] then 0 else LengthSum(ps[..|ps| - 1]) + |TextOf(ps[|ps| - 1])| + 1
  }

  lemma {:induction false} TextLengthsInOrder(parts: map<int, Part>, n: nat)
    requires forall i :: 0 <= i < n && i in parts ==> parts[i].final.Some?
    ensures LengthSum(InOrder(parts, n)) == TextLengths(parts, n)
  {
    if n > 0 {
      TextLengthsInOrder(parts, n - 1);
      var ps := InOrder(parts, n);
      if n - 1 in parts { assert ps[..|ps| - 1] == InOrder(parts, n - 1); }
      else { assert ps == InOrder(parts, n - 1); }
    }
  }

  lemma {:induction false} TextsAt(ps: seq<Part>)
    ensures |Texts(ps)| == |ps| && forall i :: 0 <= i < |ps| ==> Texts(ps)[i] == TextOf(ps[i])
  {
    if ps != [] { TextsAt(ps[..|ps| - 1]); }
  }

  lemma {:induction false} JoinLength(ps: seq<Part>)
    requires ps != []
    ensures |Join(Texts(ps))| + 1 == LengthSum(ps)
    decreases |ps|
  {
    var n := |ps| - 1;
    TextsAt(ps[..n]);
    if n == 0 {
      assert Texts(ps) == [TextOf(ps[0])];
    } else {
      JoinLength(ps[..n]);
      JoinAppend(Texts(ps[..n]), [TextOf(ps[n])]);
    }
  }

  /** The joined final text of the parts is within the cap and already normalised. */
  lemma FinalIsNormal(parts: map<int, Part>, samples: nat)
    requires Shape(parts, samples) && FinalOf(parts).Some?
    ensures |FinalOf(parts).value| <= MAX_TRANSCRIPT && Normalized(FinalOf(parts).value) && FinalOf(parts).value != []
  {
    var ps := InOrder(parts, MAX_PARTS);
    FinalTexts(parts, samples);
    JoinLength(ps);
    TextsAt(ps);
    JoinStaysNormalized(Texts(ps));
    JoinNotEmpty(Texts(ps));
  }

  lemma FinalTexts(parts: map<int, Part>, samples: nat)
    requires Shape(parts, samples) && FinalOf(parts).Some?
    ensures var ps := InOrder(parts, MAX_PARTS);
      && (forall i :: 0 <= i < |ps| ==> ps[i].final.Some? && TextOf(ps[i]) != [] && Normalized(TextOf(ps[i])))
      && LengthSum(ps) <= MAX_TRANSCRIPT + 1
  {
    var ps := InOrder(parts, MAX_PARTS);
    InOrderMembers(parts, MAX_PARTS);
    forall i | 0 <= i < |ps| ensures ps[i].final.Some? && TextOf(ps[i]) != [] && Normalized(TextOf(ps[i])) {
      assert ps[i] in ps;
    }
    forall i | 0 <= i < MAX_PARTS && i in parts ensures parts[i].final.Some? {
      assert parts[i] in ps;
    }
    TextLengthsInOrder(parts, MAX_PARTS);
  }

  lemma JoinNotEmpty(ts: seq<string>)
    requires ts != [] && ts[0] != []
    ensures Join(ts) != []
  {
  }

  // ---- every call keeps the parts invariant ----

  lemma CloseKeepsParts(o: State, sent: seq<Sent>, drawn: nat)
    requires Shape(o.parts, o.samples) && Sealable(o)
    ensures PartsOk(Close(o, sent, drawn).0)
  {
    hide Shape, AllSpoken, FinalOf, Contiguous;
  }

  /** Replacing one part keeps the shape when its samples and its text are accounted for. */
  lemma EditKeepsShape(parts: map<int, Part>, samples: nat, i: int, p: Part)
    requires Shape(parts, samples) && 0 <= i < MAX_PARTS
    requires p.final == (if i in parts then parts[i].final else None) && p.samples >= if i in parts then parts[i].samples else 0
    ensures Shape(parts[i := p], samples + p.samples - if i in parts then parts[i].samples else 0)
  {
    SampleSumUpdate(parts, i, p, MAX_PARTS);
    TextLengthsSame(parts, i, p, MAX_PARTS);
  }

  lemma TextKeepsShape(parts: map<int, Part>, samples: nat, i: int, text: string)
    requires Shape(parts, samples) && i in parts && text != [] && Normalized(text)
    requires OtherLengths(parts, i, MAX_PARTS) + |text| <= MAX_TRANSCRIPT
    ensures Shape(parts[i := parts[i].(final := Some(text))], samples)
  {
    var p := parts[i].(final := Some(text));
    SampleSumUpdate(parts, i, p, MAX_PARTS);
    TextLengthsUpdate(parts, i, p, MAX_PARTS);
  }

  lemma SealedParts(o: State, i: int)
    requires PartsOk(o) && o.seal.Some? && i in o.parts
    ensures Spoken(o.parts[i]) && o.parts[i].final.Some?
  {
    InOrderMembers(o.parts, MAX_PARTS);
    assert o.parts[i] in InOrder(o.parts, MAX_PARTS);
  }

  lemma PlaceKeepsParts(o: State, ref: PartRef)
    requires PartsOk(o)
    ensures PartsOk(Place(o, ref).0)
  {
    var i := ref.outputIndex;
    if Place(o, ref).1.Some? && i.value !in o.parts {
      EditKeepsShape(o.parts, o.samples, i.value, Part(ref.item, "", None, false, 0));
    }
  }

  lemma CountedKeepsParts(o: State, i: int, n: nat)
    requires PartsOk(o) && i in o.parts && !o.providerDone
    ensures PartsOk(Counted(o, i, n))
  {
    EditKeepsShape(o.parts, o.samples, i, o.parts[i].(samples := o.parts[i].samples + n));
  }

  lemma AudioKeepsParts(o: State, i: int, frame: Frame, drawn: nat)
    requires PartsOk(o) && i in o.parts
    ensures PartsOk(OnAudio(o, i, frame, drawn).0)
  {
    if !o.parts[i].audioDone && !o.providerDone && o.audioIndex <= i <= o.audioIndex + 1 && Undecodable(frame).None? {
      var c := Counted(o, i, frame.bytes.value / 2);
      CountedKeepsParts(o, i, frame.bytes.value / 2);
      if !Overruns(c) {
        CloseKeepsParts(c.(outstanding := c.outstanding[c.sequence := c.samples]), [AudioSent(BindingOf(c), c.sequence)], drawn);
      }
    }
  }

  lemma AudioDoneKeepsParts(o: State, i: int, drawn: nat)
    requires PartsOk(o) && i in o.parts
    ensures PartsOk(Close(o.(parts := o.parts[i := o.parts[i].(audioDone := true)]), [], drawn).0)
  {
    var p := o.parts[i].(audioDone := true);
    EditKeepsShape(o.parts, o.samples, i, p);
    assert Sealable(o.(parts := o.parts[i := p])) by {
      if o.seal.Some? {
        SealedParts(o, i);
        assert o.parts[i := p] == o.parts;
      }
    }
    CloseKeepsParts(o.(parts := o.parts[i := p]), [], drawn);
  }

  lemma DeltaKeepsParts(o: State, i: int, delta: Option<string>, drawn: nat)
    requires PartsOk(o) && i in o.parts
    ensures PartsOk(OnDelta(o, i, delta, drawn).0)
  {
    if delta.Some? && DraftLengths(o.parts, MAX_PARTS) + |delta.value| <= MAX_TRANSCRIPT {
      if o.parts[i].final.Some? {
        CloseKeepsParts(o, [], drawn);
      } else {
        var p := o.parts[i].(transcript := o.parts[i].transcript + delta.value);
        EditKeepsShape(o.parts, o.samples, i, p);
        assert o.seal.None? by { if o.seal.Some? { SealedParts(o, i); } }
        CloseKeepsParts(o.(parts := o.parts[i := p]), [], drawn);
      }
    }
  }

  lemma TextKeepsParts(o: State, i: int, transcript: Option<string>, drawn: nat)
    requires PartsOk(o) && i in o.parts
    ensures PartsOk(OnText(o, i, transcript, drawn).0)
  {
    var text := if transcript.None? then None else Normalize(transcript.value);
    if text.Some? && text.value != [] && OtherLengths(o.parts, i, MAX_PARTS) + |text.value| <= MAX_TRANSCRIPT
       && (o.parts[i].final.None? || o.parts[i].final == text) {
      NormalizeIsIdempotent(transcript.value);
      TextKeepsShape(o.parts, o.samples, i, text.value);
      var s := o.(parts := o.parts[i := o.parts[i].(final := text)]);
      assert Sealable(s) by {
        if o.seal.Some? {
          SealedParts(o, i);
          assert s.parts == o.parts;
        }
      }
      CloseKeepsParts(s, [], drawn);
    }
  }

  lemma ProviderKeepsParts(o: State, e: Event, drawn: nat)
    requires PartsOk(o)
    ensures PartsOk(Provider(o, e, drawn).0)
  {
    if !o.retired && e.generation == o.connection && !e.payload.ResponseCreated? && o.response == Some(e.response) && !e.payload.FunctionCall? {
      if AboutPart(e.payload) {
        var (s, i) := Place(o, e.payload.part);
        PlaceKeepsParts(o, e.payload.part);
        if i.Some? { PartKeepsParts(s, i.value, e.payload, drawn); }
      } else if !(e.payload.ResponseDone? && !e.payload.completed) {
        var s := if e.payload.ResponseDone? then o.(providerDone := true) else o;
        CloseKeepsParts(s, [], drawn);
      }
    }
  }

  lemma PartKeepsParts(o: State, i: int, p: Payload, drawn: nat)
    requires PartsOk(o) && i in o.parts && AboutPart(p)
    ensures PartsOk(OnPart(o, i, p, drawn).0)
  {
    match p
    case Audio(_, frame) => AudioKeepsParts(o, i, frame, drawn);
    case AudioDone(_) => AudioDoneKeepsParts(o, i, drawn);
    case TextDelta(_, delta) => DeltaKeepsParts(o, i, delta, drawn);
    case TextDone(_, transcript) => TextKeepsParts(o, i, transcript, drawn);
  }

  // ---- every call keeps the buffer, except the one that overruns it ----

  ghost predicate SameBuffer(a: State, b: State) {
    a.sequence == b.sequence && a.samples == b.samples && a.played == b.played
    && a.playedSequence == b.playedSequence && a.outstanding == b.outstanding
  }

  lemma CloseSameBuffer(o: State, sent: seq<Sent>, drawn: nat)
    ensures SameBuffer(o, Close(o, sent, drawn).0) && !Close(o, sent, drawn).1.Raised?
  {
  }

  lemma OnlyAudioTouchesBuffer(o: State, i: int, p: Payload, drawn: nat)
    requires i in o.parts && AboutPart(p) && !p.Audio?
    ensures SameBuffer(o, OnPart(o, i, p, drawn).0)
  {
    match p
    case AudioDone(_) =>
    case TextDelta(_, delta) => DeltaSameBuffer(o, i, delta, drawn);
    case TextDone(_, transcript) => TextSameBuffer(o, i, transcript, drawn);
  }

  lemma DeltaSameBuffer(o: State, i: int, delta: Option<string>, drawn: nat)
    requires i in o.parts
    ensures SameBuffer(o, OnDelta(o, i, delta, drawn).0)
  {
  }

  lemma TextSameBuffer(o: State, i: int, transcript: Option<string>, drawn: nat)
    requires i in o.parts
    ensures SameBuffer(o, OnText(o, i, transcript, drawn).0)
  {
  }

  /** A frame within the caps extends the buffer by one entry. */
  lemma FrameKeepsBuffer(o: State, i: int, n: nat)
    requires Buffered(o) && i in o.parts && n > 0 && !Overruns(Counted(o, i, n))
    ensures var c := Counted(o, i, n); Buffered(c.(outstanding := c.outstanding[c.sequence := c.samples]))
  {
    var c := Counted(o, i, n);
    var m := c.outstanding[c.sequence := c.samples];
    assert m.Keys == o.outstanding.Keys + {c.sequence};
    assert |m.Keys| == |m| && |o.outstanding.Keys| == |o.outstanding|;
  }

  /** A frame beyond a cap is counted but not buffered, so the counters no longer agree. */
  lemma OverrunBreaksBuffer(o: State, i: int, n: nat)
    requires Buffered(o) && i in o.parts
    ensures !Buffered(Counted(o, i, n))
  {
    assert Counted(o, i, n).sequence !in o.outstanding;
  }

  /** An audio event for part i gets as far as counting its frame. */
  predicate AcceptsFrame(o: State, i: int, frame: Frame)
    requires i in o.parts
  {
    !o.parts[i].audioDone && !o.providerDone && o.audioIndex <= i <= o.audioIndex + 1 && Undecodable(frame).None?
  }

  /** n more samples pass one of the three caps. */
  predicate Exceeds(o: State, n: nat) {
    o.samples + n - o.played > MAX_BUFFER_SAMPLES || o.samples + n > MAX_RESPONSE_SAMPLES || |o.outstanding| >= MAX_OUTSTANDING
  }

  lemma RefusedAudioSameBuffer(o: State, i: int, frame: Frame, drawn: nat)
    requires i in o.parts && !AcceptsFrame(o, i, frame)
    ensures SameBuffer(o, OnAudio(o, i, frame, drawn).0)
  {
  }

  lemma AudioBuffer(o: State, i: int, frame: Frame, drawn: nat)
    requires Buffered(o) && i in o.parts
    ensures Buffered(OnAudio(o, i, frame, drawn).0) <==> !(AcceptsFrame(o, i, frame) && Exceeds(o, frame.bytes.value / 2))
  {
    hide Buffered, Close;
    if AcceptsFrame(o, i, frame) {
      var n := frame.bytes.value / 2;
      var c := Counted(o, i, n);
      if Overruns(c) {
        OverrunBreaksBuffer(o, i, n);
      } else {
        var kept := c.(outstanding := c.outstanding[c.sequence := c.samples]);
        FrameKeepsBuffer(o, i, n);
        CloseSameBuffer(kept, [AudioSent(BindingOf(c), c.sequence)], drawn);
        SameBufferIff(kept, OnAudio(o, i, frame, drawn).0);
      }
    } else {
      RefusedAudioSameBuffer(o, i, frame, drawn);
      SameBufferIff(o, OnAudio(o, i, frame, drawn).0);
    }
  }

  lemma PartBuffer(o: State, i: int, p: Payload, drawn: nat)
    requires Buffered(o) && i in o.parts && AboutPart(p)
    ensures Buffered(OnPart(o, i, p, drawn).0) <==> !(p.Audio? && AcceptsFrame(o, i, p.frame) && Exceeds(o, p.frame.bytes.value / 2))
  {
    if p.Audio? {
      AudioBuffer(o, i, p.frame, drawn);
    } else {
      OnlyAudioTouchesBuffer(o, i, p, drawn);
      SameBufferIff(o, OnPart(o, i, p, drawn).0);
    }
  }

  predicate ReachesPart(o: State, e: Event) {
    && !o.retired && e.generation == o.connection && o.response == Some(e.response) && AboutPart(e.payload)
    && Place(o, e.payload.part).1.Some?
  }

  lemma OutsidePartsSameBuffer(o: State, e: Event, drawn: nat)
    requires !ReachesPart(o, e)
    ensures SameBuffer(o, Provider(o, e, drawn).0)
  {
    hide AllSpoken, FinalOf, Contiguous, OnPart;
  }

  lemma ReachedPart(o: State, e: Event, drawn: nat)
    requires ReachesPart(o, e)
    ensures var (s, i) := Place(o, e.payload.part); SameBuffer(o, s) && Provider(o, e, drawn) == OnPart(s, i.value, e.payload, drawn)
    ensures Buffered(o) ==> Buffered(Place(o, e.payload.part).0)
  {
  }

  lemma SameBufferIff(a: State, b: State)
    requires SameBuffer(a, b)
    ensures Buffered(a) <==> Buffered(b)
  {
  }

  /** The event is an audio frame that would be accepted for its part, and its samples pass a cap. */
  predicate CountsTooMuch(o: State, e: Event) {
    ReachesPart(o, e) && e.payload.Audio?
    && var (s, i) := Place(o, e.payload.part);
       AcceptsFrame(s, i.value, e.payload.frame) && Exceeds(o, e.payload.frame.bytes.value / 2)
  }

  /** provider keeps the buffer invariant exactly when the event is not a frame beyond a cap: such a frame is counted
      before it is refused. */
  lemma ProviderBuffer(o: State, e: Event, drawn: nat)
    requires Buffered(o)
    ensures Buffered(Provider(o, e, drawn).0) <==> !CountsTooMuch(o, e)
  {
    if ReachesPart(o, e) {
      var (s, i) := Place(o, e.payload.part);
      ReachedPart(o, e, drawn);
      PartBuffer(s, i.value, e.payload, drawn);
    } else {
      OutsidePartsSameBuffer(o, e, drawn);
      SameBufferIff(o, Provider(o, e, drawn).0);
    }
  }

  /** The integers above lo up to hi. */
  ghost function Span(lo: int, hi: int): (r: set<int>)
    requires lo <= hi
    ensures |r| == hi - lo && forall k :: k in r <==> lo < k <= hi
    decreases hi - lo
  {
    if lo == hi then {} else Span(lo, hi - 1) + {hi}
  }

  function Unplayed(o: State, sequence: int): map<int, int> {
    map k | k in o.outstanding && k > sequence :: o.outstanding[k]
  }

  lemma UnplayedCount(o: State, sequence: int)
    requires Buffered(o) && o.playedSequence <= sequence <= o.sequence
    ensures |Unplayed(o, sequence)| == o.sequence - sequence
  {
    var left := Unplayed(o, sequence);
    assert left.Keys == Span(sequence, o.sequence);
    assert |left.Keys| == |left|;
  }

  predicate Confirms(o: State, sequence: int, samples: int) {
    (sequence == o.playedSequence && samples == o.played) || (sequence in o.outstanding && o.outstanding[sequence] == samples)
  }

  lemma ProgressKeepsBuffer(o: State, sequence: int, samples: int)
    requires Buffered(o) && Confirms(o, sequence, samples)
    ensures o.playedSequence <= sequence && o.played <= samples
    ensures Buffered(o.(playedSequence := sequence, played := samples, outstanding := Unplayed(o, sequence)))
  {
    UnplayedCount(o, sequence);
  }

  lemma AcknowledgeMoves(o: State, a: Ack)
    ensures var s := Acknowledge(o, a).0;
      SameBuffer(o, s) || (Confirms(o, a.sequence, a.samples)
        && s == o.(playedSequence := a.sequence, played := a.samples, outstanding := Unplayed(o, a.sequence)))
  {
  }

  /** acknowledge keeps the buffer and never moves the acknowledged position back. */
  lemma AcknowledgeBuffer(o: State, a: Ack)
    requires Buffered(o)
    ensures var s := Acknowledge(o, a).0;
      Buffered(s) && s.played >= o.played && s.playedSequence >= o.playedSequence
  {
    hide Buffered, Acknowledge;
    var s := Acknowledge(o, a).0;
    AcknowledgeMoves(o, a);
    if SameBuffer(o, s) { SameBufferIff(o, s); } else { ProgressKeepsBuffer(o, a.sequence, a.samples); }
  }

  // ---- after the seal nothing a proof speaks of can change ----

  ghost predicate SameProof(a: State, b: State) {
    a.parts == b.parts && a.response == b.response && a.sequence == b.sequence && a.samples == b.samples
    && a.seal == b.seal && a.providerDone == b.providerDone
  }

  lemma SealedPartFreezes(o: State, i: int, p: Payload, drawn: nat)
    requires PartsOk(o) && o.seal.Some? && i in o.parts && AboutPart(p)
    ensures SameProof(o, OnPart(o, i, p, drawn).0)
  {
    SealedParts(o, i);
    hide PartsOk;
    if p.AudioDone? { assert o.parts[i := o.parts[i].(audioDone := true)] == o.parts; }
    if p.TextDone? && OnText(o, i, p.transcript, drawn).1.Events? {
      assert o.parts[i := o.parts[i].(final := Normalize(p.transcript.value))] == o.parts;
    }
  }

  lemma SealFreezes(o: State, e: Event, drawn: nat)
    requires PartsOk(o) && o.seal.Some?
    ensures SameProof(o, Provider(o, e, drawn).0)
  {
    if !o.retired && e.generation == o.connection && !e.payload.ResponseCreated? && o.response == Some(e.response) && AboutPart(e.payload) {
      var (s, i) := Place(o, e.payload.part);
      if i.Some? {
        assert PartsOk(s) by { PlaceKeepsParts(o, e.payload.part); }
        SealedPartFreezes(s, i.value, e.payload, drawn);
      }
    }
  }

  // ---- runs of one output ----

  datatype Call = Receive(event: Event, drawn: nat) | Confirm(ack: Ack) | Retire

  datatype Trace = Trace(state: State, proofs: seq<Proof>, raised: bool)

  function Step(t: Trace, c: Call): Trace {
    match c
    case Receive(e, drawn) =>
      var (s, r) := Provider(t.state, e, drawn);
      Trace(s, t.proofs, r.Raised?)
    case Confirm(a) =>
      var (s, r) := Acknowledge(t.state, a);
      Trace(s, if r.Proved? then t.proofs + [r.proof] else t.proofs, r.AckRaised?)
    case Retire => t.(state := t.state.(retired := true))
  }

  /** The calls made on one output, in order, up to the first that raises. */
  function Run(start: State, calls: seq<Call>): Trace {
    if calls == [] then Trace(start, [], false)
    else
      var t := Run(start, calls[..|calls| - 1]);
      if t.raised then t else Step(t, calls[|calls| - 1])
  }

  /** A response of n spoken parts, numbered 0..n-1, each with its text. */
  ghost predicate Whole(parts: map<int, Part>) {
    var n := |parts|;
    && n > 0 && (forall i :: i in parts <==> 0 <= i < n)
    && (forall i :: i in parts ==> Spoken(parts[i]) && parts[i].final.Some? && parts[i].final.value != [])
  }

  ghost function WholeText(parts: map<int, Part>): string
    requires Whole(parts)
  {
    Join(seq(|parts|, i requires 0 <= i < |parts| => parts[i].final.value))
  }

  /** What a proof must say about the response it is minted for. */
  ghost predicate Sound(o: State, p: Proof) {
    && Whole(o.parts) && p.transcript == WholeText(o.parts)
    && p.samples == o.samples == SampleSum(o.parts, |o.parts|) && p.samples > 0 && p.sequence == o.sequence >= 0
    && |p.transcript| <= MAX_TRANSCRIPT && Normalized(p.transcript)
    && o.response == Some(p.response) && StoredText(p) == Some(p.transcript)
  }

  lemma {:induction false} SubsetCardinality(s: set<int>, t: set<int>)
    requires s <= t && |s| == |t|
    ensures s == t
  {
    assert s + (t - s) == t && s * (t - s) == {};
    assert |t - s| == 0;
    assert t - s == {};
  }

  lemma CompleteIsNumbered(o: State)
    requires Complete(o) && InRange(o.parts)
    ensures forall i :: i in o.parts <==> 0 <= i < |o.parts|
  {
    var n := |o.parts|;
    SubsetCardinality(Span(-1, n - 1), o.parts.Keys);
  }

  lemma CompleteIsWhole(o: State)
    requires Complete(o) && InRange(o.parts)
    ensures Whole(o.parts)
  {
    CompleteIsNumbered(o);
    InOrderMembers(o.parts, MAX_PARTS);
    var ps := InOrder(o.parts, MAX_PARTS);
    assert ps[0] in ps;
    forall i | i in o.parts ensures Spoken(o.parts[i]) && o.parts[i].final.Some? && o.parts[i].final.value != [] {
      assert o.parts[i] in ps;
    }
  }

  lemma {:induction false} SampleSumBeyond(parts: map<int, Part>, n: nat, m: nat)
    requires n <= m && forall i :: i in parts ==> i < n
    ensures SampleSum(parts, m) == SampleSum(parts, n)
  {
    if n < m { SampleSumBeyond(parts, n, m - 1); }
  }

  lemma WholeParts(parts: map<int, Part>)
    requires Whole(parts) && InRange(parts)
    ensures InOrder(parts, MAX_PARTS) == InOrder(parts, |parts|)
    ensures SampleSum(parts, MAX_PARTS) == SampleSum(parts, |parts|)
  {
    var n := |parts|;
    assert n - 1 in parts;
    InOrderBeyond(parts, n, MAX_PARTS);
    SampleSumBeyond(parts, n, MAX_PARTS);
  }

  lemma WholeFinal(parts: map<int, Part>)
    requires Whole(parts) && InRange(parts) && FinalOf(parts).Some?
    ensures FinalOf(parts).value == WholeText(parts)
  {
    var n := |parts|;
    WholeParts(parts);
    InOrderContiguous(parts, n);
    var ps := InOrder(parts, n);
    TextsAt(ps);
    var texts := seq(n, i requires 0 <= i < n => parts[i].final.value);
    forall i | 0 <= i < n ensures Texts(ps)[i] == texts[i] {
      assert ps[i] == parts[i];
    }
    assert Texts(ps) == texts;
  }

  /** Proof soundness: what acknowledge mints describes the whole response, and terminate stores its text as it is. */
  lemma ProofIsSound(o: State, a: Ack)
    requires Inv(o) && Acknowledge(o, a).1.Proved?
    ensures o.seal.Some? && Sound(o, Acknowledge(o, a).1.proof)
  {
    assert Drains(o, a) && Complete(o);
    CompleteIsWhole(o);
    WholeParts(o.parts);
    WholeFinal(o.parts);
    FinalIsNormal(o.parts, o.samples);
  }

  lemma SoundCarries(a: State, b: State, p: Proof)
    requires Sound(a, p) && SameProof(a, b)
    ensures Sound(b, p)
  {
  }

  /** Two sound proofs of one response are the same proof. */
  lemma SoundIsUnique(o: State, p: Proof, q: Proof)
    requires Sound(o, p) && Sound(o, q)
    ensures p == q
  {
  }

  ghost predicate AllSound(o: State, proofs: seq<Proof>) {
    proofs != [] ==> o.seal.Some? && forall i :: 0 <= i < |proofs| ==> Sound(o, proofs[i])
  }

  ghost predicate Good(t: Trace) {
    Inv(t.state) && AllSound(t.state, t.proofs)
  }

  lemma AllSoundCarries(a: State, b: State, proofs: seq<Proof>)
    requires AllSound(a, proofs) && (a.seal.Some? ==> SameProof(a, b))
    ensures AllSound(b, proofs)
  {
    forall i | 0 <= i < |proofs| ensures Sound(b, proofs[i]) { SoundCarries(a, b, proofs[i]); }
  }

  lemma ReceiveKeeps(t: Trace, e: Event, drawn: nat)
    requires Good(t) && !t.raised && !Step(t, Receive(e, drawn)).raised
    ensures Good(Step(t, Receive(e, drawn)))
  {
    ProviderKeepsParts(t.state, e, drawn);
    ProviderBuffer(t.state, e, drawn);
    if t.state.seal.Some? { SealFreezes(t.state, e, drawn); }
    AllSoundCarries(t.state, Provider(t.state, e, drawn).0, t.proofs);
  }

  lemma AcknowledgeFrame(o: State, a: Ack)
    ensures var s := Acknowledge(o, a).0; SameProof(o, s) && s.audioDone == o.audioDone && s.final == o.final
  {
  }

  lemma PartsOkCarries(a: State, b: State)
    requires PartsOk(a) && SameProof(a, b) && b.audioDone == a.audioDone && b.final == a.final
    ensures PartsOk(b)
  {
  }

  lemma ConfirmKeeps(t: Trace, a: Ack)
    requires Good(t) && !t.raised && !Step(t, Confirm(a)).raised
    ensures Good(Step(t, Confirm(a)))
  {
    var (s, r) := Acknowledge(t.state, a);
    AcknowledgeBuffer(t.state, a);
    AcknowledgeFrame(t.state, a);
    PartsOkCarries(t.state, s);
    AllSoundCarries(t.state, s, t.proofs);
    if r.Proved? {
      ProofIsSound(t.state, a);
      SoundCarries(t.state, s, r.proof);
    }
  }

  lemma StepKeeps(t: Trace, c: Call)
    requires Good(t) && !t.raised && !Step(t, c).raised
    ensures Good(Step(t, c))
  {
    match c
    case Receive(e, drawn) => ReceiveKeeps(t, e, drawn);
    case Confirm(a) => ConfirmKeeps(t, a);
    case Retire => AllSoundCarries(t.state, Step(t, c).state, t.proofs);
  }

  /**
   * Over every run in which no call raised, the buffer invariant holds and every proof minted so far,
   * however many drains were acknowledged, is sound for the response as it now stands.
   */
  lemma {:induction false} RunIsGood(session: string, connection: int, turn: int, claim: string, calls: seq<Call>)
    requires !Run(New(session, connection, turn, claim), calls).raised
    ensures Good(Run(New(session, connection, turn, claim), calls))
    decreases |calls|
  {
    if calls != [] {
      RunIsGood(session, connection, turn, claim, calls[..|calls| - 1]);
      StepKeeps(Run(New(session, connection, turn, claim), calls[..|calls| - 1]), calls[|calls| - 1]);
    }
  }

  /** An output never proves two different playbacks. */
  lemma ProofsAgree(session: string, connection: int, turn: int, claim: string, calls: seq<Call>, i: nat, j: nat)
    requires !Run(New(session, connection, turn, claim), calls).raised
    requires i < |Run(New(session, connection, turn, claim), calls).proofs| && j < |Run(New(session, connection, turn, claim), calls).proofs|
    ensures Run(New(session, connection, turn, claim), calls).proofs[i] == Run(New(session, connection, turn, claim), calls).proofs[j]
  {
    RunIsGood(session, connection, turn, claim, calls);
    var t := Run(New(session, connection, turn, claim), calls);
    SoundIsUnique(t.state, t.proofs[i], t.proofs[j]);
  }

  // ---- a run that overruns the buffer ----

  /** One spoken response: the output it belongs to, and the identities of the response and of its only part. */
  datatype Speech = Speech(session: string, connection: int, turn: int, claim: string, response: string, item: string)

  function Begins(v: Speech): Call {
    Receive(Event(v.connection, v.response, ResponseCreated(v.claim)), 0)
  }

  /** One second of audio: 24000 samples. */
  function Second(v: Speech): Event {
    Event(v.connection, v.response, Audio(PartRef(v.item, Some(0), 0), Frame(Some(64000), Some(48000))))
  }

  /** The response begins and n seconds of audio arrive, none of them acknowledged. */
  function Unheard(v: Speech, n: nat): seq<Call> {
    if n == 0 then [Begins(v)] else Unheard(v, n - 1) + [Receive(Second(v), 0)]
  }

  ghost predicate Speaking(o: State, v: Speech, n: nat) {
    && !o.retired && o.connection == v.connection && o.response == Some(v.response) && !o.providerDone && Buffered(o)
    && o.sequence == n - 1 && o.samples == 24000 * n && o.played == 0 && o.playedSequence == -1
    && (if n == 0 then o.parts == map[] && o.audioIndex == -1
        else 0 in o.parts && o.parts[0].id == v.item && !o.parts[0].audioDone && o.audioIndex == 0)
  }

  lemma SecondIsAccepted(o: State, v: Speech, n: nat)
    requires Speaking(o, v, n) && ValidIdentity(v.item)
    ensures ReachesPart(o, Second(v)) && Place(o, Second(v).payload.part).1 == Some(0)
    ensures AcceptsFrame(Place(o, Second(v).payload.part).0, 0, Second(v).payload.frame)
    ensures CountsTooMuch(o, Second(v)) <==> n >= 20
  {
  }

  lemma SecondContinues(o: State, v: Speech, n: nat)
    requires Speaking(o, v, n) && ValidIdentity(v.item) && n < 20
    ensures Speaking(Provider(o, Second(v), 0).0, v, n + 1) && Provider(o, Second(v), 0).1.Events?
  {
    SecondIsAccepted(o, v, n);
    ProviderBuffer(o, Second(v), 0);
    hide Buffered, FinalOf, AllSpoken;
    ReachedPart(o, Second(v), 0);
  }

  lemma {:induction false} SpeechContinues(v: Speech, n: nat)
    requires ValidIdentity(v.response) && ValidIdentity(v.item) && n <= 20
    ensures var t := Run(New(v.session, v.connection, v.turn, v.claim), Unheard(v, n)); !t.raised && Speaking(t.state, v, n)
    decreases n
  {
    var start := New(v.session, v.connection, v.turn, v.claim);
    var calls := Unheard(v, n);
    if n == 0 {
      assert calls[..0] == [];
    } else {
      SpeechContinues(v, n - 1);
      assert calls[..|calls| - 1] == Unheard(v, n - 1);
      SecondContinues(Run(start, Unheard(v, n - 1)).state, v, n - 1);
    }
  }

  /** Twenty unheard seconds fill the buffer; the next is refused, but the counters have already moved. */
  lemma TwentyFirstSecondOverruns(v: Speech)
    requires ValidIdentity(v.response) && ValidIdentity(v.item)
    ensures var t := Run(New(v.session, v.connection, v.turn, v.claim), Unheard(v, 20));
      && !t.raised && Buffered(t.state) && CountsTooMuch(t.state, Second(v))
      && Step(t, Receive(Second(v), 0)).raised && !Buffered(Step(t, Receive(Second(v), 0)).state)
  {
    var o := Run(New(v.session, v.connection, v.turn, v.claim), Unheard(v, 20)).state;
    SpeechContinues(v, 20);
    SecondIsAccepted(o, v, 20);
    ReachedPart(o, Second(v), 0);
    ProviderBuffer(o, Second(v), 0);
  }
}
