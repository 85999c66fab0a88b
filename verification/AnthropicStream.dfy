/**
 internal/providers/anthropic/transform.go, the response side: a whole message
 (`toOpenAIResponse`) and the same message as server-sent events
 (`translateAnthropicStream`), and the proof that a client and the meter see the
 same tool calls, finish reason and bill either way.
 */
module AnthropicStream {
  import opened Wrappers
  import opened SseLines
  import opened StreamMetering
  import opened ChatStream

  // ---------------------------------------------------------------------
  // A whole message

  datatype AnthropicUsage = AnthropicUsage(input: int, output: int, cacheCreation: int, cacheRead: int)

  /** `input` is the JSON text of the tool input. */
  datatype ContentBlock = TextBlock(text: string) | ToolUse(id: string, name: string, input: string) | OtherBlock

  datatype Message = Message(
    id: string, model: string, content: seq<ContentBlock>, stopReason: string, usage: AnthropicUsage)

  function MapStopReason(v: string): string {
    if v == "end_turn" then "stop"
    else if v == "max_tokens" then "length"
    else if v == "stop_sequence" then "stop"
    else if v == "tool_use" then "tool_calls"
    else "stop"
  }

  function Texts(content: seq<ContentBlock>): seq<string> {
    if content == [] then []
    else
      var b := content[|content| - 1];
      Texts(content[..|content| - 1]) + (if b.TextBlock? then [b.text] else [])
  }

  function ToolCalls(content: seq<ContentBlock>): seq<ToolCall> {
    if content == [] then []
    else
      var b := content[|content| - 1];
      ToolCalls(content[..|content| - 1]) + (if b.ToolUse? then [ToolCall(b.id, b.name, b.input)] else [])
  }

  function TotalTokens(u: AnthropicUsage): int {
    u.input + u.cacheCreation + u.cacheRead + u.output
  }

  function ToUsage(u: AnthropicUsage): Usage {
    Usage(u.input, u.output, TotalTokens(u), u.cacheCreation, u.cacheRead)
  }

  function ModelOf(m: Message, requestModel: string): string {
    if m.model == "" then requestModel else m.model
  }

  function CompletionOf(requestModel: string, m: Message): Completion {
    var toolCalls := ToolCalls(m.content);
    Completion(m.id, ModelOf(m, requestModel),
               if toolCalls != [] then None else Some(Join(Texts(m.content), "\n")),
               toolCalls, MapStopReason(m.stopReason), ToUsage(m.usage))
  }

  method ToOpenAIResponse(requestModel: string, m: Message) returns (c: Completion)
    ensures c == CompletionOf(requestModel, m)
  {
    var model := m.model;
    if model == "" { model := requestModel; }
    var textParts: seq<string>, toolCalls: seq<ToolCall> := [], [];
    for i := 0 to |m.content|
      invariant textParts == Texts(m.content[..i]) && toolCalls == ToolCalls(m.content[..i])
    {
      assert m.content[..i + 1][..i] == m.content[..i];
      match m.content[i]
      case TextBlock(text) => textParts := textParts + [text];
      case ToolUse(id, name, input) => toolCalls := toolCalls + [ToolCall(id, name, input)];
      case OtherBlock =>
    }
    assert m.content[..|m.content|] == m.content;
    var content := None;
    if |toolCalls| == 0 {
      content := Some(Join(textParts, "\n"));
    }
    var prompt, completion := m.usage.input, m.usage.output;
    var total := prompt + m.usage.cacheCreation + m.usage.cacheRead + completion;
    c := Completion(m.id, model, content, toolCalls, MapStopReason(m.stopReason),
                    Usage(prompt, completion, total, m.usage.cacheCreation, m.usage.cacheRead));
  }

  // ---------------------------------------------------------------------
  // Its event stream

  datatype MessageStart = MessageStart(id: string, model: string, input: int, cacheCreation: int, cacheRead: int)

  /** The `type` of a content block and of a content delta. */
  datatype BlockKind = TextKind | ToolUseKind | OtherKind
  datatype DeltaKind = TextDelta | InputJsonDelta | OtherDelta

  datatype BlockStart = BlockStart(index: int, kind: BlockKind, id: string, name: string)
  datatype BlockDelta = BlockDelta(index: int, kind: DeltaKind, text: string, partialJson: string)
  datatype MessageDelta = MessageDelta(stopReason: string, output: int)

  /** A data payload: what unmarshalling it into each of the four event structs yields. */
  datatype Payload = Payload(
    messageStart: Option<MessageStart>, blockStart: Option<BlockStart>,
    blockDelta: Option<BlockDelta>, messageDelta: Option<MessageDelta>)

  /** The name on an `event:` line; `OtherName` is any name the loop ignores, and the empty one it starts with. */
  datatype EventName =
    | MessageStartName | BlockStartName | BlockDeltaName | MessageDeltaName | MessageStopName | OtherName

  datatype SseLine = EventLine(name: EventName) | PayloadLine(payload: Payload) | OtherLine

  datatype StreamEvent =
    | MessageStarted(start: MessageStart)
    | BlockStarted(block: BlockStart)
    | BlockChanged(change: BlockDelta)
    | MessageChanged(delta: MessageDelta)
    | MessageStopped
    | NoEffect

  /** The name on the last event line, which stays in force until the next one. */
  function CurrentEvent(lines: seq<SseLine>): EventName {
    if lines == [] then OtherName
    else
      match lines[|lines| - 1]
      case EventLine(name) => name
      case _ => CurrentEvent(lines[..|lines| - 1])
  }

  function Meaning(name: EventName, p: Payload): StreamEvent {
    match name
    case MessageStartName => (match p.messageStart case Some(e) => MessageStarted(e) case None => NoEffect)
    case BlockStartName => (match p.blockStart case Some(e) => BlockStarted(e) case None => NoEffect)
    case BlockDeltaName => (match p.blockDelta case Some(e) => BlockChanged(e) case None => NoEffect)
    case MessageDeltaName => (match p.messageDelta case Some(e) => MessageChanged(e) case None => NoEffect)
    case MessageStopName => MessageStopped
    case OtherName => NoEffect
  }

  /** The events of a stream: one for each data line, named by the event line before it. */
  function EventsOf(lines: seq<SseLine>): seq<StreamEvent> {
    if lines == [] then []
    else
      var before := lines[..|lines| - 1];
      match lines[|lines| - 1]
      case PayloadLine(p) => EventsOf(before) + [Meaning(CurrentEvent(before), p)]
      case _ => EventsOf(before)
  }

  /** The locals of the translation loop; `blockTypes` is written but never read. */
  datatype Translator = Translator(
    messageID: string, model: string, toolCallIdx: map<int, nat>, nextToolIdx: nat,
    input: int, cacheCreation: int, cacheRead: int)

  datatype Translated = Translated(state: Translator, outs: seq<Out>)

  function ChunkOf(t: Translator, delta: Delta, finish: Option<string>, usage: Option<Usage>): Out {
    Chunk(StreamChunk(t.messageID, t.model, delta, finish, usage))
  }

  function React(t: Translator, e: StreamEvent): Translated {
    match e
    case MessageStarted(s) =>
      var t' := t.(messageID := s.id, model := if s.model != "" then s.model else t.model,
                   input := s.input, cacheCreation := s.cacheCreation, cacheRead := s.cacheRead);
      Translated(t', [ChunkOf(t', Delta("assistant", None, []), None, None)])
    case BlockStarted(b) =>
      if b.kind != ToolUseKind then Translated(t, [])
      else
        var tc := StreamToolCall(t.nextToolIdx, b.id, "function", b.name, "");
        Translated(t.(toolCallIdx := t.toolCallIdx[b.index := t.nextToolIdx], nextToolIdx := t.nextToolIdx + 1),
                   [ChunkOf(t, Delta("", None, [tc]), None, None)])
    case BlockChanged(d) =>
      if d.kind == TextDelta then Translated(t, [ChunkOf(t, Delta("", Some(d.text), []), None, None)])
      else if d.kind == InputJsonDelta then
        var i := if d.index in t.toolCallIdx then t.toolCallIdx[d.index] else 0;
        Translated(t, [ChunkOf(t, Delta("", None, [StreamToolCall(i, "", "", "", d.partialJson)]), None, None)])
      else Translated(t, [])
    case MessageChanged(d) =>
      var u := ToUsage(AnthropicUsage(t.input, d.output, t.cacheCreation, t.cacheRead));
      Translated(t, [ChunkOf(t, NO_DELTA, Some(MapStopReason(d.stopReason)), Some(u))])
    case MessageStopped => Translated(t, [DoneMark])
    case NoEffect => Translated(t, [])
  }

  function Initial(requestModel: string): Translator {
    Translator("", requestModel, map[], 0, 0, 0, 0)
  }

  function Translate(requestModel: string, events: seq<StreamEvent>): Translated {
    if events == [] then Translated(Initial(requestModel), [])
    else
      var before := Translate(requestModel, events[..|events| - 1]);
      var r := React(before.state, events[|events| - 1]);
      Translated(r.state, before.outs + r.outs)
  }

  lemma {:induction false} TranslateStep(requestModel: string, lines: seq<SseLine>, i: nat)
    requires i < |lines|
    ensures CurrentEvent(lines[..i + 1])
         == if lines[i].EventLine? then lines[i].name else CurrentEvent(lines[..i])
    ensures var before := Translate(requestModel, EventsOf(lines[..i]));
      Translate(requestModel, EventsOf(lines[..i + 1]))
      == if !lines[i].PayloadLine? then before
         else
           var r := React(before.state, Meaning(CurrentEvent(lines[..i]), lines[i].payload));
           Translated(r.state, before.outs + r.outs)
  {
    assert lines[..i + 1][..i] == lines[..i];
    if lines[i].PayloadLine? {
      var seen, now := EventsOf(lines[..i]), Meaning(CurrentEvent(lines[..i]), lines[i].payload);
      assert (seen + [now])[..|seen|] == seen;
    }
  }

  method TranslateAnthropicStream(requestModel: string, lines: seq<SseLine>) returns (outs: seq<Out>)
    ensures outs == Translate(requestModel, EventsOf(lines)).outs
  {
    var messageID, model := "", requestModel;
    var toolCallIdx: map<int, nat>, nextToolIdx := map[], 0;
    var eventType := OtherName;
    var input, cacheCreation, cacheRead := 0, 0, 0;
    outs := [];
    for i := 0 to |lines|
      invariant eventType == CurrentEvent(lines[..i])
      invariant Translate(requestModel, EventsOf(lines[..i]))
             == Translated(
                  Translator(messageID, model, toolCallIdx, nextToolIdx, input, cacheCreation, cacheRead), outs)
    {
      TranslateStep(requestModel, lines, i);
      ghost var before := Translator(messageID, model, toolCallIdx, nextToolIdx, input, cacheCreation, cacheRead);
      var emitted := [];
      var chunk := StreamChunk(messageID, model, NO_DELTA, None, None);
      match lines[i]
      case OtherLine =>
      case EventLine(name) =>
        eventType := name;
      case PayloadLine(payload) =>
        match eventType {
          case MessageStartName =>
            if payload.messageStart.Some? {
              var e := payload.messageStart.value;
              messageID := e.id;
              if e.model != "" { model := e.model; }
              input, cacheCreation, cacheRead := e.input, e.cacheCreation, e.cacheRead;
              emitted := [Chunk(StreamChunk(messageID, model, Delta("assistant", None, []), None, None))];
            }
          case BlockStartName =>
            if payload.blockStart.Some? && payload.blockStart.value.kind == ToolUseKind {
              var e := payload.blockStart.value;
              var tcIdx := nextToolIdx;
              toolCallIdx := toolCallIdx[e.index := tcIdx];
              nextToolIdx := nextToolIdx + 1;
              var tc := StreamToolCall(tcIdx, e.id, "function", e.name, "");
              emitted := [Chunk(chunk.(delta := Delta("", None, [tc])))];
            }
          case BlockDeltaName =>
            if payload.blockDelta.Some? {
              var e := payload.blockDelta.value;
              if e.kind == TextDelta {
                emitted := [Chunk(chunk.(delta := Delta("", Some(e.text), [])))];
              } else if e.kind == InputJsonDelta {
                var tcIdx := if e.index in toolCallIdx then toolCallIdx[e.index] else 0;
                var tc := StreamToolCall(tcIdx, "", "", "", e.partialJson);
                emitted := [Chunk(chunk.(delta := Delta("", None, [tc])))];
              }
            }
          case MessageDeltaName =>
            if payload.messageDelta.Some? {
              var e := payload.messageDelta.value;
              var total := input + cacheCreation + cacheRead + e.output;
              emitted := [Chunk(chunk.(finish := Some(MapStopReason(e.stopReason)),
                                           usage := Some(Usage(input, e.output, total, cacheCreation, cacheRead))))];
            }
          case MessageStopName =>
            emitted := [DoneMark];
          case OtherName =>
        }
        assert React(before, Meaning(eventType, payload))
            == Translated(
                 Translator(messageID, model, toolCallIdx, nextToolIdx, input, cacheCreation, cacheRead), emitted);
        outs := outs + emitted;
    }
    assert lines[..|lines|] == lines;
  }

  // ---------------------------------------------------------------------
  // Tool calls, as a client puts them together

  predicate IsToolStart(e: StreamEvent) {
    e.BlockStarted? && e.block.kind == ToolUseKind
  }

  predicate IsJsonDelta(e: StreamEvent) {
    e.BlockChanged? && e.change.kind == InputJsonDelta
  }

  function ToolStarts(events: seq<StreamEvent>): seq<BlockStart> {
    if events == [] then []
    else
      var before, e := ToolStarts(events[..|events| - 1]), events[|events| - 1];
      if IsToolStart(e) then before + [e.block] else before
  }

  /** A tool was started under this content block index. */
  predicate Started(events: seq<StreamEvent>, index: int) {
    exists k :: 0 <= k < |ToolStarts(events)| && ToolStarts(events)[k].index == index
  }

  /** The protocol's side: no index starts two tools, and JSON pieces follow the start of their tool. */
  predicate WellFormedTools(events: seq<StreamEvent>) {
    events == [] ||
    var before, e := events[..|events| - 1], events[|events| - 1];
    && WellFormedTools(before)
    && (IsToolStart(e) ==> !Started(before, e.block.index))
    && (IsJsonDelta(e) ==> Started(before, e.change.index))
  }

  /** All JSON pieces of one content block, concatenated. */
  function JsonOf(events: seq<StreamEvent>, index: int): string {
    if events == [] then ""
    else
      var before, e := JsonOf(events[..|events| - 1], index), events[|events| - 1];
      if IsJsonDelta(e) && e.change.index == index then before + e.change.partialJson else before
  }

  /** The tool calls that an event stream carries, in start order. */
  function CarriedTools(events: seq<StreamEvent>): seq<ToolCall> {
    var starts := ToolStarts(events);
    seq(|starts|, k requires 0 <= k < |starts| =>
      ToolCall(starts[k].id, starts[k].name, JsonOf(events, starts[k].index)))
  }

  /** What the translator remembers about tools: the k-th tool start owns index k. */
  ghost predicate TracksTools(t: Translator, starts: seq<BlockStart>) {
    && t.nextToolIdx == |starts|
    && forall k :: 0 <= k < |starts| ==> starts[k].index in t.toolCallIdx && t.toolCallIdx[starts[k].index] == k
  }

  lemma {:induction false} StartedStays(events: seq<StreamEvent>, index: int)
    requires events != [] && Started(events[..|events| - 1], index)
    ensures Started(events, index)
  {
    var k :| 0 <= k < |ToolStarts(events[..|events| - 1])| && ToolStarts(events[..|events| - 1])[k].index == index;
    assert ToolStarts(events)[k].index == index;
  }

  /** An index without a tool start has no JSON in a well-formed stream. */
  lemma {:induction false} NoStartNoJson(events: seq<StreamEvent>, index: int)
    requires WellFormedTools(events) && !Started(events, index)
    ensures JsonOf(events, index) == ""
  {
    if events != [] {
      var before := events[..|events| - 1];
      if Started(before, index) { StartedStays(events, index); }
      NoStartNoJson(before, index);
    }
  }

  /**
   However the pieces of different blocks interleave, a client assembles exactly the tools that
   were started, in start order, each with its own JSON.
   */
  lemma {:induction false} ToolsAreAssembled(requestModel: string, events: seq<StreamEvent>)
    requires WellFormedTools(events)
    ensures Assemble(Translate(requestModel, events).outs) == Some(CarriedTools(events))
    ensures TracksTools(Translate(requestModel, events).state, ToolStarts(events))
  {
    if events == [] {
      assert CarriedTools(events) == [];
    } else {
      var n := |events| - 1;
      var before, e := events[..n], events[n];
      var r := Translate(requestModel, before);
      ToolsAreAssembled(requestModel, before);
      if IsToolStart(e) {
        ToolOpens(events, r, e);
      } else if IsJsonDelta(e) {
        ToolGrows(events, r, e);
      } else {
        NoToolOutput(r.state, e);
        AssembleNone(r.outs, React(r.state, e).outs);
        SameTools(events, e);
      }
    }
  }

  lemma {:induction false} NoToolOutput(t: Translator, e: StreamEvent)
    requires !IsToolStart(e) && !IsJsonDelta(e)
    ensures var r := React(t, e);
      && r.state.toolCallIdx == t.toolCallIdx && r.state.nextToolIdx == t.nextToolIdx
      && |r.outs| <= 1
      && (r.outs != [] && r.outs[0].Chunk? ==> r.outs[0].chunk.delta.toolCalls == [])
  {
  }

  lemma {:induction false} SameTools(events: seq<StreamEvent>, e: StreamEvent)
    requires events != [] && e == events[|events| - 1] && !IsToolStart(e) && !IsJsonDelta(e)
    ensures ToolStarts(events) == ToolStarts(events[..|events| - 1])
    ensures CarriedTools(events) == CarriedTools(events[..|events| - 1])
  {
  }

  lemma {:induction false} ToolOpens(events: seq<StreamEvent>, r: Translated, e: StreamEvent)
    requires events != [] && e == events[|events| - 1] && IsToolStart(e) && WellFormedTools(events)
    requires var before := events[..|events| - 1];
      Assemble(r.outs) == Some(CarriedTools(before)) && TracksTools(r.state, ToolStarts(before))
    ensures Assemble(r.outs + React(r.state, e).outs) == Some(CarriedTools(events))
    ensures TracksTools(React(r.state, e).state, ToolStarts(events))
  {
    var before := events[..|events| - 1];
    var starts := ToolStarts(before);
    AssembleOne(r.outs, React(r.state, e).outs[0]);
    NoStartNoJson(before, e.block.index);
    assert forall k :: 0 <= k < |starts| ==> starts[k].index != e.block.index;
    assert CarriedTools(events) == CarriedTools(before) + [ToolCall(e.block.id, e.block.name, "")];
  }

  lemma {:induction false} ToolGrows(events: seq<StreamEvent>, r: Translated, e: StreamEvent)
    requires events != [] && e == events[|events| - 1] && IsJsonDelta(e) && WellFormedTools(events)
    requires var before := events[..|events| - 1];
      Assemble(r.outs) == Some(CarriedTools(before)) && TracksTools(r.state, ToolStarts(before))
    ensures Assemble(r.outs + React(r.state, e).outs) == Some(CarriedTools(events))
    ensures TracksTools(React(r.state, e).state, ToolStarts(events))
  {
    var before := events[..|events| - 1];
    var starts := ToolStarts(before);
    AssembleOne(r.outs, React(r.state, e).outs[0]);
    var k :| 0 <= k < |starts| && starts[k].index == e.change.index;
    GrownTools(events, e, r.state, k);
  }

  lemma {:induction false} GrownTools(events: seq<StreamEvent>, e: StreamEvent, t: Translator, k: nat)
    requires events != [] && e == events[|events| - 1] && IsJsonDelta(e)
    requires var starts := ToolStarts(events[..|events| - 1]);
      TracksTools(t, starts) && k < |starts| && starts[k].index == e.change.index
    ensures var calls := CarriedTools(events[..|events| - 1]);
      CarriedTools(events) == calls[k := calls[k].(arguments := calls[k].arguments + e.change.partialJson)]
  {
    var before := events[..|events| - 1];
    var starts := ToolStarts(before);
    assert ToolStarts(events) == starts;
    forall j | 0 <= j < |starts|
      ensures JsonOf(events, starts[j].index)
           == if j == k then JsonOf(before, starts[j].index) + e.change.partialJson else JsonOf(before, starts[j].index)
    {
      assert t.toolCallIdx[starts[j].index] == j && t.toolCallIdx[starts[k].index] == k;
    }
  }

  // ---------------------------------------------------------------------
  // The same message, streamed and not

  /** Event k is the last message_delta, with the final stop reason and output count. */
  predicate FinalDelta(events: seq<StreamEvent>, k: nat, m: Message) {
    && 0 < k < |events| - 1
    && events[k] == MessageChanged(MessageDelta(m.stopReason, m.usage.output))
    && (forall i :: k < i < |events| - 1 ==> !events[i].MessageChanged?)
  }

  /** The output counts of earlier message_deltas do not exceed the final one. */
  predicate Cumulative(events: seq<StreamEvent>, k: nat, m: Message) {
    forall i :: 0 < i < |events| && i < k && events[i].MessageChanged? ==> events[i].delta.output <= m.usage.output
  }

  /** The tools that are started are those of the message, in order. */
  predicate StartsTools(events: seq<StreamEvent>, calls: seq<ToolCall>) {
    var starts := ToolStarts(events);
    && |starts| == |calls|
    && forall j :: 0 <= j < |starts| ==> starts[j].id == calls[j].id && starts[j].name == calls[j].name
  }

  /** A well-formed event stream of message m. Anything may stand between its first and last events. */
  predicate Carries(events: seq<StreamEvent>, k: nat, m: Message) {
    && FinalDelta(events, k, m)
    && events[0] == MessageStarted(
         MessageStart(m.id, m.model, m.usage.input, m.usage.cacheCreation, m.usage.cacheRead))
    && events[|events| - 1] == MessageStopped
    && (forall i :: 0 < i < |events| - 1 ==> !events[i].MessageStarted? && !events[i].MessageStopped?)
    && WellFormedTools(events) && StartsTools(events, ToolCalls(m.content))
  }

  predicate OnTrack(t: Translator, requestModel: string, m: Message) {
    && t.messageID == m.id && t.model == ModelOf(m, requestModel)
    && t.input == m.usage.input && t.cacheCreation == m.usage.cacheCreation && t.cacheRead == m.usage.cacheRead
  }

  /** With `capped`, its usage does not exceed the message's. */
  predicate ChunkOfMessage(o: Out, requestModel: string, m: Message, capped: bool) {
    && o.Chunk? && o.chunk.id == m.id && o.chunk.model == ModelOf(m, requestModel)
    && (capped && o.chunk.usage.Some? ==> o.chunk.usage.value.total <= TotalTokens(m.usage))
  }

  predicate Plain(o: Out) {
    o.Chunk? && o.chunk.usage == None && o.chunk.finish == None
  }

  predicate Settling(o: Out, m: Message) {
    o.Chunk? && o.chunk.usage == Some(ToUsage(m.usage)) && o.chunk.finish == Some(MapStopReason(m.stopReason))
  }

  lemma {:induction false} MiddleEvent(requestModel: string, m: Message, t: Translator, e: StreamEvent, capped: bool)
    requires OnTrack(t, requestModel, m) && !e.MessageStarted? && !e.MessageStopped?
    requires capped && e.MessageChanged? ==> e.delta.output <= m.usage.output
    ensures var r := React(t, e);
      && OnTrack(r.state, requestModel, m) && |r.outs| <= 1
      && (r.outs != [] ==> ChunkOfMessage(r.outs[0], requestModel, m, capped))
      && (r.outs != [] && !e.MessageChanged? ==> Plain(r.outs[0]))
      && (e == MessageChanged(MessageDelta(m.stopReason, m.usage.output)) ==> r.outs != [] && Settling(r.outs[0], m))
  {
  }

  /** Where the chunk of the final delta stands. */
  function SettlingPos(requestModel: string, events: seq<StreamEvent>, k: nat): nat
    requires k <= |events|
  {
    |Translate(requestModel, events[..k]).outs|
  }

  /** The chunks of the first n events. */
  predicate Progress(requestModel: string, m: Message, r: Translated, k: nat, p: nat, n: nat, capped: bool) {
    && OnTrack(r.state, requestModel, m)
    && (forall i :: 0 <= i < |r.outs| ==> ChunkOfMessage(r.outs[i], requestModel, m, capped))
    && (n == k ==> p == |r.outs|)
    && (n > k ==>
        && p < |r.outs| && Settling(r.outs[p], m)
        && forall i :: p < i < |r.outs| ==> Plain(r.outs[i]))
  }

  /** One event more: the final delta at k, and no other delta after it. */
  lemma {:induction false} ProgressStep(
      requestModel: string, m: Message, r: Translated, k: nat, p: nat, i: nat, e: StreamEvent, capped: bool)
    requires Progress(requestModel, m, r, k, p, i, capped) && !e.MessageStarted? && !e.MessageStopped?
    requires capped && e.MessageChanged? ==> e.delta.output <= m.usage.output
    requires i == k ==> e == MessageChanged(MessageDelta(m.stopReason, m.usage.output))
    requires i > k ==> !e.MessageChanged?
    requires i + 1 == k ==> p == |r.outs + React(r.state, e).outs|
    ensures Progress(requestModel, m, Translated(React(r.state, e).state, r.outs + React(r.state, e).outs),
                     k, p, i + 1, capped)
  {
    MiddleEvent(requestModel, m, r.state, e, capped);
  }

  lemma {:induction false} Progresses(
      requestModel: string, events: seq<StreamEvent>, k: nat, m: Message, n: nat, capped: bool)
    requires Carries(events, k, m) && (capped ==> Cumulative(events, k, m)) && 1 <= n < |events|
    ensures Progress(requestModel, m, Translate(requestModel, events[..n]), k,
                     SettlingPos(requestModel, events, k), n, capped)
  {
    var i := n - 1;
    TranslateOne(requestModel, events, i);
    if n > 1 {
      Progresses(requestModel, events, k, m, i, capped);
      ProgressStep(requestModel, m, Translate(requestModel, events[..i]), k, SettlingPos(requestModel, events, k), i,
                   events[i], capped);
    }
  }

  lemma {:induction false} TranslateOne(requestModel: string, events: seq<StreamEvent>, i: nat)
    requires i < |events|
    ensures var before := Translate(requestModel, events[..i]);
      Translate(requestModel, events[..i + 1])
      == Translated(React(before.state, events[i]).state, before.outs + React(before.state, events[i]).outs)
  {
    assert events[..i + 1][..i] == events[..i];
  }

  /** The output of a whole message: its chunks, with the settling one at p, then [DONE]. */
  predicate MessageOuts(outs: seq<Out>, p: nat, requestModel: string, m: Message, capped: bool) {
    && Complete(outs) && p < |outs| - 1 && Settling(outs[p], m)
    && (forall i :: 0 <= i < |outs| - 1 ==> ChunkOfMessage(outs[i], requestModel, m, capped))
    && (forall i :: p < i < |outs| - 1 ==> Plain(outs[i]))
  }

  lemma {:induction false} CompleteOuts(requestModel: string, events: seq<StreamEvent>, k: nat, m: Message,
      capped: bool)
    requires Carries(events, k, m) && (capped ==> Cumulative(events, k, m))
    ensures MessageOuts(Translate(requestModel, events).outs, SettlingPos(requestModel, events, k), requestModel, m,
                        capped)
  {
    var n := |events| - 1;
    var chunks := Translate(requestModel, events[..n]).outs;
    Progresses(requestModel, events, k, m, n, capped);
    assert Translate(requestModel, events).outs == chunks + [DoneMark];
  }

  /** The JSON pieces of every tool make up its arguments. */
  predicate SameArguments(events: seq<StreamEvent>, calls: seq<ToolCall>)
    requires StartsTools(events, calls)
  {
    forall j :: 0 <= j < |calls| ==> JsonOf(events, ToolStarts(events)[j].index) == calls[j].arguments
  }

  lemma {:induction false} CarriedExactly(events: seq<StreamEvent>, calls: seq<ToolCall>)
    requires StartsTools(events, calls)
    ensures CarriedTools(events) == calls <==> SameArguments(events, calls)
  {
    var carried := CarriedTools(events);
    forall j | 0 <= j < |calls|
      ensures carried[j] == calls[j] <==> JsonOf(events, ToolStarts(events)[j].index) == calls[j].arguments
    {
      assert calls[j] == ToolCall(calls[j].id, calls[j].name, calls[j].arguments);
    }
    if SameArguments(events, calls) {
      assert carried == calls;
    }
  }

  /**
   A client of the stream sees the finish reason, id and model of the whole message and as many tool calls,
   of the same ids and names. The calls are the same exactly when the JSON pieces of each make up its
   arguments.
   */
  lemma {:induction false} SameAnswer(requestModel: string, events: seq<StreamEvent>, k: nat, m: Message)
    requires Carries(events, k, m)
    ensures var outs, whole := Translate(requestModel, events).outs, CompletionOf(requestModel, m);
      && LastFinish(outs) == Some(whole.finish)
      && (forall o :: o in outs && o.Chunk? ==> o.chunk.id == whole.id && o.chunk.model == whole.model)
      && Assemble(outs) == Some(CarriedTools(events))
      && (Assemble(outs) == Some(whole.toolCalls) <==> SameArguments(events, whole.toolCalls))
  {
    CompleteOuts(requestModel, events, k, m, false);
    ToolsAreAssembled(requestModel, events);
    LastFinishAt(Translate(requestModel, events).outs, SettlingPos(requestModel, events, k));
    CarriedExactly(events, ToolCalls(m.content));
  }

  /** A tool without a JSON piece reaches the client with empty arguments, whatever its input, `{}` included. */
  lemma {:induction false} NoPiecesNoArguments(events: seq<StreamEvent>, index: int)
    requires forall i :: 0 <= i < |events| && IsJsonDelta(events[i]) ==> events[i].change.index != index
    ensures JsonOf(events, index) == ""
  {
    if events != [] { NoPiecesNoArguments(events[..|events| - 1], index); }
  }

  // ---------------------------------------------------------------------
  // The text, streamed and not

  /** The texts of the text deltas. */
  function DeltaTexts(events: seq<StreamEvent>): seq<string> {
    if events == [] then []
    else
      var before, e := DeltaTexts(events[..|events| - 1]), events[|events| - 1];
      if TextOf(e).Some? then before + [TextOf(e).value] else before
  }

  /** The text that an event brings, if any. */
  function TextOf(e: StreamEvent): Option<string> {
    if e.BlockChanged? && e.change.kind == TextDelta then Some(e.change.text) else None
  }

  lemma {:induction false} ReactText(t: Translator, e: StreamEvent)
    ensures |React(t, e).outs| <= 1
    ensures React(t, e).outs == [] ==> TextOf(e) == None
    ensures React(t, e).outs != [] ==>
      TextOf(e) == if React(t, e).outs[0].Chunk? then React(t, e).outs[0].chunk.delta.content else None
  {
  }

  /** Every text delta is passed on, in order, and nothing else is. */
  lemma {:induction false} TextsAreForwarded(requestModel: string, events: seq<StreamEvent>)
    ensures Contents(Translate(requestModel, events).outs) == DeltaTexts(events)
  {
    if events != [] {
      var before, e := events[..|events| - 1], events[|events| - 1];
      TextsAreForwarded(requestModel, before);
      ReactText(Translate(requestModel, before).state, e);
      AddedText(Translate(requestModel, before).outs, React(Translate(requestModel, before).state, e).outs, TextOf(e));
    }
  }

  lemma {:induction false} AddedText(outs: seq<Out>, added: seq<Out>, text: Option<string>)
    requires |added| <= 1 && (added == [] ==> text == None)
    requires added != [] ==> text == if added[0].Chunk? then added[0].chunk.delta.content else None
    ensures Contents(outs + added) == if text.Some? then Contents(outs) + [text.value] else Contents(outs)
  {
    if added == [] {
      assert outs + added == outs;
    } else {
      ContentsOne(outs, added[0]);
      assert added == [added[0]];
    }
  }

  /**
   When the text deltas make up the text blocks, the streamed text is the unstreamed content exactly when
   the message has no tool call and at most one text block.
   */
  lemma {:induction false} SameText(requestModel: string, events: seq<StreamEvent>, m: Message)
    requires Join(DeltaTexts(events), "") == Join(Texts(m.content), "")
    ensures CompletionOf(requestModel, m).content == Some(Join(Contents(Translate(requestModel, events).outs), ""))
        <==> ToolCalls(m.content) == [] && |Texts(m.content)| <= 1
  {
    TextsAreForwarded(requestModel, events);
    JoinLength(Texts(m.content), "\n");
  }

  // ---------------------------------------------------------------------
  // The bill, streamed and not

  /**
   For every message, event stream of it, and run of reads over the translated bytes that ends after them,
   the streamed report equals the one of the whole message when the message has a positive total; and only
   then, if the output counts are cumulative. Only the line of the final chunk has to fit the meter's cap.
   */
  lemma {:induction false} SameBill(
    cfg: Config, encode: Encoder, requestModel: string, lines: seq<SseLine>, k: nat, m: Message,
    es: seq<Event>, last: Event, more: seq<Event>)
    requires Faithful(encode, cfg.decode) && Carries(EventsOf(lines), k, m)
    requires var outs := Translate(requestModel, EventsOf(lines)).outs;
      && Concat(Pieces(es + [last])) == Render(encode, outs)
      && forall o :: o in outs && Settling(o, m) ==> |DataLine(encode, o)| <= MAX_LINE_BUF_SIZE
    requires (forall e :: e in es ==> !Ends(e)) && Ends(last)
    ensures var same := Run(cfg, es + [last] + more).reports
                     == [MeterResponse(MetaOf(CompletionOf(requestModel, m)), cfg.visionEstimate, cfg.initialModel)];
      && (TotalTokens(m.usage) > 0 ==> same)
      && (Cumulative(EventsOf(lines), k, m) ==> (same <==> TotalTokens(m.usage) > 0))
  {
    var events := EventsOf(lines);
    var outs := Translate(requestModel, events).outs;
    var capped := Cumulative(events, k, m);
    OnDoneFiresOnce(cfg, es, last, more);
    CompleteOuts(requestModel, events, k, m, capped);
    BillOfOuts(cfg, encode, requestModel, m, outs, SettlingPos(requestModel, events, k), Pieces(es + [last]), capped);
  }

  lemma {:induction false} BillOfOuts(
    cfg: Config, encode: Encoder, requestModel: string, m: Message, outs: seq<Out>, p: nat, pieces: seq<Bytes>,
    capped: bool)
    requires Faithful(encode, cfg.decode) && MessageOuts(outs, p, requestModel, m, capped)
    requires Concat(pieces) == Render(encode, outs) && |DataLine(encode, outs[p])| <= MAX_LINE_BUF_SIZE
    ensures var same := BatchReport(cfg, Delivered(pieces))
                     == MeterResponse(MetaOf(CompletionOf(requestModel, m)), cfg.visionEstimate, cfg.initialModel);
      && (TotalTokens(m.usage) > 0 ==> same)
      && (capped ==> (same <==> TotalTokens(m.usage) > 0))
  {
    var model := ModelOf(m, requestModel);
    if TotalTokens(m.usage) > 0 {
      assert SettledAt(outs, p, ToUsage(m.usage), model);
      CompleteStreamBill(cfg, encode, outs, p, ToUsage(m.usage), model, pieces);
    } else if capped {
      UnsettledStreamBill(cfg, encode, outs, pieces);
    }
  }

  // ---------------------------------------------------------------------
  // The answer in the message's own terms

  /** The tool calls among the first i blocks. */
  function ToolsBefore(content: seq<ContentBlock>, i: nat): nat
    requires i <= |content|
  {
    if i == 0 then 0 else ToolsBefore(content, i - 1) + (if content[i - 1].ToolUse? then 1 else 0)
  }

  function TextsBefore(content: seq<ContentBlock>, i: nat): nat
    requires i <= |content|
  {
    if i == 0 then 0 else TextsBefore(content, i - 1) + (if content[i - 1].TextBlock? then 1 else 0)
  }

  /** The text of the first i blocks, a newline before every text but the first. */
  function TextUpTo(content: seq<ContentBlock>, i: nat): string
    requires i <= |content|
  {
    if i == 0 then ""
    else if !content[i - 1].TextBlock? then TextUpTo(content, i - 1)
    else if TextsBefore(content, i - 1) == 0 then content[i - 1].text
    else TextUpTo(content, i - 1) + "\n" + content[i - 1].text
  }

  lemma {:induction false} FirstBlocks(content: seq<ContentBlock>, n: nat)
    requires n <= |content|
    ensures |ToolCalls(content[..n])| == ToolsBefore(content, n) && |Texts(content[..n])| == TextsBefore(content, n)
    ensures Join(Texts(content[..n]), "\n") == TextUpTo(content, n)
  {
    if n > 0 {
      FirstBlocks(content, n - 1);
      assert content[..n][..n - 1] == content[..n - 1];
      if content[n - 1].TextBlock? {
        JoinOn(Texts(content[..n - 1]), content[n - 1].text, "\n");
      } else {
        assert Texts(content[..n]) == Texts(content[..n - 1]);
      }
    }
  }

  /** The call and the text that block i becomes, wherever the list ends. */
  lemma {:induction false} BlockStands(content: seq<ContentBlock>, n: nat, i: nat)
    requires i < n <= |content|
    ensures content[i].ToolUse? ==>
      && ToolsBefore(content, i) < |ToolCalls(content[..n])|
      && ToolCalls(content[..n])[ToolsBefore(content, i)].id == content[i].id
      && ToolCalls(content[..n])[ToolsBefore(content, i)].name == content[i].name
      && ToolCalls(content[..n])[ToolsBefore(content, i)].arguments == content[i].input
    ensures content[i].TextBlock? ==>
      && TextsBefore(content, i) < |Texts(content[..n])|
      && Texts(content[..n])[TextsBefore(content, i)] == content[i].text
  {
    FirstBlocks(content, n - 1);
    assert content[..n][..n - 1] == content[..n - 1];
    if i < n - 1 { BlockStands(content, n - 1, i); }
  }

  /** Block i is a call, in its place and with its own id, name and input, or a text in its place. */
  lemma {:induction false} BlockBecomes(requestModel: string, m: Message, i: nat)
    requires i < |m.content|
    ensures var calls := CompletionOf(requestModel, m).toolCalls;
      && |calls| == ToolsBefore(m.content, |m.content|)
      && (m.content[i].ToolUse? ==>
            var n := ToolsBefore(m.content, i);
            && n < |calls| && calls[n].id == m.content[i].id && calls[n].name == m.content[i].name
            && calls[n].arguments == m.content[i].input)
    ensures var texts := Texts(m.content);
      && |texts| == TextsBefore(m.content, |m.content|)
      && (m.content[i].TextBlock? ==>
            TextsBefore(m.content, i) < |texts| && texts[TextsBefore(m.content, i)] == m.content[i].text)
  {
    assert m.content[..|m.content|] == m.content;
    FirstBlocks(m.content, |m.content|);
    BlockStands(m.content, |m.content|, i);
  }

  /** The completion, field by field. */
  lemma {:induction false} CompletionInFull(requestModel: string, m: Message)
    ensures var c := CompletionOf(requestModel, m);
      && c.id == m.id && c.model == (if m.model != "" then m.model else requestModel)
      && c.usage.prompt == m.usage.input && c.usage.completion == m.usage.output
      && c.usage.cacheCreation == m.usage.cacheCreation && c.usage.cacheRead == m.usage.cacheRead
      && c.usage.total == m.usage.input + m.usage.output + m.usage.cacheCreation + m.usage.cacheRead
    ensures CompletionOf(requestModel, m).content
         == if ToolsBefore(m.content, |m.content|) > 0 then None else Some(TextUpTo(m.content, |m.content|))
    ensures var finish := CompletionOf(requestModel, m).finish;
      && (m.stopReason == "max_tokens" ==> finish == "length")
      && (m.stopReason == "tool_use" ==> finish == "tool_calls")
      && (m.stopReason != "max_tokens" && m.stopReason != "tool_use" ==> finish == "stop")
  {
    assert m.content[..|m.content|] == m.content;
    FirstBlocks(m.content, |m.content|);
  }

  /**
   The bill of a stream, in fields of the message it carries: with a positive total, whatever the reads,
   every count in its own place. A vision estimate stands in for a prompt of 0 and makes the total anew.
   */
  lemma {:induction false} BillInFull(
    cfg: Config, encode: Encoder, requestModel: string, lines: seq<SseLine>, k: nat, m: Message,
    es: seq<Event>, last: Event, more: seq<Event>)
    requires Faithful(encode, cfg.decode) && Carries(EventsOf(lines), k, m)
    requires var outs := Translate(requestModel, EventsOf(lines)).outs;
      && Concat(Pieces(es + [last])) == Render(encode, outs)
      && forall o :: o in outs && Settling(o, m) ==> |DataLine(encode, o)| <= MAX_LINE_BUF_SIZE
    requires (forall e :: e in es ==> !Ends(e)) && Ends(last)
    requires m.usage.input + m.usage.output + m.usage.cacheCreation + m.usage.cacheRead > 0
    ensures |Run(cfg, es + [last] + more).reports| == 1
    ensures var report := Run(cfg, es + [last] + more).reports[0];
      && !report.estimated
      && (m.model != "" ==> report.model == m.model)
      && (m.model == "" && requestModel != "" ==> report.model == requestModel)
      && (m.model == "" && requestModel == "" ==> report.model == cfg.initialModel)
      && report.usage.completion == m.usage.output
      && report.usage.cacheCreation == m.usage.cacheCreation && report.usage.cacheRead == m.usage.cacheRead
      && (m.usage.input == 0 && cfg.visionEstimate > 0 ==>
            report.usage.prompt == cfg.visionEstimate && report.usage.total == cfg.visionEstimate + m.usage.output)
      && (m.usage.input != 0 || cfg.visionEstimate <= 0 ==>
            && report.usage.prompt == m.usage.input
            && report.usage.total == m.usage.input + m.usage.output + m.usage.cacheCreation + m.usage.cacheRead)
  {
    SameBill(cfg, encode, requestModel, lines, k, m, es, last, more);
    CompletionInFull(requestModel, m);
  }

  // ---------------------------------------------------------------------
  // The events in the terms of the lines

  function PayloadsBefore(lines: seq<SseLine>, i: nat): nat
    requires i <= |lines|
  {
    if i == 0 then 0 else PayloadsBefore(lines, i - 1) + (if lines[i - 1].PayloadLine? then 1 else 0)
  }

  /** The name in force before line i is the one of event line j, or no name without such a line. */
  predicate NamedBy(lines: seq<SseLine>, i: nat, j: int, name: EventName)
    requires i <= |lines|
  {
    && -1 <= j < i && (forall k :: j < k < i ==> !lines[k].EventLine?)
    && if j == -1 then name.OtherName? else lines[j].EventLine? && lines[j].name == name
  }

  lemma {:induction false} NameInForce(lines: seq<SseLine>, i: nat, j: int, name: EventName)
    requires i <= |lines| && NamedBy(lines, i, j, name)
    ensures CurrentEvent(lines[..i]) == name
  {
    if i > 0 {
      assert lines[..i][..i - 1] == lines[..i - 1];
      if j < i - 1 { NameInForce(lines, i - 1, j, name); }
    }
  }

  lemma {:induction false} EventStands(lines: seq<SseLine>, n: nat, i: nat, j: int, name: EventName)
    requires i < n <= |lines| && lines[i].PayloadLine? && NamedBy(lines, i, j, name)
    ensures |EventsOf(lines[..n])| == PayloadsBefore(lines, n)
    ensures PayloadsBefore(lines, i) < |EventsOf(lines[..n])|
    ensures EventsOf(lines[..n])[PayloadsBefore(lines, i)] == Meaning(name, lines[i].payload)
  {
    assert lines[..n][..n - 1] == lines[..n - 1];
    if i < n - 1 {
      EventStands(lines, n - 1, i, j, name);
    } else {
      EventCount(lines, n - 1);
      NameInForce(lines, i, j, name);
    }
  }

  lemma {:induction false} EventCount(lines: seq<SseLine>, n: nat)
    requires n <= |lines|
    ensures |EventsOf(lines[..n])| == PayloadsBefore(lines, n)
  {
    if n > 0 {
      EventCount(lines, n - 1);
      assert lines[..n][..n - 1] == lines[..n - 1];
    }
  }

  /**
   The data of line i is what the last event line before it names; other names, and data that does not
   decode, do nothing.
   */
  lemma {:induction false} EventAt(lines: seq<SseLine>, i: nat, j: int, name: EventName)
    requires i < |lines| && lines[i].PayloadLine? && NamedBy(lines, i, j, name)
    ensures |EventsOf(lines)| == PayloadsBefore(lines, |lines|) && PayloadsBefore(lines, i) < |EventsOf(lines)|
    ensures var e, p := EventsOf(lines)[PayloadsBefore(lines, i)], lines[i].payload;
      && (e.MessageStarted? <==> name.MessageStartName? && p.messageStart.Some?)
      && (e.BlockStarted? <==> name.BlockStartName? && p.blockStart.Some?)
      && (e.BlockChanged? <==> name.BlockDeltaName? && p.blockDelta.Some?)
      && (e.MessageChanged? <==> name.MessageDeltaName? && p.messageDelta.Some?)
      && (e.MessageStopped? <==> name.MessageStopName?)
      && (e.MessageStarted? ==> e.start == p.messageStart.value) && (e.BlockStarted? ==> e.block == p.blockStart.value)
      && (e.BlockChanged? ==> e.change == p.blockDelta.value) && (e.MessageChanged? ==> e.delta == p.messageDelta.value)
  {
    assert lines[..|lines|] == lines;
    EventStands(lines, |lines|, i, j, name);
  }

  // ---------------------------------------------------------------------
  // Any stream at all, in the terms of its events: also one without a start, or with several

  /** The last message start among the first n events, -1 if there is none. */
  function LastStart(events: seq<StreamEvent>, n: nat): (k: int)
    requires n <= |events|
    ensures -1 <= k < n && (k >= 0 ==> events[k].MessageStarted?)
  {
    if n == 0 then -1 else if events[n - 1].MessageStarted? then n - 1 else LastStart(events, n - 1)
  }

  /** The last model that a message start among the first n events names. */
  function ModelBefore(requestModel: string, events: seq<StreamEvent>, n: nat): string
    requires n <= |events|
  {
    if n == 0 then requestModel
    else if events[n - 1].MessageStarted? && events[n - 1].start.model != "" then events[n - 1].start.model
    else ModelBefore(requestModel, events, n - 1)
  }

  /** How many tools the first n events start. */
  function StartsBefore(events: seq<StreamEvent>, n: nat): nat
    requires n <= |events|
  {
    if n == 0 then 0
    else StartsBefore(events, n - 1)
         + if events[n - 1].BlockStarted? && events[n - 1].block.kind == ToolUseKind then 1 else 0
  }

  /** The number of the tool that was last started under a block index; without one it is that of the first tool. */
  function NumberOf(events: seq<StreamEvent>, n: nat, index: int): nat
    requires n <= |events|
  {
    if n == 0 then 0
    else
      var e := events[n - 1];
      if e.BlockStarted? && e.block.kind == ToolUseKind && e.block.index == index then StartsBefore(events, n - 1)
      else NumberOf(events, n - 1, index)
  }

  lemma {:induction false} LocalsStand(requestModel: string, events: seq<StreamEvent>, n: nat)
    requires n <= |events|
    ensures var t, k := Translate(requestModel, events[..n]).state, LastStart(events, n);
      && t.messageID == (if k < 0 then "" else events[k].start.id)
      && t.model == ModelBefore(requestModel, events, n) && t.nextToolIdx == StartsBefore(events, n)
      && t.input == (if k < 0 then 0 else events[k].start.input)
      && t.cacheCreation == (if k < 0 then 0 else events[k].start.cacheCreation)
      && t.cacheRead == (if k < 0 then 0 else events[k].start.cacheRead)
  {
    if n > 0 {
      assert events[..n][..n - 1] == events[..n - 1];
      LocalsStand(requestModel, events, n - 1);
    }
  }

  lemma {:induction false} NumbersStand(requestModel: string, events: seq<StreamEvent>, n: nat, index: int)
    requires n <= |events|
    ensures var t := Translate(requestModel, events[..n]).state;
      NumberOf(events, n, index) == if index in t.toolCallIdx then t.toolCallIdx[index] else 0
  {
    if n > 0 {
      assert events[..n][..n - 1] == events[..n - 1];
      NumbersStand(requestModel, events, n - 1, index);
      LocalsStand(requestModel, events, n - 1);
    }
  }

  /** Whether an event makes the translator write something. */
  predicate Speaks(e: StreamEvent) {
    || e.MessageStarted? || e.MessageChanged? || e.MessageStopped?
    || (e.BlockStarted? && e.block.kind == ToolUseKind) || (e.BlockChanged? && !e.change.kind.OtherDelta?)
  }

  /** How much the first n events make it write. */
  function SpokenBefore(events: seq<StreamEvent>, n: nat): nat
    requires n <= |events|
  {
    if n == 0 then 0 else SpokenBefore(events, n - 1) + (if Speaks(events[n - 1]) then 1 else 0)
  }

  /** The delta that an event becomes, given the number of its tool. */
  predicate IsDeltaOf(e: StreamEvent, number: nat, d: Delta) {
    match e
    case MessageStarted(_) => d == Delta("assistant", None, [])
    case BlockStarted(b) => d == Delta("", None, [StreamToolCall(number, b.id, "function", b.name, "")])
    case BlockChanged(c) =>
      if c.kind.TextDelta? then d == Delta("", Some(c.text), [])
      else d == Delta("", None, [StreamToolCall(number, "", "", "", c.partialJson)])
    case _ => d == Delta("", None, [])
  }

  /** What event i becomes: under the id of the last message start, with the counts that this one gave. */
  predicate IsChunkOf(requestModel: string, events: seq<StreamEvent>, i: nat, o: Out)
    requires i < |events|
  {
    var e, k := events[i], LastStart(events, i + 1);
    if e.MessageStopped? then o == DoneMark
    else
      && o.Chunk? && o.chunk.id == (if k < 0 then "" else events[k].start.id)
      && o.chunk.model == ModelBefore(requestModel, events, i + 1)
      && IsDeltaOf(e, if e.BlockChanged? then NumberOf(events, i, e.change.index) else StartsBefore(events, i),
                   o.chunk.delta)
      && (!e.MessageChanged? ==> o.chunk.finish == None && o.chunk.usage == None)
      && (e.MessageChanged? ==> IsFinal(e.delta, if k < 0 then None else Some(events[k].start), o.chunk))
  }

  predicate IsFinal(d: MessageDelta, start: Option<MessageStart>, c: StreamChunk) {
    && c.finish == Some(if d.stopReason == "max_tokens" then "length"
                        else if d.stopReason == "tool_use" then "tool_calls" else "stop")
    && c.usage.Some? && c.usage.value.completion == d.output
    && c.usage.value.prompt == (if start.Some? then start.value.input else 0)
    && c.usage.value.cacheCreation == (if start.Some? then start.value.cacheCreation else 0)
    && c.usage.value.cacheRead == (if start.Some? then start.value.cacheRead else 0)
    && c.usage.value.total
       == c.usage.value.prompt + d.output + c.usage.value.cacheCreation + c.usage.value.cacheRead
  }

  lemma {:induction false} EventSpeaks(requestModel: string, events: seq<StreamEvent>, i: nat)
    requires i < |events|
    ensures var outs := React(Translate(requestModel, events[..i]).state, events[i]).outs;
      |outs| == (if Speaks(events[i]) then 1 else 0)
      && (Speaks(events[i]) ==> IsChunkOf(requestModel, events, i, outs[0]))
  {
    LocalsStand(requestModel, events, i);
    if events[i].BlockChanged? {
      NumbersStand(requestModel, events, i, events[i].change.index);
    }
  }

  lemma {:induction false} SpokenStands(requestModel: string, events: seq<StreamEvent>, n: nat, i: nat)
    requires n <= |events|
    ensures |Translate(requestModel, events[..n]).outs| == SpokenBefore(events, n)
    ensures i < n && Speaks(events[i]) ==>
      && SpokenBefore(events, i) < SpokenBefore(events, n)
      && IsChunkOf(requestModel, events, i, Translate(requestModel, events[..n]).outs[SpokenBefore(events, i)])
  {
    if n > 0 {
      assert events[..n][..n - 1] == events[..n - 1];
      SpokenStands(requestModel, events, n - 1, i);
      EventSpeaks(requestModel, events, n - 1);
    }
  }

  /** Every event of every stream: what it becomes, and where in the output that stands; nothing else is written. */
  lemma {:induction false} ChunksInFull(requestModel: string, events: seq<StreamEvent>, i: nat)
    requires i < |events|
    ensures var outs := Translate(requestModel, events).outs;
      && |outs| == SpokenBefore(events, |events|)
      && (Speaks(events[i]) ==>
            SpokenBefore(events, i) < |outs| && IsChunkOf(requestModel, events, i, outs[SpokenBefore(events, i)]))
  {
    assert events[..|events|] == events;
    SpokenStands(requestModel, events, |events|, i);
  }
}
