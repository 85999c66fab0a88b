/**
 internal/providers/gemini/transform.go, the response side: a whole response
 (`toOpenAIResponse`) and the same parts spread over a stream of partial
 responses (`translateGeminiStream`).
 */
module GeminiStream {
  import opened Wrappers
  import opened SseLines
  import opened StreamMetering
  import opened Strings
  import opened ChatStream

  /** `args` is the JSON text of the call's arguments. */
  datatype FunctionCall = FunctionCall(name: string, args: string)

  /** A part that is neither a call nor a text has an empty text. */
  datatype Part = Part(call: Option<FunctionCall>, text: string)

  datatype Candidate = Candidate(parts: seq<Part>, finishReason: string)

  datatype UsageMetadata = UsageMetadata(prompt: int, candidates: int, total: int)

  datatype Response = Response(id: string, modelVersion: string, candidates: seq<Candidate>, usage: UsageMetadata)

  /** A line of the stream: a partial response, or one that the loop skips. */
  datatype Line = Partial(response: Response) | Skipped

  // ---------------------------------------------------------------------
  // Strings

  function FallbackString(a: string, b: string): string {
    if !Blank(a) then a else b
  }

  /** Upper case, as far as it can produce an ASCII letter. */
  function Upper(c: char): char {
    if 'a' <= c <= 'z' then 'A' + (c - 'a')
    else if c == '\U{131}' then 'I'
    else if c == '\U{17F}' then 'S'
    else c
  }

  function ToUpper(s: string): string {
    seq(|s|, i requires 0 <= i < |s| => Upper(s[i]))
  }

  function NormalizeFinishReason(v: string): string {
    var u := ToUpper(v);
    if u == "STOP" then "stop"
    else if u == "MAX_TOKENS" then "length"
    else if u in {"SAFETY", "RECITATION", "BLOCKLIST", "PROHIBITED_CONTENT", "SPII"} then "content_filter"
    else "stop"
  }

  // ---------------------------------------------------------------------
  // A whole response

  /** Gemini returns no call id: one is made from the function name. */
  function CallId(name: string): string {
    "call_" + name
  }

  function ToToolCall(f: FunctionCall): ToolCall {
    ToolCall(CallId(f.name), f.name, f.args)
  }

  function WithCall(calls: seq<ToolCall>, p: Part): seq<ToolCall> {
    if p.call.Some? then calls + [ToToolCall(p.call.value)] else calls
  }

  function WithText(texts: seq<string>, p: Part): seq<string> {
    if p.call.None? && !Blank(p.text) then texts + [p.text] else texts
  }

  function CallsIn(parts: seq<Part>): seq<ToolCall> {
    if parts == [] then []
    else
      WithCall(CallsIn(parts[..|parts| - 1]), parts[|parts| - 1])
  }

  function TextsIn(parts: seq<Part>): seq<string> {
    if parts == [] then []
    else
      WithText(TextsIn(parts[..|parts| - 1]), parts[|parts| - 1])
  }

  function ToUsage(u: UsageMetadata): Usage {
    Usage(u.prompt, u.candidates, u.total, 0, 0)
  }

  /** `freshId` stands for the time-stamped id of a response that has none. */
  function CompletionOf(requestModel: string, freshId: string, m: Response): Completion {
    var calls := if m.candidates == [] then [] else CallsIn(m.candidates[0].parts);
    var texts := if m.candidates == [] then [] else TextsIn(m.candidates[0].parts);
    var finish :=
      if m.candidates == [] then "stop"
      else if calls != [] then "tool_calls"
      else NormalizeFinishReason(m.candidates[0].finishReason);
    Completion(FallbackString(m.id, freshId), FallbackString(m.modelVersion, requestModel),
               if calls != [] then None else Some(Join(texts, "\n")), calls, finish, ToUsage(m.usage))
  }

  method ToOpenAIResponse(requestModel: string, freshId: string, m: Response) returns (c: Completion)
    ensures c == CompletionOf(requestModel, freshId, m)
  {
    var finishReason := "stop";
    var toolCalls: seq<ToolCall>, content := [], Some("");
    if |m.candidates| > 0 {
      var candidate := m.candidates[0];
      finishReason := NormalizeFinishReason(candidate.finishReason);
      var textParts := [];
      for i := 0 to |candidate.parts|
        invariant toolCalls == CallsIn(candidate.parts[..i]) && textParts == TextsIn(candidate.parts[..i])
      {
        assert candidate.parts[..i + 1][..i] == candidate.parts[..i];
        var p := candidate.parts[i];
        if p.call.Some? {
          toolCalls := toolCalls + [ToolCall("call_" + p.call.value.name, p.call.value.name, p.call.value.args)];
        } else if !Blank(p.text) {
          textParts := textParts + [p.text];
        }
      }
      assert candidate.parts[..|candidate.parts|] == candidate.parts;
      if |toolCalls| > 0 {
        content := None;
        finishReason := "tool_calls";
      } else {
        content := Some(Join(textParts, "\n"));
      }
    }
    c := Completion(FallbackString(m.id, freshId), FallbackString(m.modelVersion, requestModel),
                    content, toolCalls, finishReason,
                    Usage(m.usage.prompt, m.usage.candidates, m.usage.total, 0, 0));
  }

  // ---------------------------------------------------------------------
  // The stream

  /** The locals of the translation loop. */
  datatype Translator = Translator(sentRole: bool, toolCallIdx: nat, model: string)

  datatype Translated = Translated(state: Translator, outs: seq<Out>)

  function ChunkOf(id: string, model: string, delta: Delta): Out {
    Chunk(StreamChunk(id, model, delta, None, None))
  }

  /** The chunk of one part, if it has one; a tool call is numbered idx. */
  function EmitPart(id: string, model: string, idx: nat, p: Part): seq<Out> {
    if p.call.Some? then
      var tc := ToToolCall(p.call.value);
      [ChunkOf(id, model, Delta("", None, [StreamToolCall(idx, tc.id, "function", tc.name, tc.arguments)]))]
    else if !Blank(p.text) then [ChunkOf(id, model, Delta("", Some(p.text), []))]
    else []
  }

  /** The chunks of a candidate's parts, tool calls numbered from idx. */
  function EmitParts(id: string, model: string, idx: nat, parts: seq<Part>): seq<Out> {
    if parts == [] then []
    else
      var init, p := parts[..|parts| - 1], parts[|parts| - 1];
      EmitParts(id, model, idx, init) + EmitPart(id, model, idx + |CallsIn(init)|, p)
  }

  function FinishChunk(id: string, t: Translator, finishReason: string, usage: UsageMetadata): Out {
    Chunk(StreamChunk(id, t.model, NO_DELTA,
      Some(if t.toolCallIdx > 0 then "tool_calls" else NormalizeFinishReason(finishReason)),
      if usage.total > 0 then Some(ToUsage(usage)) else None))
  }

  function React(id: string, t: Translator, r: Response): Translated {
    var model := if r.modelVersion != "" then r.modelVersion else t.model;
    if r.candidates == [] then Translated(t.(model := model), [])
    else
      var c := r.candidates[0];
      var role := if t.sentRole then [] else [ChunkOf(id, model, Delta("assistant", None, []))];
      var t' := Translator(true, t.toolCallIdx + |CallsIn(c.parts)|, model);
      var finish := if c.finishReason != "" then [FinishChunk(id, t', c.finishReason, r.usage)] else [];
      Translated(t', role + EmitParts(id, model, t.toolCallIdx, c.parts) + finish)
  }

  function Translate(id: string, requestModel: string, lines: seq<Line>): Translated {
    if lines == [] then Translated(Translator(false, 0, requestModel), [])
    else
      var before := Translate(id, requestModel, lines[..|lines| - 1]);
      match lines[|lines| - 1]
      case Skipped => before
      case Partial(r) =>
        var now := React(id, before.state, r);
        Translated(now.state, before.outs + now.outs)
  }

  lemma {:induction false} TranslateStep(id: string, requestModel: string, lines: seq<Line>, i: nat)
    requires i < |lines|
    ensures var before := Translate(id, requestModel, lines[..i]);
      Translate(id, requestModel, lines[..i + 1])
      == match lines[i]
         case Skipped => before
         case Partial(r) =>
           var now := React(id, before.state, r);
           Translated(now.state, before.outs + now.outs)
  {
    assert lines[..i + 1][..i] == lines[..i];
  }

  method TranslateGeminiStream(id: string, requestModel: string, lines: seq<Line>) returns (outs: seq<Out>)
    ensures outs == Translate(id, requestModel, lines).outs + [DoneMark]
  {
    var model, sentRole, toolCallIdx := requestModel, false, 0;
    outs := [];
    for i := 0 to |lines|
      invariant Translate(id, requestModel, lines[..i]) == Translated(Translator(sentRole, toolCallIdx, model), outs)
    {
      TranslateStep(id, requestModel, lines, i);
      if lines[i].Skipped? { continue; }
      var partial := lines[i].response;
      if partial.modelVersion != "" { model := partial.modelVersion; }
      if |partial.candidates| == 0 {
        assert outs + [] == outs;
        continue;
      }
      var candidate := partial.candidates[0];
      var role, parts, finish: seq<Out> := [], [], [];
      if !sentRole {
        sentRole := true;
        role := [ChunkOf(id, model, Delta("assistant", None, []))];
      }
      parts, toolCallIdx := DoEmitParts(id, model, toolCallIdx, candidate.parts);
      if candidate.finishReason != "" {
        var fr := NormalizeFinishReason(candidate.finishReason);
        if toolCallIdx > 0 { fr := "tool_calls"; }
        var usage := None;
        if partial.usage.total > 0 {
          usage := Some(Usage(partial.usage.prompt, partial.usage.candidates, partial.usage.total, 0, 0));
        }
        finish := [Chunk(StreamChunk(id, model, NO_DELTA, Some(fr), usage))];
      }
      outs := outs + (role + parts + finish);
    }
    assert lines[..|lines|] == lines;
    outs := outs + [DoneMark];
  }

  /** The inner loop over the parts of one candidate. */
  method DoEmitParts(id: string, model: string, first: nat, parts: seq<Part>) returns (outs: seq<Out>, toolCallIdx: nat)
    ensures outs == EmitParts(id, model, first, parts) && toolCallIdx == first + |CallsIn(parts)|
  {
    outs, toolCallIdx := [], first;
    for i := 0 to |parts|
      invariant outs == EmitParts(id, model, first, parts[..i]) && toolCallIdx == first + |CallsIn(parts[..i])|
    {
      assert parts[..i + 1][..i] == parts[..i];
      var part := parts[i];
      if part.call.Some? {
        var f := part.call.value;
        var tc := StreamToolCall(toolCallIdx, "call_" + f.name, "function", f.name, f.args);
        outs := outs + [ChunkOf(id, model, Delta("", None, [tc]))];
        toolCallIdx := toolCallIdx + 1;
      } else if !Blank(part.text) {
        outs := outs + [ChunkOf(id, model, Delta("", Some(part.text), []))];
      }
    }
    assert parts[..|parts|] == parts;
  }

  // ---------------------------------------------------------------------
  // Parts spread over partial responses

  /** The parts of the first candidates, merged. */
  function PartsOf(lines: seq<Line>): seq<Part> {
    if lines == [] then []
    else
      var before, l := PartsOf(lines[..|lines| - 1]), lines[|lines| - 1];
      if l.Partial? && l.response.candidates != [] then before + l.response.candidates[0].parts else before
  }

  /** The last model version named, if any. */
  function VersionOf(lines: seq<Line>): string {
    if lines == [] then ""
    else
      var l := lines[|lines| - 1];
      if l.Partial? && l.response.modelVersion != "" then l.response.modelVersion else VersionOf(lines[..|lines| - 1])
  }

  predicate Unfinished(l: Line) {
    l.Partial? && l.response.candidates != [] ==> l.response.candidates[0].finishReason == ""
  }

  /** The stream spreads m over partial responses; line k is the last of them and has the finish reason. */
  predicate Carries(lines: seq<Line>, k: nat, m: Response) {
    && k < |lines| && lines[k].Partial? && lines[k].response.candidates != [] && m.candidates != []
    && (forall i :: 0 <= i < k ==> Unfinished(lines[i]))
    && (forall i :: k < i < |lines| ==> lines[i].Skipped?)
    && lines[k].response.candidates[0].finishReason == m.candidates[0].finishReason != ""
    && m.candidates[0].parts == PartsOf(lines[..k + 1])
    && m.modelVersion == VersionOf(lines[..k + 1])
    && m.usage == lines[k].response.usage
  }

  lemma {:induction false} WithAfter(calls: seq<ToolCall>, calls': seq<ToolCall>, texts: seq<string>,
      texts': seq<string>, p: Part)
    ensures WithCall(calls + calls', p) == calls + WithCall(calls', p)
    ensures WithText(texts + texts', p) == texts + WithText(texts', p)
  {
    if p.call.Some? { Regroup(calls, calls', [ToToolCall(p.call.value)]); }
    if p.call.None? && !Blank(p.text) { Regroup(texts, texts', [p.text]); }
  }

  lemma {:induction false} MergedParts(a: seq<Part>, b: seq<Part>)
    ensures CallsIn(a + b) == CallsIn(a) + CallsIn(b)
    ensures TextsIn(a + b) == TextsIn(a) + TextsIn(b)
  {
    if b == [] {
      assert a + b == a;
      assert CallsIn(a) + [] == CallsIn(a) && TextsIn(a) + [] == TextsIn(a);
    } else {
      var init, p := b[..|b| - 1], b[|b| - 1];
      MergedParts(a, init);
      assert (a + b)[..|a + b| - 1] == a + init;
      WithAfter(CallsIn(a), CallsIn(init), TextsIn(a), TextsIn(init), p);
    }
  }

  /** A chunk before the finish: of this stream, with neither usage nor finish reason. */
  predicate PlainChunk(id: string, role: string, o: Out) {
    && o.Chunk? && o.chunk.id == id && o.chunk.usage == None && o.chunk.finish == None
    && o.chunk.delta.role == role
  }

  lemma {:induction false} PartIsAssembled(id: string, model: string, outs: seq<Out>, idx: nat, p: Part)
    ensures Assemble(outs).Some? && |Assemble(outs).value| == idx ==>
      Assemble(outs + EmitPart(id, model, idx, p))
      == Some(WithCall(Assemble(outs).value, p))
    ensures Contents(outs + EmitPart(id, model, idx, p)) == WithText(Contents(outs), p)
  {
    var emitted := EmitPart(id, model, idx, p);
    if emitted == [] {
      assert outs + emitted == outs;
    } else {
      AssembleOne(outs, emitted[0]);
      ContentsOne(outs, emitted[0]);
      assert emitted == [emitted[0]];
    }
  }

  /** Emitting parts adds their calls, if the numbering starts at the next free index, and their texts. */
  lemma {:induction false} PartsAreAssembled(id: string, model: string, outs: seq<Out>, calls: seq<ToolCall>,
      texts: seq<string>,
      parts: seq<Part>) returns (all: seq<Out>)
    requires Assemble(outs) == Some(calls) && Contents(outs) == texts
    ensures all == outs + EmitParts(id, model, |calls|, parts)
    ensures Assemble(all) == Some(calls + CallsIn(parts)) && Contents(all) == texts + TextsIn(parts)
  {
    if parts == [] {
      all := outs;
      assert outs + [] == outs && calls + [] == calls && texts + [] == texts;
    } else {
      var init, p := parts[..|parts| - 1], parts[|parts| - 1];
      var before := PartsAreAssembled(id, model, outs, calls, texts, init);
      all := OnePartMore(id, model, outs, EmitParts(id, model, |calls|, init), EmitParts(id, model, |calls|, parts),
                         before, calls, CallsIn(init), texts, TextsIn(init), p);
    }
  }

  lemma {:induction false} OnePartMore(id: string, model: string, outs: seq<Out>, emitted: seq<Out>, emitted': seq<Out>,
      before: seq<Out>, calls: seq<ToolCall>, calls': seq<ToolCall>, texts: seq<string>, texts': seq<string>, p: Part)
    returns (all: seq<Out>)
    requires before == outs + emitted && emitted' == emitted + EmitPart(id, model, |calls| + |calls'|, p)
    requires Assemble(before) == Some(calls + calls') && Contents(before) == texts + texts'
    ensures all == outs + emitted'
    ensures Assemble(all) == Some(calls + WithCall(calls', p)) && Contents(all) == texts + WithText(texts', p)
  {
    var next := EmitPart(id, model, |calls| + |calls'|, p);
    PartIsAssembled(id, model, before, |calls| + |calls'|, p);
    WithAfter(calls, calls', texts, texts', p);
    Regroup(outs, emitted, next);
    all := before + next;
  }

  lemma {:induction false} PartsArePlain(id: string, model: string, idx: nat, parts: seq<Part>)
    ensures forall o :: o in EmitParts(id, model, idx, parts) ==> PlainChunk(id, "", o) && o.chunk.model == model
  {
    if parts != [] { PartsArePlain(id, model, idx, parts[..|parts| - 1]); }
  }

  /** The role comes once and first, and nothing finishes the stream yet. */
  predicate OpenChunks(id: string, outs: seq<Out>) {
    forall i :: 0 <= i < |outs| ==> PlainChunk(id, if i == 0 then "assistant" else "", outs[i])
  }

  predicate AllFrom(model: string, outs: seq<Out>) {
    forall i :: 0 <= i < |outs| ==> outs[i].Chunk? && outs[i].chunk.model == model
  }

  /** What has been written and remembered, of these parts, before the finish reason comes. */
  predicate Open(id: string, requestModel: string, parts: seq<Part>, version: string, r: Translated) {
    && r.state.model == (if version == "" then requestModel else version)
    && r.state.toolCallIdx == |CallsIn(parts)|
    && Assemble(r.outs) == Some(CallsIn(parts))
    && Contents(r.outs) == TextsIn(parts)
    && (r.state.sentRole <==> r.outs != [])
    && OpenChunks(id, r.outs)
    && (version == "" ==> AllFrom(requestModel, r.outs))
  }

  /** The part of `React` that comes before the finish chunk. */
  function ReactOpen(id: string, t: Translator, r: Response): Translated {
    React(id, t, if r.candidates == [] then r else r.(candidates := [r.candidates[0].(finishReason := "")]))
  }

  /** The outputs so far, with the role chunk put in front if there are none yet. */
  function WithRole(id: string, model: string, outs: seq<Out>): seq<Out> {
    if outs != [] then outs else [ChunkOf(id, model, Delta("assistant", None, []))]
  }

  lemma {:induction false} RoleStep(id: string, model: string, outs: seq<Out>)
    requires OpenChunks(id, outs)
    ensures var outs' := WithRole(id, model, outs);
      && OpenChunks(id, outs') && outs' != []
      && Assemble(outs') == Assemble(outs) && Contents(outs') == Contents(outs)
      && (AllFrom(model, outs) ==> AllFrom(model, outs'))
  {
    if outs == [] {
      var o := ChunkOf(id, model, Delta("assistant", None, []));
      AssembleOne([], o);
      ContentsOne([], o);
      assert [] + [o] == [o];
    }
  }

  lemma {:induction false} PartsStep(id: string, model: string, outs: seq<Out>, idx: nat, parts: seq<Part>)
    requires OpenChunks(id, outs) && outs != []
    ensures var outs' := outs + EmitParts(id, model, idx, parts);
      OpenChunks(id, outs') && (AllFrom(model, outs) ==> AllFrom(model, outs'))
  {
    var emitted := EmitParts(id, model, idx, parts);
    PartsArePlain(id, model, idx, parts);
    forall i | |outs| <= i < |outs + emitted| ensures (outs + emitted)[i] in emitted { }
  }

  lemma {:induction false} ReactOpenIs(id: string, t: Translator, r: Response, outs: seq<Out>)
    requires r.candidates != [] && (t.sentRole <==> outs != [])
    ensures var now, parts := ReactOpen(id, t, r), r.candidates[0].parts;
      && outs + now.outs == WithRole(id, now.state.model, outs) + EmitParts(id, now.state.model, t.toolCallIdx, parts)
      && now.state == Translator(true, t.toolCallIdx + |CallsIn(parts)|,
                                 if r.modelVersion != "" then r.modelVersion else t.model)
  {
    var now := ReactOpen(id, t, r);
    var emitted := EmitParts(id, now.state.model, t.toolCallIdx, r.candidates[0].parts);
    assert now.outs == if t.sentRole then emitted else WithRole(id, now.state.model, []) + emitted;
  }

  lemma {:induction false} OpenStep(id: string, requestModel: string, parts: seq<Part>, version: string,
      r: Translated, p: Response)
    requires Open(id, requestModel, parts, version, r)
    ensures var now := ReactOpen(id, r.state, p);
      Open(id, requestModel,
           if p.candidates == [] then parts else parts + p.candidates[0].parts,
           if p.modelVersion != "" then p.modelVersion else version,
           Translated(now.state, r.outs + now.outs))
  {
    if p.candidates == [] {
      assert r.outs + ReactOpen(id, r.state, p).outs == r.outs;
    } else {
      var ps, model := p.candidates[0].parts, ReactOpen(id, r.state, p).state.model;
      var outs := WithRole(id, model, r.outs);
      RoleStep(id, model, r.outs);
      PartsStep(id, model, outs, r.state.toolCallIdx, ps);
      var all := PartsAreAssembled(id, model, outs, CallsIn(parts), TextsIn(parts), ps);
      MergedParts(parts, ps);
      ReactOpenIs(id, r.state, p, r.outs);
    }
  }

  lemma {:induction false} StaysOpen(id: string, requestModel: string, lines: seq<Line>)
    requires forall i :: 0 <= i < |lines| ==> Unfinished(lines[i])
    ensures Open(id, requestModel, PartsOf(lines), VersionOf(lines), Translate(id, requestModel, lines))
  {
    if lines != [] {
      var before, l := lines[..|lines| - 1], lines[|lines| - 1];
      var r := Translate(id, requestModel, before);
      StaysOpen(id, requestModel, before);
      if l.Partial? {
        OpenStep(id, requestModel, PartsOf(before), VersionOf(before), r, l.response);
        assert React(id, r.state, l.response) == ReactOpen(id, r.state, l.response);
      }
    }
  }

  lemma {:induction false} SkipsChangeNothing(id: string, requestModel: string, lines: seq<Line>, n: nat)
    requires n <= |lines| && forall i :: n <= i < |lines| ==> lines[i].Skipped?
    ensures Translate(id, requestModel, lines) == Translate(id, requestModel, lines[..n])
  {
    if n == |lines| {
      assert lines[..n] == lines;
    } else {
      var init := lines[..|lines| - 1];
      SkipsChangeNothing(id, requestModel, init, n);
      assert init[..n] == lines[..n];
    }
  }

  lemma {:induction false} ReactFinishes(id: string, t: Translator, r: Response)
    requires r.candidates != [] && r.candidates[0].finishReason != ""
    ensures var open := ReactOpen(id, t, r);
      React(id, t, r)
      == Translated(open.state, open.outs + [FinishChunk(id, open.state, r.candidates[0].finishReason, r.usage)])
  {
  }

  /** What has been written and remembered just before the finish chunk of line k. */
  function OpenAt(id: string, requestModel: string, lines: seq<Line>, k: nat): Translated
    requires k < |lines| && !lines[k].Skipped?
  {
    var r := Translate(id, requestModel, lines[..k]);
    var now := ReactOpen(id, r.state, lines[k].response);
    Translated(now.state, r.outs + now.outs)
  }

  lemma {:induction false} FinishesAt(id: string, requestModel: string, lines: seq<Line>, k: nat)
    requires k < |lines| && !lines[k].Skipped?
    requires lines[k].response.candidates != [] && lines[k].response.candidates[0].finishReason != ""
    ensures var open, p := OpenAt(id, requestModel, lines, k), lines[k].response;
      Translate(id, requestModel, lines[..k + 1])
      == Translated(open.state, open.outs + [FinishChunk(id, open.state, p.candidates[0].finishReason, p.usage)])
  {
    var r, p := Translate(id, requestModel, lines[..k]), lines[k].response;
    assert lines[..k + 1][..k] == lines[..k];
    var now := ReactOpen(id, r.state, p);
    ReactFinishes(id, r.state, p);
    Regroup(r.outs, now.outs, [FinishChunk(id, now.state, p.candidates[0].finishReason, p.usage)]);
  }

  lemma {:induction false} OpensAt(id: string, requestModel: string, lines: seq<Line>, k: nat, m: Response)
    requires Carries(lines, k, m)
    ensures var open := OpenAt(id, requestModel, lines, k);
      open.outs != [] && Open(id, requestModel, m.candidates[0].parts, m.modelVersion, open)
  {
    var before := lines[..k];
    assert lines[..k + 1][..k] == before;
    StaysOpen(id, requestModel, before);
    OpenStep(id, requestModel, PartsOf(before), VersionOf(before), Translate(id, requestModel, before),
             lines[k].response);
  }

  /** The stream of m: open chunks, then the finish chunk. */
  lemma {:induction false} Finishes(id: string, requestModel: string, lines: seq<Line>, k: nat, m: Response)
    returns (open: Translated)
    requires Carries(lines, k, m)
    ensures open.outs != [] && Open(id, requestModel, m.candidates[0].parts, m.modelVersion, open)
    ensures Translate(id, requestModel, lines).outs
         == open.outs + [FinishChunk(id, open.state, m.candidates[0].finishReason, m.usage)]
  {
    OpensAt(id, requestModel, lines, k, m);
    open := OpenAt(id, requestModel, lines, k);
    FinishesAt(id, requestModel, lines, k);
    SkipsChangeNothing(id, requestModel, lines, k + 1);
  }

  /** Open chunks with a finish chunk and the [DONE] mark behind them. */
  lemma {:induction false} Finished(id: string, outs: seq<Out>, last: Out, all: seq<Out>, finish: string)
    requires OpenChunks(id, outs) && outs != [] && all == outs + [last] + [DoneMark]
    requires last.Chunk? && last.chunk.delta == NO_DELTA && last.chunk.finish == Some(finish)
    ensures Complete(all) && |all| > 2 && LastFinish(all) == Some(finish)
    ensures Assemble(all) == Assemble(outs) && Contents(all) == Contents(outs)
    ensures forall i :: 0 <= i < |all| - 1 ==> all[i].chunk.delta.role == if i == 0 then "assistant" else ""
  {
    AssembleOne(outs, last);
    AssembleOne(outs + [last], DoneMark);
    ContentsOne(outs, last);
    ContentsOne(outs + [last], DoneMark);
    LastFinishAt(all, |outs|);
  }

  /**
   However the parts of m are spread, a client of the stream sees its tool calls and finish reason,
   the text deltas are the texts that the whole response keeps, the role comes once and first, and
   [DONE] once and last.
   */
  lemma {:induction false} SameAnswer(id: string, requestModel: string, lines: seq<Line>, k: nat, m: Response)
    requires Carries(lines, k, m)
    ensures var outs := Translate(id, requestModel, lines).outs + [DoneMark];
      var whole := CompletionOf(requestModel, id, m);
      && Complete(outs) && |outs| > 2
      && Assemble(outs) == Some(whole.toolCalls)
      && LastFinish(outs) == Some(whole.finish)
      && Contents(outs) == TextsIn(m.candidates[0].parts)
      && (forall i :: 0 <= i < |outs| - 1 ==> outs[i].chunk.delta.role == if i == 0 then "assistant" else "")
  {
    var open := Finishes(id, requestModel, lines, k, m);
    var last := FinishChunk(id, open.state, m.candidates[0].finishReason, m.usage);
    Finished(id, open.outs, last, open.outs + [last] + [DoneMark], CompletionOf(requestModel, id, m).finish);
  }

  /** The streamed text is the unstreamed content exactly when m has no tool call and at most one text that is kept. */
  lemma {:induction false} SameText(id: string, requestModel: string, lines: seq<Line>, k: nat, m: Response)
    requires Carries(lines, k, m)
    ensures var outs, parts := Translate(id, requestModel, lines).outs + [DoneMark], m.candidates[0].parts;
      CompletionOf(requestModel, id, m).content == Some(Join(Contents(outs), ""))
      <==> CallsIn(parts) == [] && |TextsIn(parts)| <= 1
  {
    SameAnswer(id, requestModel, lines, k, m);
    JoinLength(TextsIn(m.candidates[0].parts), "\n");
  }

  /** The model that the stream ends on. */
  function StreamedModel(requestModel: string, version: string): string {
    if version == "" then requestModel else version
  }

  /** What the meter reports for the stream of m. */
  predicate StreamReport(cfg: Config, requestModel: string, m: Response, report: Report) {
    var model := StreamedModel(requestModel, m.modelVersion);
    && report.estimated == (m.usage.total <= 0)
    && (m.usage.total > 0 ==>
          report == Report(if model == "" then cfg.initialModel else model,
                           Corrected(ToUsage(m.usage), cfg.visionEstimate), false))
  }

  lemma {:induction false} BillOfOuts(
    cfg: Config, encode: Encoder, requestModel: string, m: Response, outs: seq<Out>, last: Out, pieces: seq<Bytes>)
    requires Faithful(encode, cfg.decode)
    requires last.Chunk? && last.chunk.model == StreamedModel(requestModel, m.modelVersion)
    requires last.chunk.usage == if m.usage.total > 0 then Some(ToUsage(m.usage)) else None
    requires forall i :: 0 <= i < |outs| ==> outs[i].Chunk? && outs[i].chunk.usage == None
    requires m.modelVersion == "" ==> AllFrom(requestModel, outs)
    requires Concat(pieces) == Render(encode, outs + [last] + [DoneMark])
    requires |DataLine(encode, last)| <= MAX_LINE_BUF_SIZE
    ensures StreamReport(cfg, requestModel, m, BatchReport(cfg, Delivered(pieces)))
  {
    var all, p, model := outs + [last] + [DoneMark], |outs|, StreamedModel(requestModel, m.modelVersion);
    assert all[p] == last && forall i :: 0 <= i < p ==> all[i] == outs[i];
    assert Complete(all);
    if m.usage.total > 0 {
      assert SettledAt(all, p, ToUsage(m.usage), model);
      CompleteStreamBill(cfg, encode, all, p, ToUsage(m.usage), model, pieces);
    } else {
      UnsettledStreamBill(cfg, encode, all, pieces);
    }
  }

  /** The version is named, or the bill falls back to it anyway: the two ways of defaulting agree. */
  predicate SameDefault(requestModel: string, initialModel: string, version: string) {
    version == "" || !Blank(version) || version == (if requestModel == "" then initialModel else requestModel)
  }

  lemma {:induction false} CompareBills(cfg: Config, id: string, requestModel: string, m: Response, report: Report)
    requires StreamReport(cfg, requestModel, m, report)
    ensures report == MeterResponse(MetaOf(CompletionOf(requestModel, id, m)), cfg.visionEstimate, cfg.initialModel)
        <==> m.usage.total > 0 && SameDefault(requestModel, cfg.initialModel, m.modelVersion)
  {
    assert Blank("");
  }

  /**
   The bill: the streamed report equals the one of the whole response exactly when the total is
   positive and the model version is not a blank that only the whole response replaces.
   */
  lemma {:induction false} SameBill(
    cfg: Config, encode: Encoder, id: string, requestModel: string, lines: seq<Line>, k: nat, m: Response,
    es: seq<Event>, last: Event, more: seq<Event>)
    requires Faithful(encode, cfg.decode) && Carries(lines, k, m)
    requires var outs := Translate(id, requestModel, lines).outs;
      && Concat(Pieces(es + [last])) == Render(encode, outs + [DoneMark])
      && forall o :: o in outs && o.Chunk? && o.chunk.finish.Some? ==> |DataLine(encode, o)| <= MAX_LINE_BUF_SIZE
    requires (forall e :: e in es ==> !Ends(e)) && Ends(last)
    ensures Run(cfg, es + [last] + more).reports
         == [MeterResponse(MetaOf(CompletionOf(requestModel, id, m)), cfg.visionEstimate, cfg.initialModel)]
        <==> m.usage.total > 0 && SameDefault(requestModel, cfg.initialModel, m.modelVersion)
  {
    var open := Finishes(id, requestModel, lines, k, m);
    var finish := FinishChunk(id, open.state, m.candidates[0].finishReason, m.usage);
    assert finish in open.outs + [finish];
    OnDoneFiresOnce(cfg, es, last, more);
    BillOfOuts(cfg, encode, requestModel, m, open.outs, finish, Pieces(es + [last]));
    CompareBills(cfg, id, requestModel, m, BatchReport(cfg, Delivered(Pieces(es + [last]))));
  }

  // ---------------------------------------------------------------------
  // The answer in the response's own terms

  /** The calls among the first i parts. */
  function CallsBefore(parts: seq<Part>, i: nat): nat
    requires i <= |parts|
  {
    if i == 0 then 0 else CallsBefore(parts, i - 1) + (if parts[i - 1].call.Some? then 1 else 0)
  }

  /** The part is a text, and not one of white space only. */
  predicate IsText(p: Part) {
    p.call.None? && exists j :: 0 <= j < |p.text| && !IsSpace(p.text[j])
  }

  function TextsBefore(parts: seq<Part>, i: nat): nat
    requires i <= |parts|
  {
    if i == 0 then 0 else TextsBefore(parts, i - 1) + (if IsText(parts[i - 1]) then 1 else 0)
  }

  /** The texts of the first i parts, a newline before every one but the first. */
  function TextUpTo(parts: seq<Part>, i: nat): string
    requires i <= |parts|
  {
    if i == 0 then ""
    else if !IsText(parts[i - 1]) then TextUpTo(parts, i - 1)
    else if TextsBefore(parts, i - 1) == 0 then parts[i - 1].text
    else TextUpTo(parts, i - 1) + "\n" + parts[i - 1].text
  }

  lemma {:induction false} FirstParts(parts: seq<Part>, n: nat)
    requires n <= |parts|
    ensures |CallsIn(parts[..n])| == CallsBefore(parts, n) && |TextsIn(parts[..n])| == TextsBefore(parts, n)
    ensures Join(TextsIn(parts[..n]), "\n") == TextUpTo(parts, n)
  {
    if n > 0 {
      FirstParts(parts, n - 1);
      assert parts[..n][..n - 1] == parts[..n - 1];
      if IsText(parts[n - 1]) { JoinOn(TextsIn(parts[..n - 1]), parts[n - 1].text, "\n"); }
    }
  }

  /** Among these calls, number n is the one that part i asks for. */
  predicate CallStands(calls: seq<ToolCall>, n: nat, p: Part)
    requires p.call.Some?
  {
    && n < |calls| && calls[n].id == "call_" + p.call.value.name && calls[n].name == p.call.value.name
    && calls[n].arguments == p.call.value.args
  }

  lemma {:induction false} PartStands(parts: seq<Part>, n: nat, i: nat)
    requires i < n <= |parts|
    ensures parts[i].call.Some? ==> CallStands(CallsIn(parts[..n]), CallsBefore(parts, i), parts[i])
    ensures IsText(parts[i]) ==>
      TextsBefore(parts, i) < |TextsIn(parts[..n])| && TextsIn(parts[..n])[TextsBefore(parts, i)] == parts[i].text
  {
    FirstParts(parts, n - 1);
    assert parts[..n][..n - 1] == parts[..n - 1];
    if i < n - 1 { PartStands(parts, n - 1, i); }
  }

  /** The whole response: part i is a call, in its place and with its own name and arguments, or a text in its place. */
  lemma {:induction false} PartBecomes(requestModel: string, freshId: string, m: Response, i: nat)
    requires m.candidates != [] && i < |m.candidates[0].parts|
    ensures var parts, calls := m.candidates[0].parts, CompletionOf(requestModel, freshId, m).toolCalls;
      && |calls| == CallsBefore(parts, |parts|)
      && (parts[i].call.Some? ==> CallStands(calls, CallsBefore(parts, i), parts[i]))
    ensures var parts, texts := m.candidates[0].parts, TextsIn(m.candidates[0].parts);
      && |texts| == TextsBefore(parts, |parts|)
      && (IsText(parts[i]) ==> TextsBefore(parts, i) < |texts| && texts[TextsBefore(parts, i)] == parts[i].text)
  {
    var parts := m.candidates[0].parts;
    assert parts[..|parts|] == parts;
    FirstParts(parts, |parts|);
    PartStands(parts, |parts|, i);
  }

  /** The stream, however the parts are spread: a client assembles the same call, and reads the same text. */
  lemma {:induction false} PartIsStreamed(id: string, requestModel: string, lines: seq<Line>, k: nat, m: Response,
      i: nat)
    requires Carries(lines, k, m) && i < |m.candidates[0].parts|
    ensures var outs, parts := Translate(id, requestModel, lines).outs + [DoneMark], m.candidates[0].parts;
      && Assemble(outs).Some? && |Assemble(outs).value| == CallsBefore(parts, |parts|)
      && |Contents(outs)| == TextsBefore(parts, |parts|)
      && (parts[i].call.Some? ==> CallStands(Assemble(outs).value, CallsBefore(parts, i), parts[i]))
      && (IsText(parts[i]) ==>
            TextsBefore(parts, i) < |Contents(outs)| && Contents(outs)[TextsBefore(parts, i)] == parts[i].text)
  {
    SameAnswer(id, requestModel, lines, k, m);
    PartBecomes(requestModel, id, m, i);
  }

  /** A character that upper-casing turns into w, a capital letter or an underscore. */
  predicate IsForm(c: char, w: char) {
    c == w || ('A' <= w <= 'Z' && c == w - 'A' + 'a') || (w == 'I' && c == '\U{131}') || (w == 'S' && c == '\U{17F}')
  }

  /** The reason is this word, in whatever case. */
  predicate Spells(v: string, word: string) {
    |v| == |word| && forall i :: 0 <= i < |v| ==> IsForm(v[i], word[i])
  }

  predicate IsWord(word: string) {
    forall i :: 0 <= i < |word| ==> 'A' <= word[i] <= 'Z' || word[i] == '_'
  }

  lemma {:induction false} UpperSpells(v: string, word: string)
    requires IsWord(word)
    ensures ToUpper(v) == word <==> Spells(v, word)
  {
    if |v| == |word| {
      forall i | 0 <= i < |v|
        ensures ToUpper(v)[i] == word[i] <==> IsForm(v[i], word[i])
      {
      }
      if Spells(v, word) { assert ToUpper(v) == word; }
    }
  }

  predicate IsFiltered(v: string) {
    || Spells(v, "SAFETY") || Spells(v, "RECITATION") || Spells(v, "BLOCKLIST")
    || Spells(v, "PROHIBITED_CONTENT") || Spells(v, "SPII")
  }

  lemma {:induction false} ReasonInFull(v: string)
    ensures NormalizeFinishReason(v)
         == if Spells(v, "MAX_TOKENS") then "length" else if IsFiltered(v) then "content_filter" else "stop"
  {
    UpperSpells(v, "STOP");
    UpperSpells(v, "MAX_TOKENS");
    UpperSpells(v, "SAFETY");
    UpperSpells(v, "RECITATION");
    UpperSpells(v, "BLOCKLIST");
    UpperSpells(v, "PROHIBITED_CONTENT");
    UpperSpells(v, "SPII");
  }

  /** The completion, field by field. */
  lemma {:induction false} CompletionInFull(requestModel: string, freshId: string, m: Response)
    ensures var c := CompletionOf(requestModel, freshId, m);
      && c.usage.prompt == m.usage.prompt && c.usage.completion == m.usage.candidates && c.usage.total == m.usage.total
      && c.usage.cacheCreation == 0 && c.usage.cacheRead == 0
      && c.id == (if Blank(m.id) then freshId else m.id)
      && c.model == (if Blank(m.modelVersion) then requestModel else m.modelVersion)
    ensures m.candidates == [] ==>
      var c := CompletionOf(requestModel, freshId, m);
      c.finish == "stop" && c.content == Some("") && c.toolCalls == []
    ensures m.candidates != [] ==>
      var c := CompletionOf(requestModel, freshId, m);
      var parts, reason := m.candidates[0].parts, m.candidates[0].finishReason;
      if CallsBefore(parts, |parts|) > 0 then c.finish == "tool_calls" && c.content == None
      else
        && c.content == Some(TextUpTo(parts, |parts|))
        && c.finish == (if Spells(reason, "MAX_TOKENS") then "length"
                        else if IsFiltered(reason) then "content_filter" else "stop")
  {
    if m.candidates != [] {
      var parts := m.candidates[0].parts;
      assert parts[..|parts|] == parts;
      FirstParts(parts, |parts|);
      ReasonInFull(m.candidates[0].finishReason);
    }
  }

  /** The pieces of tool calls in a stream all have their type. */
  lemma {:induction false} PiecesAreFunctions(id: string, model: string, idx: nat, parts: seq<Part>, o: Out)
    requires o in EmitParts(id, model, idx, parts)
    ensures o.Chunk? && o.chunk.id == id && o.chunk.model == model && o.chunk.usage == None
    ensures forall tc :: tc in o.chunk.delta.toolCalls ==> tc.typ == "function"
  {
    if parts != [] && o in EmitParts(id, model, idx, parts[..|parts| - 1]) {
      PiecesAreFunctions(id, model, idx, parts[..|parts| - 1], o);
    }
  }

  /** The report, count by count. A vision estimate stands in for a prompt of 0 and makes the total anew. */
  predicate BilledInFull(cfg: Config, requestModel: string, m: Response, report: Report) {
    && !report.estimated
    && report.model == (if m.modelVersion != "" then m.modelVersion
                        else if requestModel != "" then requestModel else cfg.initialModel)
    && report.usage.completion == m.usage.candidates
    && report.usage.cacheCreation == 0 && report.usage.cacheRead == 0
    && (m.usage.prompt == 0 && cfg.visionEstimate > 0 ==>
          && report.usage.prompt == cfg.visionEstimate
          && report.usage.total == cfg.visionEstimate + m.usage.candidates)
    && (m.usage.prompt != 0 || cfg.visionEstimate <= 0 ==>
          report.usage.prompt == m.usage.prompt && report.usage.total == m.usage.total)
  }

  lemma {:induction false} StreamReportInFull(cfg: Config, requestModel: string, m: Response, report: Report)
    requires StreamReport(cfg, requestModel, m, report) && m.usage.total > 0
    ensures BilledInFull(cfg, requestModel, m, report)
  {
  }

  /** The bill of a stream with a positive total, in fields of the response it carries. */
  lemma {:induction false} BillInFull(
    cfg: Config, encode: Encoder, id: string, requestModel: string, lines: seq<Line>, k: nat, m: Response,
    es: seq<Event>, last: Event, more: seq<Event>)
    requires Faithful(encode, cfg.decode) && Carries(lines, k, m) && m.usage.total > 0
    requires var outs := Translate(id, requestModel, lines).outs;
      && Concat(Pieces(es + [last])) == Render(encode, outs + [DoneMark])
      && forall o :: o in outs && o.Chunk? && o.chunk.finish.Some? ==> |DataLine(encode, o)| <= MAX_LINE_BUF_SIZE
    requires (forall e :: e in es ==> !Ends(e)) && Ends(last)
    ensures |Run(cfg, es + [last] + more).reports| == 1
    ensures BilledInFull(cfg, requestModel, m, Run(cfg, es + [last] + more).reports[0])
  {
    var open := Finishes(id, requestModel, lines, k, m);
    var finish := FinishChunk(id, open.state, m.candidates[0].finishReason, m.usage);
    assert finish in open.outs + [finish];
    OnDoneFiresOnce(cfg, es, last, more);
    BillOfOuts(cfg, encode, requestModel, m, open.outs, finish, Pieces(es + [last]));
    StreamReportInFull(cfg, requestModel, m, BatchReport(cfg, Delivered(Pieces(es + [last]))));
  }
}
