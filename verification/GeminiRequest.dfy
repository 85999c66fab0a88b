/**
 internal/providers/gemini/transform.go, the request side: the system instruction and the contents that
 `toGeminiRequest` makes of the messages. Gemini knows a tool result by the function's name only, so the
 name is looked up by the call's id.
 */
module GeminiRequest {
  import ChatStream
  import opened Conversation
  import GeminiStream
  import opened Strings
  import opened Wrappers

  type ToolCall = ChatStream.ToolCall

  /** An image is what its URL becomes; `arguments` is the JSON text that a call's args are decoded from. */
  datatype Part =
    | TextPart(text: string)
    | InlinePart(data: string)
    | FunctionCallPart(name: string, arguments: string)
    | FunctionResponsePart(name: string, text: string)

  /** `imageURLToGeminiPart`, with the fetch: the image data, or an error. */
  type ImageReader = string -> Option<string>

  function IsResult(p: Part): bool { p.FunctionResponsePart? }

  // ---------------------------------------------------------------------
  // Names of calls

  function AllCalls(msgs: seq<Message>): seq<ToolCall> {
    if msgs == [] then [] else AllCalls(msgs[..|msgs| - 1]) + msgs[|msgs| - 1].toolCalls
  }

  /** The lookup table: a later call with the same id replaces an earlier one. */
  function NamesOf(calls: seq<ToolCall>): map<string, string> {
    if calls == [] then map[]
    else
      var last := calls[|calls| - 1];
      NamesOf(calls[..|calls| - 1])[last.id := last.name]
  }

  /** A Go map gives "" for a missing key. */
  function NameFor(names: map<string, string>, id: string): string {
    if id in names then names[id] else ""
  }

  method CollectNames(msgs: seq<Message>) returns (names: map<string, string>)
    ensures names == NamesOf(AllCalls(msgs))
  {
    names := map[];
    for i := 0 to |msgs|
      invariant names == NamesOf(AllCalls(msgs[..i]))
    {
      assert msgs[..i + 1][..i] == msgs[..i];
      names := AddNames(names, msgs[i].toolCalls, AllCalls(msgs[..i]));
    }
    assert msgs[..|msgs|] == msgs;
  }

  lemma {:induction false} OneMoreName(before: seq<ToolCall>, calls: seq<ToolCall>, j: nat)
    requires j < |calls|
    ensures NamesOf(before + calls[..j + 1]) == NamesOf(before + calls[..j])[calls[j].id := calls[j].name]
  {
    assert (before + calls[..j + 1])[..|before| + j] == before + calls[..j];
  }

  /** The inner loop: one message's calls. */
  method AddNames(names: map<string, string>, calls: seq<ToolCall>, ghost before: seq<ToolCall>)
    returns (names': map<string, string>)
    requires names == NamesOf(before)
    ensures names' == NamesOf(before + calls)
  {
    names' := names;
    assert before + calls[..0] == before;
    for j := 0 to |calls|
      invariant names' == NamesOf(before + calls[..j])
    {
      OneMoreName(before, calls, j);
      names' := names'[calls[j].id := calls[j].name];
    }
    assert calls[..|calls|] == calls;
  }

  // ---------------------------------------------------------------------
  // One message

  /** The texts of a content array; everything else in it is passed over. */
  function ItemTexts(items: seq<Item>): seq<string> {
    if items == [] then []
    else
      var before, last := ItemTexts(items[..|items| - 1]), items[|items| - 1];
      if last.TextItem? && last.text.Some? then before + [last.text.value] else before
  }

  /** `contentToText`. */
  function ContentToText(content: Content): Result<string, RequestError> {
    match content
    case Str(text) => Ok(text)
    case Arr(items) => Ok(ChatStream.Join(ItemTexts(items), "\n"))
    case Null => Ok("")
    case OtherContent => Err(BadContent)
  }

  /** A blank text gives no part. */
  function ToPart(image: ImageReader): ContentPart -> Result<Option<Part>, RequestError> {
    (p: ContentPart) =>
      if p.PlainText? then Ok(if Blank(p.text) then None else Some(TextPart(p.text)))
      else if image(p.url).Some? then Ok(Some(InlinePart(image(p.url).value)))
      else Err(BadImage)
  }

  function Present(parts: seq<Option<Part>>): seq<Part> {
    if parts == [] then []
    else
      var before, last := Present(parts[..|parts| - 1]), parts[|parts| - 1];
      if last.Some? then before + [last.value] else before
  }

  function UserParts(content: Content, image: ImageReader): Result<seq<Part>, RequestError> {
    match ContentParts(content)
    case Err(e) => Err(e)
    case Ok(parsed) =>
      match MapAll(ToPart(image), parsed)
      case Err(e) => Err(e)
      case Ok(parts) => Ok(Present(parts))
  }

  function FunctionCalls(calls: seq<ToolCall>): seq<Part> {
    if calls == [] then []
    else FunctionCalls(calls[..|calls| - 1]) + [FunctionCallPart(calls[|calls| - 1].name, calls[|calls| - 1].arguments)]
  }

  function AssistantParts(msg: Message): seq<Part> {
    var text := ContentToText(msg.content);
    (if text.Ok? && !Blank(text.value) then [TextPart(text.value)] else []) + FunctionCalls(msg.toolCalls)
  }

  function ResponseFor(names: map<string, string>, msg: Message): Part {
    FunctionResponsePart(NameFor(names, msg.toolCallId), ToolText(msg.content))
  }

  function PieceOf(names: map<string, string>, msg: Message, image: ImageReader): Result<Piece<Part>, RequestError> {
    match msg.role
    case System =>
      var text := ContentToText(msg.content);
      if text.Err? then Err(text.error) else Ok(Skip)
    case User =>
      var parts := UserParts(msg.content, image);
      if parts.Err? then Err(parts.error)
      else if parts.value == [] then Ok(Skip)
      else Ok(Whole(Turn(true, parts.value)))
    case Assistant =>
      if |msg.toolCalls| > 0 then Ok(Whole(Turn(false, AssistantParts(msg))))
      else
        var text := ContentToText(msg.content);
        if text.Err? then Err(text.error)
        else if Blank(text.value) then Ok(Skip)
        else Ok(Whole(Turn(false, [TextPart(text.value)])))
    case Tool => Ok(ToolResult(ResponseFor(names, msg)))
    case OtherRole => Err(UnsupportedRole)
  }

  function Reader(names: map<string, string>, image: ImageReader): Message -> Result<Piece<Part>, RequestError> {
    (m: Message) => PieceOf(names, m, image)
  }

  /** The system texts that are not blank. */
  function SystemTexts(msgs: seq<Message>): seq<string> {
    if msgs == [] then []
    else
      var before, last := SystemTexts(msgs[..|msgs| - 1]), msgs[|msgs| - 1];
      if last.role.System? && ContentToText(last.content).Ok? && !Blank(ContentToText(last.content).value)
      then before + [ContentToText(last.content).value] else before
  }

  datatype Prompt = Prompt(system: Option<string>, contents: seq<Turn<Part>>)

  function SystemOf(texts: seq<string>): Option<string> {
    if texts == [] then None else Some(ChatStream.Join(texts, "\n\n"))
  }

  function PromptOf(model: string, msgs: seq<Message>, image: ImageReader): Result<Prompt, RequestError> {
    if model == "" then Err(ModelRequired)
    else if msgs == [] then Err(MessagesRequired)
    else
      match MapAll(Reader(NamesOf(AllCalls(msgs)), image), msgs)
      case Err(e) => Err(e)
      case Ok(pieces) =>
        var contents := Coalesced(IsResult, pieces);
        if contents == [] then Err(NothingToSend) else Ok(Prompt(SystemOf(SystemTexts(msgs)), contents))
  }

  // ---------------------------------------------------------------------
  // The loops

  method UserContentToParts(content: Content, image: ImageReader) returns (r: Result<seq<Part>, RequestError>)
    ensures r == UserParts(content, image)
  {
    var parsed := ContentParts(content);
    if parsed.Err? { return Err(parsed.error); }
    var from, parts := parsed.value, [];
    for i := 0 to |from|
      invariant MapAll(ToPart(image), from[..i]).Ok?
      invariant parts == Present(MapAll(ToPart(image), from[..i]).value)
    {
      MapOneMore(ToPart(image), from, i);
      match from[i]
      case PlainText(text) =>
        if !Blank(text) { parts := parts + [TextPart(text)]; }
      case ImageUrl(url) =>
        var data := image(url);
        if data.None? {
          MapAllFails(ToPart(image), from, i + 1);
          return Err(BadImage);
        }
        parts := parts + [InlinePart(data.value)];
      ghost var now := MapAll(ToPart(image), from[..i + 1]).value;
      assert now[..|now| - 1] == MapAll(ToPart(image), from[..i]).value;
    }
    assert from[..|from|] == from;
    return Ok(parts);
  }

  method AssistantToParts(msg: Message) returns (parts: seq<Part>)
    ensures parts == AssistantParts(msg)
  {
    parts := [];
    var text := ContentToText(msg.content);
    if text.Ok? && !Blank(text.value) { parts := parts + [TextPart(text.value)]; }
    ghost var first := parts;
    for i := 0 to |msg.toolCalls|
      invariant parts == first + FunctionCalls(msg.toolCalls[..i])
    {
      var tc := msg.toolCalls[i];
      assert msg.toolCalls[..i + 1][..i] == msg.toolCalls[..i];
      parts := parts + [FunctionCallPart(tc.name, tc.arguments)];
    }
    assert msg.toolCalls[..|msg.toolCalls|] == msg.toolCalls;
  }

  /** One turn of the loop over the messages: the new system texts and contents, or the error. */
  method AddMessage(
      names: map<string, string>, msg: Message, image: ImageReader, texts: seq<string>, contents: seq<Turn<Part>>)
    returns (error: Option<RequestError>, texts': seq<string>, contents': seq<Turn<Part>>)
    ensures var piece := PieceOf(names, msg, image);
      if piece.Err? then error == Some(piece.error)
      else && error == None && contents' == Append(IsResult, contents, piece.value)
           && texts' == if msg.role.System? && !Blank(ContentToText(msg.content).value)
                        then texts + [ContentToText(msg.content).value] else texts
  {
    error, texts', contents' := None, texts, contents;
    match msg.role
    case System =>
      var text := ContentToText(msg.content);
      if text.Err? { return Some(text.error), texts, contents; }
      if !Blank(text.value) { texts' := texts' + [text.value]; }
    case User =>
      var parts := UserContentToParts(msg.content, image);
      if parts.Err? { return Some(parts.error), texts, contents; }
      if |parts.value| == 0 { return; }
      contents' := contents' + [Turn(true, parts.value)];
    case Assistant =>
      if |msg.toolCalls| > 0 {
        var parts := AssistantToParts(msg);
        contents' := contents' + [Turn(false, parts)];
      } else {
        var text := ContentToText(msg.content);
        if text.Err? { return Some(text.error), texts, contents; }
        if Blank(text.value) { return; }
        contents' := contents' + [Turn(false, [TextPart(text.value)])];
      }
    case Tool =>
      var part := FunctionResponsePart(NameFor(names, msg.toolCallId), ToolText(msg.content));
      var n, extend := |contents'|, false;
      if n > 0 && contents'[n - 1].user { extend := CheckAllResults(IsResult, contents'[n - 1].blocks); }
      if extend {
        contents' := contents'[n - 1 := Turn(true, contents'[n - 1].blocks + [part])];
      } else {
        contents' := contents' + [Turn(true, [part])];
      }
    case OtherRole =>
      return Some(UnsupportedRole), texts, contents;
  }

  lemma {:induction false} SystemOneMore(msgs: seq<Message>, i: nat)
    requires i < |msgs|
    ensures var before, text := SystemTexts(msgs[..i]), ContentToText(msgs[i].content);
      SystemTexts(msgs[..i + 1])
      == if msgs[i].role.System? && text.Ok? && !Blank(text.value) then before + [text.value] else before
  {
    assert msgs[..i + 1][..i] == msgs[..i];
  }

  /** The loop over the messages, up to the first error. */
  method ReadMessages(names: map<string, string>, msgs: seq<Message>, image: ImageReader)
    returns (error: Option<RequestError>, texts: seq<string>, contents: seq<Turn<Part>>)
    ensures var all := MapAll(Reader(names, image), msgs);
      if all.Err? then error == Some(all.error)
      else error == None && contents == Coalesced(IsResult, all.value) && texts == SystemTexts(msgs)
  {
    error, texts, contents := None, [], [];
    for i := 0 to |msgs|
      invariant MapAll(Reader(names, image), msgs[..i]).Ok? && error == None
      invariant contents == Coalesced(IsResult, MapAll(Reader(names, image), msgs[..i]).value)
      invariant texts == SystemTexts(msgs[..i])
    {
      MapOneMore(Reader(names, image), msgs, i);
      SystemOneMore(msgs, i);
      ghost var before := MapAll(Reader(names, image), msgs[..i]).value;
      error, texts, contents := AddMessage(names, msgs[i], image, texts, contents);
      if error.Some? {
        MapAllFails(Reader(names, image), msgs, i + 1);
        return;
      }
      CoalescedOn(IsResult, before, PieceOf(names, msgs[i], image).value);
    }
    assert msgs[..|msgs|] == msgs;
  }

  method ToGeminiRequest(model: string, msgs: seq<Message>, image: ImageReader)
    returns (r: Result<Prompt, RequestError>)
    ensures r == PromptOf(model, msgs, image)
  {
    if model == "" { return Err(ModelRequired); }
    if |msgs| == 0 { return Err(MessagesRequired); }
    var names := CollectNames(msgs);
    var error, texts, contents := ReadMessages(names, msgs, image);
    if error.Some? { return Err(error.value); }
    if |contents| == 0 { return Err(NothingToSend); }
    if |texts| == 0 { return Ok(Prompt(None, contents)); }
    return Ok(Prompt(Some(ChatStream.Join(texts, "\n\n")), contents));
  }

  // ---------------------------------------------------------------------
  // What the request keeps of the messages

  predicate NoResults(parts: seq<Part>) {
    forall i :: 0 <= i < |parts| ==> !parts[i].FunctionResponsePart?
  }

  lemma {:induction false} PartsAreNoResults(from: seq<ContentPart>, image: ImageReader)
    requires MapAll(ToPart(image), from).Ok?
    ensures NoResults(Present(MapAll(ToPart(image), from).value))
  {
    if from == [] {
      assert Present(MapAll(ToPart(image), from).value) == [];
    } else {
      var before := from[..|from| - 1];
      PartsAreNoResults(before, image);
      var all := MapAll(ToPart(image), from).value;
      var last := ToPart(image)(from[|from| - 1]).value;
      assert last.Some? ==> !IsResult(last.value);
      assert all == MapAll(ToPart(image), before).value + [last];
      assert all[..|all| - 1] == MapAll(ToPart(image), before).value;
      var was := Present(MapAll(ToPart(image), before).value);
      assert NoResults(was);
      assert Present(all) == if last.Some? then was + [last.value] else was;
    }
  }

  lemma {:induction false} CallsAreNoResults(calls: seq<ToolCall>)
    ensures NoResults(FunctionCalls(calls))
  {
    if calls != [] { CallsAreNoResults(calls[..|calls| - 1]); }
  }

  lemma {:induction false} PieceResults(names: map<string, string>, msg: Message, image: ImageReader)
    requires PieceOf(names, msg, image).Ok?
    ensures SoundPiece(IsResult, PieceOf(names, msg, image).value)
    ensures Among(IsResult, BlocksOf(PieceOf(names, msg, image).value))
         == if msg.role.Tool? then [ResponseFor(names, msg)] else []
  {
    var parts := BlocksOf(PieceOf(names, msg, image).value);
    match msg.role
    case Tool =>
      OneAmong(IsResult, ResponseFor(names, msg));
    case User =>
      PartsAreNoResults(ContentParts(msg.content).value, image);
      assert parts == UserParts(msg.content, image).value;
      assert parts == Present(MapAll(ToPart(image), ContentParts(msg.content).value).value);
      NoneAmong(IsResult, parts);
      assert parts != [] ==> !IsResult(parts[0]);
    case _ =>
      CallsAreNoResults(msg.toolCalls);
      NoneAmong(IsResult, parts);
  }

  /** The function responses that a conversation calls for: one for each tool message. */
  function ResponsesFor(names: map<string, string>, msgs: seq<Message>): seq<Part> {
    if msgs == [] then []
    else
      var before, last := ResponsesFor(names, msgs[..|msgs| - 1]), msgs[|msgs| - 1];
      if last.role.Tool? then before + [ResponseFor(names, last)] else before
  }

  lemma {:induction false} PiecesAreSound(names: map<string, string>, msgs: seq<Message>, image: ImageReader)
    requires MapAll(Reader(names, image), msgs).Ok?
    ensures Sound(IsResult, MapAll(Reader(names, image), msgs).value)
  {
    if msgs != [] {
      PiecesAreSound(names, msgs[..|msgs| - 1], image);
      PieceResults(names, msgs[|msgs| - 1], image);
    }
  }

  lemma {:induction false} PiecesKeepResponses(names: map<string, string>, msgs: seq<Message>, image: ImageReader)
    requires MapAll(Reader(names, image), msgs).Ok?
    ensures Among(IsResult, AllBlocks(MapAll(Reader(names, image), msgs).value)) == ResponsesFor(names, msgs)
  {
    if msgs != [] {
      var n := |msgs| - 1;
      PiecesKeepResponses(names, msgs[..n], image);
      var before, piece := MapAll(Reader(names, image), msgs[..n]).value, PieceOf(names, msgs[n], image).value;
      BlocksOn(before, piece);
      AmongOn(IsResult, AllBlocks(before), BlocksOf(piece));
      PieceResults(names, msgs[n], image);
    }
  }

  /**
   A request that is accepted has the contents of the batch form: skipped messages dropped, every maximal
   run of tool messages merged into one user content. The parts are those of the messages in order, each
   tool message has exactly one function response, and no two adjacent contents hold only responses.
   */
  lemma {:induction false} AcceptedRequest(model: string, msgs: seq<Message>, image: ImageReader)
    requires PromptOf(model, msgs, image).Ok?
    ensures MapAll(Reader(NamesOf(AllCalls(msgs)), image), msgs).Ok?
    ensures var names := NamesOf(AllCalls(msgs));
      var pieces, contents := MapAll(Reader(names, image), msgs).value, PromptOf(model, msgs, image).value.contents;
      && contents == Runs(Kept(pieces)) && contents != []
      && Flatten(contents) == AllBlocks(pieces)
      && Among(IsResult, Flatten(contents)) == ResponsesFor(names, msgs)
      && Separated(IsResult, contents)
  {
    var names := NamesOf(AllCalls(msgs));
    var pieces := MapAll(Reader(names, image), msgs).value;
    PiecesAreSound(names, msgs, image);
    PiecesKeepResponses(names, msgs, image);
    CoalescingIsBatch(IsResult, pieces);
    OrderIsKept(IsResult, pieces);
    ResultsAreMerged(IsResult, pieces);
  }

  // ---------------------------------------------------------------------
  // The right names

  /** No id stands for two functions. */
  predicate IdsAreNames(calls: seq<ToolCall>) {
    forall i, j :: 0 <= i < |calls| && 0 <= j < |calls| && calls[i].id == calls[j].id ==> calls[i].name == calls[j].name
  }

  /** The lookup gives every call its function's name. */
  predicate LooksUpRight(calls: seq<ToolCall>) {
    forall i :: 0 <= i < |calls| ==> NameFor(NamesOf(calls), calls[i].id) == calls[i].name
  }

  /** Some call with this id is to this function. */
  predicate Names(calls: seq<ToolCall>, id: string, name: string) {
    exists i :: 0 <= i < |calls| && calls[i].id == id && calls[i].name == name
  }

  /** What is looked up is the name of some call with the id, and every call's id is found. */
  lemma {:induction false} LookupFinds(calls: seq<ToolCall>)
    ensures forall id :: id in NamesOf(calls) ==> Names(calls, id, NamesOf(calls)[id])
    ensures forall i :: 0 <= i < |calls| ==> calls[i].id in NamesOf(calls)
  {
    if calls != [] {
      var n := |calls| - 1;
      LookupFinds(calls[..n]);
      assert Names(calls, calls[n].id, calls[n].name);
      forall id | id in NamesOf(calls) && id != calls[n].id
        ensures Names(calls, id, NamesOf(calls)[id])
      {
        var i :| 0 <= i < n && calls[..n][i].id == id && calls[..n][i].name == NamesOf(calls)[id];
        assert calls[i].id == id;
      }
      forall i | 0 <= i < n
        ensures calls[i].id in NamesOf(calls)
      {
        assert calls[..n][i].id in NamesOf(calls[..n]);
      }
    }
  }

  /** The lookup is right exactly when no id is used for two functions. */
  lemma {:induction false} LookupIsRightExactly(calls: seq<ToolCall>)
    ensures LooksUpRight(calls) <==> IdsAreNames(calls)
  {
    LookupFinds(calls);
    if IdsAreNames(calls) {
      forall i | 0 <= i < |calls|
        ensures NameFor(NamesOf(calls), calls[i].id) == calls[i].name
      {
        var j :| 0 <= j < |calls| && calls[j].id == calls[i].id && calls[j].name == NamesOf(calls)[calls[i].id];
      }
    }
  }

  /** A tool message whose id no call has goes back under an empty name. */
  lemma {:induction false} UnknownHasNoName(calls: seq<ToolCall>, id: string)
    requires forall i :: 0 <= i < |calls| ==> calls[i].id != id
    ensures NameFor(NamesOf(calls), id) == ""
  {
    if calls != [] { UnknownHasNoName(calls[..|calls| - 1], id); }
  }

  /** Any other goes back under the name of the last call with its id. */
  lemma {:induction false} LastCallNames(calls: seq<ToolCall>, i: nat)
    requires i < |calls| && forall j :: i < j < |calls| ==> calls[j].id != calls[i].id
    ensures calls[i].id in NamesOf(calls) && NameFor(NamesOf(calls), calls[i].id) == calls[i].name
  {
    var n := |calls| - 1;
    if i < n {
      assert calls[..n][i] == calls[i];
      LastCallNames(calls[..n], i);
    }
  }

  /** Every assistant message's calls are those of a Gemini response, as `toOpenAIResponse` gave them out. */
  ghost predicate CallsFromGemini(msgs: seq<Message>) {
    forall k :: 0 <= k < |msgs| ==> FromGemini(msgs[k].toolCalls)
  }

  ghost predicate FromGemini(calls: seq<ToolCall>) {
    exists parts :: calls == GeminiStream.CallsIn(parts)
  }

  predicate HasGeminiIds(calls: seq<ToolCall>) {
    forall i :: 0 <= i < |calls| ==> calls[i].id == GeminiStream.CallId(calls[i].name)
  }

  lemma {:induction false} GeminiIds(parts: seq<GeminiStream.Part>)
    ensures HasGeminiIds(GeminiStream.CallsIn(parts))
  {
    if parts != [] { GeminiIds(parts[..|parts| - 1]); }
  }

  lemma {:induction false} ConversationIds(msgs: seq<Message>)
    requires CallsFromGemini(msgs)
    ensures HasGeminiIds(AllCalls(msgs))
  {
    if msgs != [] {
      var n := |msgs| - 1;
      ConversationIds(msgs[..n]);
      var parts :| msgs[n].toolCalls == GeminiStream.CallsIn(parts);
      GeminiIds(parts);
    }
  }

  lemma {:induction false} SameIdSameName(a: string, b: string)
    requires GeminiStream.CallId(a) == GeminiStream.CallId(b)
    ensures a == b
  {
    assert GeminiStream.CallId(a)[5..] == a && GeminiStream.CallId(b)[5..] == b;
  }

  /**
   The round trip: when the calls of a conversation came from Gemini, every tool message for one of them,
   in whatever order and however often a function was called, goes back under that function's name.
   */
  lemma {:induction false} NamesComeBack(model: string, msgs: seq<Message>, image: ImageReader, k: nat, i: nat)
    requires CallsFromGemini(msgs) && PromptOf(model, msgs, image).Ok?
    requires k < |msgs| && msgs[k].role.Tool? && i < |AllCalls(msgs)| && msgs[k].toolCallId == AllCalls(msgs)[i].id
    ensures var response := FunctionResponsePart(AllCalls(msgs)[i].name, ToolText(msgs[k].content));
      && response == ResponseFor(NamesOf(AllCalls(msgs)), msgs[k])
      && response in Among(IsResult, Flatten(PromptOf(model, msgs, image).value.contents))
  {
    var calls := AllCalls(msgs);
    ConversationIds(msgs);
    forall a, b | 0 <= a < |calls| && 0 <= b < |calls| && calls[a].id == calls[b].id
      ensures calls[a].name == calls[b].name
    {
      SameIdSameName(calls[a].name, calls[b].name);
    }
    LookupIsRightExactly(calls);
    AcceptedRequest(model, msgs, image);
    ResponseIncluded(NamesOf(calls), msgs, k);
  }

  lemma {:induction false} ResponseIncluded(names: map<string, string>, msgs: seq<Message>, k: nat)
    requires k < |msgs| && msgs[k].role.Tool?
    ensures ResponseFor(names, msgs[k]) in ResponsesFor(names, msgs)
  {
    if k < |msgs| - 1 { ResponseIncluded(names, msgs[..|msgs| - 1], k); }
  }

  // ---------------------------------------------------------------------
  // The messages in their own terms

  /** The texts that text items have; other items are passed over. */
  function HasText(item: Item): bool { item.TextItem? && item.text.Some? }

  function TextItemsBefore(items: seq<Item>, i: nat): nat
    requires i <= |items|
  {
    if i == 0 then 0 else TextItemsBefore(items, i - 1) + (if HasText(items[i - 1]) then 1 else 0)
  }

  lemma {:induction false} ItemTextsInFull(items: seq<Item>, n: nat)
    requires n <= |items|
    ensures |ItemTexts(items[..n])| == TextItemsBefore(items, n)
    ensures forall i :: 0 <= i < n && HasText(items[i]) ==>
      TextItemsBefore(items, i) < |ItemTexts(items[..n])|
      && ItemTexts(items[..n])[TextItemsBefore(items, i)] == items[i].text.value
  {
    if n > 0 {
      ItemTextsInFull(items, n - 1);
      assert items[..n][..n - 1] == items[..n - 1];
    }
  }

  /** The text of a content: whatever texts an array has, a newline between any two. */
  lemma {:induction false} TextInFull(content: Content)
    ensures content.Str? ==> ContentToText(content) == Ok(content.text)
    ensures content.Null? ==> ContentToText(content) == Ok("")
    ensures content.OtherContent? ==> ContentToText(content) == Err(BadContent)
    ensures content.Arr? ==>
      var items := content.items;
      exists texts ::
        && ContentToText(content) == Ok(ChatStream.Join(texts, "\n")) && |texts| == TextItemsBefore(items, |items|)
        && forall i :: 0 <= i < |items| && HasText(items[i]) ==>
             TextItemsBefore(items, i) < |texts| && texts[TextItemsBefore(items, i)] == items[i].text.value
  {
    if content.Arr? {
      var items := content.items;
      assert items[..|items|] == items;
      ItemTextsInFull(items, |items|);
    }
  }

  /** The parts of a user's content that stay: images, and texts that are not blank. */
  predicate Stays(part: ContentPart) {
    part.ImageUrl? || !Blank(part.text)
  }

  function StayingBefore(parts: seq<ContentPart>, i: nat): nat
    requires i <= |parts|
  {
    if i == 0 then 0 else StayingBefore(parts, i - 1) + (if Stays(parts[i - 1]) then 1 else 0)
  }

  predicate IsPartOf(from: ContentPart, part: Part, image: ImageReader) {
    match from
    case PlainText(text) => part.TextPart? && part.text == text
    case ImageUrl(url) => image(url).Some? && part.InlinePart? && part.data == image(url).value
  }

  lemma {:induction false} PresentInFull(parts: seq<ContentPart>, image: ImageReader, n: nat, i: nat)
    requires i < n <= |parts| && MapAll(ToPart(image), parts[..n]).Ok? && Stays(parts[i])
    ensures var present := Present(MapAll(ToPart(image), parts[..n]).value);
      && StayingBefore(parts, i) < |present| && IsPartOf(parts[i], present[StayingBefore(parts, i)], image)
  {
    var before := parts[..n - 1];
    assert parts[..n][..n - 1] == before;
    MapOneMore(ToPart(image), parts, n - 1);
    PresentOn(MapAll(ToPart(image), before).value, ToPart(image)(parts[n - 1]).value);
    PresentCount(parts, image, n - 1);
    if i < n - 1 { PresentInFull(parts, image, n - 1, i); }
  }

  lemma {:induction false} PresentOn(parts: seq<Option<Part>>, last: Option<Part>)
    ensures Present(parts + [last]) == Present(parts) + if last.Some? then [last.value] else []
  {
    assert (parts + [last])[..|parts|] == parts;
  }

  lemma {:induction false} PresentCount(parts: seq<ContentPart>, image: ImageReader, n: nat)
    requires n <= |parts| && MapAll(ToPart(image), parts[..n]).Ok?
    ensures |Present(MapAll(ToPart(image), parts[..n]).value)| == StayingBefore(parts, n)
  {
    if n > 0 {
      var before := parts[..n - 1];
      assert parts[..n][..n - 1] == before;
      MapOneMore(ToPart(image), parts, n - 1);
      PresentOn(MapAll(ToPart(image), before).value, ToPart(image)(parts[n - 1]).value);
      PresentCount(parts, image, n - 1);
    }
  }

  /** A user's message is a user's turn of the parts that stay, each in its place; without any it is skipped. */
  lemma {:induction false} UserInFull(names: map<string, string>, msg: Message, image: ImageReader, i: nat)
    requires msg.role.User? && PieceOf(names, msg, image).Ok?
    ensures ContentParts(msg.content).Ok?
    ensures var parts, piece := ContentParts(msg.content).value, PieceOf(names, msg, image).value;
      && (piece.Skip? <==> StayingBefore(parts, |parts|) == 0)
      && (!piece.Skip? ==> piece.Whole? && piece.turn.user && |piece.turn.blocks| == StayingBefore(parts, |parts|))
      && (i < |parts| && Stays(parts[i]) ==>
            && piece.Whole? && StayingBefore(parts, i) < |piece.turn.blocks|
            && IsPartOf(parts[i], piece.turn.blocks[StayingBefore(parts, i)], image))
  {
    var parts := ContentParts(msg.content).value;
    assert parts[..|parts|] == parts;
    PresentCount(parts, image, |parts|);
    if i < |parts| && Stays(parts[i]) { PresentInFull(parts, image, |parts|, i); }
  }

  /** It is refused exactly for content that is not parts, or an image that cannot be read. */
  lemma {:induction false} UserRefused(names: map<string, string>, msg: Message, image: ImageReader)
    requires msg.role.User?
    ensures var parts, piece := ContentParts(msg.content), PieceOf(names, msg, image);
      && (piece.Ok? <==> parts.Ok? && forall i :: 0 <= i < |parts.value| && parts.value[i].ImageUrl? ==>
                                        image(parts.value[i].url).Some?)
      && (piece.Err? ==> piece.error == if parts.Err? then BadContent else BadImage)
  {
    PartsInFull(msg.content);
    if ContentParts(msg.content).Ok? {
      MapAllInFull(ToPart(image), ContentParts(msg.content).value);
      OnlyError(ToPart(image), ContentParts(msg.content).value, BadImage);
    }
  }

  lemma {:induction false} FunctionCallsInFull(calls: seq<ToolCall>, j: nat)
    requires j < |calls|
    ensures |FunctionCalls(calls)| == |calls|
    ensures var part := FunctionCalls(calls)[j];
      part.FunctionCallPart? && part.name == calls[j].name && part.arguments == calls[j].arguments
  {
    var n := |calls| - 1;
    FunctionCallsCount(calls[..n]);
    if j < n { FunctionCallsInFull(calls[..n], j); }
  }

  lemma {:induction false} FunctionCallsCount(calls: seq<ToolCall>)
    ensures |FunctionCalls(calls)| == |calls|
  {
    if calls != [] { FunctionCallsCount(calls[..|calls| - 1]); }
  }

  /** An assistant's calls are one model turn: the text first, unless blank, and a part for each call. */
  lemma {:induction false} CallsInFull(names: map<string, string>, msg: Message, image: ImageReader, j: nat)
    requires msg.role.Assistant? && j < |msg.toolCalls|
    ensures var piece := PieceOf(names, msg, image);
      piece.Ok? && piece.value.Whole? && !piece.value.turn.user
    ensures var text, parts := ContentToText(msg.content), PieceOf(names, msg, image).value.turn.blocks;
      var first := if text.Ok? && !Blank(text.value) then 1 else 0;
      && |parts| == first + |msg.toolCalls|
      && (first == 1 ==> parts[0] == TextPart(text.value))
      && var part, call := parts[first + j], msg.toolCalls[j];
         part.FunctionCallPart? && part.name == call.name && part.arguments == call.arguments
  {
    FunctionCallsInFull(msg.toolCalls, j);
  }

  /** Any other message; a response goes under the name that the lookup has for its id. */
  lemma {:induction false} OthersInFull(names: map<string, string>, msg: Message, image: ImageReader)
    ensures msg.role.Tool? ==>
      var piece := PieceOf(names, msg, image);
      && piece.Ok? && piece.value.ToolResult? && piece.value.block.FunctionResponsePart?
      && piece.value.block.name == (if msg.toolCallId in names then names[msg.toolCallId] else "")
      && piece.value.block.text == if msg.content.Str? then msg.content.text else ""
    ensures msg.role.System? ==>
      PieceOf(names, msg, image) == match ContentToText(msg.content) case Ok(_) => Ok(Skip) case Err(e) => Err(e)
    ensures msg.role.Assistant? && msg.toolCalls == [] ==>
      PieceOf(names, msg, image)
      == match ContentToText(msg.content)
         case Ok(text) => Ok(if Blank(text) then Skip else Whole(Turn(false, [TextPart(text)])))
         case Err(e) => Err(e)
    ensures msg.role.OtherRole? ==> PieceOf(names, msg, image) == Err(UnsupportedRole)
  {
  }

  /** A system message with a text that is not blank. */
  predicate IsSystemText(msg: Message) {
    msg.role.System? && ContentToText(msg.content).Ok? && !Blank(ContentToText(msg.content).value)
  }

  function SystemsBefore(msgs: seq<Message>, i: nat): nat
    requires i <= |msgs|
  {
    if i == 0 then 0 else SystemsBefore(msgs, i - 1) + (if IsSystemText(msgs[i - 1]) then 1 else 0)
  }

  lemma {:induction false} SystemsStand(msgs: seq<Message>, n: nat)
    requires n <= |msgs|
    ensures |SystemTexts(msgs[..n])| == SystemsBefore(msgs, n)
    ensures forall i :: 0 <= i < n && IsSystemText(msgs[i]) ==>
      && SystemsBefore(msgs, i) < |SystemTexts(msgs[..n])|
      && SystemTexts(msgs[..n])[SystemsBefore(msgs, i)] == ContentToText(msgs[i].content).value
  {
    if n > 0 {
      SystemsStand(msgs, n - 1);
      assert msgs[..n][..n - 1] == msgs[..n - 1];
    }
  }

  /** Each of them stands in its place among the system texts. */
  lemma {:induction false} SystemInFull(msgs: seq<Message>, i: nat)
    requires i < |msgs| && IsSystemText(msgs[i])
    ensures |SystemTexts(msgs)| == SystemsBefore(msgs, |msgs|) && SystemsBefore(msgs, i) < |SystemTexts(msgs)|
    ensures SystemTexts(msgs)[SystemsBefore(msgs, i)] == ContentToText(msgs[i].content).value
    ensures SystemOf(SystemTexts(msgs)) == Some(ChatStream.Join(SystemTexts(msgs), "\n\n"))
  {
    assert msgs[..|msgs|] == msgs;
    SystemsStand(msgs, |msgs|);
  }

  /** Without one there is no instruction. */
  lemma {:induction false} NoInstruction(msgs: seq<Message>)
    requires forall i :: 0 <= i < |msgs| ==> !IsSystemText(msgs[i])
    ensures SystemOf(SystemTexts(msgs)) == None
  {
    if msgs != [] { NoInstruction(msgs[..|msgs| - 1]); }
  }

  /** When a request is refused, and why. */
  lemma {:induction false} RefusedInFull(model: string, msgs: seq<Message>, image: ImageReader)
    ensures model == "" ==> PromptOf(model, msgs, image) == Err(ModelRequired)
    ensures model != "" && msgs == [] ==> PromptOf(model, msgs, image) == Err(MessagesRequired)
    ensures model != "" && msgs != [] ==>
      var names := NamesOf(AllCalls(msgs));
      && (forall i :: 0 <= i < |msgs| && PieceOf(names, msgs[i], image).Err?
                      && (forall j :: 0 <= j < i ==> PieceOf(names, msgs[j], image).Ok?) ==>
            PromptOf(model, msgs, image) == Err(PieceOf(names, msgs[i], image).error))
      && ((forall i :: 0 <= i < |msgs| ==> PieceOf(names, msgs[i], image) == Ok(Skip)) ==>
            PromptOf(model, msgs, image) == Err(NothingToSend))
  {
    var names := NamesOf(AllCalls(msgs));
    forall i | 0 <= i < |msgs| && PieceOf(names, msgs[i], image).Err?
               && (forall j :: 0 <= j < i ==> PieceOf(names, msgs[j], image).Ok?)
      ensures MapAll(Reader(names, image), msgs) == Err(PieceOf(names, msgs[i], image).error)
    {
      FirstError(Reader(names, image), msgs, i);
    }
    if forall i :: 0 <= i < |msgs| ==> PieceOf(names, msgs[i], image) == Ok(Skip) {
      MapAllInFull(Reader(names, image), msgs);
      NothingCoalesced(MapAll(Reader(names, image), msgs).value);
    }
  }

  lemma {:induction false} NothingCoalesced(pieces: seq<Piece<Part>>)
    requires forall i :: 0 <= i < |pieces| ==> pieces[i].Skip?
    ensures Coalesced(IsResult, pieces) == []
  {
    if pieces != [] { NothingCoalesced(pieces[..|pieces| - 1]); }
  }
}
