/**
 internal/providers/anthropic/transform.go, the request side: the system text and the turns that
 `toAnthropicRequest` makes of the messages.
 */
module AnthropicRequest {
  import ChatStream
  import opened Conversation
  import opened Strings
  import opened Wrappers

  /** An image is what its URL becomes; `arguments` is the JSON text that a tool's input is decoded from. */
  datatype Block =
    | TextBlock(text: string)
    | ImageBlock(source: string)
    | ToolUseBlock(id: string, name: string, arguments: string)
    | ToolResultBlock(id: string, text: string)

  /** `imageURLToAnthropicBlock`: the image source, or an error. */
  type ImageReader = string -> Option<string>

  function IsResult(b: Block): bool { b.ToolResultBlock? }

  // ---------------------------------------------------------------------
  // One message

  function ItemText(item: Item): Result<string, RequestError> {
    if item.TextItem? then Ok(if item.text.Some? then item.text.value else "") else Err(BadContent)
  }

  /** `openAIContentToText`. */
  function ContentToText(content: Content): Result<string, RequestError> {
    match content
    case Str(text) => Ok(text)
    case Arr(items) =>
      (match MapAll(ItemText, items)
       case Err(e) => Err(e)
       case Ok(texts) => Ok(ChatStream.Join(texts, "\n")))
    case Null => Ok("")
    case OtherContent => Err(BadContent)
  }

  function ToBlock(image: ImageReader): ContentPart -> Result<Block, RequestError> {
    (p: ContentPart) =>
      if p.PlainText? then Ok(TextBlock(p.text))
      else if image(p.url).Some? then Ok(ImageBlock(image(p.url).value))
      else Err(BadImage)
  }

  function UserBlocks(content: Content, image: ImageReader): Result<seq<Block>, RequestError> {
    match ContentParts(content)
    case Err(e) => Err(e)
    case Ok(parts) => if parts == [] then Ok([TextBlock("")]) else MapAll(ToBlock(image), parts)
  }

  function ToolUse(tc: ChatStream.ToolCall): Block { ToolUseBlock(tc.id, tc.name, tc.arguments) }

  function ToolUses(calls: seq<ChatStream.ToolCall>): seq<Block> {
    if calls == [] then [] else ToolUses(calls[..|calls| - 1]) + [ToolUse(calls[|calls| - 1])]
  }

  function AssistantBlocks(msg: Message): seq<Block> {
    var text := ContentToText(msg.content);
    (if text.Ok? && text.value != "" then [TextBlock(text.value)] else []) + ToolUses(msg.toolCalls)
  }

  function PieceOf(msg: Message, image: ImageReader): Result<Piece<Block>, RequestError> {
    match msg.role
    case System =>
      var text := ContentToText(msg.content);
      if text.Err? then Err(text.error) else Ok(Skip)
    case Assistant =>
      if |msg.toolCalls| > 0 then Ok(Whole(Turn(false, AssistantBlocks(msg))))
      else
        var text := ContentToText(msg.content);
        if text.Err? then Err(text.error)
        else if Blank(text.value) then Ok(Skip)
        else Ok(Whole(Turn(false, [TextBlock(text.value)])))
    case User =>
      var blocks := UserBlocks(msg.content, image);
      if blocks.Err? then Err(blocks.error) else Ok(Whole(Turn(true, blocks.value)))
    case Tool => Ok(ToolResult(ToolResultBlock(msg.toolCallId, ToolText(msg.content))))
    case OtherRole => Err(UnsupportedRole)
  }

  function Reader(image: ImageReader): Message -> Result<Piece<Block>, RequestError> {
    (m: Message) => PieceOf(m, image)
  }

  function AddSystem(system: string, text: string): string {
    if system == "" then text else if text != "" then system + "\n\n" + text else system
  }

  /** The system text that the loop accumulates. */
  function SystemText(msgs: seq<Message>): string {
    if msgs == [] then ""
    else
      var before, last := SystemText(msgs[..|msgs| - 1]), msgs[|msgs| - 1];
      if last.role.System? && ContentToText(last.content).Ok? then AddSystem(before, ContentToText(last.content).value)
      else before
  }

  datatype Prompt = Prompt(system: string, turns: seq<Turn<Block>>)

  function PromptOf(model: string, msgs: seq<Message>, image: ImageReader): Result<Prompt, RequestError> {
    if model == "" then Err(ModelRequired)
    else if msgs == [] then Err(MessagesRequired)
    else
      match MapAll(Reader(image), msgs)
      case Err(e) => Err(e)
      case Ok(pieces) =>
        var turns := Coalesced(IsResult, pieces);
        if turns == [] then Err(NothingToSend) else Ok(Prompt(SystemText(msgs), turns))
  }

  // ---------------------------------------------------------------------
  // The loops

  method UserContentToBlocks(content: Content, image: ImageReader) returns (r: Result<seq<Block>, RequestError>)
    ensures r == UserBlocks(content, image)
  {
    var parsed := ContentParts(content);
    if parsed.Err? { return Err(parsed.error); }
    var parts := parsed.value;
    if |parts| == 0 { return Ok([TextBlock("")]); }
    var blocks := [];
    for i := 0 to |parts|
      invariant MapAll(ToBlock(image), parts[..i]) == Ok(blocks)
    {
      assert parts[..i + 1][..i] == parts[..i];
      match parts[i]
      case PlainText(text) => blocks := blocks + [TextBlock(text)];
      case ImageUrl(url) =>
        var source := image(url);
        if source.None? {
          MapAllFails(ToBlock(image), parts, i + 1);
          return Err(BadImage);
        }
        blocks := blocks + [ImageBlock(source.value)];
    }
    assert parts[..|parts|] == parts;
    return Ok(blocks);
  }

  method AssistantToBlocks(msg: Message) returns (blocks: seq<Block>)
    ensures blocks == AssistantBlocks(msg)
  {
    blocks := [];
    var text := ContentToText(msg.content);
    if text.Ok? && text.value != "" { blocks := blocks + [TextBlock(text.value)]; }
    ghost var first := blocks;
    for i := 0 to |msg.toolCalls|
      invariant blocks == first + ToolUses(msg.toolCalls[..i])
    {
      var tc := msg.toolCalls[i];
      assert msg.toolCalls[..i + 1][..i] == msg.toolCalls[..i];
      blocks := blocks + [ToolUseBlock(tc.id, tc.name, tc.arguments)];
    }
    assert msg.toolCalls[..|msg.toolCalls|] == msg.toolCalls;
  }

  /** One turn of the loop over the messages: the new system text and turns, or the error. */
  method AddMessage(msg: Message, image: ImageReader, system: string, turns: seq<Turn<Block>>)
    returns (error: Option<RequestError>, system': string, turns': seq<Turn<Block>>)
    ensures var piece := PieceOf(msg, image);
      if piece.Err? then error == Some(piece.error)
      else && error == None && turns' == Append(IsResult, turns, piece.value)
           && system' == if msg.role.System? then AddSystem(system, ContentToText(msg.content).value) else system
  {
    error, system', turns' := None, system, turns;
    match msg.role
    case System =>
      var text := ContentToText(msg.content);
      if text.Err? { return Some(text.error), system, turns; }
      if system' == "" {
        system' := text.value;
      } else if text.value != "" {
        system' := system' + "\n\n" + text.value;
      }
    case Assistant =>
      if |msg.toolCalls| > 0 {
        var blocks := AssistantToBlocks(msg);
        turns' := turns' + [Turn(false, blocks)];
      } else {
        var text := ContentToText(msg.content);
        if text.Err? { return Some(text.error), system, turns; }
        if Blank(text.value) { return; }
        turns' := turns' + [Turn(false, [TextBlock(text.value)])];
      }
    case User =>
      var blocks := UserContentToBlocks(msg.content, image);
      if blocks.Err? { return Some(blocks.error), system, turns; }
      turns' := turns' + [Turn(true, blocks.value)];
    case Tool =>
      var block := ToolResultBlock(msg.toolCallId, ToolText(msg.content));
      var n, extend := |turns'|, false;
      if n > 0 && turns'[n - 1].user { extend := CheckAllResults(IsResult, turns'[n - 1].blocks); }
      if extend {
        turns' := turns'[n - 1 := Turn(true, turns'[n - 1].blocks + [block])];
      } else {
        turns' := turns' + [Turn(true, [block])];
      }
    case OtherRole =>
      return Some(UnsupportedRole), system, turns;
  }

  lemma {:induction false} SystemOneMore(msgs: seq<Message>, i: nat)
    requires i < |msgs|
    ensures var before, text := SystemText(msgs[..i]), ContentToText(msgs[i].content);
      SystemText(msgs[..i + 1]) == if msgs[i].role.System? && text.Ok? then AddSystem(before, text.value) else before
  {
    assert msgs[..i + 1][..i] == msgs[..i];
  }

  method ToAnthropicRequest(model: string, msgs: seq<Message>, image: ImageReader)
    returns (r: Result<Prompt, RequestError>)
    ensures r == PromptOf(model, msgs, image)
  {
    if model == "" { return Err(ModelRequired); }
    if |msgs| == 0 { return Err(MessagesRequired); }
    var system, turns := "", [];
    for i := 0 to |msgs|
      invariant MapAll(Reader(image), msgs[..i]).Ok?
      invariant turns == Coalesced(IsResult, MapAll(Reader(image), msgs[..i]).value)
      invariant system == SystemText(msgs[..i])
    {
      MapOneMore(Reader(image), msgs, i);
      SystemOneMore(msgs, i);
      ghost var before := MapAll(Reader(image), msgs[..i]).value;
      var error;
      error, system, turns := AddMessage(msgs[i], image, system, turns);
      if error.Some? {
        MapAllFails(Reader(image), msgs, i + 1);
        return Err(error.value);
      }
      CoalescedOn(IsResult, before, PieceOf(msgs[i], image).value);
    }
    assert msgs[..|msgs|] == msgs;
    if |turns| == 0 { return Err(NothingToSend); }
    return Ok(Prompt(system, turns));
  }

  // ---------------------------------------------------------------------
  // What the request keeps of the messages

  lemma {:induction false} BlocksAreNoResults(parts: seq<ContentPart>, image: ImageReader)
    requires MapAll(ToBlock(image), parts).Ok?
    ensures var blocks := MapAll(ToBlock(image), parts).value;
      |blocks| == |parts| && forall i :: 0 <= i < |blocks| ==> !IsResult(blocks[i])
  {
    if parts != [] { BlocksAreNoResults(parts[..|parts| - 1], image); }
  }

  lemma {:induction false} PieceIsSound(msg: Message, image: ImageReader)
    requires PieceOf(msg, image).Ok?
    ensures SoundPiece(IsResult, PieceOf(msg, image).value)
  {
    if msg.role.User? {
      var parts := ContentParts(msg.content).value;
      if parts != [] { BlocksAreNoResults(parts, image); }
      assert !IsResult(UserBlocks(msg.content, image).value[0]);
    }
  }

  lemma {:induction false} PiecesAreSound(msgs: seq<Message>, image: ImageReader)
    requires MapAll(Reader(image), msgs).Ok?
    ensures Sound(IsResult, MapAll(Reader(image), msgs).value)
  {
    if msgs != [] {
      PiecesAreSound(msgs[..|msgs| - 1], image);
      PieceIsSound(msgs[|msgs| - 1], image);
    }
  }

  /** The tool results that a conversation calls for: one for each tool message. */
  function ResultsFor(msgs: seq<Message>): seq<Block> {
    if msgs == [] then []
    else
      var before, last := ResultsFor(msgs[..|msgs| - 1]), msgs[|msgs| - 1];
      if last.role.Tool? then before + [ToolResultBlock(last.toolCallId, ToolText(last.content))] else before
  }

  lemma {:induction false} ToolUsesAreNoResults(calls: seq<ChatStream.ToolCall>)
    ensures forall i :: 0 <= i < |ToolUses(calls)| ==> !IsResult(ToolUses(calls)[i])
  {
    if calls != [] { ToolUsesAreNoResults(calls[..|calls| - 1]); }
  }

  lemma {:induction false} PieceResults(msg: Message, image: ImageReader)
    requires PieceOf(msg, image).Ok?
    ensures Among(IsResult, BlocksOf(PieceOf(msg, image).value))
         == if msg.role.Tool? then [ToolResultBlock(msg.toolCallId, ToolText(msg.content))] else []
  {
    var blocks := BlocksOf(PieceOf(msg, image).value);
    match msg.role
    case Tool =>
      OneAmong(IsResult, blocks[0]);
    case User =>
      var parts := ContentParts(msg.content).value;
      if parts != [] { BlocksAreNoResults(parts, image); }
      NoneAmong(IsResult, blocks);
    case _ =>
      ToolUsesAreNoResults(msg.toolCalls);
      NoneAmong(IsResult, blocks);
  }

  lemma {:induction false} ResultsInOrder(msgs: seq<Message>, image: ImageReader)
    requires MapAll(Reader(image), msgs).Ok?
    ensures Among(IsResult, AllBlocks(MapAll(Reader(image), msgs).value)) == ResultsFor(msgs)
  {
    if msgs != [] {
      var n := |msgs| - 1;
      ResultsInOrder(msgs[..n], image);
      var before, piece := MapAll(Reader(image), msgs[..n]).value, PieceOf(msgs[n], image).value;
      BlocksOn(before, piece);
      AmongOn(IsResult, AllBlocks(before), BlocksOf(piece));
      PieceResults(msgs[n], image);
    }
  }

  /**
   A request that is accepted has the turns of the batch form: skipped messages dropped, every maximal run
   of tool messages merged into one user turn. The blocks are those of the messages in order, each tool
   message has exactly one result block, and no two adjacent turns hold only tool results.
   */
  lemma {:induction false} AcceptedRequest(model: string, msgs: seq<Message>, image: ImageReader)
    requires PromptOf(model, msgs, image).Ok?
    ensures MapAll(Reader(image), msgs).Ok?
    ensures var pieces, turns := MapAll(Reader(image), msgs).value, PromptOf(model, msgs, image).value.turns;
      && turns == Runs(Kept(pieces)) && turns != []
      && Flatten(turns) == AllBlocks(pieces)
      && Among(IsResult, Flatten(turns)) == ResultsFor(msgs)
      && Separated(IsResult, turns)
  {
    var pieces := MapAll(Reader(image), msgs).value;
    PiecesAreSound(msgs, image);
    CoalescingIsBatch(IsResult, pieces);
    OrderIsKept(IsResult, pieces);
    ResultsAreMerged(IsResult, pieces);
    ResultsInOrder(msgs, image);
  }

  /** The system texts that are not empty. */
  function SystemTexts(msgs: seq<Message>): seq<string> {
    if msgs == [] then []
    else
      var before, last := SystemTexts(msgs[..|msgs| - 1]), msgs[|msgs| - 1];
      if last.role.System? && ContentToText(last.content).Ok? && ContentToText(last.content).value != ""
      then before + [ContentToText(last.content).value] else before
  }

  lemma {:induction false} JoinNonEmpty(parts: seq<string>, sep: string)
    requires forall i :: 0 <= i < |parts| ==> parts[i] != ""
    ensures ChatStream.Join(parts, sep) == "" <==> parts == []
  {
  }

  /** The accumulated system text is the non-empty texts with a blank line between them. */
  lemma {:induction false} SystemIsJoined(msgs: seq<Message>)
    ensures SystemText(msgs) == ChatStream.Join(SystemTexts(msgs), "\n\n")
    ensures forall i :: 0 <= i < |SystemTexts(msgs)| ==> SystemTexts(msgs)[i] != ""
  {
    if msgs != [] {
      var before, last := msgs[..|msgs| - 1], msgs[|msgs| - 1];
      SystemIsJoined(before);
      JoinNonEmpty(SystemTexts(before), "\n\n");
      if last.role.System? && ContentToText(last.content).Ok? {
        ChatStream.JoinOn(SystemTexts(before), ContentToText(last.content).value, "\n\n");
      }
    }
  }

  // ---------------------------------------------------------------------
  // The messages in their own terms

  function TextsOf(items: seq<Item>): seq<string> {
    seq(|items|, i requires 0 <= i < |items| =>
      if items[i].TextItem? && items[i].text.Some? then items[i].text.value else "")
  }

  /** The text of a content: an array of text items only, a newline between any two. */
  lemma {:induction false} TextInFull(content: Content)
    ensures content.Str? ==> ContentToText(content) == Ok(content.text)
    ensures content.Null? ==> ContentToText(content) == Ok("")
    ensures content.OtherContent? ==> ContentToText(content) == Err(BadContent)
    ensures content.Arr? ==>
      if forall i :: 0 <= i < |content.items| ==> content.items[i].TextItem?
      then ContentToText(content) == Ok(ChatStream.Join(TextsOf(content.items), "\n"))
      else ContentToText(content) == Err(BadContent)
  {
    if content.Arr? {
      var items := content.items;
      MapAllInFull(ItemText, items);
      if MapAll(ItemText, items).Ok? { assert MapAll(ItemText, items).value == TextsOf(items); }
      OnlyError(ItemText, items, BadContent);
    }
  }

  lemma {:induction false} ToolUsesInFull(calls: seq<ChatStream.ToolCall>, j: nat)
    requires j < |calls|
    ensures |ToolUses(calls)| == |calls|
    ensures var block := ToolUses(calls)[j];
      block.ToolUseBlock? && block.id == calls[j].id
      && block.name == calls[j].name && block.arguments == calls[j].arguments
  {
    var n := |calls| - 1;
    ToolUsesCount(calls[..n]);
    if j < n { ToolUsesInFull(calls[..n], j); }
  }

  lemma {:induction false} ToolUsesCount(calls: seq<ChatStream.ToolCall>)
    ensures |ToolUses(calls)| == |calls|
  {
    if calls != [] { ToolUsesCount(calls[..|calls| - 1]); }
  }

  /** The block that a part of a user's content becomes. */
  predicate IsBlock(part: ContentPart, block: Block, image: ImageReader) {
    match part
    case PlainText(text) => block.TextBlock? && block.text == text
    case ImageUrl(url) => image(url).Some? && block.ImageBlock? && block.source == image(url).value
  }

  /** A user's message is a user's turn, block by block; an empty one has an empty text. */
  lemma {:induction false} UserInFull(msg: Message, image: ImageReader)
    requires msg.role.User?
    ensures var parts, piece := ContentParts(msg.content), PieceOf(msg, image);
      && (piece.Ok? <==> parts.Ok? && forall i :: 0 <= i < |parts.value| && parts.value[i].ImageUrl? ==>
                                        image(parts.value[i].url).Some?)
      && (piece.Err? ==> piece.error == if parts.Err? then BadContent else BadImage)
      && (piece.Ok? ==> piece.value.Whole? && piece.value.turn.user)
      && (piece.Ok? && parts.value == [] ==> piece.value.turn.blocks == [TextBlock("")])
      && (piece.Ok? && parts.value != [] ==>
            var blocks := piece.value.turn.blocks;
            |blocks| == |parts.value| && forall i :: 0 <= i < |blocks| ==> IsBlock(parts.value[i], blocks[i], image))
  {
    PartsInFull(msg.content);
    if ContentParts(msg.content).Ok? {
      MapAllInFull(ToBlock(image), ContentParts(msg.content).value);
      OnlyError(ToBlock(image), ContentParts(msg.content).value, BadImage);
    }
  }

  /** An assistant's calls are one turn: the text first, if there is one, and a block for each call. */
  lemma {:induction false} CallsInFull(msg: Message, image: ImageReader, j: nat)
    requires msg.role.Assistant? && j < |msg.toolCalls|
    ensures PieceOf(msg, image).Ok? && PieceOf(msg, image).value.Whole? && !PieceOf(msg, image).value.turn.user
    ensures var text, blocks := ContentToText(msg.content), PieceOf(msg, image).value.turn.blocks;
      var first := if text.Ok? && text.value != "" then 1 else 0;
      && |blocks| == first + |msg.toolCalls|
      && (first == 1 ==> blocks[0] == TextBlock(text.value))
      && var block, call := blocks[first + j], msg.toolCalls[j];
         block.ToolUseBlock? && block.id == call.id && block.name == call.name && block.arguments == call.arguments
  {
    ToolUsesInFull(msg.toolCalls, j);
  }

  /** Any other message. */
  lemma {:induction false} OthersInFull(msg: Message, image: ImageReader)
    ensures msg.role.Tool? ==>
      var piece := PieceOf(msg, image);
      && piece.Ok? && piece.value.ToolResult? && piece.value.block.ToolResultBlock?
      && piece.value.block.id == msg.toolCallId
      && piece.value.block.text == if msg.content.Str? then msg.content.text else ""
    ensures msg.role.System? ==>
      PieceOf(msg, image) == match ContentToText(msg.content) case Ok(_) => Ok(Skip) case Err(e) => Err(e)
    ensures msg.role.Assistant? && msg.toolCalls == [] ==>
      PieceOf(msg, image)
      == match ContentToText(msg.content)
         case Ok(text) => Ok(if Blank(text) then Skip else Whole(Turn(false, [TextBlock(text)])))
         case Err(e) => Err(e)
    ensures msg.role.OtherRole? ==> PieceOf(msg, image) == Err(UnsupportedRole)
  {
  }

  /** A system message with a text that is not empty. */
  predicate IsSystemText(msg: Message) {
    msg.role.System? && ContentToText(msg.content).Ok? && ContentToText(msg.content).value != ""
  }

  function SystemsBefore(msgs: seq<Message>, i: nat): nat
    requires i <= |msgs|
  {
    if i == 0 then 0 else SystemsBefore(msgs, i - 1) + (if IsSystemText(msgs[i - 1]) then 1 else 0)
  }

  lemma {:induction false} SystemsStand(msgs: seq<Message>, n: nat)
    requires n <= |msgs|
    ensures |SystemTexts(msgs[..n])| == SystemsBefore(msgs, n)
    ensures forall i :: 0 <= i < n && IsSystemText(msgs[i]) ==>
      && SystemsBefore(msgs, i) < |SystemTexts(msgs[..n])|
      && SystemTexts(msgs[..n])[SystemsBefore(msgs, i)] == ContentToText(msgs[i].content).value
  {
    if n > 0 {
      SystemsStand(msgs, n - 1);
      assert msgs[..n][..n - 1] == msgs[..n - 1];
    }
  }

  /** Each of them stands in its place among the system texts. */
  lemma {:induction false} SystemInFull(msgs: seq<Message>, i: nat)
    requires i < |msgs| && IsSystemText(msgs[i])
    ensures |SystemTexts(msgs)| == SystemsBefore(msgs, |msgs|) && SystemsBefore(msgs, i) < |SystemTexts(msgs)|
    ensures SystemTexts(msgs)[SystemsBefore(msgs, i)] == ContentToText(msgs[i].content).value
  {
    assert msgs[..|msgs|] == msgs;
    SystemsStand(msgs, |msgs|);
  }

  /** When a request is refused, and why. */
  lemma {:induction false} RefusedInFull(model: string, msgs: seq<Message>, image: ImageReader)
    ensures model == "" ==> PromptOf(model, msgs, image) == Err(ModelRequired)
    ensures model != "" && msgs == [] ==> PromptOf(model, msgs, image) == Err(MessagesRequired)
    ensures model != "" && msgs != [] ==>
      && (forall i :: 0 <= i < |msgs| && PieceOf(msgs[i], image).Err?
                      && (forall j :: 0 <= j < i ==> PieceOf(msgs[j], image).Ok?) ==>
            PromptOf(model, msgs, image) == Err(PieceOf(msgs[i], image).error))
      && ((forall i :: 0 <= i < |msgs| ==> PieceOf(msgs[i], image) == Ok(Skip)) ==>
            PromptOf(model, msgs, image) == Err(NothingToSend))
  {
    forall i | 0 <= i < |msgs| && PieceOf(msgs[i], image).Err?
               && (forall j :: 0 <= j < i ==> PieceOf(msgs[j], image).Ok?)
      ensures MapAll(Reader(image), msgs) == Err(PieceOf(msgs[i], image).error)
    {
      FirstError(Reader(image), msgs, i);
    }
    if forall i :: 0 <= i < |msgs| ==> PieceOf(msgs[i], image) == Ok(Skip) {
      MapAllInFull(Reader(image), msgs);
      NothingCoalesced(MapAll(Reader(image), msgs).value);
    }
  }

  lemma {:induction false} NothingCoalesced(pieces: seq<Piece<Block>>)
    requires forall i :: 0 <= i < |pieces| ==> pieces[i].Skip?
    ensures Coalesced(IsResult, pieces) == []
  {
    if pieces != [] { NothingCoalesced(pieces[..|pieces| - 1]); }
  }
}
