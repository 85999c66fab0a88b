/**
 The messages of an OpenAI-format chat request, and what both adapters do with tool results: consecutive
 ones go into one user turn, extended in place while the conversation is walked through.
 */
module Conversation {
  import ChatStream
  import opened Wrappers

  /** An item of a content array; a text item may lack its text. */
  datatype Item = TextItem(text: Option<string>) | ImageItem(url: string) | OtherItem | NotAnObject

  /** The JSON value of a message's content. */
  datatype Content = Str(text: string) | Arr(items: seq<Item>) | Null | OtherContent

  datatype Role = System | User | Assistant | Tool | OtherRole

  datatype Message = Message(role: Role, content: Content, toolCalls: seq<ChatStream.ToolCall>, toolCallId: string)

  datatype RequestError =
    | ModelRequired | MessagesRequired | BadContent | BadImage | UnsupportedRole | NothingToSend

  /** A result with the tool message's text; content that is not a string counts as empty. */
  function ToolText(content: Content): string {
    if content.Str? then content.text else ""
  }

  // ---------------------------------------------------------------------
  // Content parts

  datatype ContentPart = PlainText(text: string) | ImageUrl(url: string)

  function ParseItem(item: Item): Result<ContentPart, RequestError> {
    match item
    case TextItem(text) => Ok(PlainText(if text.Some? then text.value else ""))
    case ImageItem(url) => Ok(ImageUrl(url))
    case _ => Err(BadContent)
  }

  /** Each element converted, or the first error. */
  function MapAll<A, B>(f: A -> Result<B, RequestError>, xs: seq<A>): Result<seq<B>, RequestError> {
    if xs == [] then Ok([])
    else
      match MapAll(f, xs[..|xs| - 1])
      case Err(e) => Err(e)
      case Ok(ys) =>
        match f(xs[|xs| - 1])
        case Err(e) => Err(e)
        case Ok(y) => Ok(ys + [y])
  }

  lemma {:induction false} MapOneMore<A, B>(f: A -> Result<B, RequestError>, xs: seq<A>, i: nat)
    requires i < |xs| && MapAll(f, xs[..i]).Ok?
    ensures MapAll(f, xs[..i + 1])
         == if f(xs[i]).Err? then Err(f(xs[i]).error) else Ok(MapAll(f, xs[..i]).value + [f(xs[i]).value])
  {
    assert xs[..i + 1][..i] == xs[..i];
  }

  lemma {:induction false} MapAllFails<A, B>(f: A -> Result<B, RequestError>, xs: seq<A>, n: nat)
    requires n <= |xs| && MapAll(f, xs[..n]).Err?
    ensures MapAll(f, xs) == MapAll(f, xs[..n])
  {
    if n == |xs| {
      assert xs[..n] == xs;
    } else {
      assert xs[..|xs| - 1][..n] == xs[..n];
      MapAllFails(f, xs[..|xs| - 1], n);
    }
  }

  /** `ParseContentParts`. */
  function ContentParts(content: Content): Result<seq<ContentPart>, RequestError> {
    match content
    case Str(text) => Ok([PlainText(text)])
    case Arr(items) => MapAll(ParseItem, items)
    case Null => Ok([])
    case OtherContent => Err(BadContent)
  }

  // ---------------------------------------------------------------------
  // Turns

  datatype Turn<B> = Turn(user: bool, blocks: seq<B>)

  /** What a message comes to: nothing, a turn of its own, or a tool result. */
  datatype Piece<B> = Skip | Whole(turn: Turn<B>) | ToolResult(block: B)

  predicate AllResults<B>(isResult: B -> bool, blocks: seq<B>) {
    |blocks| > 0 && forall i :: 0 <= i < |blocks| ==> isResult(blocks[i])
  }

  /** A user turn of tool results only. */
  predicate OnlyResults<B>(isResult: B -> bool, turn: Turn<B>) {
    turn.user && AllResults(isResult, turn.blocks)
  }

  method CheckAllResults<B>(isResult: B -> bool, blocks: seq<B>) returns (all: bool)
    ensures all == AllResults(isResult, blocks)
    ensures all <==> blocks != [] && forall i :: 0 <= i < |blocks| ==> isResult(blocks[i])
  {
    if |blocks| == 0 { return false; }
    for i := 0 to |blocks|
      invariant forall j :: 0 <= j < i ==> isResult(blocks[j])
    {
      if !isResult(blocks[i]) { return false; }
    }
    return true;
  }

  /** One message more: a tool result extends the last turn when that holds only tool results. */
  function Append<B>(isResult: B -> bool, turns: seq<Turn<B>>, piece: Piece<B>): seq<Turn<B>> {
    match piece
    case Skip => turns
    case Whole(turn) => turns + [turn]
    case ToolResult(block) =>
      var n := |turns|;
      if n > 0 && OnlyResults(isResult, turns[n - 1])
      then turns[n - 1 := Turn(true, turns[n - 1].blocks + [block])]
      else turns + [Turn(true, [block])]
  }

  function Coalesced<B>(isResult: B -> bool, pieces: seq<Piece<B>>): seq<Turn<B>> {
    if pieces == [] then []
    else Append(isResult, Coalesced(isResult, pieces[..|pieces| - 1]), pieces[|pieces| - 1])
  }

  lemma {:induction false} CoalescedOn<B>(isResult: B -> bool, pieces: seq<Piece<B>>, last: Piece<B>)
    ensures Coalesced(isResult, pieces + [last]) == Append(isResult, Coalesced(isResult, pieces), last)
  {
    assert (pieces + [last])[..|pieces|] == pieces;
  }

  // ---------------------------------------------------------------------
  // The batch form

  function Kept<B>(pieces: seq<Piece<B>>): seq<Piece<B>> {
    if pieces == [] then []
    else
      var before, last := Kept(pieces[..|pieces| - 1]), pieces[|pieces| - 1];
      if last.Skip? then before else before + [last]
  }

  /** The number of tool results that a conversation starts with. */
  function RunLength<B>(pieces: seq<Piece<B>>): (n: nat)
    ensures n <= |pieces|
  {
    if pieces == [] || !pieces[0].ToolResult? then 0 else 1 + RunLength(pieces[1..])
  }

  function BlocksOf<B>(piece: Piece<B>): seq<B> {
    match piece
    case Skip => []
    case Whole(turn) => turn.blocks
    case ToolResult(block) => [block]
  }

  function AllBlocks<B>(pieces: seq<Piece<B>>): seq<B> {
    if pieces == [] then [] else AllBlocks(pieces[..|pieces| - 1]) + BlocksOf(pieces[|pieces| - 1])
  }

  /** Each maximal run of tool results as one user turn, everything else as it is. */
  function Runs<B>(pieces: seq<Piece<B>>): seq<Turn<B>> {
    if pieces == [] then []
    else
      match pieces[0]
      case Skip => Runs(pieces[1..])
      case Whole(turn) => [turn] + Runs(pieces[1..])
      case ToolResult(_) =>
        var n := RunLength(pieces);
        [Turn(true, AllBlocks(pieces[..n]))] + Runs(pieces[n..])
  }

  predicate SoundPiece<B>(isResult: B -> bool, piece: Piece<B>) {
    match piece
    case Skip => true
    case Whole(turn) => !OnlyResults(isResult, turn)
    case ToolResult(block) => isResult(block)
  }

  /** Results are results, and no turn of a user's own consists of them. */
  predicate Sound<B>(isResult: B -> bool, pieces: seq<Piece<B>>) {
    forall i :: 0 <= i < |pieces| ==> SoundPiece(isResult, pieces[i])
  }

  lemma {:induction false} RunLengthOn<B>(pieces: seq<Piece<B>>, last: Piece<B>)
    ensures var n := RunLength(pieces);
      RunLength(pieces + [last]) == if n == |pieces| && last.ToolResult? then n + 1 else n
  {
    if pieces == [] {
      assert [last][1..] == [];
    } else {
      assert (pieces + [last])[1..] == pieces[1..] + [last];
      RunLengthOn(pieces[1..], last);
    }
  }

  lemma {:induction false} RunMaximal<B>(pieces: seq<Piece<B>>)
    ensures forall i :: 0 <= i < RunLength(pieces) ==> pieces[i].ToolResult?
    ensures RunLength(pieces) < |pieces| ==> !pieces[RunLength(pieces)].ToolResult?
  {
    if pieces != [] && pieces[0].ToolResult? { RunMaximal(pieces[1..]); }
  }

  lemma {:induction false} BlocksOn<B>(pieces: seq<Piece<B>>, last: Piece<B>)
    ensures AllBlocks(pieces + [last]) == AllBlocks(pieces) + BlocksOf(last)
  {
    assert (pieces + [last])[..|pieces|] == pieces;
  }

  predicate EndsInResult<B>(pieces: seq<Piece<B>>) {
    pieces != [] && pieces[|pieces| - 1].ToolResult?
  }

  predicate NoSkips<B>(pieces: seq<Piece<B>>) {
    forall i :: 0 <= i < |pieces| ==> !pieces[i].Skip?
  }

  /** The turns with one piece more, which may continue a run. */
  function Grow<B>(turns: seq<Turn<B>>, inRun: bool, last: Piece<B>): seq<Turn<B>>
    requires !last.Skip?
  {
    var n := |turns|;
    if last.Whole? then turns + [last.turn]
    else if inRun && n > 0 then turns[n - 1 := Turn(true, turns[n - 1].blocks + [last.block])]
    else turns + [Turn(true, [last.block])]
  }

  lemma {:induction false} GrowHead<B>(head: Turn<B>, rest: seq<Turn<B>>, inRun: bool, last: Piece<B>)
    requires !last.Skip? && (rest != [] || !inRun)
    ensures [head] + Grow(rest, inRun, last) == Grow([head] + rest, inRun, last)
  {
  }

  lemma {:induction false} RunsNonEmpty<B>(pieces: seq<Piece<B>>)
    requires NoSkips(pieces) && pieces != []
    ensures Runs(pieces) != []
  {
  }

  lemma {:induction false} RunsOn<B>(pieces: seq<Piece<B>>, last: Piece<B>)
    requires NoSkips(pieces) && !last.Skip?
    ensures Runs(pieces + [last]) == Grow(Runs(pieces), EndsInResult(pieces), last)
    decreases |pieces|
  {
    if pieces == [] {
      SingleRun(last);
      assert pieces + [last] == [last];
    } else if pieces[0].Whole? {
      var head, rest, all := pieces[0], pieces[1..], pieces + [last];
      assert all[0] == head && all[1..] == rest + [last];
      assert Runs(all) == [head.turn] + Runs(rest + [last]);
      RunsOn(rest, last);
      if rest != [] { RunsNonEmpty(rest); }
      assert EndsInResult(rest) == EndsInResult(pieces);
      GrowHead(head.turn, Runs(rest), EndsInResult(rest), last);
    } else {
      RunOn(pieces, last);
    }
  }

  lemma {:induction false} RunOn<B>(pieces: seq<Piece<B>>, last: Piece<B>)
    requires NoSkips(pieces) && !last.Skip? && pieces != [] && pieces[0].ToolResult?
    ensures Runs(pieces + [last]) == Grow(Runs(pieces), EndsInResult(pieces), last)
    decreases |pieces|, 0
  {
    var n, all := RunLength(pieces), pieces + [last];
    RunLengthOn(pieces, last);
    RunMaximal(pieces);
    if n == |pieces| {
      WholeRun(pieces, last);
    } else {
      var head, rest := Turn(true, AllBlocks(pieces[..n])), pieces[n..];
      assert all[..n] == pieces[..n] && all[n..] == rest + [last];
      assert Runs(pieces) == [head] + Runs(rest);
      assert Runs(all) == [head] + Runs(rest + [last]);
      RunsOn(rest, last);
      RunsNonEmpty(rest);
      GrowHead(head, Runs(rest), EndsInResult(rest), last);
    }
  }

  lemma {:induction false} SingleRun<B>(piece: Piece<B>)
    requires !piece.Skip?
    ensures Runs([piece]) == [if piece.Whole? then piece.turn else Turn(true, [piece.block])]
  {
    assert [piece][1..] == [] && [piece][..1] == [piece] && [piece][..0] == [];
    assert AllBlocks([piece]) == BlocksOf(piece);
    assert RunLength(if piece.ToolResult? then [piece] else []) == if piece.ToolResult? then 1 else 0;
  }

  lemma {:induction false} OneRun<B>(pieces: seq<Piece<B>>)
    requires pieces != [] && RunLength(pieces) == |pieces|
    ensures Runs(pieces) == [Turn(true, AllBlocks(pieces))]
  {
    assert pieces[..|pieces|] == pieces && pieces[|pieces|..] == [];
  }

  /** A conversation of tool results only, and one piece more. */
  lemma {:induction false} WholeRun<B>(pieces: seq<Piece<B>>, last: Piece<B>)
    requires pieces != [] && RunLength(pieces) == |pieces| && !last.Skip?
    ensures Runs(pieces) == [Turn(true, AllBlocks(pieces))]
    ensures Runs(pieces + [last])
         == if last.Whole? then Runs(pieces) + [last.turn] else [Turn(true, AllBlocks(pieces) + [last.block])]
  {
    var n, all := |pieces|, pieces + [last];
    RunLengthOn(pieces, last);
    OneRun(pieces);
    if last.Whole? {
      assert all[..n] == pieces && all[n..] == [last];
      SingleRun(last);
    } else {
      OneRun(all);
      BlocksOn(pieces, last);
    }
  }

  lemma {:induction false} KeptHasNoSkip<B>(pieces: seq<Piece<B>>)
    ensures NoSkips(Kept(pieces))
  {
    if pieces != [] { KeptHasNoSkip(pieces[..|pieces| - 1]); }
  }

  predicate EndsInResults<B>(isResult: B -> bool, turns: seq<Turn<B>>) {
    turns != [] && OnlyResults(isResult, turns[|turns| - 1])
  }

  lemma {:induction false} AppendGrows<B>(isResult: B -> bool, turns: seq<Turn<B>>, piece: Piece<B>)
    requires SoundPiece(isResult, piece) && !piece.Skip?
    ensures Append(isResult, turns, piece) == Grow(turns, EndsInResults(isResult, turns), piece)
    ensures EndsInResults(isResult, Append(isResult, turns, piece)) == piece.ToolResult?
  {
  }

  /**
   The loop that extends turns in place gives the batch form: drop the skipped messages, then merge each
   maximal run of tool results. A run goes on across skipped messages.
   */
  lemma {:induction false} CoalescingIsBatch<B>(isResult: B -> bool, pieces: seq<Piece<B>>)
    requires Sound(isResult, pieces)
    ensures Coalesced(isResult, pieces) == Runs(Kept(pieces))
    ensures EndsInResults(isResult, Coalesced(isResult, pieces)) == EndsInResult(Kept(pieces))
  {
    if pieces != [] {
      var before, last := pieces[..|pieces| - 1], pieces[|pieces| - 1];
      assert SoundPiece(isResult, last);
      CoalescingIsBatch(isResult, before);
      if !last.Skip? {
        KeptHasNoSkip(before);
        RunsOn(Kept(before), last);
        AppendGrows(isResult, Coalesced(isResult, before), last);
      }
    }
  }

  // ---------------------------------------------------------------------
  // What coalescing keeps

  function Flatten<B>(turns: seq<Turn<B>>): seq<B> {
    if turns == [] then [] else Flatten(turns[..|turns| - 1]) + turns[|turns| - 1].blocks
  }

  /** No block is lost, added or moved. */
  lemma {:induction false} OrderIsKept<B>(isResult: B -> bool, pieces: seq<Piece<B>>)
    ensures Flatten(Coalesced(isResult, pieces)) == AllBlocks(pieces)
  {
    if pieces != [] {
      var before, last := pieces[..|pieces| - 1], pieces[|pieces| - 1];
      OrderIsKept(isResult, before);
      var turns := Coalesced(isResult, before);
      var next := Append(isResult, turns, last);
      if !last.Skip? { assert next[..|next| - 1] == if |next| == |turns| then turns[..|turns| - 1] else turns; }
    }
  }

  /** No two turns next to each other hold only tool results. */
  predicate Separated<B>(isResult: B -> bool, turns: seq<Turn<B>>) {
    forall i :: 0 < i < |turns| ==> !(OnlyResults(isResult, turns[i - 1]) && OnlyResults(isResult, turns[i]))
  }

  lemma {:induction false} ResultsAreMerged<B>(isResult: B -> bool, pieces: seq<Piece<B>>)
    requires Sound(isResult, pieces)
    ensures Separated(isResult, Coalesced(isResult, pieces))
  {
    if pieces != [] {
      var before := pieces[..|pieces| - 1];
      assert forall i :: 0 <= i < |before| ==> before[i] == pieces[i];
      ResultsAreMerged(isResult, before);
    }
  }

  // ---------------------------------------------------------------------
  // The results among the blocks

  function Among<B>(isResult: B -> bool, blocks: seq<B>): seq<B> {
    if blocks == [] then []
    else
      var before, last := Among(isResult, blocks[..|blocks| - 1]), blocks[|blocks| - 1];
      if isResult(last) then before + [last] else before
  }

  lemma {:induction false} AmongOn<B>(isResult: B -> bool, a: seq<B>, b: seq<B>)
    ensures Among(isResult, a + b) == Among(isResult, a) + Among(isResult, b)
  {
    if b == [] {
      assert a + b == a;
    } else {
      AmongOn(isResult, a, b[..|b| - 1]);
      assert (a + b)[..|a + b| - 1] == a + b[..|b| - 1];
    }
  }

  lemma {:induction false} NoneAmong<B>(isResult: B -> bool, blocks: seq<B>)
    requires forall i :: 0 <= i < |blocks| ==> !isResult(blocks[i])
    ensures Among(isResult, blocks) == []
  {
    if blocks != [] { NoneAmong(isResult, blocks[..|blocks| - 1]); }
  }

  lemma {:induction false} OneAmong<B>(isResult: B -> bool, block: B)
    requires isResult(block)
    ensures Among(isResult, [block]) == [block]
  {
    assert [block][..0] == [];
  }

  // ---------------------------------------------------------------------
  // Conversions in their own terms

  /** All or nothing: each element's conversion in its place, or the error of the first one that fails. */
  lemma {:induction false} MapAllInFull<A, B>(f: A -> Result<B, RequestError>, xs: seq<A>)
    ensures MapAll(f, xs).Ok? <==> forall i :: 0 <= i < |xs| ==> f(xs[i]).Ok?
    ensures MapAll(f, xs).Ok? ==>
      && |MapAll(f, xs).value| == |xs|
      && forall i :: 0 <= i < |xs| ==> MapAll(f, xs).value[i] == f(xs[i]).value
  {
    if xs != [] { MapAllInFull(f, xs[..|xs| - 1]); }
  }

  lemma {:induction false} FirstError<A, B>(f: A -> Result<B, RequestError>, xs: seq<A>, i: nat)
    requires i < |xs| && f(xs[i]).Err? && forall j :: 0 <= j < i ==> f(xs[j]).Ok?
    ensures MapAll(f, xs) == Err(f(xs[i]).error)
  {
    MapAllInFull(f, xs[..i]);
    MapOneMore(f, xs, i);
    MapAllFails(f, xs, i + 1);
  }

  /** What an item of a content array has to be, and the part that it becomes. */
  predicate IsPart(item: Item, part: ContentPart) {
    match item
    case TextItem(text) => part.PlainText? && part.text == if text.Some? then text.value else ""
    case ImageItem(url) => part.ImageUrl? && part.url == url
    case _ => false
  }

  /** A string is one text; null is nothing; an array is its items, all of them texts or images. */
  lemma {:induction false} PartsInFull(content: Content)
    ensures content.Str? ==> ContentParts(content) == Ok([PlainText(content.text)])
    ensures content.Null? ==> ContentParts(content) == Ok([])
    ensures content.OtherContent? ==> ContentParts(content) == Err(BadContent)
    ensures content.Arr? ==>
      var items, parts := content.items, ContentParts(content);
      && (parts.Ok? <==> forall i :: 0 <= i < |items| ==> items[i].TextItem? || items[i].ImageItem?)
      && (parts.Ok? ==> |parts.value| == |items| && forall i :: 0 <= i < |items| ==> IsPart(items[i], parts.value[i]))
      && (parts.Err? ==> parts.error == BadContent)
  {
    if content.Arr? {
      MapAllInFull(ParseItem, content.items);
      OnlyError(ParseItem, content.items, BadContent);
    }
  }

  lemma {:induction false} OnlyError<A, B>(f: A -> Result<B, RequestError>, xs: seq<A>, e: RequestError)
    requires forall i :: 0 <= i < |xs| && f(xs[i]).Err? ==> f(xs[i]).error == e
    ensures MapAll(f, xs).Err? ==> MapAll(f, xs).error == e
  {
    if xs != [] { OnlyError(f, xs[..|xs| - 1], e); }
  }
}
