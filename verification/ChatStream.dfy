/**
 The OpenAI-format stream that both translators write and the stream meter reads:
 `data: <json>` lines, each followed by a blank line, ending with `data: [DONE]`.
 JSON is an encoder that the meter's decoder inverts (`Faithful`).

 Beside it stands the accounting of a response that is not streamed
 (internal/gateway/metering.go), which a streamed one has to agree with.
 */
module ChatStream {
  import opened Wrappers
  import opened SseLines
  import opened StreamMetering

  datatype StreamToolCall = StreamToolCall(index: nat, id: string, typ: string, name: string, arguments: string)

  datatype Delta = Delta(role: string, content: Option<string>, toolCalls: seq<StreamToolCall>)

  const NO_DELTA := Delta("", None, [])

  /** A chunk has exactly one choice; `created` and `object` are constant. */
  datatype StreamChunk = StreamChunk(
    id: string, model: string, delta: Delta, finish: Option<string>, usage: Option<Usage>)

  datatype Out = Chunk(chunk: StreamChunk) | DoneMark

  type Encoder = StreamChunk -> Bytes

  /** What the meter's struct picks out of a chunk. */
  function MeterView(c: StreamChunk): MeterChunk {
    MeterChunk(c.model, c.usage, [if c.delta.content.Some? then c.delta.content.value else ""])
  }

  /** The facts about JSON objects that the pipeline relies on. */
  ghost predicate Faithful(encode: Encoder, decode: Decoder) {
    forall c {:trigger encode(c)} ::
      && encode(c) != [] && encode(c) != DONE_PAYLOAD
      && NL !in encode(c) && encode(c)[|encode(c)| - 1] != CR
      && decode(encode(c)) == Some(MeterView(c))
  }

  function DataLine(encode: Encoder, o: Out): Bytes {
    DATA_PREFIX + (match o case Chunk(c) => encode(c) case DoneMark => DONE_PAYLOAD)
  }

  /** The bytes written for a sequence of outputs. */
  function Render(encode: Encoder, outs: seq<Out>): Bytes {
    if outs == [] then []
    else Render(encode, outs[..|outs| - 1]) + (DataLine(encode, outs[|outs| - 1]) + [NL] + [NL])
  }

  function RenderedLines(encode: Encoder, outs: seq<Out>): (lines: seq<Bytes>)
    ensures |lines| == 2 * |outs|
  {
    if outs == [] then []
    else RenderedLines(encode, outs[..|outs| - 1]) + [DataLine(encode, outs[|outs| - 1]), []]
  }

  /** Output h has lines 2h and 2h + 1. */
  lemma {:induction false} RenderedAt(encode: Encoder, outs: seq<Out>, h: nat)
    requires h < |outs|
    ensures RenderedLines(encode, outs)[2 * h] == DataLine(encode, outs[h])
    ensures RenderedLines(encode, outs)[2 * h + 1] == []
  {
    if h < |outs| - 1 { RenderedAt(encode, outs[..|outs| - 1], h); }
  }

  lemma {:induction false} DataLineKind(encode: Encoder, decode: Decoder, o: Out)
    requires Faithful(encode, decode)
    ensures NL !in DataLine(encode, o)
    ensures Classify(decode, DataLine(encode, o)) == match o case Chunk(c) => Data(MeterView(c)) case DoneMark => Done
  {
    var line := DataLine(encode, o);
    match o {
      case Chunk(c) =>
        assert line[|line| - 1] == encode(c)[|encode(c)| - 1];
        assert line[|DATA_PREFIX|..] == encode(c);
      case DoneMark =>
        assert line[|DATA_PREFIX|..] == DONE_PAYLOAD;
    }
    assert TrimCR(line) == line;
  }

  lemma {:induction false} TwoLines(x: Bytes)
    requires NL !in x
    ensures Lines(x + [NL] + [NL]) == [x, []] && Tail(x + [NL] + [NL]) == []
  {
    FirstLine(x, [NL]);
    FirstLine([], []);
    assert [] + [NL] + [] == [NL];
    NoLine([]);
  }

  lemma {:induction false} LinesOfRender(encode: Encoder, decode: Decoder, outs: seq<Out>)
    requires Faithful(encode, decode)
    ensures Lines(Render(encode, outs)) == RenderedLines(encode, outs) && Tail(Render(encode, outs)) == []
  {
    if outs == [] {
      NoLine([]);
    } else {
      var before, o := outs[..|outs| - 1], outs[|outs| - 1];
      var text := DataLine(encode, o) + [NL] + [NL];
      LinesOfRender(encode, decode, before);
      DataLineKind(encode, decode, o);
      TwoLines(DataLine(encode, o));
      SplitAnywhere(Render(encode, before), text);
      assert [] + text == text;
    }
  }

  // ---------------------------------------------------------------------
  // What a client reads from a stream, and from a whole completion

  datatype ToolCall = ToolCall(id: string, name: string, arguments: string)

  /** An OpenAI-format completion; a missing content is JSON null. */
  datatype Completion = Completion(
    id: string, model: string, content: Option<string>, toolCalls: seq<ToolCall>, finish: string, usage: Usage)

  function Join(parts: seq<string>, sep: string): string {
    if parts == [] then "" else if |parts| == 1 then parts[0] else parts[0] + sep + Join(parts[1..], sep)
  }

  lemma {:induction false} JoinOn(parts: seq<string>, last: string, sep: string)
    ensures Join(parts + [last], sep)
         == if parts == [] then last else Join(parts, sep) + sep + last
  {
    if parts == [] {
      assert parts + [last] == [last];
    } else {
      assert (parts + [last])[1..] == parts[1..] + [last];
      JoinOn(parts[1..], last, sep);
    }
  }

  /** A separator shows exactly between two parts. */
  lemma {:induction false} JoinLength(parts: seq<string>, sep: string)
    ensures |Join(parts, sep)| == |Join(parts, "")| + (if |parts| > 1 then (|parts| - 1) * |sep| else 0)
    ensures |parts| <= 1 ==> Join(parts, sep) == Join(parts, "")
  {
    if |parts| > 1 {
      JoinLength(parts[1..], sep);
      assert (|parts| - 1) * |sep| == (|parts| - 2) * |sep| + |sep|;
    }
  }

  /** A client's accumulator: a piece extends the call at its index, or opens the next one. */
  function AddPiece(calls: Option<seq<ToolCall>>, tc: StreamToolCall): Option<seq<ToolCall>> {
    if calls.None? then None
    else
      var cs := calls.value;
      if tc.index < |cs| then Some(cs[tc.index := cs[tc.index].(arguments := cs[tc.index].arguments + tc.arguments)])
      else if tc.index == |cs| then Some(cs + [ToolCall(tc.id, tc.name, tc.arguments)])
      else None
  }

  function AddPieces(calls: Option<seq<ToolCall>>, tcs: seq<StreamToolCall>): Option<seq<ToolCall>> {
    if tcs == [] then calls else AddPiece(AddPieces(calls, tcs[..|tcs| - 1]), tcs[|tcs| - 1])
  }

  /** The tool calls a client assembles from the chunks; None when an index skips ahead. */
  function Assemble(outs: seq<Out>): Option<seq<ToolCall>> {
    if outs == [] then Some([])
    else
      var calls := Assemble(outs[..|outs| - 1]);
      match outs[|outs| - 1]
      case Chunk(c) => AddPieces(calls, c.delta.toolCalls)
      case DoneMark => calls
  }

  lemma {:induction false} AssembleOne(outs: seq<Out>, o: Out)
    requires o.Chunk? ==> |o.chunk.delta.toolCalls| <= 1
    ensures Assemble(outs + [o])
         == if o.DoneMark? || o.chunk.delta.toolCalls == [] then Assemble(outs)
            else AddPiece(Assemble(outs), o.chunk.delta.toolCalls[0])
  {
    var all := outs + [o];
    assert all[..|all| - 1] == outs && all[|all| - 1] == o;
    if o.Chunk? && o.chunk.delta.toolCalls != [] {
      var tcs := o.chunk.delta.toolCalls;
      assert tcs[..|tcs| - 1] == [];
      assert AddPieces(Assemble(outs), []) == Assemble(outs);
    }
  }

  lemma {:induction false} AssembleNone(outs: seq<Out>, added: seq<Out>)
    requires |added| <= 1
    requires added != [] && added[0].Chunk? ==> added[0].chunk.delta.toolCalls == []
    ensures Assemble(outs + added) == Assemble(outs)
  {
    if added == [] {
      assert outs + added == outs;
    } else {
      AssembleOne(outs, added[0]);
      assert added == [added[0]];
    }
  }

  /** The content deltas of a stream. */
  function Contents(outs: seq<Out>): seq<string> {
    if outs == [] then []
    else
      var before, o := Contents(outs[..|outs| - 1]), outs[|outs| - 1];
      if o.Chunk? && o.chunk.delta.content.Some? then before + [o.chunk.delta.content.value] else before
  }

  lemma {:induction false} ContentsOne(outs: seq<Out>, o: Out)
    ensures Contents(outs + [o])
         == if o.Chunk? && o.chunk.delta.content.Some? then Contents(outs) + [o.chunk.delta.content.value]
            else Contents(outs)
  {
    assert (outs + [o])[..|outs|] == outs;
  }

  function LastFinish(outs: seq<Out>): Option<string> {
    if outs == [] then None
    else
      var o := outs[|outs| - 1];
      if o.Chunk? && o.chunk.finish.Some? then o.chunk.finish else LastFinish(outs[..|outs| - 1])
  }

  lemma {:induction false} LastFinishAt(outs: seq<Out>, p: nat)
    requires p < |outs| && outs[p].Chunk? && outs[p].chunk.finish.Some?
    requires forall i :: p < i < |outs| ==> outs[i].Chunk? ==> outs[i].chunk.finish == None
    ensures LastFinish(outs) == outs[p].chunk.finish
  {
    if p < |outs| - 1 { LastFinishAt(outs[..|outs| - 1], p); }
  }

  // ---------------------------------------------------------------------
  // What a complete stream is billed as

  /** Chunks only, then one [DONE]. */
  predicate Complete(outs: seq<Out>) {
    outs != [] && outs[|outs| - 1].DoneMark? && forall i :: 0 <= i < |outs| - 1 ==> outs[i].Chunk?
  }

  predicate BillsChunk(o: Out) {
    o.Chunk? && Bills(MeterView(o.chunk))
  }

  /** Chunk k carries the last usage, and every chunk from k on names the model. */
  predicate SettledAt(outs: seq<Out>, k: nat, usage: Usage, model: string) {
    && Complete(outs) && k < |outs| - 1
    && BillsChunk(outs[k]) && outs[k].chunk.usage == Some(usage)
    && (forall i :: k < i < |outs| - 1 ==> !BillsChunk(outs[i]))
    && (forall i :: k <= i < |outs| - 1 ==> outs[i].chunk.model == model)
    && (model == "" ==> forall i :: 0 <= i < |outs| - 1 ==> outs[i].chunk.model == "")
  }

  /** The record of a usage: the vision estimate stands in for missing prompt tokens. */
  function Corrected(usage: Usage, visionEstimate: int): Usage {
    if usage.prompt == 0 && visionEstimate > 0
    then usage.(prompt := visionEstimate, total := visionEstimate + usage.completion)
    else usage
  }

  /** The kind of rendered line i: the output it renders, or a blank. */
  function KindAt(outs: seq<Out>, i: nat): LineKind
    requires i < 2 * |outs|
  {
    if i % 2 == 1 then Ignored
    else match outs[i / 2] case Chunk(c) => Data(MeterView(c)) case DoneMark => Done
  }

  /** The rendered lines before position j that are not dropped. */
  ghost function Kept(encode: Encoder, outs: seq<Out>, dropped: iset<nat>, j: nat): seq<Bytes>
    requires j <= 2 * |outs|
  {
    Except(RenderedLines(encode, outs)[..j], dropped)
  }

  lemma {:induction false} ExceptStep(lines: seq<Bytes>, dropped: iset<nat>, i: nat)
    requires i < |lines|
    ensures Except(lines[..i + 1], dropped)
         == Except(lines[..i], dropped) + (if i in dropped then [] else [lines[i]])
  {
    var upTo := lines[..i + 1];
    assert upTo[..i] == lines[..i] && upTo[i] == lines[i];
  }

  lemma {:induction false} KindOfLine(encode: Encoder, decode: Decoder, outs: seq<Out>, i: nat)
    requires Faithful(encode, decode) && i < 2 * |outs|
    ensures Classify(decode, RenderedLines(encode, outs)[i]) == KindAt(outs, i)
  {
    var h := i / 2;
    RenderedAt(encode, outs, h);
    if i % 2 == 0 {
      assert i == 2 * h;
      DataLineKind(encode, decode, outs[h]);
    } else {
      assert i == 2 * h + 1;
    }
  }

  lemma {:induction false} KeptStep(cfg: Config, encode: Encoder, outs: seq<Out>, dropped: iset<nat>, i: nat)
    requires Faithful(encode, cfg.decode) && i < 2 * |outs|
    ensures Kept(encode, outs, dropped, i + 1)
         == Kept(encode, outs, dropped, i) + (if i in dropped then [] else [RenderedLines(encode, outs)[i]])
    ensures Classify(cfg.decode, RenderedLines(encode, outs)[i]) == KindAt(outs, i)
  {
    ExceptStep(RenderedLines(encode, outs), dropped, i);
    KindOfLine(encode, cfg.decode, outs, i);
  }

  lemma {:induction false} NoDoneBeforeTheLast(cfg: Config, encode: Encoder, outs: seq<Out>, dropped: iset<nat>, j: nat)
    requires Faithful(encode, cfg.decode) && Complete(outs) && j <= 2 * (|outs| - 1)
    ensures !HasDone(cfg, Kept(encode, outs, dropped, j))
  {
    if j > 0 {
      var before, line := Kept(encode, outs, dropped, j - 1), RenderedLines(encode, outs)[j - 1];
      NoDoneBeforeTheLast(cfg, encode, outs, dropped, j - 1);
      KeptStep(cfg, encode, outs, dropped, j - 1);
      assert !IsDone(cfg, line);
      if j - 1 in dropped {
        assert before + [] == before;
      } else {
        BeforeDoneStep(cfg, before, line);
      }
    }
  }

  function AbsorbKind(t: Tally, kind: LineKind): Tally {
    match kind
    case Data(chunk) => Absorb(t, chunk)
    case _ => t
  }

  lemma {:induction false} TallyStep(cfg: Config, encode: Encoder, outs: seq<Out>, dropped: iset<nat>, i: nat)
    requires Faithful(encode, cfg.decode) && i < 2 * |outs|
    ensures var before, after :=
        TallyOf(cfg, Kept(encode, outs, dropped, i)), TallyOf(cfg, Kept(encode, outs, dropped, i + 1));
      after == if i in dropped then before else AbsorbKind(before, KindAt(outs, i))
  {
    KeptStep(cfg, encode, outs, dropped, i);
    var before, line := Kept(encode, outs, dropped, i), RenderedLines(encode, outs)[i];
    if i in dropped {
      assert before + [] == before;
    } else {
      TallyAdd(cfg, before, line);
    }
  }

  lemma {:induction false} TallyAdd(cfg: Config, lines: seq<Bytes>, x: Bytes)
    ensures TallyOf(cfg, lines + [x]) == AbsorbKind(TallyOf(cfg, lines), Classify(cfg.decode, x))
  {
    assert (lines + [x])[..|lines|] == lines;
  }

  /** The counters agree with the settling chunk k, as far as position j has got. */
  ghost predicate Settled(cfg: Config, usage: Usage, model: string, t: Tally, passedK: bool) {
    && (passedK ==> t.usage == usage)
    && (model == "" ==> t.model == cfg.initialModel)
    && (model != "" && passedK ==> t.model == model)
  }

  lemma {:induction false} SettledStep(
    cfg: Config, outs: seq<Out>, k: nat, usage: Usage, model: string, t: Tally, i: nat)
    requires SettledAt(outs, k, usage, model) && i < 2 * (|outs| - 1)
    requires Settled(cfg, usage, model, t, i > 2 * k)
    ensures i != 2 * k ==> Settled(cfg, usage, model, t, i + 1 > 2 * k)
    ensures Settled(cfg, usage, model, AbsorbKind(t, KindAt(outs, i)), i + 1 > 2 * k)
  {
    if i % 2 == 0 {
      assert outs[i / 2].Chunk?;
      assert i > 2 * k ==> !BillsChunk(outs[i / 2]) && outs[i / 2].chunk.model == model;
    }
  }

  lemma {:induction false} KeptSettles(
    cfg: Config, encode: Encoder, outs: seq<Out>, k: nat, usage: Usage, model: string, dropped: iset<nat>, j: nat)
    requires Faithful(encode, cfg.decode) && j <= 2 * (|outs| - 1)
    requires SettledAt(outs, k, usage, model) && 2 * k !in dropped
    ensures Settled(cfg, usage, model, TallyOf(cfg, Kept(encode, outs, dropped, j)), j > 2 * k)
  {
    if j > 0 {
      var i := j - 1;
      var before := TallyOf(cfg, Kept(encode, outs, dropped, i));
      KeptSettles(cfg, encode, outs, k, usage, model, dropped, i);
      TallyStep(cfg, encode, outs, dropped, i);
      SettledStep(cfg, outs, k, usage, model, before, i);
      assert i in dropped ==> i != 2 * k;
    }
  }

  lemma {:induction false} KeptWithoutUsage(cfg: Config, encode: Encoder, outs: seq<Out>, dropped: iset<nat>, j: nat)
    requires Faithful(encode, cfg.decode) && j <= 2 * |outs|
    requires forall i :: 0 <= i < |outs| ==> !BillsChunk(outs[i])
    ensures TallyOf(cfg, Kept(encode, outs, dropped, j)).usage == NO_USAGE
  {
    if j > 0 {
      KeptWithoutUsage(cfg, encode, outs, dropped, j - 1);
      TallyStep(cfg, encode, outs, dropped, j - 1);
    }
  }

  lemma {:induction false} ShortLineIsKept(encode: Encoder, decode: Decoder, outs: seq<Out>, pieces: seq<Bytes>, i: nat)
    requires Faithful(encode, decode) && Concat(pieces) == Render(encode, outs)
    requires i < |outs| && |DataLine(encode, outs[i])| <= MAX_LINE_BUF_SIZE
    ensures 2 * i !in Dropped(pieces)
  {
    LinesOfRender(encode, decode, outs);
    RenderedAt(encode, outs, i);
    if 2 * i in Dropped(pieces) { DroppedLinesAreLong(pieces, 2 * i); }
  }

  lemma {:induction false} DoneCutsOff(cfg: Config, lines: seq<Bytes>, done: Bytes, more: seq<Bytes>)
    requires !HasDone(cfg, lines) && IsDone(cfg, done) && |more| <= 1
    ensures BeforeDone(cfg, lines + [done] + more) == lines
  {
    BeforeDoneStep(cfg, lines, done);
    if more == [] {
      assert lines + [done] + more == lines + [done];
    } else {
      BeforeDoneStep(cfg, lines + [done], more[0]);
      assert [more[0]] == more;
    }
  }

  lemma {:induction false} KeptTwoMore(cfg: Config, encode: Encoder, outs: seq<Out>, dropped: iset<nat>)
    returns (done: Bytes, more: seq<Bytes>)
    requires Faithful(encode, cfg.decode) && Complete(outs) && 2 * (|outs| - 1) !in dropped
    ensures IsDone(cfg, done) && |more| <= 1
    ensures Kept(encode, outs, dropped, 2 * |outs|) == Kept(encode, outs, dropped, 2 * (|outs| - 1)) + [done] + more
  {
    var n := 2 * (|outs| - 1);
    assert n / 2 == |outs| - 1 && n % 2 == 0;
    KeptStep(cfg, encode, outs, dropped, n);
    KeptStep(cfg, encode, outs, dropped, n + 1);
    done := RenderedLines(encode, outs)[n];
    more := if n + 1 in dropped then [] else [RenderedLines(encode, outs)[n + 1]];
  }

  /** Of a complete stream, what the meter counts is what precedes the [DONE] line. */
  lemma {:induction false} CountedLines(cfg: Config, encode: Encoder, outs: seq<Out>, pieces: seq<Bytes>)
    requires Faithful(encode, cfg.decode) && Complete(outs) && Concat(pieces) == Render(encode, outs)
    ensures BeforeDone(cfg, Delivered(pieces)) == Kept(encode, outs, Dropped(pieces), 2 * (|outs| - 1))
  {
    var d, n := Dropped(pieces), 2 * (|outs| - 1);
    ShortLineIsKept(encode, cfg.decode, outs, pieces, |outs| - 1);
    NoDoneBeforeTheLast(cfg, encode, outs, d, n);
    var done, more := KeptTwoMore(cfg, encode, outs, d);
    DoneCutsOff(cfg, Kept(encode, outs, d, n), done, more);
    DeliveredIsKept(encode, cfg.decode, outs, pieces);
  }

  lemma {:induction false} KeptOfAll(encode: Encoder, outs: seq<Out>, dropped: iset<nat>)
    ensures Kept(encode, outs, dropped, 2 * |outs|) == Except(RenderedLines(encode, outs), dropped)
  {
    var lines := RenderedLines(encode, outs);
    assert lines[..|lines|] == lines;
  }

  lemma {:induction false} DeliveredIsKept(encode: Encoder, decode: Decoder, outs: seq<Out>, pieces: seq<Bytes>)
    requires Faithful(encode, decode) && Concat(pieces) == Render(encode, outs)
    ensures Delivered(pieces) == Kept(encode, outs, Dropped(pieces), 2 * |outs|)
  {
    LinesOfRender(encode, decode, outs);
    DeliveredExactly(pieces);
    KeptOfAll(encode, outs, Dropped(pieces));
  }

  /**
   However a complete stream is cut into reads, and whichever other lines are too long to be
   metered, it is billed by the chunk that settles it.
   */
  lemma {:induction false} CompleteStreamBill(
    cfg: Config, encode: Encoder, outs: seq<Out>, k: nat, usage: Usage, model: string, pieces: seq<Bytes>)
    requires Faithful(encode, cfg.decode) && SettledAt(outs, k, usage, model)
    requires Concat(pieces) == Render(encode, outs)
    requires |DataLine(encode, outs[k])| <= MAX_LINE_BUF_SIZE
    ensures BatchReport(cfg, Delivered(pieces))
         == Report(if model == "" then cfg.initialModel else model, Corrected(usage, cfg.visionEstimate), false)
  {
    var n := 2 * (|outs| - 1);
    CountedLines(cfg, encode, outs, pieces);
    ShortLineIsKept(encode, cfg.decode, outs, pieces, k);
    KeptSettles(cfg, encode, outs, k, usage, model, Dropped(pieces), n);
  }

  /** A complete stream without a positive usage is billed by estimate. */
  lemma {:induction false} UnsettledStreamBill(cfg: Config, encode: Encoder, outs: seq<Out>, pieces: seq<Bytes>)
    requires Faithful(encode, cfg.decode) && Complete(outs) && Concat(pieces) == Render(encode, outs)
    requires forall i :: 0 <= i < |outs| ==> !BillsChunk(outs[i])
    ensures BatchReport(cfg, Delivered(pieces)).estimated
  {
    CountedLines(cfg, encode, outs, pieces);
    KeptWithoutUsage(cfg, encode, outs, Dropped(pieces), 2 * (|outs| - 1));
  }

  // ---------------------------------------------------------------------
  // The estimate in the stream's own terms

  /** The length of all content deltas. */
  function TextTotal(outs: seq<Out>): nat {
    if outs == [] then 0
    else
      var o := outs[|outs| - 1];
      TextTotal(outs[..|outs| - 1])
      + (if o.Chunk? && o.chunk.delta.content.Some? then |o.chunk.delta.content.value| else 0)
  }

  /** The last model that a chunk names, or the initial one. */
  function LastModel(outs: seq<Out>, initial: string): string {
    if outs == [] then initial
    else
      var o := outs[|outs| - 1];
      if o.Chunk? && o.chunk.model != "" then o.chunk.model else LastModel(outs[..|outs| - 1], initial)
  }

  predicate BillsNothing(outs: seq<Out>) {
    forall i :: 0 <= i < |outs| && outs[i].Chunk? && outs[i].chunk.usage.Some? ==> outs[i].chunk.usage.value.total <= 0
  }

  lemma {:induction false} KindOfPair(outs: seq<Out>, h: nat, i: nat)
    requires h < |outs| && outs[h].Chunk? && i == 2 * h
    ensures KindAt(outs, i) == Data(MeterView(outs[h].chunk)) && KindAt(outs, i + 1) == Ignored
  {
  }

  /** A chunk's two lines, of which the data line is not dropped. */
  lemma {:induction false} KeptPair(
      cfg: Config, encode: Encoder, outs: seq<Out>, dropped: iset<nat>, h: nat, i: nat, t: Tally)
    requires Faithful(encode, cfg.decode) && h < |outs| && outs[h].Chunk? && i == 2 * h && i !in dropped
    requires t == TallyOf(cfg, Kept(encode, outs, dropped, i))
    ensures TallyOf(cfg, Kept(encode, outs, dropped, i + 2)) == Absorb(t, MeterView(outs[h].chunk))
  {
    var view := MeterView(outs[h].chunk);
    KindOfPair(outs, h, i);
    OneLineMore(cfg, encode, outs, dropped, i, t, Data(view));
    OneLineMore(cfg, encode, outs, dropped, i + 1, Absorb(t, view), Ignored);
  }

  lemma {:induction false} OneLineMore(
      cfg: Config, encode: Encoder, outs: seq<Out>, dropped: iset<nat>, i: nat, t: Tally, kind: LineKind)
    requires Faithful(encode, cfg.decode) && i < 2 * |outs| && KindAt(outs, i) == kind
    requires i in dropped ==> !kind.Data?
    requires t == TallyOf(cfg, Kept(encode, outs, dropped, i))
    ensures TallyOf(cfg, Kept(encode, outs, dropped, i + 1)) == AbsorbKind(t, kind)
  {
    TallyStep(cfg, encode, outs, dropped, i);
  }

  lemma {:induction false} KeptTally(cfg: Config, encode: Encoder, outs: seq<Out>, dropped: iset<nat>, n: nat, i: nat)
    requires Faithful(encode, cfg.decode) && n <= |outs| && BillsNothing(outs) && i == 2 * n
    requires forall h :: 0 <= h < n ==> outs[h].Chunk? && 2 * h !in dropped
    ensures TallyOf(cfg, Kept(encode, outs, dropped, i)) == PlainTally(cfg, outs[..n])
  {
    if n > 0 {
      KeptTally(cfg, encode, outs, dropped, n - 1, i - 2);
      KeptPair(cfg, encode, outs, dropped, n - 1, i - 2, PlainTally(cfg, outs[..n - 1]));
      PlainStep(cfg, outs, n);
    }
  }

  /** The counters after these chunks, none of which bills. */
  function PlainTally(cfg: Config, outs: seq<Out>): Tally {
    Tally(LastModel(outs, cfg.initialModel), NO_USAGE, TextTotal(outs))
  }

  lemma {:induction false} PlainStep(cfg: Config, outs: seq<Out>, n: nat)
    requires 0 < n <= |outs| && outs[n - 1].Chunk? && !Bills(MeterView(outs[n - 1].chunk))
    ensures PlainTally(cfg, outs[..n]) == Absorb(PlainTally(cfg, outs[..n - 1]), MeterView(outs[n - 1].chunk))
  {
    assert outs[..n][..n - 1] == outs[..n - 1] && outs[..n][n - 1] == outs[n - 1];
    AbsorbPlain(outs[n - 1].chunk, LastModel(outs[..n - 1], cfg.initialModel), TextTotal(outs[..n - 1]));
  }

  /** What a chunk without a positive usage adds to the counters. */
  lemma {:induction false} AbsorbPlain(c: StreamChunk, model: string, textLen: nat)
    requires !Bills(MeterView(c))
    ensures Absorb(Tally(model, NO_USAGE, textLen), MeterView(c))
         == Tally(if c.model != "" then c.model else model, NO_USAGE,
                  textLen + if c.delta.content.Some? then |c.delta.content.value| else 0)
  {
    OneText(if c.delta.content.Some? then c.delta.content.value else "");
  }

  lemma {:induction false} OneText(text: string)
    ensures TextLen([text]) == |text|
  {
    assert [text][..0] == [];
  }

  /**
   The report of a complete stream without a positive usage, all lines within the cap, however it was read:
   the request's estimates as prompt, a quarter of the text's length as completion, and their sum.
   */
  lemma {:induction false} EstimateInFull(
      cfg: Config, encode: Encoder, outs: seq<Out>, es: seq<Event>, last: Event, more: seq<Event>)
    requires Faithful(encode, cfg.decode) && Complete(outs) && BillsNothing(outs)
    requires Concat(Pieces(es + [last])) == Render(encode, outs)
    requires forall o :: o in outs ==> |DataLine(encode, o)| <= MAX_LINE_BUF_SIZE
    requires (forall e :: e in es ==> !Ends(e)) && Ends(last)
    ensures |Run(cfg, es + [last] + more).reports| == 1
    ensures var report := Run(cfg, es + [last] + more).reports[0];
      && report.estimated && report.model == LastModel(outs, cfg.initialModel)
      && report.usage.prompt == cfg.promptEstimate + cfg.visionEstimate
      && report.usage.completion == TextTotal(outs) / 4
      && report.usage.total == cfg.promptEstimate + cfg.visionEstimate + TextTotal(outs) / 4
      && report.usage.cacheCreation == 0 && report.usage.cacheRead == 0
  {
    var pieces, n := Pieces(es + [last]), |outs| - 1;
    OnDoneFiresOnce(cfg, es, last, more);
    CountedLines(cfg, encode, outs, pieces);
    forall h | 0 <= h < n
      ensures 2 * h !in Dropped(pieces)
    {
      assert outs[h] in outs;
      ShortLineIsKept(encode, cfg.decode, outs, pieces, h);
    }
    KeptTally(cfg, encode, outs, Dropped(pieces), n, 2 * n);
  }

  // ---------------------------------------------------------------------
  // The response that is not streamed

  /** What `ParseResponseMeta` reads back from the OpenAI-format body. */
  datatype ResponseMeta = ResponseMeta(model: string, usage: Usage)

  /** `meterResponse` on a provider response: the usage it records, for the model it names. */
  function MeterResponse(meta: ResponseMeta, visionEstimate: int, model: string): Report {
    var usage :=
      if visionEstimate > 0 && meta.usage.prompt == 0
      then meta.usage.(prompt := visionEstimate, total := visionEstimate + meta.usage.completion)
      else meta.usage;
    Report(if meta.model == "" then model else meta.model, usage, false)
  }

  method DoMeterResponse(meta: ResponseMeta, visionEstimate: int, model: string) returns (record: Report)
    ensures record == MeterResponse(meta, visionEstimate, model)
    ensures !record.estimated && record.model == (if meta.model != "" then meta.model else model)
    ensures record.usage.completion == meta.usage.completion
    ensures record.usage.cacheCreation == meta.usage.cacheCreation && record.usage.cacheRead == meta.usage.cacheRead
    ensures visionEstimate > 0 && meta.usage.prompt == 0 ==>
      record.usage.prompt == visionEstimate && record.usage.total == visionEstimate + meta.usage.completion
    ensures visionEstimate <= 0 || meta.usage.prompt != 0 ==>
      record.usage.prompt == meta.usage.prompt && record.usage.total == meta.usage.total
  {
    var promptTokens, totalTokens := meta.usage.prompt, meta.usage.total;
    if visionEstimate > 0 && promptTokens == 0 {
      promptTokens := visionEstimate;
      totalTokens := visionEstimate + meta.usage.completion;
    }
    var finalModel := meta.model;
    if finalModel == "" {
      finalModel := model;
    }
    record := Report(finalModel, Usage(promptTokens, meta.usage.completion, totalTokens,
                                       meta.usage.cacheCreation, meta.usage.cacheRead), false);
  }

  /** What `ParseResponseMeta` reads from a completion. */
  function MetaOf(c: Completion): ResponseMeta {
    ResponseMeta(c.model, c.usage)
  }
}
