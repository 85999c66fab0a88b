/**
 internal/gateway/stream_meter.go: the meter that a streamed response body flows
 through. The class follows the source; the functions above it give one step of
 it on values, and the lemmas speak about whole runs of reads and closes.

 JSON decoding of a payload is a parameter. Go strings are `string`, one
 character a byte, so |s| is Go's len(s).
 */
module StreamMetering {
  import opened Wrappers
  import opened SseLines

  datatype Usage = Usage(prompt: int, completion: int, total: int, cacheCreation: int, cacheRead: int)

  const NO_USAGE := Usage(0, 0, 0, 0, 0)

  /** The fields of a chunk that the meter decodes. */
  datatype MeterChunk = MeterChunk(model: string, usage: Option<Usage>, contents: seq<string>)

  type Decoder = Bytes -> Option<MeterChunk>

  datatype Config = Config(decode: Decoder, initialModel: string, promptEstimate: int, visionEstimate: int)

  /** The counters that `finish` reads. */
  datatype Tally = Tally(model: string, usage: Usage, textLen: nat)

  /** The arguments of one `onDone` call. */
  datatype Report = Report(model: string, usage: Usage, estimated: bool)

  /** `reports` holds the `onDone` calls made so far. */
  datatype Meter = Meter(splitter: Splitter, tally: Tally, reports: seq<Report>)

  datatype Event = Read(data: Bytes, failed: bool) | Close

  // ---------------------------------------------------------------------
  // One line

  const DATA_PREFIX: Bytes := [100, 97, 116, 97, 58, 32] // "data: "
  const DONE_PAYLOAD: Bytes := [91, 68, 79, 78, 69, 93]  // "[DONE]"

  datatype LineKind = Ignored | Done | Data(chunk: MeterChunk)

  function TrimCR(line: Bytes): Bytes {
    if line != [] && line[|line| - 1] == CR then TrimCR(line[..|line| - 1]) else line
  }

  function Classify(decode: Decoder, raw: Bytes): LineKind {
    var line := TrimCR(raw);
    if !(DATA_PREFIX <= line) then Ignored
    else
      var payload := line[|DATA_PREFIX|..];
      if payload == DONE_PAYLOAD then Done
      else
        match decode(payload)
        case None => Ignored
        case Some(chunk) => Data(chunk)
  }

  function TextLen(contents: seq<string>): nat {
    if contents == [] then 0 else TextLen(contents[..|contents| - 1]) + |contents[|contents| - 1]|
  }

  predicate Bills(chunk: MeterChunk) {
    chunk.usage.Some? && chunk.usage.value.total > 0
  }

  function Absorb(t: Tally, chunk: MeterChunk): Tally {
    Tally(if chunk.model != "" then chunk.model else t.model,
          if Bills(chunk) then chunk.usage.value else t.usage,
          t.textLen + TextLen(chunk.contents))
  }

  function AbsorbLine(cfg: Config, t: Tally, line: Bytes): Tally {
    match Classify(cfg.decode, line)
    case Data(chunk) => Absorb(t, chunk)
    case _ => t
  }

  /** What `finish` reports for the counters it finds. */
  function FinalReport(cfg: Config, t: Tally): Report {
    if t.usage.total == 0 then
      var completion := t.textLen / 4;
      var prompt := cfg.promptEstimate + cfg.visionEstimate;
      Report(t.model, t.usage.(prompt := prompt, completion := completion, total := prompt + completion), true)
    else if t.usage.prompt == 0 && cfg.visionEstimate > 0 then
      Report(t.model,
             t.usage.(prompt := cfg.visionEstimate, total := cfg.visionEstimate + t.usage.completion),
             false)
    else
      Report(t.model, t.usage, false)
  }

  // ---------------------------------------------------------------------
  // One step of the meter

  function Start(cfg: Config): Meter {
    Meter(EMPTY, Tally(cfg.initialModel, NO_USAGE, 0), [])
  }

  function Finish(cfg: Config, m: Meter): Meter {
    if m.reports != [] then m else m.(reports := [FinalReport(cfg, m.tally)])
  }

  function ProcessLine(cfg: Config, m: Meter, line: Bytes): (m': Meter)
    ensures m'.splitter == m.splitter
  {
    if Classify(cfg.decode, line).Done? then Finish(cfg, m) else m.(tally := AbsorbLine(cfg, m.tally, line))
  }

  function ProcessLines(cfg: Config, m: Meter, lines: seq<Bytes>): Meter {
    if lines == [] then m
    else ProcessLine(cfg, ProcessLines(cfg, m, lines[..|lines| - 1]), lines[|lines| - 1])
  }

  /** The scanning loop of `inspect`, run to its end. */
  function Drain(cfg: Config, m: Meter): Meter
    decreases |m.splitter.buf|
  {
    var buf := m.splitter.buf;
    var i := IndexNL(buf);
    if i == |buf| then
      if |buf| > MAX_LINE_BUF_SIZE then m.(splitter := Splitter([], true)) else m
    else
      var next := m.(splitter := Splitter(buf[i + 1..], false));
      Drain(cfg, if m.splitter.overflowed then next else ProcessLine(cfg, next, buf[..i]))
  }

  function Inspect(cfg: Config, m: Meter, data: Bytes): Meter {
    Drain(cfg, m.(splitter := m.splitter.(buf := m.splitter.buf + data)))
  }

  function Step(cfg: Config, m: Meter, e: Event): Meter {
    match e
    case Read(data, failed) =>
      var m' := if data != [] then Inspect(cfg, m, data) else m;
      if failed then Finish(cfg, m') else m'
    case Close => Finish(cfg, m)
  }

  function Run(cfg: Config, events: seq<Event>): Meter {
    if events == [] then Start(cfg)
    else Step(cfg, Run(cfg, events[..|events| - 1]), events[|events| - 1])
  }

  // ---------------------------------------------------------------------
  // The class

  class StreamMeter {
    const cfg: Config
    var lineBuf: Bytes
    var lineOverflowed: bool
    var model: string
    var usage: Usage
    var accumulatedTextLen: nat
    var fired: bool
    var reports: seq<Report>

    ghost predicate Valid() reads this {
      fired <==> reports != []
    }

    ghost function State(): Meter reads this {
      Meter(Splitter(lineBuf, lineOverflowed), Tally(model, usage, accumulatedTextLen), reports)
    }

    constructor (cfg: Config)
      ensures Valid() && this.cfg == cfg && State() == Start(cfg)
    {
      this.cfg := cfg;
      lineBuf, lineOverflowed := [], false;
      model, usage, accumulatedTextLen := cfg.initialModel, NO_USAGE, 0;
      fired, reports := false, [];
    }

    /** `Read`, given what the wrapped body returned: the bytes it produced and whether it failed or ended. */
    method Read(data: Bytes, failed: bool)
      requires Valid()
      modifies this
      ensures Valid() && State() == Step(cfg, old(State()), Event.Read(data, failed))
    {
      if |data| > 0 {
        DoInspect(data);
      }
      if failed {
        DoFinish();
      }
    }

    method Close()
      requires Valid()
      modifies this
      ensures Valid() && State() == Step(cfg, old(State()), Event.Close)
    {
      DoFinish();
    }

    method DoFinish()
      requires Valid()
      modifies `fired, `reports
      ensures Valid() && State() == Finish(cfg, old(State()))
    {
      if fired { return; }
      fired := true;
      var u := usage;
      var estimated := false;
      if u.total == 0 {
        var completion := accumulatedTextLen / 4;
        var prompt := cfg.promptEstimate + cfg.visionEstimate;
        u := u.(prompt := prompt, completion := completion, total := prompt + completion);
        estimated := true;
      } else if u.prompt == 0 && cfg.visionEstimate > 0 {
        var prompt := cfg.visionEstimate;
        u := u.(prompt := prompt, total := prompt + u.completion);
      }
      reports := reports + [Report(model, u, estimated)];
    }

    method DoInspect(data: Bytes)
      requires Valid()
      modifies this
      ensures Valid() && State() == Inspect(cfg, old(State()), data)
    {
      ghost var drained := Inspect(cfg, State(), data);
      lineBuf := lineBuf + data;
      while true
        invariant Valid()
        invariant Drain(cfg, State()) == drained
        decreases |lineBuf|
      {
        var idx := IndexNL(lineBuf);
        if idx == |lineBuf| {
          if |lineBuf| > MAX_LINE_BUF_SIZE {
            lineBuf := [];
            lineOverflowed := true;
          }
          break;
        }
        var line := lineBuf[..idx];
        lineBuf := lineBuf[idx + 1..];
        if lineOverflowed {
          lineOverflowed := false;
          continue;
        }
        DoProcessLine(line);
      }
    }

    method DoProcessLine(raw: Bytes)
      requires Valid()
      modifies `model, `usage, `accumulatedTextLen, `fired, `reports
      ensures Valid() && State() == ProcessLine(cfg, old(State()), raw)
    {
      var line := TrimCR(raw);
      if !(DATA_PREFIX <= line) { return; }
      var payload := line[|DATA_PREFIX|..];
      if payload == DONE_PAYLOAD {
        DoFinish();
        return;
      }
      var decoded := cfg.decode(payload);
      if decoded.None? { return; }
      var chunk := decoded.value;
      if chunk.model != "" { model := chunk.model; }
      if chunk.usage.Some? && chunk.usage.value.total > 0 { usage := chunk.usage.value; }
      for i := 0 to |chunk.contents|
        modifies `accumulatedTextLen
        invariant accumulatedTextLen == old(accumulatedTextLen) + TextLen(chunk.contents[..i])
      {
        assert chunk.contents[..i + 1][..i] == chunk.contents[..i];
        accumulatedTextLen := accumulatedTextLen + |chunk.contents[i]|;
      }
      assert chunk.contents[..|chunk.contents|] == chunk.contents;
    }
  }

  // ---------------------------------------------------------------------
  // What a line is

  lemma {:induction false} Trimmed(line: Bytes, crs: nat)
    requires line != [] ==> line[|line| - 1] != CR
    ensures TrimCR(line + seq(crs, _ => CR)) == line
  {
    var all := line + seq(crs, _ => CR);
    if crs == 0 {
      assert all == line;
    } else {
      Trimmed(line, crs - 1);
      assert all[..|all| - 1] == line + seq(crs - 1, _ => CR);
    }
  }

  lemma {:induction false} TrimShortens(line: Bytes)
    ensures TrimCR(line) <= line
  {
    if line != [] { TrimShortens(line[..|line| - 1]); }
  }

  /**
   A line counts exactly if it is "data: " and a payload, whatever carriage returns follow; "[DONE]"
   ends the stream.
   */
  lemma {:induction false} LineInFull(decode: Decoder, payload: Bytes, crs: nat)
    requires payload != [] ==> payload[|payload| - 1] != 13
    ensures var kind := Classify(decode, [100, 97, 116, 97, 58, 32] + payload + seq(crs, _ => 13));
      && (kind.Done? <==> payload == [91, 68, 79, 78, 69, 93])
      && (kind.Data? <==> payload != [91, 68, 79, 78, 69, 93] && decode(payload).Some?)
      && (kind.Data? ==> kind.chunk == decode(payload).value)
  {
    var line := [100, 97, 116, 97, 58, 32] + payload;
    assert line[6..] == payload;
    if payload == [] { assert line[|line| - 1] == 32; } else { assert line[|line| - 1] == payload[|payload| - 1]; }
    Trimmed(line, crs);
  }

  lemma {:induction false} OtherLinesAreIgnored(decode: Decoder, line: Bytes)
    requires !([100, 97, 116, 97, 58, 32] <= line)
    ensures Classify(decode, line).Ignored?
  {
    TrimShortens(line);
  }

  // ---------------------------------------------------------------------
  // The loop against the batch reading of SseLines

  lemma {:induction false} ProcessLinesFirst(cfg: Config, m: Meter, x: Bytes, lines: seq<Bytes>)
    ensures ProcessLines(cfg, m, [x] + lines) == ProcessLines(cfg, ProcessLine(cfg, m, x), lines)
  {
    if lines == [] {
      assert [x] + lines == [x];
      assert [x][..0] == [];
    } else {
      var n := |lines| - 1;
      ProcessLinesFirst(cfg, m, x, lines[..n]);
      assert ([x] + lines)[..n + 1] == [x] + lines[..n];
    }
  }

  /** The splitter does not affect what processing does. */
  lemma {:induction false} ProcessLinesFrame(cfg: Config, m: Meter, sp: Splitter, lines: seq<Bytes>)
    ensures ProcessLines(cfg, m.(splitter := sp), lines) == ProcessLines(cfg, m, lines).(splitter := sp)
  {
    if lines != [] { ProcessLinesFrame(cfg, m, sp, lines[..|lines| - 1]); }
  }

  /** What `Feed` makes of a buffer whose first line ends at its first newline. */
  lemma {:induction false} FeedFirst(sp: Splitter)
    requires IndexNL(sp.buf) < |sp.buf|
    ensures var i := IndexNL(sp.buf);
      var rest := Splitter(sp.buf[i + 1..], false);
      var more := Feed(rest, []);
      Feed(sp, []) == Fed(more.splitter, if sp.overflowed then more.lines else [sp.buf[..i]] + more.lines)
  {
    var i, rest := IndexNL(sp.buf), sp.buf[IndexNL(sp.buf) + 1..];
    assert sp.buf + [] == sp.buf && rest + [] == rest;
    assert Lines(sp.buf) == [sp.buf[..i]] + Lines(rest) && Tail(sp.buf) == Tail(rest);
    assert ([sp.buf[..i]] + Lines(rest))[1..] == Lines(rest);
  }

  /** The first line of a buffer, and what draining the rest does. */
  lemma {:induction false} DrainFirst(cfg: Config, m: Meter, line: Bytes, rest: Splitter, more: Fed)
    requires var sp, i := m.splitter, IndexNL(m.splitter.buf);
      i < |sp.buf| && line == sp.buf[..i] && rest == Splitter(sp.buf[i + 1..], false)
    requires var next := if m.splitter.overflowed then m.(splitter := rest)
                         else ProcessLine(cfg, m.(splitter := rest), line);
      Drain(cfg, next) == ProcessLines(cfg, next, more.lines).(splitter := more.splitter)
    ensures Drain(cfg, m)
         == ProcessLines(cfg, m, if m.splitter.overflowed then more.lines else [line] + more.lines)
            .(splitter := more.splitter)
  {
    var next := m.(splitter := rest);
    if m.splitter.overflowed {
      ProcessLinesFrame(cfg, m, rest, more.lines);
    } else {
      ProcessLinesFirst(cfg, next, line, more.lines);
      ProcessLinesFrame(cfg, m, rest, [line] + more.lines);
    }
  }

  /** One `inspect` processes exactly the lines that `Feed` gives, and leaves its splitter. */
  lemma {:induction false} DrainIsFeed(cfg: Config, m: Meter)
    ensures var fed := Feed(m.splitter, []);
      Drain(cfg, m) == ProcessLines(cfg, m, fed.lines).(splitter := fed.splitter)
    decreases |m.splitter.buf|
  {
    var sp := m.splitter;
    var i := IndexNL(sp.buf);
    if i == |sp.buf| {
      assert sp.buf + [] == sp.buf;
    } else {
      var line, rest := sp.buf[..i], Splitter(sp.buf[i + 1..], false);
      var next := if sp.overflowed then m.(splitter := rest) else ProcessLine(cfg, m.(splitter := rest), line);
      assert next.splitter == rest;
      DrainIsFeed(cfg, next);
      FeedFirst(sp);
      DrainFirst(cfg, m, line, rest, Feed(rest, []));
    }
  }

  lemma {:induction false} InspectIsFeed(cfg: Config, m: Meter, data: Bytes)
    ensures var fed := Feed(m.splitter, data);
      Inspect(cfg, m, data) == ProcessLines(cfg, m, fed.lines).(splitter := fed.splitter)
  {
    var sp := m.splitter.(buf := m.splitter.buf + data);
    DrainIsFeed(cfg, m.(splitter := sp));
    assert sp.buf + [] == m.splitter.buf + data;
    assert Feed(sp, []) == Feed(m.splitter, data);
    ProcessLinesFrame(cfg, m, sp, Feed(sp, []).lines);
  }

  // ---------------------------------------------------------------------
  // Whole runs

  /** The non-empty reads of a run. */
  function Pieces(events: seq<Event>): seq<Bytes> {
    if events == [] then []
    else
      var e := events[|events| - 1];
      Pieces(events[..|events| - 1]) + (if e.Read? && e.data != [] then [e.data] else [])
  }

  /** The events that make `finish` run. */
  predicate Ends(e: Event) {
    e.Close? || e.failed
  }

  predicate IsDone(cfg: Config, line: Bytes) {
    Classify(cfg.decode, line).Done?
  }

  /** The lines before the first [DONE]. */
  function BeforeDone(cfg: Config, lines: seq<Bytes>): seq<Bytes> {
    if lines == [] || IsDone(cfg, lines[0]) then [] else [lines[0]] + BeforeDone(cfg, lines[1..])
  }

  predicate HasDone(cfg: Config, lines: seq<Bytes>) {
    exists i :: 0 <= i < |lines| && IsDone(cfg, lines[i])
  }

  /** The counters after a batch of lines. */
  function TallyOf(cfg: Config, lines: seq<Bytes>): Tally {
    if lines == [] then Start(cfg).tally
    else AbsorbLine(cfg, TallyOf(cfg, lines[..|lines| - 1]), lines[|lines| - 1])
  }

  /** The `onDone` call that a batch of lines leads to. */
  function BatchReport(cfg: Config, lines: seq<Bytes>): Report {
    FinalReport(cfg, TallyOf(cfg, BeforeDone(cfg, lines)))
  }

  lemma {:induction false} BeforeDoneStep(cfg: Config, lines: seq<Bytes>, x: Bytes)
    ensures BeforeDone(cfg, lines + [x])
         == if HasDone(cfg, lines) || IsDone(cfg, x) then BeforeDone(cfg, lines) else lines + [x]
    ensures !HasDone(cfg, lines) ==> BeforeDone(cfg, lines) == lines
    ensures HasDone(cfg, lines + [x]) <==> HasDone(cfg, lines) || IsDone(cfg, x)
  {
    var all := lines + [x];
    HasDoneLast(cfg, lines, x);
    if lines != [] {
      BeforeDoneStep(cfg, lines[1..], x);
      HasDoneFirst(cfg, lines);
      assert all[1..] == lines[1..] + [x];
      assert [lines[0]] + (lines[1..] + [x]) == all;
      assert [lines[0]] + lines[1..] == lines;
    } else {
      assert all[1..] == [];
    }
  }

  lemma {:induction false} HasDoneLast(cfg: Config, lines: seq<Bytes>, x: Bytes)
    ensures HasDone(cfg, lines + [x]) <==> HasDone(cfg, lines) || IsDone(cfg, x)
  {
    var all := lines + [x];
    assert all[|lines|] == x && forall i :: 0 <= i < |lines| ==> all[i] == lines[i];
  }

  lemma {:induction false} HasDoneFirst(cfg: Config, lines: seq<Bytes>)
    requires lines != []
    ensures HasDone(cfg, lines) <==> IsDone(cfg, lines[0]) || HasDone(cfg, lines[1..])
  {
    assert forall i :: 1 <= i < |lines| ==> lines[i] == lines[1..][i - 1];
  }

  lemma {:induction false} ProcessLinesSplits(cfg: Config, m: Meter, a: seq<Bytes>, b: seq<Bytes>)
    ensures ProcessLines(cfg, m, a + b) == ProcessLines(cfg, ProcessLines(cfg, m, a), b)
  {
    if b == [] {
      assert a + b == a;
    } else {
      var n := |b| - 1;
      assert (a + b)[..|a + b| - 1] == a + b[..n];
      ProcessLinesSplits(cfg, m, a, b[..n]);
    }
  }

  /** Processing a batch from the start: the counters, and at most one report. */
  lemma {:induction false} ProcessedBatch(cfg: Config, lines: seq<Bytes>)
    ensures ProcessLines(cfg, Start(cfg), lines)
         == Meter(EMPTY, TallyOf(cfg, lines), if HasDone(cfg, lines) then [BatchReport(cfg, lines)] else [])
  {
    if lines != [] {
      var n := |lines| - 1;
      ProcessedBatch(cfg, lines[..n]);
      BeforeDoneStep(cfg, lines[..n], lines[n]);
      assert lines[..n] + [lines[n]] == lines;
    }
  }

  /** The meter that has processed the lines delivered by these reads. */
  function Open(cfg: Config, pieces: seq<Bytes>): Meter {
    ProcessLines(cfg, Start(cfg), Delivered(pieces)).(splitter := SplitterAfter(pieces))
  }

  lemma {:induction false} OneMorePiece(cfg: Config, pieces: seq<Bytes>, data: Bytes)
    ensures Inspect(cfg, Open(cfg, pieces), data) == Open(cfg, pieces + [data])
  {
    var m, sp := ProcessLines(cfg, Start(cfg), Delivered(pieces)), SplitterAfter(pieces);
    var fed := Feed(sp, data);
    assert (pieces + [data])[..|pieces|] == pieces;
    InspectIsFeed(cfg, m.(splitter := sp), data);
    ProcessLinesFrame(cfg, m, sp, fed.lines);
    ProcessLinesSplits(cfg, Start(cfg), Delivered(pieces), fed.lines);
  }

  /** Until a read fails or the body is closed, the meter is the batch over the delivered lines. */
  lemma {:induction false} OpenRun(cfg: Config, events: seq<Event>)
    requires forall e :: e in events ==> !Ends(e)
    ensures Run(cfg, events) == Open(cfg, Pieces(events))
  {
    if events != [] {
      var before, e := events[..|events| - 1], events[|events| - 1];
      OpenRun(cfg, before);
      assert !Ends(e);
      StepOfOpen(cfg, Pieces(before), e);
    }
  }

  /** The reads after one more event. */
  function PiecesThen(pieces: seq<Bytes>, e: Event): (r: seq<Bytes>)
    ensures r == pieces + (if e.Read? && e.data != [] then [e.data] else [])
  {
    if e.Read? && e.data != [] then pieces + [e.data] else pieces
  }

  lemma {:induction false} StepOfOpen(cfg: Config, pieces: seq<Bytes>, e: Event)
    ensures var m := Open(cfg, PiecesThen(pieces, e));
      Step(cfg, Open(cfg, pieces), e) == if Ends(e) then Finish(cfg, m) else m
  {
    if e.Read? && e.data != [] { OneMorePiece(cfg, pieces, e.data); }
  }

  lemma {:induction false} ReportsAreFinal(cfg: Config, es: seq<Event>, more: seq<Event>)
    requires Run(cfg, es).reports != []
    ensures Run(cfg, es + more).reports == Run(cfg, es).reports
  {
    if more == [] {
      assert es + more == es;
    } else {
      var n := |more| - 1;
      ReportsAreFinal(cfg, es, more[..n]);
      assert (es + more)[..|es + more| - 1] == es + more[..n];
      var m := Run(cfg, es + more[..n]);
      if more[n].Read? {
        InspectIsFeed(cfg, m, more[n].data);
        ReportedStays(cfg, m, Feed(m.splitter, more[n].data).lines);
      }
    }
  }

  lemma {:induction false} ReportedStays(cfg: Config, m: Meter, lines: seq<Bytes>)
    requires m.reports != []
    ensures ProcessLines(cfg, m, lines).reports == m.reports
  {
    if lines != [] { ReportedStays(cfg, m, lines[..|lines| - 1]); }
  }

  /**
   `onDone` fires exactly once, whatever happens after the end of the stream, and with the batch
   report of the delivered lines before the first [DONE].
   */
  lemma {:induction false} OnDoneFiresOnce(cfg: Config, es: seq<Event>, last: Event, more: seq<Event>)
    requires (forall e :: e in es ==> !Ends(e)) && Ends(last)
    ensures Run(cfg, es + [last] + more).reports == [BatchReport(cfg, Delivered(Pieces(es + [last])))]
  {
    var ended := es + [last];
    assert ended[..|es|] == es;
    OpenRun(cfg, es);
    StepOfOpen(cfg, Pieces(es), last);
    FinishReports(cfg, Pieces(ended));
    ReportsAreFinal(cfg, ended, more);
  }

  lemma {:induction false} FinishReports(cfg: Config, pieces: seq<Bytes>)
    ensures Finish(cfg, Open(cfg, pieces)).reports == [BatchReport(cfg, Delivered(pieces))]
  {
    ProcessedBatch(cfg, Delivered(pieces));
    WithoutDone(cfg, Delivered(pieces));
  }

  lemma {:induction false} WithoutDone(cfg: Config, lines: seq<Bytes>)
    ensures !HasDone(cfg, lines) ==> BeforeDone(cfg, lines) == lines
  {
    if lines != [] {
      var n := |lines| - 1;
      BeforeDoneStep(cfg, lines[..n], lines[n]);
      assert lines[..n] + [lines[n]] == lines;
    }
  }

  /** Before the end of the stream `onDone` has fired exactly when a [DONE] line was delivered. */
  lemma {:induction false} OnDoneFiresEarlyOnlyOnDone(cfg: Config, es: seq<Event>)
    requires forall e :: e in es ==> !Ends(e)
    ensures var lines := Delivered(Pieces(es));
      Run(cfg, es).reports == if HasDone(cfg, lines) then [BatchReport(cfg, lines)] else []
  {
    OpenRun(cfg, es);
    ProcessedBatch(cfg, Delivered(Pieces(es)));
  }

  /** Two runs that end after the same bytes, all lines within the cap, report the same. */
  lemma {:induction false} ReportIsChunkInvariant(cfg: Config, es: seq<Event>, last: Event, es': seq<Event>,
      last': Event)
    requires (forall e :: e in es ==> !Ends(e)) && Ends(last)
    requires (forall e :: e in es' ==> !Ends(e)) && Ends(last')
    requires Concat(Pieces(es + [last])) == Concat(Pieces(es' + [last']))
    requires Fits(Concat(Pieces(es + [last])))
    ensures Run(cfg, es + [last]).reports == Run(cfg, es' + [last']).reports
         == [BatchReport(cfg, Lines(Concat(Pieces(es + [last]))))]
  {
    OnDoneFiresOnce(cfg, es, last, []);
    OnDoneFiresOnce(cfg, es', last', []);
    assert es + [last] + [] == es + [last] && es' + [last'] + [] == es' + [last'];
    FittingStreamIsChunkInvariant(Pieces(es + [last]));
    FittingStreamIsChunkInvariant(Pieces(es' + [last']));
  }

  // ---------------------------------------------------------------------
  // What the batch counters mean

  predicate HasUsage(cfg: Config, line: Bytes) {
    var kind := Classify(cfg.decode, line);
    kind.Data? && Bills(kind.chunk)
  }

  predicate HasModel(cfg: Config, line: Bytes) {
    var kind := Classify(cfg.decode, line);
    kind.Data? && kind.chunk.model != ""
  }

  /** The last usage with a positive total wins. */
  lemma {:induction false} LastUsageWins(cfg: Config, lines: seq<Bytes>, j: nat)
    requires j <= |lines|
    requires forall i :: j < i < |lines| ==> !HasUsage(cfg, lines[i])
    ensures j < |lines| && HasUsage(cfg, lines[j]) ==>
      TallyOf(cfg, lines).usage == Classify(cfg.decode, lines[j]).chunk.usage.value
    ensures (forall i :: 0 <= i < |lines| ==> !HasUsage(cfg, lines[i])) ==> TallyOf(cfg, lines).usage == NO_USAGE
  {
    if lines != [] {
      var n := |lines| - 1;
      LastUsageWins(cfg, lines[..n], if j < n then j else n);
    }
  }

  /** The last non-empty model wins, and the initial one stands when there is none. */
  lemma {:induction false} LastModelWins(cfg: Config, lines: seq<Bytes>, j: nat)
    requires j <= |lines|
    requires forall i :: j < i < |lines| ==> !HasModel(cfg, lines[i])
    ensures j < |lines| && HasModel(cfg, lines[j]) ==>
      TallyOf(cfg, lines).model == Classify(cfg.decode, lines[j]).chunk.model
    ensures (forall i :: 0 <= i < |lines| ==> !HasModel(cfg, lines[i])) ==>
      TallyOf(cfg, lines).model == cfg.initialModel
  {
    if lines != [] {
      var n := |lines| - 1;
      LastModelWins(cfg, lines[..n], if j < n then j else n);
    }
  }

  /** Text lengths add up over the lines, in any grouping. */
  lemma {:induction false} TextLengthsAdd(cfg: Config, a: seq<Bytes>, b: seq<Bytes>)
    ensures TallyOf(cfg, a + b).textLen == TallyOf(cfg, a).textLen + TallyOf(cfg, b).textLen
  {
    if b == [] {
      assert a + b == a;
    } else {
      var n := |b| - 1;
      TextLengthsAdd(cfg, a, b[..n]);
      assert (a + b)[..|a + b| - 1] == a + b[..n];
    }
  }
}
