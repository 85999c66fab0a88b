/**
 The incremental line splitter of internal/gateway/stream_meter.go, on bytes.

 `Lines` and `Tail` are the batch reading of a byte stream; `Feed` is what one
 call of `inspect` does to the line buffer. `DeliveredExactly` says which of the
 batch lines reach `processLine` when the stream arrives in arbitrary pieces.
 */
module SseLines {
  newtype byte = b: int | 0 <= b < 256
  type Bytes = seq<byte>

  const NL: byte := 10
  const CR: byte := 13
  const MAX_LINE_BUF_SIZE: nat := 0x10_0000

  /** The position of the first newline, or |s| when there is none. */
  function IndexNL(s: Bytes): (i: nat)
    ensures i <= |s|
    ensures forall k :: 0 <= k < i ==> s[k] != NL
    ensures i < |s| ==> s[i] == NL
  {
    if s == [] || s[0] == NL then 0 else 1 + IndexNL(s[1..])
  }

  /** The newline-terminated lines of a stream, without their newlines. */
  function Lines(s: Bytes): seq<Bytes>
    decreases |s|
  {
    var i := IndexNL(s);
    if i == |s| then [] else [s[..i]] + Lines(s[i + 1..])
  }

  /** What follows the last newline. */
  function Tail(s: Bytes): Bytes
    decreases |s|
  {
    var i := IndexNL(s);
    if i == |s| then s else Tail(s[i + 1..])
  }

  /** `lineBuf` and `lineOverflowed`. */
  datatype Splitter = Splitter(buf: Bytes, overflowed: bool)

  const EMPTY := Splitter([], false)

  /** The outcome of one `inspect`: the new splitter, and the lines handed to `processLine`. */
  datatype Fed = Fed(splitter: Splitter, lines: seq<Bytes>)

  function Feed(sp: Splitter, data: Bytes): Fed {
    var pending := sp.buf + data;
    var lines := Lines(pending);
    var rest := Tail(pending);
    var stillSkipping := sp.overflowed && lines == [];
    var next := if |rest| > MAX_LINE_BUF_SIZE then Splitter([], true) else Splitter(rest, stillSkipping);
    Fed(next, if sp.overflowed && lines != [] then lines[1..] else lines)
  }

  /** The splitter after a sequence of reads. */
  function SplitterAfter(pieces: seq<Bytes>): Splitter {
    if pieces == [] then EMPTY else Feed(SplitterAfter(pieces[..|pieces| - 1]), pieces[|pieces| - 1]).splitter
  }

  /** All lines handed to `processLine` over a sequence of reads, in order. */
  function Delivered(pieces: seq<Bytes>): seq<Bytes> {
    if pieces == [] then []
    else
      var before := pieces[..|pieces| - 1];
      Delivered(before) + Feed(SplitterAfter(before), pieces[|pieces| - 1]).lines
  }

  function Concat(pieces: seq<Bytes>): Bytes {
    if pieces == [] then [] else Concat(pieces[..|pieces| - 1]) + pieces[|pieces| - 1]
  }

  lemma {:induction false} Regroup<T>(a: seq<T>, b: seq<T>, c: seq<T>)
    ensures a + (b + c) == a + b + c
  {
  }

  // ---------------------------------------------------------------------
  // Batch reading of a concatenation

  /** A newline-free prefix followed by a newline is the first line. */
  lemma {:induction false} FirstLine(p: Bytes, rest: Bytes)
    requires NL !in p
    ensures IndexNL(p + [NL] + rest) == |p|
    ensures Lines(p + [NL] + rest) == [p] + Lines(rest)
    ensures Tail(p + [NL] + rest) == Tail(rest)
  {
    var s := p + [NL] + rest;
    var i := IndexNL(s);
    assert s[|p|] == NL;
    assert forall k :: 0 <= k < |p| ==> s[k] == p[k] && p[k] in p;
    assert s[..i] == p && s[i + 1..] == rest;
  }

  lemma {:induction false} NoLine(p: Bytes)
    requires NL !in p
    ensures Lines(p) == [] && Tail(p) == p && IndexNL(p) == |p|
  {
    assert forall k :: 0 <= k < |p| ==> p[k] in p;
  }

  lemma {:induction false} TailHasNoNewline(s: Bytes)
    ensures NL !in Tail(s)
    decreases |s|
  {
    var i := IndexNL(s);
    if i < |s| { TailHasNoNewline(s[i + 1..]); }
  }

  lemma {:induction false} CutAt(s: Bytes, i: nat, d: Bytes)
    requires i < |s| && s[i] == NL
    ensures s == s[..i] + [NL] + s[i + 1..]
    ensures s + d == s[..i] + [NL] + (s[i + 1..] + d)
  {
  }

  /** Reading a stream in two pieces: only the unfinished line crosses the cut. */
  lemma {:induction false} SplitAnywhere(s: Bytes, d: Bytes)
    ensures Lines(s + d) == Lines(s) + Lines(Tail(s) + d)
    ensures Tail(s + d) == Tail(Tail(s) + d)
    decreases |s|
  {
    var i := IndexNL(s);
    if i == |s| {
      NoLine(s);
    } else {
      var p, rest := s[..i], s[i + 1..];
      CutAt(s, i, d);
      SplitAnywhere(rest, d);
      FirstLine(p, rest);
      FirstLine(p, rest + d);
      calc {
        Lines(s + d);
        [p] + Lines(rest + d);
        [p] + (Lines(rest) + Lines(Tail(rest) + d));
        { Regroup([p], Lines(rest), Lines(Tail(rest) + d)); }
        [p] + Lines(rest) + Lines(Tail(rest) + d);
        Lines(s) + Lines(Tail(s) + d);
      }
    }
  }

  /** Lines with their newlines. */
  function Unlines(lines: seq<Bytes>): Bytes {
    if lines == [] then [] else lines[0] + [NL] + Unlines(lines[1..])
  }

  lemma {:induction false} UnlinesFirst(p: Bytes, lines: seq<Bytes>, tail: Bytes)
    ensures Unlines([p] + lines) + tail == p + [NL] + (Unlines(lines) + tail)
  {
    assert ([p] + lines)[1..] == lines;
    Regroup(p + [NL], Unlines(lines), tail);
  }

  /** Nothing is lost: the lines with a newline behind each, and the rest, make up the stream. */
  lemma {:induction false} LinesInFull(s: Bytes)
    ensures Unlines(Lines(s)) + Tail(s) == s
    decreases |s|
  {
    var i := IndexNL(s);
    if i < |s| {
      var p, rest := s[..i], s[i + 1..];
      LinesInFull(rest);
      UnlinesFirst(p, Lines(rest), Tail(rest));
      CutAt(s, i, []);
    }
  }

  /** And no line contains a newline. */
  lemma {:induction false} LinesHaveNoNewline(s: Bytes, i: nat)
    requires i < |Lines(s)|
    ensures 10 !in Lines(s)[i]
    decreases |s|
  {
    var j := IndexNL(s);
    if i > 0 {
      LinesHaveNoNewline(s[j + 1..], i - 1);
    }
  }

  /** The lines that a read completes, when the unfinished line so far is p. */
  function Completed(p: Bytes, d: Bytes): seq<Bytes> {
    var j := IndexNL(d);
    if j == |d| then [] else [p + d[..j]] + Lines(d[j + 1..])
  }

  lemma {:induction false} CompletedLines(p: Bytes, d: Bytes)
    requires NL !in p
    ensures Lines(p + d) == Completed(p, d)
    ensures Completed(p, d) == [] ==> Tail(p + d) == p + d
    ensures Completed(p, d) != [] ==> Tail(p + d) == Tail(d[IndexNL(d) + 1..])
  {
    var j := IndexNL(d);
    if j < |d| {
      CutAfter(p, d, j);
      FirstLine(p + d[..j], d[j + 1..]);
    } else {
      NoLine(p + d);
    }
  }

  lemma {:induction false} CutAfter(p: Bytes, d: Bytes, j: nat)
    requires j < |d| && d[j] == NL && NL !in p && NL !in d[..j]
    ensures p + d == (p + d[..j]) + [NL] + d[j + 1..] && NL !in p + d[..j]
  {
    CutAt(d, j, []);
    Regroup(p, d[..j] + [NL], d[j + 1..]);
    Regroup(p, d[..j], [NL]);
  }

  /** The start of the unfinished line shows in the first of the completed lines only. */
  lemma {:induction false} CompletedBy(p: Bytes, d: Bytes)
    requires NL !in p
    ensures Lines(p + d) == Completed(p, d)
    ensures Completed(p, d) == [] ==> Tail(p + d) == p + d
    ensures Completed(p, d) != [] ==> Tail(p + d) == Tail(d[IndexNL(d) + 1..])
    ensures forall q :: |Completed(p, d)| == |Completed(q, d)|
    ensures forall q :: Completed(p, d) != [] ==> Completed(p, d)[1..] == Completed(q, d)[1..]
  {
    CompletedLines(p, d);
  }

  // ---------------------------------------------------------------------
  // Which lines are delivered

  /** After some read, i lines were complete and line i already exceeded the cap. */
  ghost predicate GaveUpOn(pieces: seq<Bytes>, i: nat) {
    exists j :: 0 <= j <= |pieces| && StuckAt(pieces[..j], i)
  }

  ghost predicate StuckAt(pieces: seq<Bytes>, i: nat) {
    |Lines(Concat(pieces))| == i && |Tail(Concat(pieces))| > MAX_LINE_BUF_SIZE
  }

  /** The lines whose position is not in `dropped`. */
  ghost function Except(lines: seq<Bytes>, dropped: iset<nat>): seq<Bytes> {
    if lines == [] then []
    else
      var n := |lines| - 1;
      Except(lines[..n], dropped) + (if n in dropped then [] else [lines[n]])
  }

  ghost function Dropped(pieces: seq<Bytes>): iset<nat> {
    iset i: nat | GaveUpOn(pieces, i)
  }

  lemma {:induction false} GaveUpStep(pieces: seq<Bytes>, i: nat)
    requires pieces != []
    ensures GaveUpOn(pieces, i) <==> GaveUpOn(pieces[..|pieces| - 1], i) || StuckAt(pieces, i)
  {
    var before := pieces[..|pieces| - 1];
    assert pieces[..|pieces|] == pieces;
    forall j | 0 <= j <= |before| ensures pieces[..j] == before[..j] { }
    if GaveUpOn(before, i) {
      var j :| 0 <= j <= |before| && StuckAt(before[..j], i);
      assert StuckAt(pieces[..j], i);
    }
  }

  lemma {:induction false} CountsGrow(pieces: seq<Bytes>, i: nat)
    ensures GaveUpOn(pieces, i) ==> i <= |Lines(Concat(pieces))|
  {
    if pieces == [] {
      assert pieces[..0] == pieces;
    } else {
      var before := pieces[..|pieces| - 1];
      CountsGrow(before, i);
      GaveUpStep(pieces, i);
      SplitAnywhere(Concat(before), pieces[|pieces| - 1]);
    }
  }

  lemma {:induction false} ExceptAgrees(lines: seq<Bytes>, d: iset<nat>, d': iset<nat>)
    requires forall i: nat :: i < |lines| ==> (i in d <==> i in d')
    ensures Except(lines, d) == Except(lines, d')
  {
    if lines != [] { ExceptAgrees(lines[..|lines| - 1], d, d'); }
  }

  lemma {:induction false} ExceptKeepsRest(a: seq<Bytes>, b: seq<Bytes>, d: iset<nat>)
    requires forall i: nat :: |a| <= i < |a| + |b| ==> i !in d
    ensures Except(a + b, d) == Except(a, d) + b
  {
    if b == [] {
      assert a + b == a;
    } else {
      var n := |b| - 1;
      ExceptKeepsRest(a, b[..n], d);
      assert (a + b)[..|a + b| - 1] == a + b[..n];
      assert b[..n] + [b[n]] == b;
    }
  }

  /** What the splitter knows after any reads: it tracks the unfinished line or has given up on it. */
  lemma {:induction false} SplitterTracks(pieces: seq<Bytes>)
    ensures var s := Concat(pieces); var sp := SplitterAfter(pieces);
      && |sp.buf| <= MAX_LINE_BUF_SIZE && NL !in sp.buf
      && (sp.overflowed <==> GaveUpOn(pieces, |Lines(s)|))
      && (!sp.overflowed ==> sp.buf == Tail(s))
  {
    if pieces == [] {
      assert pieces[..0] == pieces;
      forall j | 0 <= j <= |pieces| ensures !StuckAt(pieces[..j], 0) { }
    } else {
      var before, d := pieces[..|pieces| - 1], pieces[|pieces| - 1];
      SplitterTracks(before);
      var s0, sp0 := Concat(before), SplitterAfter(before);
      SplitAnywhere(s0, d);
      TailHasNoNewline(s0);
      TailHasNoNewline(sp0.buf + d);
      CompletedBy(Tail(s0), d);
      CompletedBy(sp0.buf, d);
      GaveUpStep(pieces, |Lines(s0 + d)|);
      CountsGrow(before, |Lines(s0 + d)|);
    }
  }

  /** Every split into reads delivers exactly the lines that no read left unfinished beyond the cap. */
  lemma {:induction false} DeliveredExactly(pieces: seq<Bytes>)
    ensures Delivered(pieces) == Except(Lines(Concat(pieces)), Dropped(pieces))
  {
    if pieces != [] {
      var before, d := pieces[..|pieces| - 1], pieces[|pieces| - 1];
      DeliveredExactly(before);
      DeliveredStep(before, d, pieces);
    }
  }

  lemma {:induction false} DeliveredStep(before: seq<Bytes>, d: Bytes, pieces: seq<Bytes>)
    requires pieces != [] && before == pieces[..|pieces| - 1] && d == pieces[|pieces| - 1]
    requires Delivered(before) == Except(Lines(Concat(before)), Dropped(before))
    ensures Delivered(pieces) == Except(Lines(Concat(pieces)), Dropped(pieces))
  {
    var s0, sp0 := Concat(before), SplitterAfter(before);
    var done, added := Lines(s0), Completed(Tail(s0), d);
    SplitterTracks(before);
    TailHasNoNewline(s0);
    SplitAnywhere(s0, d);
    CompletedBy(Tail(s0), d);
    FeedLines(sp0, Tail(s0), d);
    DroppedStep(before, pieces);
    OneMoreThenAll(done, added, Dropped(pieces), Dropped(before));
  }

  lemma {:induction false} FeedLines(sp: Splitter, current: Bytes, d: Bytes)
    requires NL !in sp.buf && NL !in current && (!sp.overflowed ==> sp.buf == current)
    ensures Feed(sp, d).lines
         == if sp.overflowed && Completed(current, d) != [] then Completed(current, d)[1..] else Completed(current, d)
  {
    CompletedBy(sp.buf, d);
    CompletedBy(current, d);
  }

  /** A read can only add the position of the line it leaves unfinished. */
  lemma {:induction false} DroppedStep(before: seq<Bytes>, pieces: seq<Bytes>)
    requires pieces != [] && before == pieces[..|pieces| - 1]
    ensures forall i: nat :: i < |Lines(Concat(pieces))| ==> (i in Dropped(pieces) <==> i in Dropped(before))
    ensures forall i: nat :: i in Dropped(before) ==> i <= |Lines(Concat(before))|
  {
    forall i: nat
      ensures i < |Lines(Concat(pieces))| ==> (i in Dropped(pieces) <==> i in Dropped(before))
      ensures i in Dropped(before) ==> i <= |Lines(Concat(before))|
    {
      GaveUpStep(pieces, i);
      CountsGrow(before, i);
    }
  }

  /** Only the first of the lines that a read completes can be dropped. */
  lemma {:induction false} OneMoreThenAll(done: seq<Bytes>, more: seq<Bytes>, d: iset<nat>, d0: iset<nat>)
    requires forall i: nat :: i < |done| + |more| ==> (i in d <==> i in d0)
    requires forall i: nat :: i in d0 ==> i <= |done|
    ensures Except(done + more, d) == Except(done, d0) + (if |done| in d0 && more != [] then more[1..] else more)
  {
    ExceptAgrees(done + more, d, d0);
    if more == [] {
      assert done + more == done;
    } else {
      assert done + more == (done + [more[0]]) + more[1..];
      ExceptKeepsRest(done + [more[0]], more[1..], d0);
      assert (done + [more[0]])[..|done|] == done;
      assert more == [more[0]] + more[1..];
      Regroup(Except(done, d0), [more[0]], more[1..]);
    }
  }

  // ---------------------------------------------------------------------
  // What that means for the caller

  ghost predicate Fits(s: Bytes) {
    (forall line :: line in Lines(s) ==> |line| <= MAX_LINE_BUF_SIZE) && |Tail(s)| <= MAX_LINE_BUF_SIZE
  }

  lemma {:induction false} ConcatPrefix(pieces: seq<Bytes>, j: nat) returns (rest: Bytes)
    requires j <= |pieces|
    ensures Concat(pieces) == Concat(pieces[..j]) + rest
  {
    if j == |pieces| {
      assert pieces[..j] == pieces;
      rest := [];
    } else {
      var n := |pieces| - 1;
      var r := ConcatPrefix(pieces[..n], j);
      assert pieces[..n][..j] == pieces[..j];
      rest := r + pieces[n];
    }
  }

  /** A line is dropped only when it is longer than the cap. */
  lemma {:induction false} DroppedLinesAreLong(pieces: seq<Bytes>, i: nat)
    requires i in Dropped(pieces)
    ensures i < |Lines(Concat(pieces))| ==> |Lines(Concat(pieces))[i]| > MAX_LINE_BUF_SIZE
    ensures i >= |Lines(Concat(pieces))| ==> |Tail(Concat(pieces))| > MAX_LINE_BUF_SIZE
  {
    var j :| 0 <= j <= |pieces| && StuckAt(pieces[..j], i);
    var prefix := Concat(pieces[..j]);
    var rest := ConcatPrefix(pieces, j);
    TailHasNoNewline(prefix);
    SplitAnywhere(prefix, rest);
    CompletedBy(Tail(prefix), rest);
  }

  lemma {:induction false} FittingStreamDropsNothing(pieces: seq<Bytes>, i: nat)
    requires Fits(Concat(pieces))
    ensures !GaveUpOn(pieces, i)
  {
    var lines := Lines(Concat(pieces));
    assert i < |lines| ==> lines[i] in lines;
    if GaveUpOn(pieces, i) { DroppedLinesAreLong(pieces, i); }
  }

  lemma {:induction false} ExceptNothing(lines: seq<Bytes>, d: iset<nat>)
    requires forall i: nat :: i < |lines| ==> i !in d
    ensures Except(lines, d) == lines
  {
    if lines != [] {
      var n := |lines| - 1;
      ExceptNothing(lines[..n], d);
      assert lines == lines[..n] + [lines[n]];
    }
  }

  /** Chunk invariance: a stream whose lines fit is split the same way by every sequence of reads. */
  lemma {:induction false} FittingStreamIsChunkInvariant(pieces: seq<Bytes>)
    requires Fits(Concat(pieces))
    ensures Delivered(pieces) == Lines(Concat(pieces))
    ensures !SplitterAfter(pieces).overflowed && SplitterAfter(pieces).buf == Tail(Concat(pieces))
  {
    FittingStreamDropsNothing(pieces, |Lines(Concat(pieces))|);
    forall i: nat ensures i !in Dropped(pieces) { FittingStreamDropsNothing(pieces, i); }
    DeliveredExactly(pieces);
    SplitterTracks(pieces);
    ExceptNothing(Lines(Concat(pieces)), Dropped(pieces));
  }

  lemma {:induction false} LinesAreShorter(s: Bytes, i: nat)
    requires i < |Lines(s)|
    ensures |Lines(s)[i]| < |s|
    decreases |s|
  {
    if i > 0 { LinesAreShorter(s[IndexNL(s) + 1..], i - 1); }
  }

  /** With reads of at most k bytes, every line of at least cap + k bytes is dropped. */
  lemma {:induction false} LongLinesAreDropped(pieces: seq<Bytes>, k: nat, i: nat)
    requires forall p :: p in pieces ==> |p| <= k
    requires i < |Lines(Concat(pieces))| && |Lines(Concat(pieces))[i]| >= MAX_LINE_BUF_SIZE + k
    ensures i in Dropped(pieces)
  {
    if pieces != [] {
      var before, d := pieces[..|pieces| - 1], pieces[|pieces| - 1];
      var s0 := Concat(before);
      TailHasNoNewline(s0);
      SplitAnywhere(s0, d);
      CompletedBy(Tail(s0), d);
      DroppedStep(before, pieces);
      if i < |Lines(s0)| {
        LongLinesAreDropped(before, k, i);
      } else {
        SplitterTracks(before);
        if i > |Lines(s0)| {
          LinesAreShorter(d[IndexNL(d) + 1..], i - |Lines(s0)| - 1);
          assert false;
        }
      }
    }
  }

  /** Memory: between reads the buffer never exceeds a mebibyte, and during one it never exceeds that and k. */
  lemma {:induction false} BufferIsBounded(pieces: seq<Bytes>, d: Bytes, k: nat)
    requires |d| <= k
    ensures |SplitterAfter(pieces).buf| <= 1_048_576
    ensures |SplitterAfter(pieces).buf + d| <= 1_048_576 + k
  {
    SplitterTracks(pieces);
  }
}
