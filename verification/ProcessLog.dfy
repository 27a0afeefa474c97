/**
 pkg/image/internal/buildkit/buildkit.go: the writers that capture a child process's output and log
 it line by line, however the process cuts its writes. Text is modelled as characters.
 */
module ProcessLog {
  import opened Prelude
  import opened Text

  // ------------------------------------------------------------------
  // What a log of a stream should be
  // ------------------------------------------------------------------

  /** The newline-separated pieces of a text, the last one possibly empty. */
  function Lines(s: string): seq<string> {
    Split(s, '\n')
  }

  function TrimReturns(line: string): string {
    if line != "" && line[|line| - 1] == '\r' then TrimReturns(line[..|line| - 1]) else line
  }

  lemma {:induction false} TrimReturnsCuts(line: string)
    ensures var r := TrimReturns(line); |r| <= |line| && r == line[..|r|] && (r != "" ==> r[|r| - 1] != '\r')
    ensures forall k | |TrimReturns(line)| <= k < |line| :: line[k] == '\r'
  {
    if line != "" && line[|line| - 1] == '\r' {
      TrimReturnsCuts(line[..|line| - 1]);
    }
  }

  /** Nothing for a blank line. */
  function Shown(line: string): seq<string> {
    if TrimSpace(TrimReturns(line)) == "" then [] else [TrimReturns(line)]
  }

  function ShownAll(lines: seq<string>): seq<string> {
    if lines == [] then [] else Shown(lines[0]) + ShownAll(lines[1..])
  }

  lemma {:induction false} ShownAllAppends(a: seq<string>, b: seq<string>)
    ensures ShownAll(a + b) == ShownAll(a) + ShownAll(b)
  {
    if a == [] {
      assert a + b == b;
    } else {
      assert (a + b)[0] == a[0] && (a + b)[1..] == a[1..] + b;
      ShownAllAppends(a[1..], b);
    }
  }

  lemma ShownOne(line: string)
    ensures ShownAll([line]) == Shown(line)
  {
    assert [line][1..] == [] && Shown(line) + [] == Shown(line);
  }

  /**
   Blank lines are exactly the white ones: carriage returns are white space. Of any other line
   everything is kept but the carriage returns at its end.
   */
  lemma ShownExactly(line: string)
    ensures Shown(line) == [] <==> Blank(line)
    ensures !Blank(line) ==>
      exists n | 0 < n <= |line| ::
        && Shown(line) == [line[..n]] && line[n - 1] != '\r'
        && forall k | n <= k < |line| :: line[k] == '\r'
  {
    var r := TrimReturns(line);
    TrimReturnsCuts(line);
    TrimSpaceTrims(r);
    assert forall k | 0 <= k < |r| :: r[k] == line[k];
    if !Blank(line) {
      assert Shown(line) == [line[..|r|]];
    }
  }

  // ------------------------------------------------------------------
  // The writer as a value
  // ------------------------------------------------------------------

  datatype Event = Chunk(text: string) | Flush | Suppress

  datatype Writer = Writer(line: string, suppress: bool, emitted: seq<string>)

  function Emit(w: Writer): Writer {
    Writer.Writer("", w.suppress, if w.suppress then w.emitted else w.emitted + Shown(w.line))
  }

  function Step(w: Writer, e: Event): Writer {
    match e
    case Chunk(text) =>
      var parts := Lines(w.line + text);
      Writer.Writer(Last(parts), w.suppress, if w.suppress then w.emitted else w.emitted + ShownAll(Init(parts)))
    case Flush => Emit(w)
    case Suppress => Writer.Writer("", true, w.emitted)
  }

  function Run(w: Writer, events: seq<Event>): Writer
    decreases |events|
  {
    if events == [] then w else Run(Step(w, events[0]), events[1..])
  }

  function Chunks(texts: seq<string>): seq<Event> {
    if texts == [] then [] else [Chunk(texts[0])] + Chunks(texts[1..])
  }

  function Concat(texts: seq<string>): string {
    if texts == [] then "" else texts[0] + Concat(texts[1..])
  }

  /** What the step of a chunk does, once the pieces are known. */
  lemma ChunkStep(w: Writer, text: string, done: seq<string>, more: seq<string>)
    requires more != [] && Lines(w.line + text) == done + more
    ensures
      Step(w, Chunk(text)) ==
      Writer.Writer(
        Last(more), w.suppress,
        if w.suppress then w.emitted else w.emitted + ShownAll(done) + ShownAll(Init(more)))
  {
    InitAndLast(done, more);
    ShownAllAppends(done, Init(more));
    assert w.emitted + ShownAll(done) + ShownAll(Init(more)) == w.emitted + (ShownAll(done) + ShownAll(Init(more)));
  }

  /** Two chunks are as good as one. */
  lemma ChunksMerge(w: Writer, a: string, b: string)
    ensures Step(Step(w, Chunk(a)), Chunk(b)) == Step(w, Chunk(a + b))
  {
    var parts := Lines(w.line + a);
    var more := Lines(Last(parts) + b);
    assert w.line + (a + b) == w.line + a + b;
    SplitContinues(w.line + a, b, '\n');
    ChunkStep(w, a + b, Init(parts), more);
  }

  lemma {:induction false} RunChunks(w: Writer, texts: seq<string>)
    requires '\n' !in w.line
    ensures Run(w, Chunks(texts)) == Step(w, Chunk(Concat(texts)))
    decreases |texts|
  {
    if texts == [] {
      assert w.line + "" == w.line && Lines(w.line) == [w.line] && Init([w.line]) == [];
    } else {
      var next := Step(w, Chunk(texts[0]));
      SplitIsSeparation(w.line + texts[0], '\n');
      assert Chunks(texts)[1..] == Chunks(texts[1..]);
      RunChunks(next, texts[1..]);
      ChunksMerge(w, texts[0], Concat(texts[1..]));
    }
  }

  lemma {:induction false} RunAppends(w: Writer, a: seq<Event>, b: seq<Event>)
    ensures Run(w, a + b) == Run(Run(w, a), b)
    decreases |a|
  {
    if a == [] {
      assert a + b == b;
    } else {
      assert (a + b)[0] == a[0] && (a + b)[1..] == a[1..] + b;
      RunAppends(Step(w, a[0]), a[1..], b);
    }
  }

  const FRESH := Writer.Writer("", false, [])

  /** However a stream is cut, the log is its non-blank lines, trailing carriage returns trimmed, in order. */
  lemma EveryCutGivesTheLines(texts: seq<string>)
    ensures Run(FRESH, Chunks(texts) + [Flush]).emitted == ShownAll(Lines(Concat(texts)))
  {
    RunAppends(FRESH, Chunks(texts), [Flush]);
    RunChunks(FRESH, texts);
    FlushEnds(Concat(texts));
  }

  lemma FlushEnds(stream: string)
    ensures Run(Step(FRESH, Chunk(stream)), [Flush]).emitted == ShownAll(Lines(stream))
  {
    var parts, w := Lines(stream), Step(FRESH, Chunk(stream));
    assert "" + stream == stream;
    assert w.emitted == ShownAll(Init(parts)) && w.line == Last(parts);
    OneEvent(w, Flush);
    assert parts == Init(parts) + [Last(parts)];
    ShownAllAppends(Init(parts), [Last(parts)]);
    ShownOne(Last(parts));
  }

  lemma OneEvent(w: Writer, e: Event)
    ensures Run(w, [e]) == Step(w, e)
  {
    assert [e][1..] == [];
  }

  /** After suppression nothing more is logged, whatever is written or flushed. */
  lemma {:induction false} SuppressedIsSilent(w: Writer, events: seq<Event>)
    requires w.suppress
    ensures Run(w, events).emitted == w.emitted && Run(w, events).suppress
    decreases |events|
  {
    if events == [] {
    } else {
      SuppressedIsSilent(Step(w, events[0]), events[1..]);
    }
  }

  /** A shutdown keeps the complete lines seen so far and drops the unfinished one and all that follows. */
  lemma SuppressionCutsAtTheLine(texts: seq<string>, later: seq<Event>)
    ensures Run(FRESH, Chunks(texts) + ([Suppress] + later)).emitted == ShownAll(Init(Lines(Concat(texts))))
  {
    RunAppends(FRESH, Chunks(texts), [Suppress] + later);
    RunChunks(FRESH, texts);
    assert "" + Concat(texts) == Concat(texts);
    var w := Step(FRESH, Chunk(Concat(texts)));
    assert ([Suppress] + later)[0] == Suppress && ([Suppress] + later)[1..] == later;
    SuppressedIsSilent(Step(w, Suppress), later);
  }

  // ------------------------------------------------------------------
  // The objects
  // ------------------------------------------------------------------

  class LockedBuffer {
    var content: string

    constructor ()
      ensures content == ""
    {
      content := "";
    }

    method Write(p: string) returns (n: nat)
      modifies this
      ensures content == old(content) + p && n == |p|
    {
      content := content + p;
      n := |p|;
    }
  }

  /** `emitted` is what reached the logger. */
  class LogWriter {
    var line: string
    var suppress: bool
    var emitted: seq<string>

    constructor ()
      ensures Value() == FRESH
    {
      line, suppress, emitted := "", false, [];
    }

    function Value(): Writer
      reads this
    {
      Writer.Writer(line, suppress, emitted)
    }

    method EmitLocked()
      modifies this
      ensures Value() == Emit(old(Value()))
    {
      var shown := TrimReturns(line);
      line := "";
      if suppress {
        return;
      }
      if TrimSpace(shown) == "" {
        return;
      }
      emitted := emitted + [shown];
    }

    method Write(text: string) returns (written: nat)
      requires '\n' !in line
      modifies this
      ensures '\n' !in line
      ensures Value() == Step(old(Value()), Chunk(text)) && written == |text|
    {
      written := |text|;
      var p := text;
      while p != ""
        invariant '\n' !in line
        invariant Step(Value(), Chunk(p)) == Step(old(Value()), Chunk(text))
        decreases |p|
      {
        var index := IndexOf(p, '\n');
        if index.None? {
          NoNewline(Value(), p);
          line := line + p;
          return;
        }
        FirstLine(line, p, index.value);
        EmitFirst(Value(), p, line + p[..index.value], p[index.value + 1..]);
        line := line + p[..index.value];
        EmitLocked();
        p := p[index.value + 1..];
      }
      NoNewline(Value(), "");
    }

    method Flush()
      modifies this
      ensures Value() == Step(old(Value()), Event.Flush)
    {
      EmitLocked();
    }

    method Suppress()
      modifies this
      ensures Value() == Step(old(Value()), Event.Suppress)
    {
      suppress := true;
      line := "";
    }
  }

  lemma NoNewline(w: Writer, p: string)
    requires '\n' !in w.line && '\n' !in p
    ensures Step(w, Chunk(p)) == w.(line := w.line + p)
  {
    assert '\n' !in w.line + p;
    assert Lines(w.line + p) == [w.line + p];
  }

  lemma FirstLine(line: string, p: string, n: nat)
    requires '\n' !in line && n < |p| && p[n] == '\n' && '\n' !in p[..n]
    ensures Lines(line + p) == [line + p[..n]] + Lines(p[n + 1..])
  {
    CatSlices(line, p, n);
    SplitAtFirst(line + p, |line| + n, '\n');
  }

  lemma EmitFirst(w: Writer, text: string, first: string, rest: string)
    requires Lines(w.line + text) == [first] + Lines(rest)
    ensures Step(w, Chunk(text)) == Step(Emit(w.(line := first)), Chunk(rest))
  {
    var shown := Emit(w.(line := first));
    ChunkStep(w, text, [first], Lines(rest));
    ShownOne(first);
    assert "" + rest == rest && [] + Lines(rest) == Lines(rest);
    ChunkStep(shown, rest, [], Lines(rest));
    assert shown.emitted + [] == shown.emitted;
  }

  /** Standard output or standard error of one process; both share the captured text. */
  class OutputBuffer {
    const captured: LockedBuffer
    const logs: LogWriter

    constructor (captured: LockedBuffer)
      ensures this.captured == captured && fresh(logs) && logs.Value() == FRESH
    {
      this.captured := captured;
      logs := new LogWriter();
    }

    method Write(p: string) returns (n: nat)
      requires '\n' !in logs.line
      modifies captured, logs
      ensures '\n' !in logs.line
      ensures captured.content == old(captured.content) + p
      ensures logs.Value() == Step(old(logs.Value()), Chunk(p)) && n == |p|
    {
      n := captured.Write(p);
      if n > 0 {
        var written := logs.Write(p[..n]);
        assert p[..n] == p;
      } else {
        NoNewline(logs.Value(), p);
        assert logs.line + p == logs.line;
      }
    }
  }

  // ------------------------------------------------------------------
  // Two streams of one process
  // ------------------------------------------------------------------

  datatype Piece = Piece(stderr: bool, text: string)

  function TextOf(pieces: seq<Piece>, stderr: bool): seq<string> {
    if pieces == [] then []
    else
      var last := pieces[|pieces| - 1];
      TextOf(pieces[..|pieces| - 1], stderr) + if last.stderr == stderr then [last.text] else []
  }

  function AllText(pieces: seq<Piece>): string {
    if pieces == [] then "" else AllText(pieces[..|pieces| - 1]) + pieces[|pieces| - 1].text
  }

  /** Any interleaving of the two streams: the capture is the interleaved text, each log its own stream's lines. */
  method Interleaved(pieces: seq<Piece>) returns (captured: string, stdout: seq<string>, stderr: seq<string>)
    ensures captured == AllText(pieces)
    ensures stdout == ShownAll(Lines(Concat(TextOf(pieces, false))))
    ensures stderr == ShownAll(Lines(Concat(TextOf(pieces, true))))
  {
    var shared := new LockedBuffer();
    var out := new OutputBuffer(shared);
    var err := new OutputBuffer(shared);
    for i := 0 to |pieces|
      invariant '\n' !in out.logs.line && '\n' !in err.logs.line && out.logs != err.logs
      invariant out.captured == shared == err.captured
      invariant shared.content == AllText(pieces[..i])
      invariant out.logs.Value() == Run(FRESH, Chunks(TextOf(pieces[..i], false)))
      invariant err.logs.Value() == Run(FRESH, Chunks(TextOf(pieces[..i], true)))
    {
      var n;
      OneMorePiece(pieces, i, pieces[i].stderr);
      if pieces[i].stderr {
        n := err.Write(pieces[i].text);
      } else {
        n := out.Write(pieces[i].text);
      }
    }
    assert pieces[..|pieces|] == pieces;
    FlushShows(out.logs.Value(), TextOf(pieces, false));
    FlushShows(err.logs.Value(), TextOf(pieces, true));
    out.logs.Flush();
    err.logs.Flush();
    return shared.content, out.logs.emitted, err.logs.emitted;
  }

  lemma {:induction false} ChunksAppend(texts: seq<string>, text: string)
    ensures Chunks(texts + [text]) == Chunks(texts) + [Chunk(text)]
  {
    if texts == [] {
      assert ([] + [text])[1..] == [];
    } else {
      assert (texts + [text])[0] == texts[0] && (texts + [text])[1..] == texts[1..] + [text];
      ChunksAppend(texts[1..], text);
    }
  }

  lemma OneMorePiece(pieces: seq<Piece>, i: nat, stderr: bool)
    requires i < |pieces| && pieces[i].stderr == stderr
    ensures AllText(pieces[..i + 1]) == AllText(pieces[..i]) + pieces[i].text
    ensures Run(FRESH, Chunks(TextOf(pieces[..i + 1], stderr)))
      == Step(Run(FRESH, Chunks(TextOf(pieces[..i], stderr))), Chunk(pieces[i].text))
    ensures Run(FRESH, Chunks(TextOf(pieces[..i + 1], !stderr))) == Run(FRESH, Chunks(TextOf(pieces[..i], !stderr)))
  {
    var text, texts := pieces[i].text, TextOf(pieces[..i], stderr);
    assert pieces[..i + 1][..i] == pieces[..i];
    ChunksAppend(texts, text);
    RunAppends(FRESH, Chunks(texts), [Chunk(text)]);
    OneEvent(Run(FRESH, Chunks(texts)), Chunk(text));
    assert TextOf(pieces[..i], !stderr) + [] == TextOf(pieces[..i], !stderr);
  }

  lemma FlushShows(w: Writer, texts: seq<string>)
    requires w == Run(FRESH, Chunks(texts))
    ensures Step(w, Flush).emitted == ShownAll(Lines(Concat(texts)))
  {
    EveryCutGivesTheLines(texts);
    RunAppends(FRESH, Chunks(texts), [Flush]);
    OneEvent(w, Flush);
  }
}
