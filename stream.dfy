/** The stream reader of `sendMessage` as pure functions of its state: the
    pending text buffer, the assistant text assembled so far and the turns
    shown. `Drain` is one batch of the inner loop (every complete line of the
    buffer, until a stop), `Feed` is one chunk, `Consume` a whole stream of
    chunks. They are stated for any `read` that tells what a line does
    (`Frames.Reader` is the page's); the theorems below say what they compute
    in terms of the lines of the buffer, independently of the loop's steps. */
module Stream {
  import opened Strings
  import opened LineBuffer
  import opened Frames
  import opened Conversation

  type LineReader = string -> Effect

  datatype State = State(buffer: string, soFar: string, messages: seq<Msg>)

  /** Why a batch ended: no "\n" left, a `[DONE]` payload, or a payload that
      did not parse and was put back. */
  datatype Exit = Drained | DoneSeen | Requeued

  datatype Outcome = Outcome(state: State, exit: Exit)

  /** What the loop body does with one line: go on with the next state,
      or stop the batch. */
  datatype Step = Continue(next: State) | Stop(outcome: Outcome)

  /** The loop body acting on the effect of one complete line, `rest` being
      the buffer after that line's "\n": non-empty text is appended and
      published, `[DONE]` stops with the line consumed, a put-back line goes
      back in front of the rest. */
  function HandleLine(s: State, e: Effect, rest: string): (r: Step)
    ensures r.Continue? <==> e.Append?
    ensures r.Continue? ==> r.next.buffer == rest
  {
    match e
    case Append(text) =>
      if text == "" then Continue(s.(buffer := rest))
      else
        var soFar := s.soFar + text;
        Continue(State(rest, soFar, UpdateAssistant(s.messages, soFar)))
    case EndBatch => Stop(Outcome(s.(buffer := rest), DoneSeen))
    case PutBack(line) => Stop(Outcome(s.(buffer := line + "\n" + rest), Requeued))
  }

  /** One batch of the inner `while` loop. A batch that drains leaves no
      complete line behind. */
  function Drain(s: State, read: LineReader): (r: Outcome)
    ensures r.exit == Drained ==> NoNewline(r.state.buffer)
    decreases |s.buffer|
  {
    var i := IndexOf(s.buffer, '\n');
    if i == -1 then Outcome(s, Drained)
    else
      match HandleLine(s, read(s.buffer[..i]), s.buffer[i + 1..])
      case Stop(outcome) => outcome
      case Continue(next) => Drain(next, read)
  }

  /** One chunk: append it to the buffer, then run a batch. */
  function Feed(s: State, chunk: string, read: LineReader): State {
    Drain(s.(buffer := s.buffer + chunk), read).state
  }

  /** The outer `while (true)` loop over every chunk the reader delivers. */
  function Consume(s: State, chunks: seq<string>, read: LineReader): State
    decreases |chunks|
  {
    if chunks == [] then s else Consume(Feed(s, chunks[0], read), chunks[1..], read)
  }

  function Concat(chunks: seq<string>): string {
    if chunks == [] then "" else chunks[0] + Concat(chunks[1..])
  }

  // ---------------------------------------------------------------------------
  // The batch described line by line

  /** Whether a complete line (as cut from the buffer) ends the batch. */
  predicate Stops(raw: string, read: LineReader) {
    !read(raw).Append?
  }

  /** The text one complete line adds to the assistant's message. */
  function Contribution(raw: string, read: LineReader): string {
    if read(raw).Append? then read(raw).text else ""
  }

  /** The contributions of the lines, in order. */
  function Extracted(lines: seq<string>, read: LineReader): string {
    if lines == [] then "" else Contribution(lines[0], read) + Extracted(lines[1..], read)
  }

  /** The position of the first line that stops a batch, or the number of
      lines when none does. */
  function StopIndex(lines: seq<string>, read: LineReader): (k: nat)
    ensures k <= |lines|
    ensures forall i :: 0 <= i < k ==> !Stops(lines[i], read)
    ensures k < |lines| ==> Stops(lines[k], read)
  {
    if lines == [] || Stops(lines[0], read) then 0 else 1 + StopIndex(lines[1..], read)
  }

  predicate NoStops(lines: seq<string>, read: LineReader) {
    forall i :: 0 <= i < |lines| ==> !Stops(lines[i], read)
  }

  /** The first complete line of the buffer, without its "\n". */
  function FirstRaw(b: string): string
    requires '\n' in b
  {
    b[..IndexOf(b, '\n')]
  }

  /** What follows the first "\n" of the buffer. */
  function AfterFirst(b: string): string
    requires '\n' in b
  {
    b[IndexOf(b, '\n') + 1..]
  }

  /** The text a batch over buffer `b` adds: the contributions of the lines
      before the first stop. */
  function Added(b: string, read: LineReader): string {
    var lines := Lines(b);
    Extracted(lines[..StopIndex(lines, read)], read)
  }

  /** The turns after `added` was appended to `before` and published: nothing
      changes when nothing was added. */
  function Publish(m: seq<Msg>, before: string, added: string): seq<Msg> {
    if added == "" then m else UpdateAssistant(m, before + added)
  }

  /** Appending in two steps publishes what appending at once does. */
  lemma PublishTwice(m: seq<Msg>, a: string, c: string, x: string)
    ensures Publish(Publish(m, a, c), a + c, x) == Publish(m, a, c + x)
  {
    if c != "" && x != "" {
      UpdateAssistantTwice(m, a + c, a + c + x);
      Assoc(a, c, x);
    } else if c == "" {
      assert a + c == a && c + x == x;
    } else {
      assert c + x == c;
    }
  }

  lemma {:induction false} ExtractedAppend(a: seq<string>, b: seq<string>, read: LineReader)
    ensures Extracted(a + b, read) == Extracted(a, read) + Extracted(b, read)
    decreases |a|
  {
    if a == [] {
      assert a + b == b;
    } else {
      assert (a + b)[1..] == a[1..] + b;
      ExtractedAppend(a[1..], b, read);
      Assoc(Contribution(a[0], read), Extracted(a[1..], read), Extracted(b, read));
    }
  }

  /** `Drain` at a complete line: the loop body, then the next iteration. */
  lemma DrainStep(s: State, read: LineReader)
    requires '\n' in s.buffer
    ensures var h := HandleLine(s, read(FirstRaw(s.buffer)), AfterFirst(s.buffer));
            Drain(s, read) == if h.Stop? then h.outcome else Drain(h.next, read)
  {
  }

  /** The lines of a buffer, seen from its first line. */
  lemma FirstLine(b: string, read: LineReader)
    requires '\n' in b
    ensures Lines(b) == [FirstRaw(b)] + Lines(AfterFirst(b))
    ensures Tail(b) == Tail(AfterFirst(b))
    ensures StopIndex(Lines(b), read)
              == if Stops(FirstRaw(b), read) then 0 else 1 + StopIndex(Lines(AfterFirst(b)), read)
  {
    LinesStep(b);
    assert Lines(b)[0] == FirstRaw(b) && Lines(b)[1..] == Lines(AfterFirst(b));
  }

  lemma ExtractedCons(l: string, lines: seq<string>, k: nat, read: LineReader)
    requires k <= |lines|
    ensures Extracted(([l] + lines)[..k + 1], read) == Contribution(l, read) + Extracted(lines[..k], read)
  {
    assert ([l] + lines)[..k + 1] == [l] + lines[..k];
    assert ([l] + lines[..k])[1..] == lines[..k];
  }

  /** A first line that stops the batch leaves text and turns as they were. */
  lemma DrainTextStop(s: State, read: LineReader)
    requires '\n' in s.buffer && Stops(FirstRaw(s.buffer), read)
    ensures Drain(s, read).state.soFar == s.soFar
    ensures Drain(s, read).state.messages == s.messages
    ensures Added(s.buffer, read) == ""
  {
    DrainStep(s, read);
    FirstLine(s.buffer, read);
    assert Lines(s.buffer)[..0] == [];
  }

  /** A first line that does not stop the batch: the batch goes on from the
      rest of the buffer with that line's contribution added and published. */
  lemma DrainTextPass(s: State, read: LineReader)
    requires '\n' in s.buffer && !Stops(FirstRaw(s.buffer), read)
    ensures var c := Contribution(FirstRaw(s.buffer), read);
            && Drain(s, read) == Drain(State(AfterFirst(s.buffer), s.soFar + c, Publish(s.messages, s.soFar, c)), read)
            && Added(s.buffer, read) == c + Added(AfterFirst(s.buffer), read)
  {
    DrainStep(s, read);
    assert s.soFar + "" == s.soFar;
    FirstLine(s.buffer, read);
    var rest := Lines(AfterFirst(s.buffer));
    ExtractedCons(FirstRaw(s.buffer), rest, StopIndex(rest, read), read);
  }

  /** The batch's effect on the assistant's text and on the turns: the
      contributions of every line before the first stop are appended, in
      order, and the turns are published once with the result. */
  lemma {:induction false} DrainText(s: State, read: LineReader)
    ensures Drain(s, read).state.soFar == s.soFar + Added(s.buffer, read)
    ensures Drain(s, read).state.messages == Publish(s.messages, s.soFar, Added(s.buffer, read))
    decreases |s.buffer|
  {
    var b := s.buffer;
    if '\n' !in b {
      assert Lines(b) == [] && Lines(b)[..0] == [];
      assert s.soFar + "" == s.soFar;
    } else if Stops(FirstRaw(b), read) {
      DrainTextStop(s, read);
      assert s.soFar + "" == s.soFar;
    } else {
      var c := Contribution(FirstRaw(b), read);
      var next := State(AfterFirst(b), s.soFar + c, Publish(s.messages, s.soFar, c));
      DrainTextPass(s, read);
      DrainText(next, read);
      PublishTwice(s.messages, s.soFar, c, Added(AfterFirst(b), read));
      Assoc(s.soFar, c, Added(AfterFirst(b), read));
    }
  }

  /** A first line that stops the batch ends it: a `[DONE]` line is
      consumed, a put-back line goes in front of the rest. */
  lemma DrainExitStop(s: State, read: LineReader)
    requires '\n' in s.buffer && Stops(FirstRaw(s.buffer), read)
    ensures var lines := Lines(s.buffer);
            var r := Drain(s, read);
            && |lines| > 0 && StopIndex(lines, read) == 0
            && r.exit != Drained
            && (r.exit == DoneSeen <==> read(lines[0]) == EndBatch)
            && (r.exit == DoneSeen ==> r.state.buffer == Join(lines[1..]) + Tail(s.buffer))
            && (r.exit == Requeued ==>
                  r.state.buffer == read(lines[0]).line + "\n" + (Join(lines[1..]) + Tail(s.buffer)))
  {
    var rest := AfterFirst(s.buffer);
    DrainStep(s, read);
    FirstLine(s.buffer, read);
    SplitSound(rest);
    assert Lines(s.buffer)[1..] == Lines(rest);
  }

  lemma ShiftLines(l: string, lines: seq<string>, k: nat)
    requires k < |lines|
    ensures ([l] + lines)[k + 1] == lines[k]
    ensures ([l] + lines)[k + 2..] == lines[k + 1..]
  {
  }

  /** How the batch ends and what it leaves in the buffer: with no stop it
      drains every complete line and keeps the unterminated tail; at
      `[DONE]` it consumes that line and keeps the rest as it was; at a
      payload that does not parse it puts that line back before the rest. */
  lemma {:induction false} DrainExit(s: State, read: LineReader)
    ensures var lines := Lines(s.buffer);
            var k := StopIndex(lines, read);
            var r := Drain(s, read);
            && (r.exit == Drained <==> k == |lines|)
            && (r.exit == Drained ==> r.state.buffer == Tail(s.buffer))
            && (r.exit == DoneSeen <==> k < |lines| && read(lines[k]) == EndBatch)
            && (r.exit == DoneSeen ==> r.state.buffer == Join(lines[k + 1..]) + Tail(s.buffer))
            && (r.exit == Requeued ==>
                  r.state.buffer == read(lines[k]).line + "\n" + (Join(lines[k + 1..]) + Tail(s.buffer)))
    decreases |s.buffer|
  {
    var b := s.buffer;
    if '\n' !in b {
    } else if Stops(FirstRaw(b), read) {
      DrainExitStop(s, read);
    } else {
      var c := Contribution(FirstRaw(b), read);
      var rest := AfterFirst(b);
      DrainTextPass(s, read);
      FirstLine(b, read);
      DrainExit(State(rest, s.soFar + c, Publish(s.messages, s.soFar, c)), read);
      if StopIndex(Lines(rest), read) < |Lines(rest)| {
        ShiftLines(FirstRaw(b), Lines(rest), StopIndex(Lines(rest), read));
      }
    }
  }

  /** A batch that drains or ends at `[DONE]` loses and duplicates no text:
      the lines it consumed, each with its "\n", followed by the buffer it
      leaves, make up the buffer it started from. */
  lemma BatchKeepsText(s: State, read: LineReader)
    ensures var lines := Lines(s.buffer);
            var k := StopIndex(lines, read);
            var r := Drain(s, read);
            && (r.exit == Drained ==> Join(lines) + r.state.buffer == s.buffer)
            && (r.exit == DoneSeen ==> k < |lines| && Join(lines[..k + 1]) + r.state.buffer == s.buffer)
  {
    var lines := Lines(s.buffer);
    var k := StopIndex(lines, read);
    DrainExit(s, read);
    SplitSound(s.buffer);
    if Drain(s, read).exit == DoneSeen {
      assert lines == lines[..k + 1] + lines[k + 1..];
      JoinAppend(lines[..k + 1], lines[k + 1..]);
      Assoc(Join(lines[..k + 1]), Join(lines[k + 1..]), Tail(s.buffer));
    }
  }

  // ---------------------------------------------------------------------------
  // The whole stream

  lemma NoStopsSplit(a: seq<string>, b: seq<string>, read: LineReader)
    requires NoStops(a + b, read)
    ensures NoStops(a, read) && NoStops(b, read)
  {
    assert forall i :: 0 <= i < |a| ==> (a + b)[i] == a[i];
    assert forall j :: 0 <= j < |b| ==> (a + b)[|a| + j] == b[j];
  }

  /** A chunk whose lines do not stop is drained: every line's contribution
      is appended and published, and the buffer keeps only the unterminated
      tail. */
  lemma FeedUnstopped(s: State, chunk: string, read: LineReader)
    requires NoStops(Lines(s.buffer + chunk), read)
    ensures var b := s.buffer + chunk;
            var added := Extracted(Lines(b), read);
            Feed(s, chunk, read) == State(Tail(b), s.soFar + added, Publish(s.messages, s.soFar, added))
  {
    var s1 := s.(buffer := s.buffer + chunk);
    var lines := Lines(s1.buffer);
    assert StopIndex(lines, read) == |lines|;
    assert lines[..|lines|] == lines;
    DrainExit(s1, read);
    DrainText(s1, read);
  }

  /** With no line that stops, a stream is read as its lines, however it is
      cut into chunks: the contributions of all complete lines are appended in
      order and published, and the text after the last "\n" is held back in
      the buffer. */
  lemma {:induction false} ConsumeUnstopped(s: State, chunks: seq<string>, read: LineReader)
    requires NoNewline(s.buffer)
    requires NoStops(Lines(s.buffer + Concat(chunks)), read)
    ensures var all := s.buffer + Concat(chunks);
            var added := Extracted(Lines(all), read);
            Consume(s, chunks, read) == State(Tail(all), s.soFar + added, Publish(s.messages, s.soFar, added))
    decreases |chunks|
  {
    var all := s.buffer + Concat(chunks);
    if chunks == [] {
      assert all == s.buffer;
      assert Lines(all) == [];
      assert s.soFar + "" == s.soFar;
    } else {
      var b1 := s.buffer + chunks[0];
      var all2 := Tail(b1) + Concat(chunks[1..]);
      Assoc(s.buffer, chunks[0], Concat(chunks[1..]));
      LinesAppend(b1, Concat(chunks[1..]));
      NoStopsSplit(Lines(b1), Lines(all2), read);
      FeedUnstopped(s, chunks[0], read);
      var x1 := Extracted(Lines(b1), read);
      var s2 := State(Tail(b1), s.soFar + x1, Publish(s.messages, s.soFar, x1));
      ConsumeUnstopped(s2, chunks[1..], read);
      var x2 := Extracted(Lines(all2), read);
      ExtractedAppend(Lines(b1), Lines(all2), read);
      Assoc(s.soFar, x1, x2);
      PublishTwice(s.messages, s.soFar, x1, x2);
    }
  }

  /** When no line stops, how the stream is cut into chunks does not matter. */
  lemma ChunkingIrrelevant(s: State, c1: seq<string>, c2: seq<string>, read: LineReader)
    requires NoNewline(s.buffer) && Concat(c1) == Concat(c2)
    requires NoStops(Lines(s.buffer + Concat(c1)), read)
    ensures Consume(s, c1, read) == Consume(s, c2, read)
  {
    ConsumeUnstopped(s, c1, read);
    ConsumeUnstopped(s, c2, read);
  }

  /** The turns shown for the assistant's text so far, over the turns `base`
      the stream started from. */
  function Shown(base: seq<Msg>, text: string): seq<Msg> {
    if text == "" then base else UpdateAssistant(base, text)
  }

  lemma ShownPublish(base: seq<Msg>, a: string, x: string)
    ensures Publish(Shown(base, a), a, x) == Shown(base, a + x)
  {
    if x == "" {
      assert a + x == a;
    } else if a == "" {
      assert a + x == x;
    } else {
      UpdateAssistantTwice(base, a, a + x);
    }
  }

  /** Reading a stream only appends to the assistant's text, and the turns
      shown are always those the stream started from with that text
      published. */
  lemma {:induction false} ConsumeShown(s: State, chunks: seq<string>, base: seq<Msg>, read: LineReader)
    requires s.messages == Shown(base, s.soFar)
    ensures var t := Consume(s, chunks, read);
            && |s.soFar| <= |t.soFar| && t.soFar[..|s.soFar|] == s.soFar
            && t.messages == Shown(base, t.soFar)
    decreases |chunks|
  {
    if chunks != [] {
      var s1 := s.(buffer := s.buffer + chunks[0]);
      DrainText(s1, read);
      ShownPublish(base, s.soFar, Added(s1.buffer, read));
      var s2 := Feed(s, chunks[0], read);
      ConsumeShown(s2, chunks[1..], base, read);
      var t := Consume(s2, chunks[1..], read);
      assert t.soFar[..|s.soFar|] == t.soFar[..|s2.soFar|][..|s.soFar|];
    }
  }

  // ---------------------------------------------------------------------------
  // A payload that does not parse

  /** The buffer starts with a complete line whose payload does not parse. */
  predicate Stuck(b: string, parse: Parser) {
    '\n' in b && LineEffect(FirstRaw(b), parse).PutBack?
  }

  /** A put-back line holds no "\n": it is a line with at most its "\r" dropped. */
  lemma PutBackLine(raw: string, parse: Parser)
    requires NoNewline(raw) && LineEffect(raw, parse).PutBack?
    ensures NoNewline(LineEffect(raw, parse).line)
  {
    assert raw == StripCR(raw) || raw == StripCR(raw) + "\r";
  }

  /** The first line of a buffer that starts with a terminated line is that line. */
  lemma FirstOfLine(line: string, rest: string)
    requires NoNewline(line)
    ensures '\n' in line + "\n" + rest
    ensures FirstRaw(line + "\n" + rest) == line && AfterFirst(line + "\n" + rest) == rest
  {
    var b := line + "\n" + rest;
    IndexOfSplit(line, '\n', rest);
    assert b[..|line|] == line;
    assert b[|line| + 1..] == rest;
  }

  /** A buffer that starts with a put-back line is stuck. */
  lemma PutBackSticks(line: string, rest: string, parse: Parser)
    requires NoNewline(line) && LineEffect(line, parse).PutBack?
    ensures Stuck(line + "\n" + rest, parse)
  {
    FirstOfLine(line, rest);
  }

  /** A batch that ends by putting a line back leaves the buffer stuck. */
  lemma RequeueSticks(s: State, parse: Parser)
    requires Drain(s, Reader(parse)).exit == Requeued
    ensures Stuck(Drain(s, Reader(parse)).state.buffer, parse)
  {
    var read := Reader(parse);
    var lines := Lines(s.buffer);
    var k := StopIndex(lines, read);
    DrainExit(s, read);
    assert read(lines[k]) == LineEffect(lines[k], parse);
    PutBackLine(lines[k], parse);
    PutBackAgain(lines[k], parse);
    PutBackSticks(LineEffect(lines[k], parse).line, Join(lines[k + 1..]) + Tail(s.buffer), parse);
  }

  /** More text after a complete line leaves that line first. */
  lemma FirstOfAppend(b: string, chunk: string)
    requires '\n' in b
    ensures '\n' in b + chunk
    ensures FirstRaw(b + chunk) == FirstRaw(b) && AfterFirst(b + chunk) == AfterFirst(b) + chunk
  {
    IndexOfAppend(b, '\n', chunk);
  }

  /** A first line that is put back ends the batch at once, in front of the rest. */
  lemma DrainPutBack(s: State, read: LineReader)
    requires '\n' in s.buffer && read(FirstRaw(s.buffer)).PutBack?
    ensures Drain(s, read)
              == Outcome(s.(buffer := read(FirstRaw(s.buffer)).line + "\n" + AfterFirst(s.buffer)), Requeued)
  {
    DrainStep(s, read);
  }

  /** A stuck buffer stays stuck over one more chunk, and neither the text
      nor the turns change: the same line is cut, fails again and is put
      back in front of the new text. */
  lemma StuckFeed(s: State, chunk: string, parse: Parser)
    requires Stuck(s.buffer, parse)
    ensures var t := Feed(s, chunk, Reader(parse));
            Stuck(t.buffer, parse) && t.soFar == s.soFar && t.messages == s.messages
  {
    var b := s.buffer;
    var raw := FirstRaw(b);
    var line := LineEffect(raw, parse).line;
    FirstOfAppend(b, chunk);
    DrainPutBack(s.(buffer := b + chunk), Reader(parse));
    CutAtNewline(b);
    PutBackLine(raw, parse);
    PutBackAgain(raw, parse);
    PutBackSticks(line, AfterFirst(b) + chunk, parse);
  }

  /** Once a payload fails to parse, the rest of the stream adds nothing:
      the line is re-read and put back at every chunk, ahead of everything
      that arrives after it. */
  lemma {:induction false} StuckForever(s: State, chunks: seq<string>, parse: Parser)
    requires Stuck(s.buffer, parse)
    ensures var t := Consume(s, chunks, Reader(parse));
            Stuck(t.buffer, parse) && t.soFar == s.soFar && t.messages == s.messages
    decreases |chunks|
  {
    if chunks != [] {
      StuckFeed(s, chunks[0], parse);
      StuckForever(Feed(s, chunks[0], Reader(parse)), chunks[1..], parse);
    }
  }

  // ---------------------------------------------------------------------------
  // Single lines

  /** A comment line, a blank line or a line without the `data: ` prefix
      changes neither the text nor the turns: the loop just goes on with the
      rest of the buffer. */
  lemma SkippedLine(s: State, raw: string, rest: string, parse: Parser)
    requires var line := StripCR(raw);
             StartsWith(line, ":") || AllSpace(line) || !StartsWith(line, DataPrefix)
    ensures LineEffect(raw, parse) == Append("")
    ensures HandleLine(s, LineEffect(raw, parse), rest) == Continue(s.(buffer := rest))
  {
    ClassifyMeaning(StripCR(raw));
  }

  /** `[DONE]` ends only the batch it is in: the lines after it stay in the
      buffer, untouched, for the next chunk. */
  lemma DoneEndsBatch(s: State, done: string, rest: string, read: LineReader)
    requires NoNewline(done) && read(done) == EndBatch
    ensures Drain(s.(buffer := done + "\n" + rest), read) == Outcome(s.(buffer := rest), DoneSeen)
  {
    FirstOfLine(done, rest);
    DrainStep(s.(buffer := done + "\n" + rest), read);
  }

  /** A buffered line that passes is read with the next chunk. */
  lemma BufferedLineRead(t: State, line: string, chunk: string, read: LineReader)
    requires t.buffer == line + "\n" && NoNewline(line) && NoNewline(chunk) && read(line).Append?
    ensures Feed(t, chunk, read)
              == State(chunk, t.soFar + read(line).text, Publish(t.messages, t.soFar, read(line).text))
  {
    var b := line + "\n" + chunk;
    LinesOfLine(line, chunk);
    assert Lines(b) == [line] && Tail(b) == chunk;
    FeedUnstopped(t, chunk, read);
    assert [line][1..] == [];
    assert Extracted([line], read) == read(line).text + "" == read(line).text;
  }

  /** The lines a `[DONE]` left behind are read with the next chunk, even an
      empty one: in a stream of a `[DONE]` line, a content line and then
      `chunk`, the content arrives with `chunk`. */
  lemma DoneThenNextChunk(s: State, done: string, line: string, chunk: string, read: LineReader)
    requires s.buffer == "" && NoNewline(done) && NoNewline(line) && NoNewline(chunk)
    requires read(done) == EndBatch && read(line).Append?
    ensures var t := Feed(s, done + "\n" + line + "\n", read);
            && t == s.(buffer := line + "\n")
            && Feed(t, chunk, read)
                 == State(chunk, s.soFar + read(line).text, Publish(s.messages, s.soFar, read(line).text))
  {
    assert s.buffer + (done + "\n" + line + "\n") == done + "\n" + (line + "\n");
    DoneEndsBatch(s, done, line + "\n", read);
    BufferedLineRead(s.(buffer := line + "\n"), line, chunk, read);
  }
}
