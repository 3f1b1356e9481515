/** The reader inside `sendMessage` as the loops it is written with. The
    pending text, the assistant's text so far and the turns shown are the
    fields of a reader object; each chunk runs the inner loop over them, and
    each method is proved to compute what the functions of `Stream` say. */
module Assembler {
  import opened Strings
  import opened Frames
  import opened Conversation
  import opened Stream

  /** The inner loop over the reader's variables `textBuffer` and
      `assistantSoFar` and the turns shown: cut complete lines off the front
      of the buffer one at a time and act on each, until no "\n" is left, a
      `[DONE]` payload, or a payload that does not parse (which is put
      back). The state it leaves and the way it ended are those `Drain`
      gives. */
  method DrainLoop(s: State, parse: Parser) returns (r: Outcome)
    ensures r == Drain(s, Reader(parse))
  {
    var buffer, soFar, messages := s.buffer, s.soFar, s.messages;
    var exit := Drained;
    while IndexOf(buffer, '\n') != -1
      invariant Drain(State(buffer, soFar, messages), Reader(parse)) == Drain(s, Reader(parse))
      decreases |buffer|
    {
      ghost var before := State(buffer, soFar, messages);
      var i := IndexOf(buffer, '\n');
      var line := buffer[..i];
      buffer := buffer[i + 1..];
      ghost var e := LineEffect(line, parse);
      ghost var h := HandleLine(before, e, buffer);
      assert Drain(before, Reader(parse)) == if h.Stop? then h.outcome else Drain(h.next, Reader(parse)) by {
        DrainStep(before, Reader(parse));
        assert FirstRaw(before.buffer) == line && AfterFirst(before.buffer) == buffer;
        assert Reader(parse)(line) == e;
      }
      if EndsWithChar(line, '\r') {
        line := line[..|line| - 1];
      }
      assert e == LineEffect(before.buffer[..i], parse) && line == StripCR(before.buffer[..i]);
      if StartsWith(line, ":") || Trim(line) == "" {
        assert Classify(line) == Skip;
        assert h == Continue(State(buffer, soFar, messages));
        continue;
      }
      if !StartsWith(line, DataPrefix) {
        assert Classify(line) == Skip;
        assert h == Continue(State(buffer, soFar, messages));
        continue;
      }
      var json := Trim(line[6..]);
      if json == DoneSentinel {
        assert Classify(line) == Done;
        exit := DoneSeen;
        assert h == Stop(Outcome(State(buffer, soFar, messages), exit));
        break;
      }
      assert Classify(line) == Data(json);
      DataLineEffect(before.buffer[..i], parse);
      match parse(json)
      case Malformed =>
        buffer := line + "\n" + buffer;
        exit := Requeued;
        assert e == PutBack(line);
        assert h == Stop(Outcome(State(buffer, soFar, messages), exit));
        break;
      case NoContent =>
        assert h == Continue(State(buffer, soFar, messages));
      case Fragment(content) =>
        assert e == Append(content);
        if content != "" {
          soFar := soFar + content;
          messages := UpdateAssistant(messages, soFar);
        }
        assert h == Continue(State(buffer, soFar, messages));
    }
    r := Outcome(State(buffer, soFar, messages), exit);
  }

  class StreamAssembler {
    /** `textBuffer`: text received but not yet cut into lines. */
    var buffer: string
    /** `assistantSoFar`: the assistant's reply as assembled so far. */
    var soFar: string
    /** The turns shown, as the `setMessages` updaters leave them. */
    var messages: seq<Msg>
    /** `JSON.parse` followed by reading the delta's content. */
    const parse: Parser

    /** A reader that starts from an empty buffer and an empty reply, over
        the turns already shown. */
    constructor (shown: seq<Msg>, parse: Parser)
      ensures buffer == "" && soFar == "" && messages == shown && this.parse == parse
    {
      buffer := "";
      soFar := "";
      messages := shown;
      this.parse := parse;
    }

    function Current(): State
      reads this
    {
      State(buffer, soFar, messages)
    }

    /** `textBuffer += chunk` followed by the inner loop. The new state and
        the way the batch ended are those `Drain` gives. */
    method ProcessChunk(chunk: string) returns (exit: Exit)
      modifies this
      ensures Outcome(Current(), exit) == Drain(State(old(buffer) + chunk, old(soFar), old(messages)), Reader(parse))
    {
      var o := DrainLoop(State(buffer + chunk, soFar, messages), parse);
      buffer, soFar, messages := o.state.buffer, o.state.soFar, o.state.messages;
      exit := o.exit;
    }

    /** The outer loop: every chunk the stream delivers, in order, each
        followed by its batch. */
    method ReadAll(chunks: seq<string>)
      modifies this
      ensures Current() == Consume(old(Current()), chunks, Reader(parse))
    {
      var k := 0;
      while k < |chunks|
        invariant 0 <= k <= |chunks|
        invariant Consume(Current(), chunks[k..], Reader(parse)) == Consume(old(Current()), chunks, Reader(parse))
      {
        assert chunks[k..][0] == chunks[k] && chunks[k..][1..] == chunks[k + 1..];
        var _ := ProcessChunk(chunks[k]);
        k := k + 1;
      }
    }
  }
}
