/** The chat page's conversation: sending a message appends the user's turn,
    then the assistant's reply as it streams in, then a notice if the
    request or the stream failed. What `fetch` and the response body yield
    is an input here. */
module Chat {
  import opened Strings
  import opened LineBuffer
  import opened Frames
  import opened Conversation
  import opened Stream
  import opened Assembler

  /** How reading the body ended: the stream closed, or a read threw. */
  datatype StreamEnd = Closed | ReadFailed(message: string)

  /** What the request gave the page: `fetch` threw, the status was not ok,
      the response had no body, or the body was read chunk by chunk (each
      chunk already decoded to text). */
  datatype Response =
    | FetchFailed(message: string)
    | NotOk(body: ErrorBody)
    | NoBody
    | Streamed(chunks: seq<string>, end: StreamEnd)

  const NoStreamMessage: string := "No response stream"

  /** The reader's state once the whole body has been read, starting from an
      empty buffer and an empty reply over the turns `base`. */
  function ReadBody(base: seq<Msg>, chunks: seq<string>, parse: Parser): State {
    Consume(State("", "", base), chunks, Reader(parse))
  }

  /** The turns after `sendMessage(text)`, from the turns `m` shown before. */
  function AfterSend(m: seq<Msg>, text: string, response: Response, parse: Parser): seq<Msg> {
    var base := m + [Msg(User, text)];
    match response
    case FetchFailed(message) => AppendNotice(base, message)
    case NotOk(body) => AppendNotice(base, FailureMessage(body))
    case NoBody => AppendNotice(base, NoStreamMessage)
    case Streamed(chunks, end) =>
      var shown := ReadBody(base, chunks, parse).messages;
      if end.ReadFailed? then AppendNotice(shown, end.message) else shown
  }

  /** The assistant turn holding `text`, or nothing while `text` is empty. */
  function Reply(text: string): seq<Msg> {
    if text == "" then [] else [Msg(Assistant, text)]
  }

  /** A request that fails before any stream is read leaves the history, the
      user's turn and one notice turn carrying the error's message. */
  lemma SendFailsBeforeStream(m: seq<Msg>, text: string, response: Response, parse: Parser)
    requires !response.Streamed?
    ensures var message := match response
                           case FetchFailed(e) => e
                           case NotOk(body) => FailureMessage(body)
                           case _ => NoStreamMessage;
            AfterSend(m, text, response, parse)
              == m + [Msg(User, text), Msg(Assistant, Notice(message))]
  {
  }

  /** A streamed reply leaves the history, the user's turn, at most one
      assistant turn holding all the text read (none if no text came), and a
      notice turn after it if a read threw. */
  lemma SendStreamed(m: seq<Msg>, text: string, chunks: seq<string>, end: StreamEnd, parse: Parser)
    ensures var base := m + [Msg(User, text)];
            var reply := ReadBody(base, chunks, parse).soFar;
            AfterSend(m, text, Streamed(chunks, end), parse)
              == base + Reply(reply)
                 + (if end.ReadFailed? then [Msg(Assistant, Notice(end.message))] else [])
  {
    var base := m + [Msg(User, text)];
    ConsumeShown(State("", "", base), chunks, base, Reader(parse));
    var reply := ReadBody(base, chunks, parse).soFar;
    assert !EndsWithAssistant(base);
    assert Shown(base, reply) == base + Reply(reply);
  }

  /** Whatever happens, the earlier turns and the user's turn stay as they
      were, at the front of the conversation. */
  lemma SendKeepsHistory(m: seq<Msg>, text: string, response: Response, parse: Parser)
    ensures var after := AfterSend(m, text, response, parse);
            |after| > |m| && after[..|m| + 1] == m + [Msg(User, text)]
  {
    if response.Streamed? {
      SendStreamed(m, text, response.chunks, response.end, parse);
    }
  }

  /** When no line of the body stops a batch, the reply is the content of
      every complete `data: ` line of the body, in order, however the body
      was cut into chunks; text after the last "\n" is never shown. */
  lemma StreamedReplyText(base: seq<Msg>, chunks: seq<string>, parse: Parser)
    requires NoStops(Lines(Concat(chunks)), Reader(parse))
    ensures ReadBody(base, chunks, parse).soFar == Extracted(Lines(Concat(chunks)), Reader(parse))
    ensures ReadBody(base, chunks, parse).buffer == Tail(Concat(chunks))
  {
    var s := State("", "", base);
    assert s.buffer + Concat(chunks) == Concat(chunks);
    ConsumeUnstopped(s, chunks, Reader(parse));
  }

  /** `handleSend`'s guard: send only text that is not all white space, and
      only while no reply is loading. */
  predicate ShouldSend(input: string, isLoading: bool) {
    Trim(input) != "" && !isLoading
  }

  /** The guard holds exactly when nothing is loading and the input has a
      character other than white space. */
  lemma SendGuard(input: string, isLoading: bool)
    ensures ShouldSend(input, isLoading)
            <==> (!isLoading && exists k :: 0 <= k < |input| && !IsSpace(input[k]))
  {
    TrimEmpty(input);
  }

  /** The page's state: the turns shown, the input box and whether a reply
      is loading. */
  class TalkToFuture {
    var messages: seq<Msg>
    var input: string
    var isLoading: bool
    const parse: Parser

    constructor (parse: Parser)
      ensures messages == [] && input == "" && !isLoading && this.parse == parse
    {
      messages := [];
      input := "";
      isLoading := false;
      this.parse := parse;
    }

    /** `sendMessage(text)`: show the user's turn, clear the input, then
        read the reply (or the error) into the turns; loading ends whatever
        happened. */
    method SendMessage(text: string, response: Response)
      modifies this
      ensures messages == AfterSend(old(messages), text, response, parse)
      ensures input == "" && !isLoading
    {
      var current := messages + [Msg(User, text)];
      messages := current;
      input := "";
      isLoading := true;
      match response {
        case FetchFailed(message) =>
          messages := AppendNotice(messages, message);
        case NotOk(body) =>
          messages := AppendNotice(messages, FailureMessage(body));
        case NoBody =>
          messages := AppendNotice(messages, NoStreamMessage);
        case Streamed(chunks, end) =>
          var reader := new StreamAssembler(current, parse);
          reader.ReadAll(chunks);
          messages := reader.messages;
          if end.ReadFailed? {
            messages := AppendNotice(messages, end.message);
          }
      }
      isLoading := false;
    }

    /** `handleSend`: send the trimmed input when the guard allows it, and
        otherwise change nothing. */
    method HandleSend(response: Response)
      modifies this
      ensures ShouldSend(old(input), old(isLoading)) ==>
                messages == AfterSend(old(messages), Trim(old(input)), response, parse)
                && input == "" && !isLoading
      ensures !ShouldSend(old(input), old(isLoading)) ==>
                messages == old(messages) && input == old(input) && isLoading == old(isLoading)
    {
      if Trim(input) == "" || isLoading {
        return;
      }
      SendMessage(Trim(input), response);
    }
  }
}
