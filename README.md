# Talk to Future: the streamed chat reply

This project models the chat page of the "Talk to Future" app: the user's turn is sent, and the assistant's reply streams back as `text/event-stream` lines. The model and its proofs cover the part of `sendMessage` that turns those chunks into the conversation shown, plus the guard of `handleSend`. The project is written in Dafny.

The wire format is the subset of section 9.2 (Server-sent events) of the WHATWG HTML Living Standard that the page accepts:
- comment lines (`:`) and blank lines are skipped;
- lines without the `data: ` prefix are skipped;
- a `[DONE]` payload ends the current batch;
- any other payload is handed to `JSON.parse`, and `choices[0].delta.content` is read from the result.

The modules follow the stages of the reader:

- `Strings`: the JavaScript string operations used, namely `indexOf` for one character, `startsWith`, `endsWith("\r")` and `trim` with the ECMAScript white-space set. Lemmas say what `trim` returns.
- `LineBuffer`: the pending text `textBuffer` read as complete lines plus an unterminated tail. `Lines` and `Tail` cut where repeated `indexOf("\n")`/`slice` cut; `SplitSound` and `SplitUnique` characterise them.
- `Frames`: one extracted line.
  - `StripCR` drops the trailing `"\r"`.
  - `Classify` makes the skip, `[DONE]` and payload decisions.
  - `LineEffect` is the loop body's verdict on a line given a parser: append text, end the batch, or put the line back.
- `Conversation`: the turns. This covers the `setMessages` updater of the reader (`UpdateAssistant`), the error handler's notice turn (`AppendNotice`) and the error message of a non-ok response (`FailureMessage`).
- `Stream`: the reader as functions of its state (buffer, `assistantSoFar`, turns).
  - `Drain` is one run of the inner loop, `Feed` is one chunk, and `Consume` is the outer loop.
  - The theorems state what these compute in terms of the lines of the buffer.
  - The theorems are stated for any per-line reader; `Frames.Reader(parse)` is the page's.
- `Assembler`: the loops as written.
  - `DrainLoop` is the inner `while` with its `continue`/`break` exits.
  - The class `StreamAssembler` holds the reader's variables as fields. Its methods `ProcessChunk` (append, then the inner loop) and `ReadAll` (the outer loop) are proved to compute `Drain` and `Consume`.
- `Chat`: the page.
  - `AfterSend` gives the turns after a send for every outcome of the request.
  - The class `TalkToFuture` holds `messages`, `input` and `isLoading`. Its methods are `SendMessage` and `HandleSend`.

`JSON.parse(jsonStr).choices?.[0]?.delta?.content` is a parameter `parse: string -> ParseResult`. It returns `Malformed` when the parse or a property read throws, `NoContent`, or `Fragment(content)`.

Inputs are data:
- What `fetch` returns is a `Response` value:
  - the request threw;
  - the status was not ok, with the error body;
  - there was no body;
  - the body arrived as a sequence of chunks, with the stream either closing or a read throwing.
- Each chunk is the text `TextDecoder` produced for it.

Two behaviours of the reader are easy to misread, and the model takes them as the code has them:
- **A payload that does not parse is put back whole.** It is put back as `line + "\n"` in front of the rest of the buffer (`src/pages/TalkToFuture.tsx:100`). Every later batch cuts that same line again, fails on it again and puts it back again, so nothing after it is ever shown (`Stream.StuckForever`).
- **`[DONE]` ends only the batch.** It only leaves the inner loop (`src/pages/TalkToFuture.tsx:83`). The outer loop goes on reading, and the lines buffered after `[DONE]` are read when the next chunk arrives (`Stream.DoneEndsBatch`, `Stream.DoneThenNextChunk`).

## Model

| member | source | states |
|---|---|---|
| Strings.IndexOf | src/pages/TalkToFuture.tsx:76 | the result is the first position of the character, and -1 exactly when it does not occur |
| Strings.StartsWith | src/pages/TalkToFuture.tsx:80-81 | `startsWith`, compared character by character; it never holds for a prefix longer than the line, and `StartsWithMeaning` shows it holds exactly when the prefix is the line's leading slice |
| Strings.StartsWithMeaning | src/pages/TalkToFuture.tsx:80-81 | `startsWith` holds exactly when the prefix is the beginning of the line |
| Strings.EndsWithChar | src/pages/TalkToFuture.tsx:79 | `endsWith("\r")`: the line is not empty and its last character is "\r"; `Frames.StripCR` relies on it |
| Strings.Trim | src/pages/TalkToFuture.tsx:80-82 | `trim()`: never longer than its input; `TrimEmpty`, `TrimEnds` and `TrimSurround` pin down what it returns |
| Strings.TrimEmpty | src/pages/TalkToFuture.tsx:80 | `trim()` returns "" exactly when every character is white space |
| Strings.TrimEnds | src/pages/TalkToFuture.tsx:82 | a non-empty trimmed payload neither starts nor ends with white space |
| Strings.TrimSurround | src/pages/TalkToFuture.tsx:82 | the trimmed payload is a contiguous piece of the text with only white space before and after it |
| Strings.TrimIgnoresTrailingSpace | src/pages/TalkToFuture.tsx:79-82 | one more trailing white-space character (such as "\r") does not change what `trim` returns |
| LineBuffer.CutAtNewline | src/pages/TalkToFuture.tsx:76-78 | the extracted line holds no "\n", and the old buffer is that line, "\n", then the new buffer |
| LineBuffer.Lines | src/pages/TalkToFuture.tsx:76-78 | every line cut from the buffer is free of "\n" |
| LineBuffer.Tail | src/pages/TalkToFuture.tsx:76-78 | what is left after the last "\n" holds no "\n" |
| LineBuffer.SplitSound | src/pages/TalkToFuture.tsx:73-78 | the buffer is exactly its extracted lines, each with its "\n", followed by the tail, so nothing is lost or duplicated |
| LineBuffer.SplitUnique | src/pages/TalkToFuture.tsx:76-78 | any split of the buffer into terminated lines plus a tail without "\n" is the one the loop makes |
| LineBuffer.LinesAppend | src/pages/TalkToFuture.tsx:73-78 | after a chunk is appended, the lines read are the old complete lines, then those of the old tail followed by the chunk |
| Frames.StripCR | src/pages/TalkToFuture.tsx:79 | at most one trailing "\r" is removed, and one is removed exactly when the line ends in "\r" |
| Frames.Classify | src/pages/TalkToFuture.tsx:80-83 | the skip, `[DONE]` and payload decisions, in the order the loop takes them; `ClassifyMeaning` characterises them |
| Frames.ClassifyMeaning | src/pages/TalkToFuture.tsx:80-83 | comment and blank lines are skipped; a line is skipped exactly when it lacks `data: `; it is `[DONE]` exactly when the trimmed text after the 6-character prefix is `[DONE]`; otherwise that trimmed text is the payload |
| Frames.ClassifyStripCR | src/pages/TalkToFuture.tsx:79-82 | a `data: ` line is classified the same with or without its trailing "\r" |
| Frames.LineEffect | src/pages/TalkToFuture.tsx:79-102 | the loop body's verdict on one cut line (append text, end the batch, or put the line back); `LineEffectMeaning` characterises it |
| Frames.LineEffectMeaning | src/pages/TalkToFuture.tsx:79-102 | only `data: ` lines do anything; `[DONE]` ends the batch exactly when the payload is `[DONE]`; a line is put back exactly when its payload does not parse, and it is put back "\r"-stripped; a payload that parses to content appends exactly that content, one without content appends nothing, and any non-empty appended text is the content its payload parsed to |
| Frames.PutBackAgain | src/pages/TalkToFuture.tsx:99-102 | a put-back line is put back again when it is cut and read the next time |
| Conversation.UpdateAssistant | src/pages/TalkToFuture.tsx:89-97 | if the last turn is the assistant's, the length is unchanged; otherwise exactly one assistant turn is appended; in both cases every earlier turn is kept and the last turn is the assistant's, holding `assistantSoFar` |
| Conversation.UpdateAssistantTwice | src/pages/TalkToFuture.tsx:89-97 | two updates in a row leave what the second one alone leaves |
| Conversation.Notice | src/pages/TalkToFuture.tsx:109 | the notice text: the `*Connection lost.*` lead-in, then the message or "Please try again." when it is empty; `AppendNotice` and `Chat.SendFailsBeforeStream` state its use |
| Conversation.AppendNotice | src/pages/TalkToFuture.tsx:105-110 | exactly one assistant turn with the `*Connection lost.*` notice is appended after all turns shown, partial reply included |
| Conversation.FailureMessage | src/pages/TalkToFuture.tsx:59-61 | the message of a non-ok response is the body's non-empty `error`; it is "Failed to connect" when that is missing or empty, and "Something went wrong" when the body is not JSON; it is never empty |
| Stream.HandleLine | src/pages/TalkToFuture.tsx:83-102 | the loop body goes on exactly for lines that append text (or nothing), each time with the buffer after the cut line |
| Stream.Drain | src/pages/TalkToFuture.tsx:76 | a batch that ends because no "\n" is left leaves a buffer without "\n" |
| Stream.DrainText | src/pages/TalkToFuture.tsx:84-97 | a batch appends to `assistantSoFar` the contents of the lines before the first stop, in order, and the turns are updated with the result |
| Stream.DrainExit | src/pages/TalkToFuture.tsx:76-83 | a batch drains exactly when no line stops it, and then keeps the unterminated tail; it ends at `[DONE]` exactly when the first stopping line is `[DONE]`, and then keeps the later lines unchanged; at a malformed payload it puts that line, "\n" and the rest back |
| Stream.BatchKeepsText | src/pages/TalkToFuture.tsx:76-83 | a batch that drains or ends at `[DONE]` loses and duplicates no text: the lines it consumed, each with its "\n", then the buffer it leaves, make up the buffer it started from |
| Stream.Feed | src/pages/TalkToFuture.tsx:73-103 | one chunk: append it, then one batch; `FeedUnstopped`, `StuckFeed` and `BufferedLineRead` state what it leaves |
| Stream.Consume | src/pages/TalkToFuture.tsx:70-104 | the outer loop over every chunk; `ConsumeUnstopped`, `ConsumeShown` and `StuckForever` state what it leaves |
| Stream.ConsumeUnstopped | src/pages/TalkToFuture.tsx:68-104 | with no stopping line, reading the whole stream appends every line's content in order and holds back the text after the last "\n" |
| Stream.ChunkingIrrelevant | src/pages/TalkToFuture.tsx:70-78 | with no stopping line, two ways of cutting the same text into chunks leave the same state |
| Stream.ConsumeShown | src/pages/TalkToFuture.tsx:44-97 | reading only extends `assistantSoFar`, and the turns shown are always the starting turns with `assistantSoFar` published |
| Stream.RequeueSticks | src/pages/TalkToFuture.tsx:99-102 | a batch that ends by putting a line back leaves a buffer whose first complete line is put back again |
| Stream.StuckFeed | src/pages/TalkToFuture.tsx:73-102 | with such a buffer, one more chunk changes neither `assistantSoFar` nor the turns, and the buffer stays stuck |
| Stream.StuckForever | src/pages/TalkToFuture.tsx:70-102 | after a malformed complete `data: ` line, nothing the stream delivers later changes `assistantSoFar` or the turns |
| Stream.SkippedLine | src/pages/TalkToFuture.tsx:80-81 | comment lines, blank lines and lines without `data: ` leave `assistantSoFar` and the turns unchanged and go on with the rest of the buffer |
| Stream.DoneEndsBatch | src/pages/TalkToFuture.tsx:83 | a `[DONE]` line is consumed and the rest of the buffer is left exactly as it was |
| Stream.DoneThenNextChunk | src/pages/TalkToFuture.tsx:70-83 | a content line buffered after `[DONE]` is not read in that batch; it is read, and its content appended, when the next chunk arrives |
| Assembler.DrainLoop | src/pages/TalkToFuture.tsx:76-103 | the inner `while` with its `continue`s and `break`s leaves the state and the exit that `Drain` gives |
| Assembler.StreamAssembler.constructor | src/pages/TalkToFuture.tsx:44-68 | the reader starts with an empty buffer and an empty reply over the turns shown |
| Assembler.StreamAssembler.ProcessChunk | src/pages/TalkToFuture.tsx:73-103 | appending a chunk and running the inner loop leaves the fields and the exit that `Drain` gives |
| Assembler.StreamAssembler.ReadAll | src/pages/TalkToFuture.tsx:70-104 | the outer loop over all chunks leaves the fields that `Consume` gives |
| Chat.AfterSend | src/pages/TalkToFuture.tsx:37-114 | the turns after a send, for each outcome of the request; `SendFailsBeforeStream`, `SendStreamed` and `SendKeepsHistory` characterise it |
| Chat.SendFailsBeforeStream | src/pages/TalkToFuture.tsx:59-64 | a failed request, a non-ok status or a missing body leaves the history, the user's turn and one notice turn carrying that failure's message |
| Chat.SendStreamed | src/pages/TalkToFuture.tsx:37-114 | a streamed reply leaves the history, the user's turn, one assistant turn with all the text read (none if none was read), and a notice turn after it if a read threw |
| Chat.SendKeepsHistory | src/pages/TalkToFuture.tsx:38-40 | whatever the request does, the earlier turns and then the user's turn stay at the front of the conversation |
| Chat.StreamedReplyText | src/pages/TalkToFuture.tsx:66-104 | with no stopping line, the reply is the contents of all complete lines of the body in order; the text after the last "\n" is left in the buffer when the stream ends, and it is never read |
| Chat.ShouldSend | src/pages/TalkToFuture.tsx:117 | the guard of `handleSend`: the trimmed input is not empty and nothing is loading; `SendGuard` characterises it |
| Chat.SendGuard | src/pages/TalkToFuture.tsx:117 | the guard lets a send through exactly when nothing is loading and the input has a character that is not white space |
| Chat.TalkToFuture.constructor | src/pages/TalkToFuture.tsx:13-15 | the page starts with no turns, an empty input and nothing loading |
| Chat.TalkToFuture.SendMessage | src/pages/TalkToFuture.tsx:37-114 | the turns become those `AfterSend` gives for the response, the input is cleared and loading ends whatever happened |
| Chat.TalkToFuture.HandleSend | src/pages/TalkToFuture.tsx:116-119 | when the guard passes, the trimmed input is sent; otherwise nothing changes |

## Left out

- The request itself is not modelled: `fetch`, its headers, the JSON request body and the URL taken from the environment (lines 47-57). The model has only its outcome, the `Response` input.
- `resp.json()` on a non-ok response is reduced to the `ErrorBody` value: the body is not JSON, or it is an object whose `error` is a string or missing. An `error` field of another type is not modelled. A body that is JSON `null` makes `err.error` (line 61) throw a `TypeError`; the page then shows the same as for `FetchFailed` with that error's message, so it is that input.
- `TextDecoder` is not modelled (lines 67, 73). Chunks are the decoded strings. Because the page never calls a final `decode()` flush, the model has none either.
- `JSON.parse` and the optional-chaining reads (lines 85-86) are the parameter `parse`. A thrown read counts as `Malformed`. The `as string` cast does nothing at run time, so a `content` that is a number or another truthy value is appended as its string form (`5` as `"5"`); `parse` stands for that with `Fragment` of that string form.
- Frames.LineEffect: a truthy `content` whose string form is empty (such as `[]`) is not modelled. The page still runs the updater for it (lines 89-97), which leaves `assistantSoFar` as it was but appends an empty assistant turn when the last turn is the user's. The model treats it like no content and shows nothing.
- Strings are sequences of characters. UTF-16 code units and surrogate pairs are not modelled.
- React is not modelled: rendering, the asynchronous `setMessages`, and the `messages` captured by the `sendMessage` closure. The updaters are applied at once, in order, to the field `messages`. Each update of the reply reads `assistantSoFar` as it is when the update is made.
- `async`/`await` interleaving is not modelled. A send is one atomic step from the user's turn to the end of the stream.
- The `useEffect` that sends the stored letter on load (lines 20-31), the `letterContext` state, scrolling (lines 33-35), `handleKeyDown` and all JSX are not modelled.
- `console.error` is not modelled; it has no effect on the state.
- WriteLetter and ParticleField are not part of this model.
