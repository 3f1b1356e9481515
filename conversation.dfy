/** The conversation as the page keeps it: an ordered list of turns, and the
    pure updates the stream reader and the error handler apply to it. */
module Conversation {

  datatype Role = User | Assistant

  /** One turn: who said it and what was said. */
  datatype Msg = Msg(role: Role, content: string)

  datatype Option<T> = None | Some(value: T)

  predicate EndsWithAssistant(prev: seq<Msg>) {
    |prev| > 0 && prev[|prev| - 1].role == Assistant
  }

  /** The `setMessages` updater of the stream reader: if the last turn is the
      assistant's, its content becomes `soFar`; otherwise an assistant turn
      holding `soFar` is appended. Every earlier turn is kept as it was. */
  function UpdateAssistant(prev: seq<Msg>, soFar: string): (r: seq<Msg>)
    ensures EndsWithAssistant(prev) ==> |r| == |prev|
    ensures !EndsWithAssistant(prev) ==> r == prev + [Msg(Assistant, soFar)]
    ensures |r| > 0 && r[..|r| - 1] == prev[..|r| - 1]
    ensures r[|r| - 1] == Msg(Assistant, soFar)
  {
    if EndsWithAssistant(prev) then
      seq(|prev|, i requires 0 <= i < |prev| =>
        if i == |prev| - 1 then prev[i].(content := soFar) else prev[i])
    else
      prev + [Msg(Assistant, soFar)]
  }

  /** Publishing twice in a row leaves what the second publication says:
      the first one already made the last turn the assistant's. */
  lemma UpdateAssistantTwice(prev: seq<Msg>, first: string, second: string)
    ensures UpdateAssistant(UpdateAssistant(prev, first), second) == UpdateAssistant(prev, second)
  {
    var once := UpdateAssistant(prev, first);
    var twice := UpdateAssistant(once, second);
    var direct := UpdateAssistant(prev, second);
    assert twice[..|twice| - 1] == direct[..|direct| - 1] by {
      if EndsWithAssistant(prev) {
        assert twice[..|twice| - 1] == once[..|once| - 1] == prev[..|prev| - 1];
      } else {
        assert |once| == |prev| + 1;
        assert twice[..|twice| - 1] == once[..|prev|] == prev;
      }
    }
    EqualByLast(twice, direct);
  }

  lemma EqualByLast<T>(a: seq<T>, b: seq<T>)
    requires |a| == |b| > 0
    requires a[..|a| - 1] == b[..|b| - 1] && a[|a| - 1] == b[|b| - 1]
    ensures a == b
  {
    assert a == a[..|a| - 1] + [a[|a| - 1]];
    assert b == b[..|b| - 1] + [b[|b| - 1]];
  }

  /** The text of the turn the error handler appends: a fixed lead-in and
      the error's message, or a fallback when the message is empty. */
  function Notice(message: string): string {
    "*Connection lost.* " + (if message == "" then "Please try again." else message)
  }

  /** The error handler's updater: one assistant turn holding the notice is
      appended after everything already shown. */
  function AppendNotice(prev: seq<Msg>, message: string): (r: seq<Msg>)
    ensures |r| == |prev| + 1 && r[..|prev|] == prev
    ensures r[|prev|] == Msg(Assistant, Notice(message))
  {
    prev + [Msg(Assistant, Notice(message))]
  }

  /** The body of a response whose status is not ok: either it could not be
      read as JSON, or it was an object whose `error` field may be missing. */
  datatype ErrorBody = Unreadable | Body(error: Option<string>)

  /** `err.error || "Failed to connect"`, where an unreadable body stands for
      `{ error: "Something went wrong" }`. */
  function FailureMessage(body: ErrorBody): (r: string)
    ensures r != ""
    ensures body == Unreadable ==> r == "Something went wrong"
    ensures body.Body? && body.error.Some? && body.error.value != "" ==> r == body.error.value
    ensures body.Body? && (body.error == None || body.error == Some("")) ==> r == "Failed to connect"
  {
    match body
    case Unreadable => "Something went wrong"
    case Body(Some(e)) => if e != "" then e else "Failed to connect"
    case Body(None) => "Failed to connect"
  }
}
