/** Classification of one extracted line of the `text/event-stream` wire
    format (the subset of section 9.2, Server-sent events, of the WHATWG HTML
    Living Standard that the reader accepts): comments, blank lines and
    lines without the `data: ` field are skipped, a `[DONE]` payload ends the
    current batch, anything else is a payload to parse. */
module Frames {
  import opened Strings

  const DataPrefix: string := "data: "
  const DoneSentinel: string := "[DONE]"

  datatype Frame = Skip | Done | Data(payload: string)

  /** Drops one trailing "\r", if there is one. */
  function StripCR(line: string): (r: string)
    ensures line == r || line == r + "\r"
    ensures EndsWithChar(line, '\r') <==> |r| == |line| - 1
  {
    if EndsWithChar(line, '\r') then line[..|line| - 1] else line
  }

  /** The frame a line (already stripped of its "\r") stands for, tested
      in the order the reader tests it. */
  function Classify(line: string): Frame {
    if StartsWith(line, ":") || Trim(line) == "" then Skip
    else if !StartsWith(line, DataPrefix) then Skip
    else
      var json := Trim(line[6..]);
      if json == DoneSentinel then Done else Data(json)
  }

  /** What the classification means: comment and blank lines are skipped,
      and in fact a line is skipped exactly when it lacks the `data: `
      prefix (a line with the prefix is neither a comment nor blank); a
      line with the prefix is `[DONE]` or a payload, the text after the six
      prefix characters, trimmed. */
  lemma ClassifyMeaning(line: string)
    ensures StartsWith(line, ":") ==> Classify(line) == Skip
    ensures AllSpace(line) ==> Classify(line) == Skip
    ensures Classify(line) == Skip <==> !StartsWith(line, DataPrefix)
    ensures Classify(line) == Done <==> StartsWith(line, DataPrefix) && Trim(line[6..]) == DoneSentinel
    ensures Classify(line).Data? ==>
              Classify(line).payload == Trim(line[6..]) && Classify(line).payload != DoneSentinel
  {
    if StartsWith(line, DataPrefix) {
      assert line[0] == 'd';
      assert !IsSpace(line[0]);
      TrimEmpty(line);
    }
  }

  /** A data line that ends in "\r" is classified the same with it stripped:
      the prefix is untouched and `trim` drops the "\r" from the payload. */
  lemma ClassifyStripCR(line: string)
    requires StartsWith(line, DataPrefix)
    ensures Classify(StripCR(line)) == Classify(line)
  {
    if EndsWithChar(line, '\r') {
      var v := line[..|line| - 1];
      assert |line| > 6 by {
        StartsWithMeaning(line, DataPrefix);
        assert line[..6][5] == ' ';
      }
      StartsWithTake(line, DataPrefix, |line| - 1);
      assert line[6..] == v[6..] + ['\r'];
      TrimIgnoresTrailingSpace(v[6..], '\r');
      ClassifyMeaning(line);
      ClassifyMeaning(v);
    }
  }

  /** What `JSON.parse` followed by `choices?.[0]?.delta?.content` yields
      for one payload: a failure (the parse or the property reads throw), no
      content, or a content string (possibly empty, which the reader treats
      like no content). */
  datatype ParseResult = Malformed | NoContent | Fragment(content: string)

  type Parser = string -> ParseResult

  /** What the body of the inner loop does with one complete line: append
      text to the assistant's message (nothing, for a skipped line or a
      payload without content), end the batch at `[DONE]`, or put the line
      back and end the batch when its payload does not parse. */
  datatype Effect = Append(text: string) | EndBatch | PutBack(line: string)

  /** The loop body's decisions for one line as cut from the buffer, in the
      order the reader takes them. */
  function LineEffect(raw: string, parse: Parser): Effect {
    var line := StripCR(raw);
    match Classify(line)
    case Skip => Append("")
    case Done => EndBatch
    case Data(json) =>
      match parse(json)
      case Malformed => PutBack(line)
      case NoContent => Append("")
      case Fragment(content) => Append(content)
  }

  /** The reader of a given parser, as a function of the line. */
  function Reader(parse: Parser): string -> Effect {
    raw => LineEffect(raw, parse)
  }

  /** What each effect means for the line it came from: only `data: ` lines
      do anything, `[DONE]` ends the batch, only a payload that does not
      parse is put back (as the line with its "\r" stripped), a payload that
      parses to content appends exactly that content, one without content
      appends nothing, and no other line appends any text. */
  lemma LineEffectMeaning(raw: string, parse: Parser)
    ensures var line := StripCR(raw);
            var e := LineEffect(raw, parse);
            && (!StartsWith(line, DataPrefix) ==> e == Append(""))
            && (e == EndBatch <==> StartsWith(line, DataPrefix) && Trim(line[6..]) == DoneSentinel)
            && (e.PutBack? <==>
                  StartsWith(line, DataPrefix) && Trim(line[6..]) != DoneSentinel
                  && parse(Trim(line[6..])) == Malformed)
            && (e.PutBack? ==> e.line == line)
            && (e.Append? && e.text != "" ==>
                  StartsWith(line, DataPrefix) && parse(Trim(line[6..])) == Fragment(e.text))
            && (StartsWith(line, DataPrefix) && Trim(line[6..]) != DoneSentinel ==>
                  (parse(Trim(line[6..])).Fragment? ==> e == Append(parse(Trim(line[6..])).content))
                  && (parse(Trim(line[6..])).NoContent? ==> e == Append("")))
  {
    ClassifyMeaning(StripCR(raw));
  }

  /** The effect of a `data: ` line is decided by how its payload parses. */
  lemma DataLineEffect(raw: string, parse: Parser)
    requires Classify(StripCR(raw)).Data?
    ensures var r := parse(Classify(StripCR(raw)).payload);
            LineEffect(raw, parse)
              == if r.Malformed? then PutBack(StripCR(raw))
                 else if r.Fragment? then Append(r.content)
                 else Append("")
  {
  }

  /** A line that is put back is put back again when it is read the next
      time: it is still a `data: ` line with the same payload. */
  lemma PutBackAgain(raw: string, parse: Parser)
    requires LineEffect(raw, parse).PutBack?
    ensures LineEffect(LineEffect(raw, parse).line, parse).PutBack?
  {
    var line := StripCR(raw);
    ClassifyMeaning(line);
    ClassifyStripCR(line);
  }
}
