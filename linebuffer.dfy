/** The pending-text buffer of the stream reader, read as a list of
    complete lines followed by an unterminated tail. `Lines` and `Tail` cut
    at every "\n" the way repeated `indexOf("\n")` and `slice` do;
    `SplitSound` and `SplitUnique` characterise them without reference to
    how they are computed. */
module LineBuffer {
  import opened Strings

  predicate NoNewline(s: string) {
    '\n' !in s
  }

  predicate AllLines(lines: seq<string>) {
    forall i :: 0 <= i < |lines| ==> NoNewline(lines[i])
  }

  /** The lines with their "\n" terminators put back, in order. */
  function Join(lines: seq<string>): string {
    if lines == [] then "" else lines[0] + "\n" + Join(lines[1..])
  }

  /** Cutting a buffer at its first "\n" loses and duplicates nothing: the
      text before it holds no "\n", and it, the "\n" and the rest make up
      the buffer. */
  lemma CutAtNewline(b: string)
    requires '\n' in b
    ensures NoNewline(b[..IndexOf(b, '\n')])
    ensures b == b[..IndexOf(b, '\n')] + "\n" + b[IndexOf(b, '\n') + 1..]
  {
    var i := IndexOf(b, '\n');
    assert b == b[..i] + [b[i]] + b[i + 1..];
  }

  /** Every complete line of the buffer, in order, without its terminator. */
  function Lines(b: string): (lines: seq<string>)
    ensures AllLines(lines)
    ensures |lines| <= |b|
    decreases |b|
  {
    var i := IndexOf(b, '\n');
    if i == -1 then [] else [b[..i]] + Lines(b[i + 1..])
  }

  /** What follows the last "\n" of the buffer. */
  function Tail(b: string): (t: string)
    ensures NoNewline(t)
    ensures |t| <= |b|
    decreases |b|
  {
    var i := IndexOf(b, '\n');
    if i == -1 then b else Tail(b[i + 1..])
  }

  /** The buffer is exactly its complete lines, each with its "\n", then its tail. */
  lemma {:induction false} SplitSound(b: string)
    ensures b == Join(Lines(b)) + Tail(b)
    decreases |b|
  {
    var i := IndexOf(b, '\n');
    if i != -1 {
      var rest := b[i + 1..];
      CutAtNewline(b);
      SplitSound(rest);
      LinesStep(b);
      JoinCons(b[..i], Lines(rest));
      Assoc(b[..i] + "\n", Join(Lines(rest)), Tail(rest));
    }
  }

  lemma Assoc<T>(x: seq<T>, y: seq<T>, z: seq<T>)
    ensures x + (y + z) == (x + y) + z
  {
  }

  /** One step of `Lines` and `Tail` at the first "\n". */
  lemma LinesStep(b: string)
    requires '\n' in b
    ensures Lines(b) == [b[..IndexOf(b, '\n')]] + Lines(b[IndexOf(b, '\n') + 1..])
    ensures Tail(b) == Tail(b[IndexOf(b, '\n') + 1..])
  {
    LinesUnfold(b);
    TailUnfold(b);
  }

  lemma LinesUnfold(b: string)
    requires '\n' in b
    ensures Lines(b) == [b[..IndexOf(b, '\n')]] + Lines(b[IndexOf(b, '\n') + 1..])
  {
  }

  lemma TailUnfold(b: string)
    requires '\n' in b
    ensures Tail(b) == Tail(b[IndexOf(b, '\n') + 1..])
  {
  }

  lemma JoinCons(l: string, lines: seq<string>)
    ensures Join([l] + lines) == l + "\n" + Join(lines)
  {
    assert ([l] + lines)[1..] == lines;
  }

  /** Reading a line followed by its "\n" yields that line first. */
  lemma LinesOfLine(l: string, w: string)
    requires NoNewline(l)
    ensures Lines(l + "\n" + w) == [l] + Lines(w)
    ensures Tail(l + "\n" + w) == Tail(w)
  {
    var s := l + "\n" + w;
    IndexOfSplit(l, '\n', w);
    LinesStep(s);
    assert s[..|l|] == l;
    assert s[|l| + 1..] == w;
  }

  /** Reading lines from text that starts with terminated lines yields those
      lines first. */
  lemma {:induction false} LinesOfJoin(lines: seq<string>, z: string)
    requires AllLines(lines)
    ensures Lines(Join(lines) + z) == lines + Lines(z)
    ensures Tail(Join(lines) + z) == Tail(z)
    decreases |lines|
  {
    if lines == [] {
      assert Join(lines) + z == z;
    } else {
      var l := lines[0];
      var w := Join(lines[1..]) + z;
      assert lines == [l] + lines[1..];
      JoinCons(l, lines[1..]);
      Assoc(l + "\n", Join(lines[1..]), z);
      LinesOfLine(l, w);
      LinesOfJoin(lines[1..], z);
      Assoc([l], lines[1..], Lines(z));
    }
  }

  /** Any way of writing the buffer as terminated lines plus a tail without
      "\n" is the one `Lines` and `Tail` give. */
  lemma SplitUnique(b: string, lines: seq<string>, t: string)
    requires AllLines(lines) && NoNewline(t)
    requires b == Join(lines) + t
    ensures lines == Lines(b) && t == Tail(b)
  {
    LinesOfJoin(lines, t);
  }

  /** Lines read from `x + y`: those of `x`, then those of the tail of `x`
      followed by `y`. */
  lemma LinesAppend(x: string, y: string)
    ensures Lines(x + y) == Lines(x) + Lines(Tail(x) + y)
    ensures Tail(x + y) == Tail(Tail(x) + y)
  {
    SplitSound(x);
    Assoc(Join(Lines(x)), Tail(x), y);
    LinesOfJoin(Lines(x), Tail(x) + y);
  }

  lemma {:induction false} JoinAppend(a: seq<string>, b: seq<string>)
    ensures Join(a + b) == Join(a) + Join(b)
    decreases |a|
  {
    if a != [] {
      assert (a + b)[1..] == a[1..] + b;
      JoinAppend(a[1..], b);
    } else {
      assert a + b == b;
    }
  }
}
