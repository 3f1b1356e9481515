/** The JavaScript string operations the stream reader relies on:
    `indexOf` for one character, `startsWith`, `endsWith` and `trim`.
    Strings are sequences of characters; UTF-16 code units are not modelled. */
module Strings {

  /** The characters `String.prototype.trim` removes: the ECMAScript
      WhiteSpace and LineTerminator code points. */
  predicate IsSpace(c: char) {
    c == '\t' || c == '\n' || c == '\U{000B}' || c == '\U{000C}' || c == '\r'
    || c == ' ' || c == '\U{00A0}' || c == '\U{1680}'
    || ('\U{2000}' <= c <= '\U{200A}')
    || c == '\U{2028}' || c == '\U{2029}' || c == '\U{202F}' || c == '\U{205F}'
    || c == '\U{3000}' || c == '\U{FEFF}'
  }

  /** Every character of `s` is white space (vacuously true of ""). */
  predicate AllSpace(s: string) {
    forall k :: 0 <= k < |s| ==> IsSpace(s[k])
  }

  /** `s.indexOf(c)`: the first position of `c`, or -1 when there is none. */
  function IndexOf(s: string, c: char): (r: int)
    ensures -1 <= r < |s|
    ensures r == -1 <==> c !in s
    ensures 0 <= r ==> s[r] == c && c !in s[..r]
  {
    if s == [] then -1
    else if s[0] == c then 0
    else
      var k := IndexOf(s[1..], c);
      if k == -1 then -1 else k + 1
  }

  /** The position found by `IndexOf` is determined by the text before it. */
  lemma IndexOfSplit(a: string, c: char, b: string)
    requires c !in a
    ensures IndexOf(a + [c] + b, c) == |a|
  {
    var s := a + [c] + b;
    assert s[..|a|] == a;
    assert s[|a|] == c;
    assert forall r :: |a| < r <= |s| ==> s[..r][|a|] == c;
  }

  /** Text that already holds `c` keeps its first `c` where it was when more is appended. */
  lemma {:induction false} IndexOfAppend(a: string, c: char, b: string)
    requires c in a
    ensures IndexOf(a + b, c) == IndexOf(a, c)
    decreases |a|
  {
    assert (a + b)[0] == a[0];
    if a[0] != c {
      assert a == [a[0]] + a[1..];
      assert (a + b)[1..] == a[1..] + b;
      IndexOfAppend(a[1..], c, b);
    }
  }

  /** A prefix of text that starts with `prefix` and is at least as long
      still starts with it. */
  lemma StartsWithTake(s: string, prefix: string, n: nat)
    requires StartsWith(s, prefix) && |prefix| <= n <= |s|
    ensures StartsWith(s[..n], prefix)
  {
    StartsWithMeaning(s, prefix);
    StartsWithMeaning(s[..n], prefix);
    assert s[..n][..|prefix|] == s[..|prefix|];
  }

  /** `s.startsWith(prefix)`, compared character by character. */
  predicate StartsWith(s: string, prefix: string)
    ensures StartsWith(s, prefix) ==> |prefix| <= |s|
  {
    prefix == [] || (s != [] && s[0] == prefix[0] && StartsWith(s[1..], prefix[1..]))
  }

  /** `startsWith` holds exactly when `prefix` is the beginning of `s`. */
  lemma {:induction false} StartsWithMeaning(s: string, prefix: string)
    ensures StartsWith(s, prefix) <==> |prefix| <= |s| && s[..|prefix|] == prefix
  {
    if prefix != [] && s != [] {
      StartsWithMeaning(s[1..], prefix[1..]);
      if |prefix| <= |s| {
        assert s[..|prefix|] == [s[0]] + s[1..][..|prefix| - 1];
        assert prefix == [prefix[0]] + prefix[1..];
      }
    }
  }

  /** `s.endsWith(c)` for a single character. */
  predicate EndsWithChar(s: string, c: char) {
    s != [] && s[|s| - 1] == c
  }

  /** How many white-space characters `s` starts with. */
  function LeadingSpaces(s: string): (n: nat)
    ensures n <= |s|
  {
    if s != [] && IsSpace(s[0]) then 1 + LeadingSpaces(s[1..]) else 0
  }

  /** How many white-space characters `s` ends with. */
  function TrailingSpaces(s: string): (n: nat)
    ensures n <= |s|
  {
    if s != [] && IsSpace(s[|s| - 1]) then 1 + TrailingSpaces(s[..|s| - 1]) else 0
  }

  /** `LeadingSpaces` counts the white space up to the first other character. */
  lemma {:induction false} LeadingSpacesMeaning(s: string)
    ensures forall k :: 0 <= k < LeadingSpaces(s) ==> IsSpace(s[k])
    ensures LeadingSpaces(s) < |s| ==> !IsSpace(s[LeadingSpaces(s)])
  {
    if s != [] && IsSpace(s[0]) {
      LeadingSpacesMeaning(s[1..]);
      assert forall k :: 1 <= k < |s| ==> s[k] == s[1..][k - 1];
    }
  }

  /** `TrailingSpaces` counts the white space after the last other character. */
  lemma {:induction false} TrailingSpacesMeaning(s: string)
    ensures forall k :: |s| - TrailingSpaces(s) <= k < |s| ==> IsSpace(s[k])
    ensures TrailingSpaces(s) < |s| ==> !IsSpace(s[|s| - 1 - TrailingSpaces(s)])
  {
    if s != [] && IsSpace(s[|s| - 1]) {
      TrailingSpacesMeaning(s[..|s| - 1]);
      assert forall k :: 0 <= k < |s| - 1 ==> s[k] == s[..|s| - 1][k];
    }
  }

  /** The two counts are determined by the properties they are specified with. */
  lemma LeadingSpacesUnique(s: string, n: nat)
    requires n <= |s|
    requires forall k :: 0 <= k < n ==> IsSpace(s[k])
    requires n < |s| ==> !IsSpace(s[n])
    ensures LeadingSpaces(s) == n
  {
    LeadingSpacesMeaning(s);
  }

  lemma TrailingSpacesUnique(s: string, n: nat)
    requires n <= |s|
    requires forall k :: |s| - n <= k < |s| ==> IsSpace(s[k])
    requires n < |s| ==> !IsSpace(s[|s| - 1 - n])
    ensures TrailingSpaces(s) == n
  {
    TrailingSpacesMeaning(s);
  }

  /** `s.trim()`: `s` without its leading and its trailing white space. */
  function Trim(s: string): (r: string)
    ensures |r| <= |s|
  {
    var t := s[LeadingSpaces(s)..];
    t[..|t| - TrailingSpaces(t)]
  }

  /** `trim` returns "" exactly for text that is all white space. */
  lemma TrimEmpty(s: string)
    ensures Trim(s) == [] <==> AllSpace(s)
  {
    var lead := LeadingSpaces(s);
    var t := s[lead..];
    LeadingSpacesMeaning(s);
    if lead < |s| {
      TrailingSpacesMeaning(t);
      assert !IsSpace(t[0]);
    } else {
      assert forall k :: 0 <= k < |s| ==> s[k] == s[..lead][k];
    }
  }

  /** What `trim` keeps neither starts nor ends with white space. */
  lemma TrimEnds(s: string)
    ensures Trim(s) != [] ==> !IsSpace(Trim(s)[0]) && !IsSpace(Trim(s)[|Trim(s)| - 1])
  {
    LeadingSpacesMeaning(s);
    TrailingSpacesMeaning(s[LeadingSpaces(s)..]);
  }

  lemma LeadingAllSpace(s: string)
    ensures AllSpace(s[..LeadingSpaces(s)])
  {
    LeadingSpacesMeaning(s);
    assert forall k :: 0 <= k < LeadingSpaces(s) ==> s[..LeadingSpaces(s)][k] == s[k];
  }

  lemma TrailingAllSpace(t: string)
    ensures AllSpace(t[|t| - TrailingSpaces(t)..])
  {
    var n := |t| - TrailingSpaces(t);
    TrailingSpacesMeaning(t);
    assert forall j :: 0 <= j < |t| - n ==> t[n..][j] == t[n + j];
  }

  /** What `trim` keeps is a piece of `s` with only white space before and after it. */
  lemma TrimSurround(s: string)
    ensures var lead := LeadingSpaces(s);
            && Trim(s) == s[lead..lead + |Trim(s)|]
            && AllSpace(s[..lead]) && AllSpace(s[lead + |Trim(s)|..])
  {
    var lead := LeadingSpaces(s);
    var t := s[lead..];
    LeadingAllSpace(s);
    TrailingAllSpace(t);
    assert s[lead + |Trim(s)|..] == t[|t| - TrailingSpaces(t)..];
  }

  /** A trailing white-space character does not change what `trim` returns. */
  lemma TrimIgnoresTrailingSpace(v: string, c: char)
    requires IsSpace(c)
    ensures Trim(v + [c]) == Trim(v)
  {
    var w := v + [c];
    var a := LeadingSpaces(v);
    LeadingSpacesMeaning(v);
    if a < |v| {
      LeadingSpacesUnique(w, a);
      var t := v[a..];
      assert w[a..] == t + [c];
      TrailingSpacesMeaning(t);
      TrailingSpacesUnique(t + [c], TrailingSpaces(t) + 1);
      assert (t + [c])[..|t| - TrailingSpaces(t)] == t[..|t| - TrailingSpaces(t)];
    } else {
      LeadingSpacesUnique(w, |w|);
    }
  }
}
