/** Searching, trimming and splitting text. */
module Text {
  import opened Wrappers

  predicate IsSpace(c: char) {
    c == ' ' || c == '\t' || c == '\n' || c == '\r' || c == '\U{0B}' || c == '\U{0C}'
  }

  function TrimStart(s: string): string {
    if s != "" && IsSpace(s[0]) then TrimStart(s[1..]) else s
  }

  function TrimEnd(s: string): string {
    if s != "" && IsSpace(s[|s| - 1]) then TrimEnd(s[..|s| - 1]) else s
  }

  function Trim(s: string): string {
    TrimEnd(TrimStart(s))
  }

  predicate StartsWith(s: string, prefix: string) {
    |prefix| <= |s| && s[..|prefix|] == prefix
  }

  /** The position of the first `c`. */
  function FindChar(s: string, c: char): (r: Option<nat>)
    ensures r.Some? ==> r.value < |s| && s[r.value] == c && forall i :: 0 <= i < r.value ==> s[i] != c
    ensures r.None? ==> c !in s
  {
    if s == "" then None
    else if s[0] == c then Some(0)
    else match FindChar(s[1..], c) case None => None case Some(i) => Some(i + 1)
  }

  /** The position of the first occurrence of `pattern`. */
  function FindText(s: string, pattern: string): (r: Option<nat>)
    ensures r.Some? ==> r.value + |pattern| <= |s|
  {
    if StartsWith(s, pattern) then Some(0)
    else if s == "" then None
    else match FindText(s[1..], pattern) case None => None case Some(i) => Some(i + 1)
  }

  /** What is before and after the first occurrence of `separator`. */
  function SplitOnce(s: string, separator: string): Option<(string, string)> {
    match FindText(s, separator)
    case None => None
    case Some(i) => Some((s[..i], s[i + |separator|..]))
  }

  function Lines(s: string): seq<string> {
    if s == "" then []
    else
      match FindChar(s, '\n')
      case None => [s]
      case Some(i) => [s[..i]] + Lines(s[i + 1..])
  }

  /** It is found where it occurs first, if it occurs. */
  lemma {:induction false} FindTextIsFirst(s: string, pattern: string)
    ensures match FindText(s, pattern)
            case None => forall i :: 0 <= i <= |s| ==> !StartsWith(s[i..], pattern)
            case Some(n) => StartsWith(s[n..], pattern) && forall i :: 0 <= i < n ==> !StartsWith(s[i..], pattern)
  {
    assert s[0..] == s;
    if !StartsWith(s, pattern) && s != "" {
      FindTextIsFirst(s[1..], pattern);
      assert forall i :: 1 <= i <= |s| ==> s[i..] == s[1..][i - 1..];
    }
  }

  // ---- Text that is put together ----------------------------------------------------------

  /** The text neither begins nor ends with white space. */
  predicate IsTight(s: string) {
    s != "" && !IsSpace(s[0]) && !IsSpace(s[|s| - 1])
  }

  lemma TrimTight(s: string)
    requires IsTight(s)
    ensures Trim(s) == s && Trim(s + " ") == s && Trim(" " + s) == s && Trim(" " + s + " ") == s
  {
    assert (s + " ")[..|s|] == s;
    assert (" " + s)[1..] == s;
    assert (" " + s + " ")[1..] == s + " ";
    assert TrimEnd(s) == s;
    assert TrimEnd(s + " ") == s;
  }

  lemma FindCharAfter(before: string, c: char, after: string)
    requires c !in before
    ensures FindChar(before + [c] + after, c) == Some(|before|)
  {
    var s := before + [c] + after;
    assert s[|before|] == c;
    assert forall i :: 0 <= i < |before| ==> s[i] == before[i];
  }

  lemma {:induction false} FindTextAfter(before: string, pattern: string, after: string)
    requires pattern != "" && pattern[0] !in before
    ensures FindText(before + pattern + after, pattern) == Some(|before|)
  {
    var s := before + pattern + after;
    if before == "" {
      assert s[..|pattern|] == pattern;
    } else {
      assert s[0] == before[0];
      assert s[1..] == before[1..] + pattern + after;
      FindTextAfter(before[1..], pattern, after);
    }
  }

  lemma SplitOnceAt(before: string, separator: string, after: string)
    requires separator != "" && separator[0] !in before
    ensures SplitOnce(before + separator + after, separator) == Some((before, after))
  {
    FindTextAfter(before, separator, after);
    var s := before + separator + after;
    assert s[..|before|] == before;
    assert s[|before| + |separator|..] == after;
  }

  lemma FirstLine(line: string, rest: string)
    requires '\n' !in line
    ensures Lines(line + "\n" + rest) == [line] + Lines(rest)
  {
    var s := line + "\n" + rest;
    FindCharAfter(line, '\n', rest);
    assert s == line + ['\n'] + rest;
    assert s[..|line|] == line && s[|line| + 1..] == rest;
  }
}
