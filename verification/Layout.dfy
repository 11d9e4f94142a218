/** What a text may look like without meaning anything else: white space, headers, comments, arrows. */
module Layout {
  import opened Wrappers
  import opened Definitions
  import opened Text
  import opened Parsers
  import opened Rendering

  // ---- Texts and their lines ----------------------------------------------------------------

  /** The text ends where a line does. */
  predicate IsWhole(text: string) {
    text == "" || text[|text| - 1] == '\n'
  }

  /** A text that is not over has a first line. */
  lemma TakeLine(a: string) returns (line: string, rest: string)
    requires '\n' in a
    ensures a == line + "\n" + rest && '\n' !in line && (IsWhole(a) <==> IsWhole(rest))
  {
    var i := FindChar(a, '\n').value;
    line, rest := a[..i], a[i + 1..];
    if rest != "" {
      assert rest[|rest| - 1] == a[|a| - 1];
    }
  }

  lemma NoLines()
    ensures Lines("") == []
  {
  }

  lemma {:induction false} LinesOfBoth(a: string, b: string)
    requires IsWhole(a)
    ensures Lines(a + b) == Lines(a) + Lines(b)
    decreases |a|
  {
    hide Lines;
    if a == "" {
      NoLines();
      assert a + b == b;
    } else {
      var line, rest := TakeLine(a);
      assert a + b == line + "\n" + (rest + b);
      FirstLine(line, rest);
      FirstLine(line, rest + b);
      LinesOfBoth(rest, b);
      assert [line] + Lines(rest) + Lines(b) == [line] + (Lines(rest) + Lines(b));
    }
  }

  /** A line in the middle of a text. */
  lemma LinesWith(a: string, line: string, b: string)
    requires IsWhole(a) && '\n' !in line
    ensures Lines(a + line + "\n" + b) == Lines(a) + [line] + Lines(b)
  {
    hide Lines;
    LinesOfBoth(a, line + "\n" + b);
    FirstLine(line, b);
    assert a + line + "\n" + b == a + (line + "\n" + b);
    assert Lines(a) + [line] + Lines(b) == Lines(a) + ([line] + Lines(b));
  }

  /** The line break at the end makes no difference. */
  lemma {:induction false} LastBreak(a: string)
    requires !IsWhole(a)
    ensures Lines(a + "\n") == Lines(a)
    decreases |a|
  {
    if '\n' in a {
      var line, rest := TakeLine(a);
      hide Lines;
      assert a + "\n" == line + "\n" + (rest + "\n");
      FirstLine(line, rest);
      FirstLine(line, rest + "\n");
      LastBreak(rest);
    } else {
      FirstLine(a, "");
      assert a + "\n" == a + "\n" + "";
    }
  }

  lemma {:induction false} ReadLinesOfBoth(d: Dialect, xs: seq<string>, ys: seq<string>, n: nat, draft: Draft)
    ensures ReadLines(d, xs + ys, n, draft) ==
            match ReadLines(d, xs, n, draft)
            case Err(error) => Err(error)
            case Ok(read) => ReadLines(d, ys, n + |xs|, read)
    decreases |xs|
  {
    hide ReadLine, Trim, Absorb;
    if xs == [] {
      assert xs + ys == ys;
    } else {
      assert (xs + ys)[0] == xs[0] && (xs + ys)[1..] == xs[1..] + ys;
      var line := ReadLine(d, Trim(xs[0]));
      if !line.Invalid? {
        ReadLinesOfBoth(d, xs[1..], ys, n + 1, Absorb(draft, line));
      }
    }
  }

  // ---- Where the parse fails ------------------------------------------------------------------

  predicate IsReadable(d: Dialect, line: string) {
    !ReadLine(d, Trim(line)).Invalid?
  }

  lemma {:induction false} FirstUnreadable(d: Dialect, lines: seq<string>, n: nat, draft: Draft)
    ensures var r := ReadLines(d, lines, n, draft);
            && (r.Ok? <==> forall l :: l in lines ==> IsReadable(d, l))
            && (r.Err? ==> r.error.SyntaxError? && n <= r.error.line < n + |lines|)
            && (r.Err? ==> && !IsReadable(d, lines[r.error.line - n])
                           && forall i :: 0 <= i < r.error.line - n ==> IsReadable(d, lines[i]))
    decreases |lines|
  {
    hide ReadLine, Trim, Absorb;
    if lines != [] {
      var line := ReadLine(d, Trim(lines[0]));
      assert lines[0] in lines;
      if !line.Invalid? {
        FirstUnreadable(d, lines[1..], n + 1, Absorb(draft, line));
        assert lines == [lines[0]] + lines[1..];
      }
    }
  }

  /** A syntax error names the first line that cannot be read. */
  lemma SyntaxErrorExactlyWhen(d: Dialect, input: string, n: nat)
    ensures var lines := Lines(input);
            Parsed(d, input) == Err(SyntaxError(n)) <==>
            && 1 <= n <= |lines| && !IsReadable(d, lines[n - 1])
            && forall i :: 0 <= i < n - 1 ==> IsReadable(d, lines[i])
  {
    hide ReadLines, IsReadable, Lines;
    FirstUnreadable(d, Lines(input), 1, BLANK);
  }

  lemma {:induction false} InitialIsStarted(d: Dialect, lines: seq<string>, n: nat, draft: Draft)
    ensures var r := ReadLines(d, lines, n, draft);
            r.Ok? ==> (r.value.initial.Some? <==>
                       draft.initial.Some? || exists l :: l in lines && ReadLine(d, Trim(l)).Starts?)
    decreases |lines|
  {
    hide ReadLine, Trim;
    if lines != [] {
      var line := ReadLine(d, Trim(lines[0]));
      if !line.Invalid? {
        InitialIsStarted(d, lines[1..], n + 1, Absorb(draft, line));
        assert lines == [lines[0]] + lines[1..];
      }
    }
  }

  /** The initial state is missing exactly if all lines can be read and none comes from the mark. */
  lemma NoInitialExactlyWhen(d: Dialect, input: string)
    ensures Parsed(d, input) == Err(NoInitial) <==>
            forall l :: l in Lines(input) ==> IsReadable(d, l) && !ReadLine(d, Trim(l)).Starts?
  {
    hide ReadLines, ReadLine, Trim, Lines;
    FirstUnreadable(d, Lines(input), 1, BLANK);
    InitialIsStarted(d, Lines(input), 1, BLANK);
  }

  // ---- Lines that say nothing -----------------------------------------------------------------

  /** How the lines begin that a dialect skips. */
  function Skips(d: Dialect): seq<string> {
    match d
    case MacroMermaid => ["%%", "graph", "stateDiagram", "---"]
    case RuntimeMermaid => ["%%", "graph", "stateDiagram", "---"]
    case MacroPlantUml => ["'", "@startuml", "@enduml", "hide", "skin", "state "]
    case RuntimePlantUml => ["'", "@startuml", "@enduml", "hide", "skin"]
  }

  /** A trimmed line is skipped exactly if it is empty or begins so. */
  lemma SkippedExactlyWhen(d: Dialect, line: string)
    ensures ReadLine(d, line) == Skipped <==> line == "" || exists p :: p in Skips(d) && StartsWith(line, p)
  {
    hide StartsWith, SplitOnce, FindText, FindChar, Trim, FindPipes, FindColon, DeclaredName, ClassifyEvent;
    if d.MacroMermaid? || d.RuntimeMermaid? {
      MermaidSkips(line);
    } else {
      PlantUmlSkips(line);
    }
  }

  lemma MermaidSkips(line: string)
    ensures IsMermaidHeader(line) <==>
            line == "" || exists p :: p in Skips(MacroMermaid) && StartsWith(line, p)
  {
    hide StartsWith;
    var all := Skips(MacroMermaid);
    assert all[0] in all && all[1] in all && all[2] in all && all[3] in all;
  }

  lemma PlantUmlSkips(line: string)
    ensures IsPlantUmlHeader(line) <==>
            line == "" || exists p :: p in Skips(RuntimePlantUml) && StartsWith(line, p)
    ensures IsPlantUmlHeader(line) || StartsWith(line, "state ") <==>
            line == "" || exists p :: p in Skips(MacroPlantUml) && StartsWith(line, p)
  {
    hide StartsWith;
    var all := Skips(MacroPlantUml);
    assert all[0] in all && all[1] in all && all[2] in all && all[3] in all && all[4] in all && all[5] in all;
    var five := Skips(RuntimePlantUml);
    assert five[0] in five && five[1] in five && five[2] in five && five[3] in five && five[4] in five;
  }

  /** The same result, for a text that has one more line after the first `m`. */
  function Renumbered(r: Result<ParsedFsm, ParseError>, m: nat): Result<ParsedFsm, ParseError> {
    if r.Err? && r.error.SyntaxError? && r.error.line > m then Err(SyntaxError(r.error.line + 1)) else r
  }

  lemma {:induction false} OneLineLater(d: Dialect, lines: seq<string>, n: nat, draft: Draft)
    ensures ReadLines(d, lines, n + 1, draft) ==
            match ReadLines(d, lines, n, draft)
            case Ok(read) => Ok(read)
            case Err(error) => Err(if error.SyntaxError? then SyntaxError(error.line + 1) else error)
    decreases |lines|
  {
    hide ReadLine, Trim, Absorb;
    if lines != [] {
      var line := ReadLine(d, Trim(lines[0]));
      if !line.Invalid? {
        OneLineLater(d, lines[1..], n + 1, Absorb(draft, line));
      }
    }
  }

  /** A line that is skipped can be anywhere: only the numbers of the lines after it change. */
  lemma SkippedAnywhere(d: Dialect, a: string, line: string, b: string)
    requires IsWhole(a) && '\n' !in line && ReadLine(d, Trim(line)) == Skipped
    ensures Parsed(d, a + line + "\n" + b) == Renumbered(Parsed(d, a + b), |Lines(a)|)
  {
    hide ReadLine, Trim, Lines;
    var before, after, m := Lines(a), Lines(b), |Lines(a)|;
    LinesWith(a, line, b);
    LinesOfBoth(a, b);
    assert before + [line] + after == before + ([line] + after);
    ReadLinesOfBoth(d, before, [line] + after, 1, BLANK);
    ReadLinesOfBoth(d, before, after, 1, BLANK);
    FirstUnreadable(d, before, 1, BLANK);
    var read := ReadLines(d, before, 1, BLANK);
    if read.Ok? {
      assert ([line] + after)[1..] == after;
      SkippedAddsNothing(read.value);
      OneLineLater(d, after, 1 + m, read.value);
      FirstUnreadable(d, after, 1 + m, read.value);
    }
  }

  /** Blank lines, headers and comments of a dialect, indented or not, can be anywhere. */
  lemma NoiseAnywhere(d: Dialect, a: string, indent: string, noise: string, b: string)
    requires IsWhole(a) && IsBlank(indent) && '\n' !in indent + noise
    requires noise == "" || (IsTight(noise) && exists p :: p in Skips(d) && StartsWith(noise, p))
    ensures Parsed(d, a + (indent + noise) + "\n" + b) == Renumbered(Parsed(d, a + b), |Lines(a)|)
  {
    hide ReadLine, Parsed, StartsWith, Skips;
    SkippedExactlyWhen(d, noise);
    TrimPadded(indent, noise, "");
    assert indent + noise + "" == indent + noise;
    TrimTrimmed(noise);
    SkippedAnywhere(d, a, indent + noise, b);
  }

  // ---- White space around a line --------------------------------------------------------------

  predicate IsBlank(s: string) {
    forall c :: c in s ==> IsSpace(c)
  }

  /** White space is, by code point, the characters 9 to 13 and 32. */
  lemma SpaceByCode(c: char)
    ensures IsSpace(c) <==> 9 <= c as int <= 13 || c as int == 32
  {
    assert '\t' as int == 9 && '\n' as int == 10 && '\r' as int == 13 && ' ' as int == 32;
    assert c as int == 9 ==> c == '\t';
    assert c as int == 10 ==> c == '\n';
    assert c as int == 11 ==> c == '\U{0B}';
    assert c as int == 12 ==> c == '\U{0C}';
    assert c as int == 13 ==> c == '\r';
    assert c as int == 32 ==> c == ' ';
  }

  lemma {:induction false} TrimStartPadded(pad: string, s: string)
    requires IsBlank(pad)
    ensures TrimStart(pad + s) == TrimStart(s)
  {
    if pad == "" {
      assert pad + s == s;
    } else {
      assert pad[0] in pad && (pad + s)[1..] == pad[1..] + s;
      TrimStartPadded(pad[1..], s);
    }
  }

  lemma {:induction false} TrimEndPadded(s: string, pad: string)
    requires IsBlank(pad)
    ensures TrimEnd(s + pad) == TrimEnd(s)
    decreases |pad|
  {
    var n := |pad|;
    if n == 0 {
      assert s + pad == s;
    } else {
      assert pad[n - 1] in pad && (s + pad)[..|s + pad| - 1] == s + pad[..n - 1];
      TrimEndPadded(s, pad[..n - 1]);
    }
  }

  lemma {:induction false} TrimStartFollowed(s: string, pad: string)
    requires IsBlank(pad)
    ensures TrimStart(s + pad) == if IsBlank(s) then "" else TrimStart(s) + pad
  {
    if s == "" {
      TrimStartPadded(pad, "");
      assert s + pad == pad == pad + "";
    } else {
      assert (s + pad)[0] == s[0] && (s + pad)[1..] == s[1..] + pad;
      if IsSpace(s[0]) {
        TrimStartFollowed(s[1..], pad);
        assert s == [s[0]] + s[1..];
      } else {
        assert s[0] in s;
      }
    }
  }

  lemma BlankTrimsToNothing(s: string)
    requires IsBlank(s)
    ensures TrimStart(s) == ""
  {
    TrimStartPadded(s, "");
    assert s + "" == s;
  }

  lemma TrimPadded(before: string, s: string, after: string)
    requires IsBlank(before) && IsBlank(after)
    ensures Trim(before + s + after) == Trim(s)
  {
    assert before + s + after == before + (s + after);
    TrimStartPadded(before, s + after);
    TrimStartFollowed(s, after);
    if IsBlank(s) {
      BlankTrimsToNothing(s);
    } else {
      TrimEndPadded(TrimStart(s), after);
    }
  }

  lemma TrimTrimmed(s: string)
    requires s == "" || IsTight(s)
    ensures Trim(s) == s
  {
    if s != "" {
      TrimTight(s);
    }
  }

  /** Lines that read alike can stand for each other. */
  lemma ReadsAlike(d: Dialect, a: string, line: string, other: string, b: string)
    requires IsWhole(a) && '\n' !in line && '\n' !in other
    requires ReadLine(d, Trim(line)) == ReadLine(d, Trim(other))
    ensures Parsed(d, a + line + "\n" + b) == Parsed(d, a + other + "\n" + b)
  {
    hide ReadLine, Trim, Lines, Absorb;
    LinesWith(a, line, b);
    LinesWith(a, other, b);
    var before, after := Lines(a), Lines(b);
    assert before + [line] + after == before + ([line] + after);
    assert before + [other] + after == before + ([other] + after);
    ReadLinesOfBoth(d, before, [line] + after, 1, BLANK);
    ReadLinesOfBoth(d, before, [other] + after, 1, BLANK);
    assert ([line] + after)[1..] == after && ([other] + after)[1..] == after;
  }

  /** White space around a line makes no difference, carriage returns included. */
  lemma PaddingIsIgnored(d: Dialect, a: string, before: string, line: string, after: string, b: string)
    requires IsWhole(a) && IsBlank(before) && IsBlank(after) && '\n' !in before + line + after
    ensures Parsed(d, a + (before + line + after) + "\n" + b) == Parsed(d, a + line + "\n" + b)
  {
    hide ReadLine, Parsed;
    TrimPadded(before, line, after);
    ReadsAlike(d, a, before + line + after, line, b);
  }

  // ---- Openings and closings ------------------------------------------------------------------

  lemma Opened(d: Dialect, noise: string, text: string)
    requires '\n' !in noise && IsTight(noise) && exists p :: p in Skips(d) && StartsWith(noise, p)
    ensures Parsed(d, noise + "\n" + text) == Renumbered(Parsed(d, text), 0)
  {
    hide Parsed, Skips, StartsWith;
    NoiseAnywhere(d, "", "", noise, text);
    assert "" + ("" + noise) + "\n" + text == noise + "\n" + text && "" + text == text;
  }

  lemma Closing(d: Dialect, text: string, noise: string)
    requires IsWhole(text) && '\n' !in noise && IsTight(noise) && exists p :: p in Skips(d) && StartsWith(noise, p)
    ensures Parsed(d, text + noise + "\n") == Parsed(d, text)
  {
    hide Parsed, Skips, StartsWith;
    NoiseAnywhere(d, text, "", noise, "");
    assert text + ("" + noise) + "\n" + "" == text + noise + "\n" && text + "" == text;
    LastLine(d, text);
  }

  /** A syntax error is in one of the lines. */
  lemma LastLine(d: Dialect, text: string)
    ensures Renumbered(Parsed(d, text), |Lines(text)|) == Parsed(d, text)
  {
    hide ReadLines, Lines, IsReadable;
    FirstUnreadable(d, Lines(text), 1, BLANK);
  }

  lemma Skipping(d: Dialect, noise: string, p: string)
    requires p in Skips(d) && |p| <= |noise| && noise[..|p|] == p
    ensures exists p :: p in Skips(d) && StartsWith(noise, p)
  {
    assert StartsWith(noise, p);
  }

  lemma PlantUmlFrame(d: Dialect)
    requires d.MacroPlantUml? || d.RuntimePlantUml?
    ensures '\n' !in "@startuml" && IsTight("@startuml") && exists p :: p in Skips(d) && StartsWith("@startuml", p)
    ensures '\n' !in "@enduml" && IsTight("@enduml") && exists p :: p in Skips(d) && StartsWith("@enduml", p)
  {
    assert Skips(d)[1] == "@startuml" && Skips(d)[2] == "@enduml";
    Skipping(d, "@startuml", "@startuml");
    Skipping(d, "@enduml", "@enduml");
  }

  lemma MermaidHeaders(d: Dialect)
    requires d.MacroMermaid? || d.RuntimeMermaid?
    ensures '\n' !in "graph TD" && IsTight("graph TD") && exists p :: p in Skips(d) && StartsWith("graph TD", p)
    ensures '\n' !in "stateDiagram-v2" && IsTight("stateDiagram-v2")
    ensures exists p :: p in Skips(d) && StartsWith("stateDiagram-v2", p)
  {
    assert Skips(d)[1] == "graph" && Skips(d)[2] == "stateDiagram";
    Skipping(d, "graph TD", "graph");
    Skipping(d, "stateDiagram-v2", "stateDiagram");
  }

  /** A PlantUML text may be framed. */
  lemma FramedPlantUml(d: Dialect, text: string)
    requires IsWhole(text) && (d.MacroPlantUml? || d.RuntimePlantUml?)
    ensures Parsed(d, "@startuml\n" + text + "@enduml\n") == Renumbered(Parsed(d, text), 0)
  {
    hide Parsed, Skips, StartsWith, IsTight;
    PlantUmlFrame(d);
    var begun := "@startuml" + "\n" + text;
    Opened(d, "@startuml", text);
    assert "@startuml\n" == "@startuml" + "\n";
    assert text != "" ==> begun[|begun| - 1] == text[|text| - 1];
    assert text == "" ==> begun[|begun| - 1] == '\n';
    Closing(d, begun, "@enduml");
    assert "@startuml\n" + text + "@enduml\n" == begun + "@enduml" + "\n";
  }

  /** A Mermaid text may have a header. */
  lemma HeadedMermaid(d: Dialect, text: string)
    requires d.MacroMermaid? || d.RuntimeMermaid?
    ensures Parsed(d, "graph TD\n" + text) == Renumbered(Parsed(d, text), 0)
    ensures Parsed(d, "stateDiagram-v2\n" + text) == Renumbered(Parsed(d, text), 0)
  {
    hide Parsed, Skips, StartsWith, IsTight;
    MermaidHeaders(d);
    Opened(d, "graph TD", text);
    Opened(d, "stateDiagram-v2", text);
    assert "graph TD\n" == "graph TD" + "\n" && "stateDiagram-v2\n" == "stateDiagram-v2" + "\n";
  }

  // ---- Arrows -----------------------------------------------------------------------------

  lemma {:induction false} NoLongArrow(before: string, after: string)
    requires '-' !in before && FindText(after, "-->").None?
    ensures FindText(before + "->" + after, "-->").None?
  {
    var s := before + "->" + after;
    var pattern := "-->";
    assert pattern[0] == '-' && pattern[1] == '-';
    if before == "" {
      var tail := ">" + after;
      assert s[0] == '-' && s[1] == '>' && s[1..] == tail && tail[0] == '>' && tail[1..] == after;
      assert !StartsWith(tail, pattern);
      assert FindText(tail, pattern).None?;
    } else {
      assert s[0] == before[0] && s[1..] == before[1..] + "->" + after;
      NoLongArrow(before[1..], after);
    }
  }

  /** Whether text begins with something is decided before the first arrow. */
  lemma PrefixBeforeArrow(before: string, arrow: string, prefix: string)
    requires arrow != "" && arrow[0] == '-' && '-' !in prefix
    ensures StartsWith(before + arrow, prefix) <==> StartsWith(before, prefix)
  {
    var s := before + arrow;
    if |prefix| <= |before| {
      assert s[..|prefix|] == before[..|prefix|];
    } else {
      assert s[|before|] == '-' && prefix[|before|] in prefix;
    }
  }

  lemma HeaderBeforeArrow(before: string, arrow: string)
    requires arrow != "" && arrow[0] == '-'
    ensures before == "" ==> !IsPlantUmlHeader(before + arrow)
    ensures before != "" ==> (IsPlantUmlHeader(before + arrow) <==> IsPlantUmlHeader(before))
    ensures StartsWith(before + arrow, "state ") <==> StartsWith(before, "state ")
  {
    hide StartsWith;
    PrefixBeforeArrow(before, arrow, "'");
    PrefixBeforeArrow(before, arrow, "@startuml");
    PrefixBeforeArrow(before, arrow, "@enduml");
    PrefixBeforeArrow(before, arrow, "hide");
    PrefixBeforeArrow(before, arrow, "skin");
    PrefixBeforeArrow(before, arrow, "state ");
    if before == "" {
      NothingStarts();
    }
  }

  lemma NothingStarts()
    ensures forall p :: StartsWith("", p) <==> p == ""
  {
  }

  lemma ArrowsSplit(before: string, after: string)
    requires '-' !in before && FindText(after, "-->").None?
    ensures SplitPlantUml(before + "->" + after) == Some((before, after))
    ensures SplitPlantUml(before + "-->" + after) == Some((before, after))
  {
    NoLongArrow(before, after);
    SplitOnceAt(before, "->", after);
    FindTextAfter(before, "-->", after);
    SplitOnceAt(before, "-->", after);
    hide FindText, SplitOnce;
  }

  /** In PlantUML the short arrow says what the long one does. */
  lemma ShortArrowReads(d: Dialect, before: string, after: string)
    requires d.MacroPlantUml? || (d.RuntimePlantUml? && !StartsWith(before, "state "))
    requires '-' !in before && FindText(after, "-->").None?
    ensures ReadLine(d, before + "->" + after) == ReadLine(d, before + "-->" + after)
  {
    hide StartsWith, SplitPlantUml, IsPlantUmlHeader, FindColon, Trim, Labelled, Unlabelled, FindText;
    ArrowsSplit(before, after);
    ArrowHeaders(before, after);
  }

  lemma ArrowHeaders(before: string, after: string)
    ensures IsPlantUmlHeader(before + "->" + after) <==> IsPlantUmlHeader(before + "-->" + after)
    ensures StartsWith(before + "->" + after, "state ") <==> StartsWith(before, "state ")
    ensures StartsWith(before + "-->" + after, "state ") <==> StartsWith(before, "state ")
  {
    hide StartsWith, IsPlantUmlHeader;
    var short, long := "->" + after, "-->" + after;
    assert before + "->" + after == before + short && before + "-->" + after == before + long;
    HeaderBeforeArrow(before, short);
    HeaderBeforeArrow(before, long);
  }

  /** So it can stand for it anywhere in a text. */
  lemma ShortArrowAnywhere(d: Dialect, a: string, before: string, after: string, b: string)
    requires d.MacroPlantUml? || (d.RuntimePlantUml? && !StartsWith(before, "state "))
    requires IsWhole(a) && IsTight(before) && IsTight(after) && '\n' !in before && '\n' !in after
    requires '-' !in before && FindText(after, "-->").None?
    ensures Parsed(d, a + (before + "->" + after) + "\n" + b) == Parsed(d, a + (before + "-->" + after) + "\n" + b)
  {
    hide ReadLine, Parsed, FindText, StartsWith;
    ShortArrowReads(d, before, after);
    WrappedIsTight(before, "->", after);
    WrappedIsTight(before, "-->", after);
    TrimTight(before + "->" + after);
    TrimTight(before + "-->" + after);
    ReadsAlike(d, a, before + "->" + after, before + "-->" + after, b);
  }

  // ---- Declarations ---------------------------------------------------------------------------

  lemma {:induction false} FindTextAbsent(s: string, pattern: string)
    requires pattern != "" && pattern[0] !in s
    ensures FindText(s, pattern).None?
  {
    if s != "" {
      assert s[0] in s;
      FindTextAbsent(s[1..], pattern);
    }
  }

  lemma {:induction false} FirstWordOf(word: string, more: string)
    requires (forall c :: c in word ==> !IsSpace(c)) && (more == "" || IsSpace(more[0]))
    ensures FirstWord(word + more) == word
  {
    if word == "" {
      assert word + more == more;
    } else {
      assert word[0] in word && (word + more)[0] == word[0] && (word + more)[1..] == word[1..] + more;
      FirstWordOf(word[1..], more);
      assert word == [word[0]] + word[1..];
    }
  }

  lemma UnquotedName(name: string)
    requires name != "" && name[0] != '\"' && name[|name| - 1] != '\"'
    ensures Unquoted(name) == name && Unquoted("\"" + name + "\"") == name
  {
    var quoted := "\"" + name + "\"";
    assert quoted[1..] == name + "\"";
    assert (name + "\"")[..|name|] == name;
  }

  /** A name that may be declared, by itself or in quotes. */
  predicate IsDeclarable(name: string) {
    name != "" && forall c :: c in name ==> !IsSpace(c) && c != '-' && c != '\"'
  }

  /** What is declared is the first word, without its quotes. */
  lemma WordIsDeclared(word: string, more: string)
    requires word != "" && (forall c :: c in word ==> !IsSpace(c)) && (more == "" || IsSpace(more[0]))
    requires '-' !in word && '-' !in more
    ensures var line := "state " + word + more;
            && ReadLine(RuntimePlantUml, line) == Declares(Unquoted(word)) && ReadLine(MacroPlantUml, line) == Skipped
  {
    var line := "state " + word + more;
    DeclaredWord(word, more);
    StateIsNoHeader(line);
    assert '-' !in line;
    NoArrow(line);
    hide FindText, StartsWith, DeclaredName, IsPlantUmlHeader, Unquoted;
  }

  lemma DeclaredWord(word: string, more: string)
    requires word != "" && (forall c :: c in word ==> !IsSpace(c)) && (more == "" || IsSpace(more[0]))
    ensures var line := "state " + word + more;
            StartsWith(line, "state ") && DeclaredName(line) == Unquoted(word)
  {
    hide Unquoted, FirstWord;
    var line := "state " + word + more;
    assert line[..6] == "state " && line[6..] == word + more && word[0] in word;
    assert TrimStart(word + more) == word + more;
    FirstWordOf(word, more);
  }

  lemma StateIsNoHeader(line: string)
    requires StartsWith(line, "state ")
    ensures !IsPlantUmlHeader(line)
  {
    assert line[0] == line[..6][0] == 's' && line[1] == line[..6][1] == 't';
    assert "skin"[1] == 'k' && "hide"[0] == 'h' && "'"[0] == '\'' && "@startuml"[0] == '@' && "@enduml"[0] == '@';
    assert !StartsWith(line, "skin") && !StartsWith(line, "hide") && !StartsWith(line, "'");
    assert !StartsWith(line, "@startuml") && !StartsWith(line, "@enduml");
  }

  lemma NoArrow(line: string)
    requires '-' !in line
    ensures SplitPlantUml(line).None?
  {
    assert "-->"[0] == '-' && "->"[0] == '-';
    FindTextAbsent(line, "-->");
    FindTextAbsent(line, "->");
  }

  /** At run time `state name` declares a state, and the macro skips it. */
  lemma DeclarationIsRead(name: string, more: string)
    requires IsDeclarable(name) && (more == "" || IsSpace(more[0])) && '-' !in more
    ensures ReadLine(RuntimePlantUml, "state " + name + more) == Declares(name)
    ensures ReadLine(RuntimePlantUml, "state " + ("\"" + name + "\"") + more) == Declares(name)
    ensures ReadLine(MacroPlantUml, "state " + name + more) == Skipped
    ensures ReadLine(MacroPlantUml, "state " + ("\"" + name + "\"") + more) == Skipped
  {
    hide ReadLine, Unquoted;
    assert name[0] in name && name[|name| - 1] in name;
    UnquotedName(name);
    WordIsDeclared(name, more);
    WordIsDeclared("\"" + name + "\"", more);
  }

  function WithState(draft: Draft, name: string): Draft {
    draft.(states := draft.states + {name})
  }

  lemma {:induction false} OneStateMore(d: Dialect, lines: seq<string>, n: nat, draft: Draft, name: string)
    ensures ReadLines(d, lines, n, WithState(draft, name)) ==
            match ReadLines(d, lines, n, draft)
            case Ok(read) => Ok(WithState(read, name))
            case Err(error) => Err(error)
    decreases |lines|
  {
    hide ReadLine, Trim;
    if lines != [] {
      var line := ReadLine(d, Trim(lines[0]));
      assert Absorb(WithState(draft, name), line) == WithState(Absorb(draft, line), name);
      if !line.Invalid? {
        OneStateMore(d, lines[1..], n + 1, Absorb(draft, line), name);
      }
    }
  }

  /** A declaration anywhere in a text that parses adds its state, and changes nothing else. */
  lemma DeclaredIsAdded(a: string, line: string, name: string, b: string)
    requires IsWhole(a) && '\n' !in line && ReadLine(RuntimePlantUml, Trim(line)) == Declares(name)
    ensures var r := Parsed(RuntimePlantUml, a + b);
            r.Ok? ==>
              Parsed(RuntimePlantUml, a + line + "\n" + b) == Ok(r.value.(states := r.value.states + {name}))
  {
    hide ReadLine, Trim, Lines;
    var d, before, after, m := RuntimePlantUml, Lines(a), Lines(b), |Lines(a)|;
    LinesWith(a, line, b);
    LinesOfBoth(a, b);
    assert before + [line] + after == before + ([line] + after);
    ReadLinesOfBoth(d, before, [line] + after, 1, BLANK);
    ReadLinesOfBoth(d, before, after, 1, BLANK);
    var read := ReadLines(d, before, 1, BLANK);
    if read.Ok? {
      assert ([line] + after)[1..] == after;
      OneStateMore(d, after, 2 + m, read.value, name);
      OneLineLater(d, after, 1 + m, read.value);
      var whole := ReadLines(d, after, 1 + m, read.value);
      if whole.Ok? {
        MoreIsNotEmpty(whole.value, name);
      }
    }
  }

  lemma MoreIsNotEmpty(draft: Draft, name: string)
    ensures |WithState(draft, name).states| >= |draft.states|
  {
    assert WithState(draft, name).states == draft.states + {name};
    assert |draft.states + {name}| == |draft.states| + |{name} - draft.states|;
  }
}
