/** Lines with an arrow: white space within them, and parts that are missing. */
module Spacing {
  import opened Wrappers
  import opened Definitions
  import opened Text
  import opened Parsers
  import opened Rendering
  import opened Layout

  // ---- Incomplete lines -----------------------------------------------------------------------

  /** What a run-time PlantUML line that is no transition is: a declaration, if it begins like one. */
  function Leftover(d: Dialect, from: string): Line {
    if d.RuntimePlantUml? && from == "state" then Declares("-->") else Invalid
  }

  lemma LeftoverIsRead(from: string, rest: string)
    requires IsPlain(from) && IsTight(rest)
    ensures var line := ArrowLine(from, rest);
            StartsWith(line, "state ") ==> from == "state" && DeclaredName(line) == "-->"
  {
    StateKeyword(from, rest);
    var line := ArrowLine(from, rest);
    if from == "state" {
      var tail := " " + rest;
      assert line[6..] == "-->" + tail;
      assert TrimStart("-->" + tail) == "-->" + tail;
      FirstWordOf("-->", tail);
      hide FirstWord, TrimStart;
      assert Unquoted("-->") == "-->";
    }
  }

  /** A bare arrow must come from the mark or go to it. */
  lemma BareArrowIsInvalid(d: Dialect, from: string, to: string)
    requires IsValidIdentifier(from) && IsValidIdentifier(to) && !Reserved(d, from)
    ensures ReadLine(d, Trim(ArrowLine(from, to))) == Leftover(d, from)
  {
    IdentifierIsPlain(from);
    IdentifierIsPlain(to);
    BareRest(to);
    PlainIsTight(to);
    ArrowLineSplits(from, to);
    HeaderIsReserved(d, from, to);
    LeftoverIsRead(from, to);
    StateKeyword(from, to);
    hide IsPlain, FindPipes, FindColon, FindText, SplitOnce, Trim, IsTight, ArrowLine, IsMermaidHeader,
      IsPlantUmlHeader, StartsWith, DeclaredName, IsValidIdentifier;
  }

  /** The parts of what follows an arrow where a colon has nothing after it. */
  lemma NoEventFound(to: string)
    requires IsPlain(to)
    ensures var rest := to + " :";
            && IsTight(rest) && '\n' !in rest && FindPipes(rest) == None && FindColon(rest) == Some((to, ""))
            && rest != MARK && rest != ""
  {
    PlainIsTight(to);
    TrimTight(to);
    var rest := to + " :";
    FindCharAfter(to + " ", ':', "");
    assert rest == (to + " ") + [':'] + "";
    assert rest[..|to| + 1] == to + " " && rest[|to| + 2..] == "";
    assert rest[|rest| - 1] == ':' && rest[0] == to[0] && '|' !in rest;
    assert ':' !in MARK;
  }

  /**
   A transition without an event: the macro's parsers take the event to be empty, which validation
   rejects; the run-time parsers do not read it, except PlantUML to the mark.
   */
  lemma NoEventIsRead(d: Dialect, from: string, to: string)
    requires IsValidIdentifier(from) && (IsValidIdentifier(to) || to == MARK) && !Reserved(d, from)
    ensures ReadLine(d, Trim(ArrowLine(from, to + " :"))) ==
            match d
            case MacroMermaid => Labelled(from, to, "")
            case MacroPlantUml => Labelled(from, to, "")
            case RuntimeMermaid => Invalid
            case RuntimePlantUml => if to == MARK then Ends(from) else Leftover(d, from)
  {
    IdentifierIsPlain(from);
    if to == MARK {
      MarkIsTight();
    } else {
      IdentifierIsPlain(to);
    }
    var rest := to + " :";
    NoEventFound(to);
    ArrowLineSplits(from, rest);
    HeaderIsReserved(d, from, rest);
    LeftoverIsRead(from, rest);
    StateKeyword(from, rest);
    hide IsPlain, FindPipes, FindColon, FindText, SplitOnce, Trim, IsTight, ArrowLine, IsMermaidHeader,
      IsPlantUmlHeader, StartsWith, DeclaredName, IsValidIdentifier, Labelled;
  }

  // ---- White space within a line --------------------------------------------------------------

  lemma PlainPadded(before: string, s: string, after: string)
    requires IsBlank(before) && IsBlank(after) && IsPlain(s)
    ensures Trim(before + s + after) == s && Trim(before + s) == s && Trim(s + after) == s
  {
    PlainIsTight(s);
    TrimPadded(before, s, after);
    TrimPadded(before, s, "");
    TrimPadded("", s, after);
    TrimTight(s);
    assert before + s + "" == before + s && "" + s + after == s + after;
  }

  lemma BlankIsNeutral(s: string)
    requires IsBlank(s)
    ensures '-' !in s && '|' !in s && ':' !in s
  {
  }

  /** A line with an arrow and any white space around it splits like one with single spaces. */
  lemma SpacedSplit(from: string, before: string, after: string, rest: string)
    requires IsPlain(from) && IsBlank(before) && IsBlank(after) && IsTight(rest)
    ensures var line := from + before + "-->" + (after + rest);
            && SplitOnce(line, "-->") == Some((from + before, after + rest)) && FindText(line, "-->").Some?
            && Trim(from + before) == from && Trim(after + rest) == rest
  {
    PlainIsTight(from);
    BlankIsNeutral(before);
    FindTextAfter(from + before, "-->", after + rest);
    SplitOnceAt(from + before, "-->", after + rest);
    PlainPadded("", from, before);
    assert "" + from + before == from + before;
    TrimPadded(after, rest, "");
    TrimTight(rest);
    assert after + rest + "" == after + rest;
    hide SplitOnce, FindText, Trim;
  }

  lemma MermaidPrefixes()
    ensures IsPlain("%%") && IsPlain("graph") && IsPlain("stateDiagram")
  {
  }

  lemma SpacedMermaid(from: string, before: string, more: string)
    requires IsPlain(from) && IsBlank(before)
    ensures IsMermaidHeader(from + before + "-->" + more) <==>
            StartsWith(from, "%%") || StartsWith(from, "graph") || StartsWith(from, "stateDiagram")
  {
    hide StartsWith, IsPlain;
    MermaidPrefixes();
    var line, tail := from + before + "-->" + more, before + "-->" + more;
    assert line == from + tail && tail != "" && (IsSpace(tail[0]) || tail[0] == '-') by {
      assert tail[0] == (before + "-->")[0];
      assert before != "" ==> tail[0] in before;
    }
    PlainIsTight(from);
    WordPrefix(from, tail, "%%");
    WordPrefix(from, tail, "graph");
    WordPrefix(from, tail, "stateDiagram");
    DashesDoNotStart(line, from);
  }

  lemma PlantUmlPrefixes()
    ensures IsPlain("'") && IsPlain("@startuml") && IsPlain("@enduml") && IsPlain("hide") && IsPlain("skin")
  {
  }

  lemma SpacedPlantUml(from: string, before: string, more: string)
    requires IsPlain(from) && IsBlank(before)
    ensures var line := from + before + "-->" + more;
            && (IsPlantUmlHeader(line) <==> IsPlantUmlHeader(from))
            && (from != "state" ==> !StartsWith(line, "state "))
  {
    hide StartsWith, IsPlain;
    PlantUmlPrefixes();
    var line, tail := from + before + "-->" + more, before + "-->" + more;
    assert line == from + tail && tail != "" && (IsSpace(tail[0]) || tail[0] == '-') by {
      assert tail[0] == (before + "-->")[0];
      assert before != "" ==> tail[0] in before;
    }
    PlainIsTight(from);
    WordPrefix(from, tail, "'");
    WordPrefix(from, tail, "@startuml");
    WordPrefix(from, tail, "@enduml");
    WordPrefix(from, tail, "hide");
    WordPrefix(from, tail, "skin");
    if from != "state" {
      StateDoesNotStart(from, tail);
    }
  }

  /** What follows a word does not decide whether the line begins with some other word. */
  lemma WordPrefix(from: string, tail: string, prefix: string)
    requires tail != "" && (IsSpace(tail[0]) || tail[0] == '-') && IsPlain(prefix)
    ensures StartsWith(from + tail, prefix) <==> StartsWith(from, prefix)
  {
    if |prefix| <= |from| {
      assert (from + tail)[..|prefix|] == from[..|prefix|];
    } else {
      assert prefix[|from|] in prefix && (from + tail)[|from|] == tail[0];
    }
  }

  lemma DashesDoNotStart(line: string, from: string)
    requires from != "" && '-' !in from && from <= line
    ensures !StartsWith(line, "---")
  {
    assert line[0] == from[0] && from[0] in from && "---"[0] == '-';
  }

  lemma StateDoesNotStart(from: string, tail: string)
    requires IsPlain(from) && from != "state" && tail != "" && (IsSpace(tail[0]) || tail[0] == '-')
    ensures !StartsWith(from + tail, "state ")
  {
    var line, keyword := from + tail, "state ";
    if |from| > 5 {
      assert from[5] in from && line[5] == from[5] && keyword[5] == ' ';
    } else if |from| < 5 {
      assert line[|from|] == tail[0] && keyword[|from|] in "state";
    } else {
      assert line[..5] == from && keyword[..5] == "state";
    }
  }

  /** White space around the arrow makes no difference. */
  lemma SpacedArrow(d: Dialect, from: string, before: string, after: string, rest: string)
    requires IsPlain(from) && from != "state" && IsBlank(before) && IsBlank(after) && IsTight(rest)
    ensures ReadLine(d, from + before + "-->" + (after + rest)) == ReadLine(d, ArrowLine(from, rest))
  {
    hide IsPlain, IsBlank, IsTight, StartsWith, SplitOnce, FindText, Trim, IsMermaidHeader, IsPlantUmlHeader, FindPipes,
      FindColon, Labelled, Unlabelled;
    var line := from + before + "-->" + (after + rest);
    assert ArrowLine(from, rest) == from + " " + "-->" + (" " + rest);
    assert IsBlank(" ") by { OneBlank(); }
    SpacedSplit(from, before, after, rest);
    Split(from, rest);
    SpacedMermaid(from, before, after + rest);
    SpacedMermaid(from, " ", " " + rest);
    SpacedPlantUml(from, before, after + rest);
    SpacedPlantUml(from, " ", " " + rest);
    hide ArrowLine;
    SplitDecides(d, line, ArrowLine(from, rest));
  }

  lemma OneBlank()
    ensures IsBlank(" ")
  {
  }

  /** Of a line with an arrow only the beginning and the trimmed sides of the arrow matter. */
  lemma SplitDecides(d: Dialect, line: string, other: string)
    requires FindText(line, "-->").Some? && FindText(other, "-->").Some?
    requires SplitOnce(line, "-->").Some? && SplitOnce(other, "-->").Some?
    requires var (x, y), (x', y') := SplitOnce(line, "-->").value, SplitOnce(other, "-->").value;
             Trim(x) == Trim(x') && Trim(y) == Trim(y')
    requires IsMermaidHeader(line) <==> IsMermaidHeader(other)
    requires IsPlantUmlHeader(line) <==> IsPlantUmlHeader(other)
    requires !StartsWith(line, "state ") && !StartsWith(other, "state ")
    ensures ReadLine(d, line) == ReadLine(d, other)
  {
    hide StartsWith, SplitOnce, FindText, Trim, IsMermaidHeader, IsPlantUmlHeader, FindPipes, FindColon, Labelled,
      Unlabelled;
  }

  lemma ColonSplit(first: string, last: string)
    requires ':' !in first
    ensures FindColon(first + ":" + last) == Some((Trim(first), Trim(last)))
  {
    hide Trim;
    var rest := first + ":" + last;
    FindCharAfter(first, ':', last);
    assert rest[..|first|] == first && rest[|first| + 1..] == last;
  }

  lemma NoPipes(first: string, last: string)
    requires '|' !in first && '|' !in last
    ensures FindPipes(first + ":" + last) == None
  {
  }

  lemma SpacedColonFound(to: string, before: string, after: string, event: string)
    requires IsPlain(to) && IsPlain(event) && IsBlank(before) && IsBlank(after)
    ensures var rest := to + before + ":" + (after + event);
            && FindColon(rest) == Some((to, event)) && FindPipes(rest) == None && IsTight(rest)
            && rest != MARK && rest != ""
  {
    PlainIsTight(to);
    PlainIsTight(event);
    BlankIsNeutral(before);
    BlankIsNeutral(after);
    PlainPadded(after, to, before);
    PlainPadded(after, event, before);
    var first, last := to + before, after + event;
    ColonSplit(first, last);
    NoPipes(first, last);
    var rest := first + ":" + last;
    assert rest[0] == to[0] && rest[|rest| - 1] == last[|last| - 1] == event[|event| - 1];
    assert rest[|first|] == ':' && ':' !in MARK;
    hide FindPipes, FindColon, Trim;
  }

  /** Nor does white space around the colon. */
  lemma SpacedColon(d: Dialect, from: string, to: string, before: string, after: string, event: string)
    requires IsPlain(from) && from != MARK && IsPlain(to) && IsPlain(event) && IsBlank(before) && IsBlank(after)
    ensures ReadLine(d, ArrowLine(from, to + before + ":" + (after + event))) ==
            ReadLine(d, ArrowLine(from, ColonText(event, to)))
  {
    var rest, plain := to + before + ":" + (after + event), ColonText(event, to);
    SpacedColonFound(to, before, after, event);
    SpacedColonFound(to, " ", " ", event);
    assert plain == to + " " + ":" + (" " + event);
    RestDecides(d, from, rest, plain);
  }

  /** Of what follows the arrow only the parts matter that are found in it. */
  lemma RestDecides(d: Dialect, from: string, rest: string, other: string)
    requires IsPlain(from) && from != MARK && IsTight(rest) && IsTight(other)
    requires FindPipes(rest) == FindPipes(other) && FindColon(rest) == FindColon(other)
    requires rest != MARK && other != MARK && FindColon(rest).Some?
    ensures ReadLine(d, ArrowLine(from, rest)) == ReadLine(d, ArrowLine(from, other))
  {
    hide IsPlain, IsTight, StartsWith, SplitOnce, FindText, Trim, IsMermaidHeader, IsPlantUmlHeader, FindPipes,
      FindColon, ArrowLine, Labelled, DeclaredName;
    SameBeginning(from, rest, other);
    Split(from, rest);
    Split(from, other);
  }

  lemma SameBeginning(from: string, rest: string, other: string)
    requires IsPlain(from) && IsTight(rest) && IsTight(other)
    ensures var line, line' := ArrowLine(from, rest), ArrowLine(from, other);
            && (IsMermaidHeader(line) <==> IsMermaidHeader(line'))
            && (IsPlantUmlHeader(line) <==> IsPlantUmlHeader(line'))
            && (StartsWith(line, "state ") <==> StartsWith(line', "state "))
            && (StartsWith(line, "state ") ==> DeclaredName(line) == DeclaredName(line'))
  {
    hide IsPlain, IsTight, StartsWith, IsMermaidHeader, IsPlantUmlHeader, DeclaredName;
    SpacedMermaid(from, " ", " " + rest);
    SpacedMermaid(from, " ", " " + other);
    SpacedPlantUml(from, " ", " " + rest);
    SpacedPlantUml(from, " ", " " + other);
    assert ArrowLine(from, rest) == from + " " + "-->" + (" " + rest);
    assert ArrowLine(from, other) == from + " " + "-->" + (" " + other);
    LeftoverIsRead(from, rest);
    LeftoverIsRead(from, other);
    StateKeyword(from, rest);
    StateKeyword(from, other);
  }

  lemma Split(from: string, rest: string)
    requires IsPlain(from) && IsTight(rest)
    ensures var line := ArrowLine(from, rest);
            && SplitOnce(line, "-->") == Some((from + " ", " " + rest)) && FindText(line, "-->").Some?
            && Trim(from + " ") == from && Trim(" " + rest) == rest
  {
    SpacedSplit(from, " ", " ", rest);
    hide SplitOnce, FindText, Trim;
    assert ArrowLine(from, rest) == from + " " + "-->" + (" " + rest);
  }

  lemma PipesSplit(inner: string, last: string)
    requires '|' !in inner
    ensures FindPipes("|" + (inner + "|" + last)) == Some((Trim(inner), Trim(last)))
  {
    hide Trim;
    var tail := inner + "|" + last;
    var rest := "|" + tail;
    assert FindChar(rest, '|') == Some(0) && rest[1..] == tail;
    FindCharAfter(inner, '|', last);
    assert tail[..|inner|] == inner && tail[|inner| + 1..] == last;
  }

  lemma SpacedPipesFound(to: string, before: string, event: string, after: string, last: string)
    requires IsPlain(to) && IsPlain(event) && IsBlank(before) && IsBlank(after) && IsBlank(last)
    ensures var rest := "|" + (before + event + after + "|" + (last + to));
            FindPipes(rest) == Some((event, to)) && IsTight(rest)
  {
    PlainIsTight(to);
    PlainIsTight(event);
    BlankIsNeutral(before);
    BlankIsNeutral(after);
    PlainPadded(before, event, after);
    PlainPadded(last, to, after);
    var inner, tail := before + event + after, last + to;
    PipesSplit(inner, tail);
    var rest := "|" + (inner + "|" + tail);
    assert rest[0] == '|' && rest[|rest| - 1] == tail[|tail| - 1] == to[|to| - 1];
    hide FindPipes;
    hide Trim, FindChar, IsPlain, IsBlank;
  }

  /** Nor does white space around and within the pipes, also in an arrow from the mark. */
  lemma SpacedPipes(d: Dialect, from: string, to: string, before: string, event: string, after: string, last: string)
    requires d.MacroMermaid? || d.RuntimeMermaid?
    requires IsPlain(from) && IsPlain(to) && IsPlain(event) && IsBlank(before) && IsBlank(after) && IsBlank(last)
    ensures var line := ArrowLine(from, "|" + (before + event + after + "|" + (last + to)));
            ReadLine(d, line) == if IsMermaidHeader(line) then Skipped else Labelled(from, to, event)
  {
    var rest := "|" + (before + event + after + "|" + (last + to));
    SpacedPipesFound(to, before, event, after, last);
    PlainIsTight(event);
    PlainIsTight(to);
    PipesDecide(d, from, rest, event, to);
  }

  lemma PipesDecide(d: Dialect, from: string, rest: string, event: string, to: string)
    requires d.MacroMermaid? || d.RuntimeMermaid?
    requires IsPlain(from) && IsTight(rest) && FindPipes(rest) == Some((event, to)) && event != "" && to != ""
    ensures var line := ArrowLine(from, rest);
            ReadLine(d, line) == if IsMermaidHeader(line) then Skipped else Labelled(from, to, event)
  {
    hide IsPlain, IsTight, SplitOnce, FindText, Trim, IsMermaidHeader, FindPipes, FindColon, ArrowLine, ClassifyEvent;
    Split(from, rest);
  }
}
