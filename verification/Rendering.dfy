/** Definitions written out in the grammar of the documentation, and read back by each parser. */
module Rendering {
  import opened Wrappers
  import opened Graphs
  import opened Definitions
  import opened Text
  import opened Parsers

  datatype Style = Flowchart | StateDiagram

  function Suffix(kind: EventKind): string {
    match kind
    case Normal => ""
    case Hard => "!"
    case Soft => "?"
  }

  function EventText(t: ParsedTransition): string {
    t.event + Suffix(t.kind)
  }

  function TargetText(t: ParsedTransition): string {
    if t.to == TERMINAL then MARK else t.to
  }

  function PipesText(event: string, to: string): string {
    "|" + (event + "| ") + to
  }

  function ColonText(event: string, to: string): string {
    (to + " ") + ":" + (" " + event)
  }

  /** What is written after a transition's arrow. */
  function RestText(style: Style, t: ParsedTransition): string {
    match style
    case Flowchart => PipesText(EventText(t), TargetText(t))
    case StateDiagram => ColonText(EventText(t), TargetText(t))
  }

  function ArrowLine(from: string, rest: string): string {
    (from + " ") + "-->" + (" " + rest)
  }

  function TransitionLine(style: Style, t: ParsedTransition): string {
    ArrowLine(t.from, RestText(style, t))
  }

  function Join(lines: seq<string>): string {
    if lines == [] then "" else lines[0] + "\n" + Join(lines[1..])
  }

  function TransitionLines(style: Style, ts: seq<ParsedTransition>): seq<string> {
    if ts == [] then [] else [TransitionLine(style, ts[0])] + TransitionLines(style, ts[1..])
  }

  function BareLines(bare: seq<string>): seq<string> {
    if bare == [] then [] else [ArrowLine(bare[0], MARK)] + BareLines(bare[1..])
  }

  /** Only the first of these lines makes its state the initial one; the others just mention theirs. */
  function StartLines(names: seq<string>): seq<string> {
    if names == [] then [] else [ArrowLine(MARK, names[0])] + StartLines(names[1..])
  }

  /**
   Bare arrows from the mark to the initial state and to `strays`, the transitions in order, and bare
   arrows to the mark from `bare`.
   */
  function Render(style: Style, fsm: ParsedFsm, bare: seq<string>, strays: seq<string>): string {
    Join(StartLines([fsm.initial] + strays) + (TransitionLines(style, fsm.transitions) + BareLines(bare)))
  }

  /** A source whose lines the dialect takes for headers. */
  predicate Reserved(d: Dialect, from: string) {
    match d
    case MacroMermaid => StartsWith(from, "graph") || StartsWith(from, "stateDiagram")
    case RuntimeMermaid => StartsWith(from, "graph") || StartsWith(from, "stateDiagram")
    case MacroPlantUml => StartsWith(from, "hide") || StartsWith(from, "skin") || from == "state"
    case RuntimePlantUml => StartsWith(from, "hide") || StartsWith(from, "skin")
  }

  predicate Supports(d: Dialect, style: Style) {
    style == StateDiagram || d == MacroMermaid || d == RuntimeMermaid
  }

  ghost predicate Writable(t: ParsedTransition) {
    IsValidIdentifier(t.from) && IsValidIdentifier(t.to) && IsValidIdentifier(t.event)
  }

  // ---- One line ---------------------------------------------------------------------------

  /** Text a label or a state can be: no white space, and none of the characters of the grammar. */
  ghost predicate IsPlain(s: string) {
    && s != ""
    && forall c :: c in s ==> !IsSpace(c) && c != '-' && c != '|' && c != ':'
  }

  lemma PlainIsTight(s: string)
    requires IsPlain(s)
    ensures IsTight(s) && '\n' !in s && '-' !in s && '|' !in s && ':' !in s
  {
    assert s[0] in s && s[|s| - 1] in s;
  }

  lemma IdentifierIsPlain(s: string)
    requires IsValidIdentifier(s)
    ensures IsPlain(s) && s != MARK && IsNameChar(s[0]) && IsNameChar(s[|s| - 1])
  {
    assert MARK[0] == '[';
  }

  lemma LabelsArePlain(t: ParsedTransition)
    requires Writable(t)
    ensures IsPlain(t.from) && IsPlain(EventText(t)) && IsPlain(TargetText(t))
    ensures ClassifyEvent(EventText(t)) == (t.event, t.kind)
  {
    IdentifierIsPlain(t.from);
    IdentifierIsPlain(t.to);
    IdentifierIsPlain(t.event);
    var text := EventText(t);
    match t.kind {
      case Normal => assert text == t.event;
      case Hard => assert text == t.event + "!" && text[..|t.event|] == t.event;
      case Soft => assert text == t.event + "?" && text[..|t.event|] == t.event;
    }
  }

  /** Text between tight text is tight, and free of line breaks if its parts are. */
  lemma WrappedIsTight(first: string, middle: string, last: string)
    requires IsTight(first) && IsTight(last)
    ensures IsTight(first + middle + last)
    ensures '\n' !in first && '\n' !in middle && '\n' !in last ==> '\n' !in first + middle + last
  {
    var s := first + middle + last;
    assert s[0] == first[0] && s[|s| - 1] == last[|last| - 1];
  }

  lemma LineIsTight(from: string, rest: string)
    requires IsTight(from) && IsTight(rest) && '\n' !in from && '\n' !in rest
    ensures IsTight(ArrowLine(from, rest)) && '\n' !in ArrowLine(from, rest)
  {
    var line := ArrowLine(from, rest);
    assert line[0] == from[0] && line[|line| - 1] == rest[|rest| - 1];
  }

  lemma ColonTextIsTight(event: string, to: string)
    requires IsTight(event) && IsTight(to) && '\n' !in event && '\n' !in to && '|' !in event && '|' !in to
    ensures var rest := ColonText(event, to);
            IsTight(rest) && '\n' !in rest && '|' !in rest && rest != MARK
  {
    var rest := ColonText(event, to);
    assert rest[0] == to[0] && rest[|rest| - 1] == event[|event| - 1];
    assert rest[|to| + 1] == ':' && ':' !in MARK;
  }

  lemma ArrowLineSplits(from: string, rest: string)
    requires IsPlain(from) && IsTight(rest) && '\n' !in rest
    ensures var line := ArrowLine(from, rest);
            && Trim(line) == line && '\n' !in line
            && FindText(line, "-->").Some?
            && SplitOnce(line, "-->") == Some((from + " ", " " + rest))
            && Trim(from + " ") == from && Trim(" " + rest) == rest
  {
    PlainIsTight(from);
    TrimTight(from);
    TrimTight(rest);
    SplitOnceAt(from + " ", "-->", " " + rest);
    FindTextAfter(from + " ", "-->", " " + rest);
    hide IsPlain, SplitOnce, FindText, TrimStart, TrimEnd, IsTight, Trim;
    LineIsTight(from, rest);
    TrimTight(ArrowLine(from, rest));
  }

  lemma PipesFound(event: string, to: string)
    requires '|' !in event && Trim(event) == event && Trim(" " + to) == to
    ensures FindPipes(PipesText(event, to)) == Some((event, to))
  {
    var after := event + "|" + (" " + to);
    var rest := PipesText(event, to);
    assert FindChar(rest, '|') == Some(0);
    assert rest[1..] == after;
    FindCharAfter(event, '|', " " + to);
    hide FindChar, Trim;
    assert after[..|event|] == event && after[|event| + 1..] == " " + to;
  }

  lemma FlowchartRest(event: string, to: string)
    requires IsPlain(event) && IsPlain(to)
    ensures var rest := PipesText(event, to);
            IsTight(rest) && '\n' !in rest && FindPipes(rest) == Some((event, to))
  {
    PlainIsTight(event);
    PlainIsTight(to);
    TrimTight(event);
    TrimTight(to);
    PipesFound(event, to);
    hide IsPlain, Trim, FindPipes, IsTight;
    assert IsTight("|") by { TightBar(); }
    WrappedIsTight("|", event + "| ", to);
  }

  lemma TightBar()
    ensures IsTight("|")
  {
  }

  lemma ColonFound(event: string, to: string)
    requires ':' !in to && Trim(to + " ") == to && Trim(" " + event) == event
    ensures FindColon(ColonText(event, to)) == Some((to, event))
  {
    var rest := ColonText(event, to);
    FindCharAfter(to + " ", ':', " " + event);
    hide Trim, FindChar;
    assert rest[..|to| + 1] == to + " " && rest[|to| + 2..] == " " + event;
  }

  lemma StateDiagramRest(event: string, to: string)
    requires IsPlain(event) && IsPlain(to)
    ensures var rest := ColonText(event, to);
            && IsTight(rest) && '\n' !in rest
            && FindPipes(rest) == None && FindColon(rest) == Some((to, event)) && rest != MARK && rest != ""
  {
    PlainIsTight(event);
    PlainIsTight(to);
    TrimTight(event);
    TrimTight(to);
    ColonFound(event, to);
    hide IsPlain, Trim, FindColon, IsTight, FindChar;
    ColonTextIsTight(event, to);
  }

  lemma BareRest(to: string)
    requires IsPlain(to)
    ensures IsTight(to) && '\n' !in to && FindPipes(to) == None && FindColon(to) == None
  {
    PlainIsTight(to);
  }

  lemma PrefixOfLine(from: string, rest: string, prefix: string)
    requires IsPlain(prefix)
    ensures StartsWith(ArrowLine(from, rest), prefix) <==> StartsWith(from, prefix)
  {
    var line := ArrowLine(from, rest);
    if |prefix| <= |from| {
      assert line[..|prefix|] == from[..|prefix|];
    } else {
      assert prefix[|from|] in prefix;
      assert line[|from|] == ' ';
    }
  }

  /** Which lines are taken for headers: those whose source is reserved. */
  lemma HeaderIsReserved(d: Dialect, from: string, rest: string)
    requires IsValidIdentifier(from)
    ensures var line := ArrowLine(from, rest);
            && (IsMermaidHeader(line) <==> Reserved(MacroMermaid, from))
            && (IsPlantUmlHeader(line) <==> Reserved(RuntimePlantUml, from))
            && (IsPlantUmlHeader(line) || StartsWith(line, "state ") <==> Reserved(MacroPlantUml, from))
  {
    var line := ArrowLine(from, rest);
    IdentifierIsPlain(from);
    assert line[0] == from[0];
    PrefixOfLine(from, rest, "graph");
    PrefixOfLine(from, rest, "stateDiagram");
    PrefixOfLine(from, rest, "hide");
    PrefixOfLine(from, rest, "skin");
    StateKeyword(from, rest);
    assert "%%"[0] == '%' && "---"[0] == '-' && "'"[0] == '\'' && "@startuml"[0] == '@' && "@enduml"[0] == '@';
    assert !StartsWith(line, "%%") && !StartsWith(line, "---") && !StartsWith(line, "'");
    assert !StartsWith(line, "@startuml") && !StartsWith(line, "@enduml");
  }

  lemma StateKeyword(from: string, rest: string)
    requires IsPlain(from)
    ensures StartsWith(ArrowLine(from, rest), "state ") <==> from == "state"
  {
    var line, keyword := ArrowLine(from, rest), "state ";
    if |from| > 5 {
      assert from[5] in from && line[5] == from[5];
    } else if |from| < 5 {
      assert line[|from|] == ' ' && keyword[|from|] != ' ';
    } else {
      assert line[..6] == from + " " && keyword == "state" + " ";
      assert (from + " ")[..5] == from && keyword[..5] == "state";
    }
  }

  /** What a transition's line says. */
  function LineOf(t: ParsedTransition): Line {
    if t.to == TERMINAL then EndsOn(t.from, t.event, t.kind) else Goes(t.from, t.to, t.event, t.kind)
  }

  lemma LabelledIsLineOf(t: ParsedTransition)
    requires Writable(t)
    ensures Labelled(t.from, TargetText(t), EventText(t)) == LineOf(t)
    ensures EventText(t) != "" && TargetText(t) != "" && t.from != MARK
  {
    LabelsArePlain(t);
    IdentifierIsPlain(t.from);
    IdentifierIsPlain(t.to);
  }

  /** What follows the arrow of a transition's line, as the readers find it. */
  lemma RestReads(style: Style, t: ParsedTransition)
    requires Writable(t)
    ensures var rest := RestText(style, t);
            && IsTight(rest) && '\n' !in rest && rest != "" && rest != MARK
            && FindPipes(rest) == (if style == Flowchart then Some((EventText(t), TargetText(t))) else None)
            && (style == StateDiagram ==> FindColon(rest) == Some((TargetText(t), EventText(t))))
  {
    LabelsArePlain(t);
    hide IsPlain, FindPipes, FindColon, IsTight, PipesText, ColonText, EventText, TargetText;
    if style == Flowchart {
      FlowchartRest(EventText(t), TargetText(t));
      MarkHasNoPipes();
    } else {
      StateDiagramRest(EventText(t), TargetText(t));
    }
  }

  lemma MarkHasNoPipes()
    ensures FindPipes(MARK) == None && FindPipes("") == None
  {
  }

  /** Every dialect that knows the style reads a transition's line back, unless its source is reserved. */
  lemma TransitionIsRead(d: Dialect, style: Style, t: ParsedTransition)
    requires Writable(t) && Supports(d, style)
    ensures var line := TransitionLine(style, t);
            && '\n' !in line
            && ReadLine(d, Trim(line)) == if Reserved(d, t.from) then Skipped else LineOf(t)
  {
    var rest := RestText(style, t);
    IdentifierIsPlain(t.from);
    RestReads(style, t);
    ArrowLineSplits(t.from, rest);
    HeaderIsReserved(d, t.from, rest);
    LabelledIsLineOf(t);
    hide IsPlain, FindPipes, FindColon, FindText, SplitOnce, Trim, IsTight, RestText, ArrowLine, EventText, TargetText,
      IsMermaidHeader, IsPlantUmlHeader, StartsWith, Labelled, IsValidIdentifier, LineOf;
    LineOfIsNoError(t);
  }

  lemma LineOfIsNoError(t: ParsedTransition)
    ensures !LineOf(t).Invalid? && !LineOf(t).Skipped?
  {
  }

  /** A bare arrow to the mark makes its source final, unless it is reserved. */
  lemma BareIsRead(d: Dialect, from: string)
    requires IsValidIdentifier(from)
    ensures var line := ArrowLine(from, MARK);
            && '\n' !in line
            && ReadLine(d, Trim(line)) == if Reserved(d, from) then Skipped else Ends(from)
  {
    IdentifierIsPlain(from);
    MarkIsTight();
    ArrowLineSplits(from, MARK);
    HeaderIsReserved(d, from, MARK);
    hide IsPlain, FindPipes, FindColon, FindText, SplitOnce, Trim, IsTight, ArrowLine, IsMermaidHeader,
      IsPlantUmlHeader, StartsWith;
  }

  lemma MarkIsTight()
    ensures IsPlain(MARK) && IsTight(MARK) && '\n' !in MARK && MARK != ""
    ensures FindPipes(MARK) == None && FindColon(MARK) == None
  {
    assert forall c :: c in MARK ==> c == '[' || c == '*' || c == ']';
  }

  /** A bare arrow from the mark names an initial state. */
  lemma InitialIsRead(d: Dialect, to: string)
    requires IsValidIdentifier(to)
    ensures var line := ArrowLine(MARK, to);
            '\n' !in line && ReadLine(d, Trim(line)) == Starts(to)
  {
    IdentifierIsPlain(to);
    MarkIsTight();
    BareRest(to);
    ArrowLineSplits(MARK, to);
    MarkIsNoHeader(to);
    PlainIsTight(to);
    hide IsPlain, FindPipes, FindColon, FindText, SplitOnce, Trim, IsTight, ArrowLine, IsMermaidHeader,
      IsPlantUmlHeader, StartsWith;
  }

  lemma MarkIsNoHeader(to: string)
    ensures var line := ArrowLine(MARK, to);
            !IsMermaidHeader(line) && !IsPlantUmlHeader(line) && !StartsWith(line, "state ")
  {
    var line := ArrowLine(MARK, to);
    assert line[0] == '[';
    assert "%%"[0] == '%' && "graph"[0] == 'g' && "stateDiagram"[0] == 's' && "---"[0] == '-' && "state "[0] == 's';
    assert "'"[0] == '\'' && "@startuml"[0] == '@' && "@enduml"[0] == '@' && "hide"[0] == 'h' && "skin"[0] == 's';
  }

  // ---- The whole text ---------------------------------------------------------------------

  lemma {:induction false} JoinedLines(lines: seq<string>)
    requires forall l :: l in lines ==> '\n' !in l
    ensures Lines(Join(lines)) == lines
  {
    if lines != [] {
      assert lines[0] in lines;
      JoinedLines(lines[1..]);
      FirstLine(lines[0], Join(lines[1..]));
      assert Join(lines) == lines[0] + "\n" + Join(lines[1..]);
    }
  }

  /** The transitions whose lines are not taken for headers. */
  function Kept(d: Dialect, ts: seq<ParsedTransition>): seq<ParsedTransition> {
    if ts == [] then []
    else (if Reserved(d, ts[0].from) then [] else [ts[0]]) + Kept(d, ts[1..])
  }

  function KeptNames(d: Dialect, names: seq<string>): seq<string> {
    if names == [] then []
    else (if Reserved(d, names[0]) then [] else [names[0]]) + KeptNames(d, names[1..])
  }

  function FinalsOf(ts: seq<ParsedTransition>): set<string> {
    set t | t in ts && t.to == TERMINAL :: t.from
  }

  function EndpointsOf(ts: seq<ParsedTransition>): set<string> {
    (set t | t in ts :: t.from) + (set t | t in ts && t.to != TERMINAL :: t.to)
  }

  function SetOf(names: seq<string>): set<string> {
    set s | s in names
  }

  /** A draft with these transitions added. */
  function WithTransitions(draft: Draft, ts: seq<ParsedTransition>): Draft {
    Draft(draft.initial, draft.finals + FinalsOf(ts), draft.states + EndpointsOf(ts), draft.transitions + ts)
  }

  function WithFinals(draft: Draft, names: seq<string>): Draft {
    draft.(finals := draft.finals + SetOf(names), states := draft.states + SetOf(names))
  }

  lemma AbsorbTransition(draft: Draft, t: ParsedTransition, ts: seq<ParsedTransition>)
    ensures WithTransitions(Absorb(draft, LineOf(t)), ts) == WithTransitions(draft, [t] + ts)
  {
    assert draft.transitions + ([t] + ts) == (draft.transitions + [t]) + ts;
    if t.to == TERMINAL {
      assert t == ParsedTransition(t.from, TERMINAL, t.event, t.kind);
      assert FinalsOf([t] + ts) == {t.from} + FinalsOf(ts);
      assert EndpointsOf([t] + ts) == {t.from} + EndpointsOf(ts);
    } else {
      assert FinalsOf([t] + ts) == FinalsOf(ts);
      assert EndpointsOf([t] + ts) == {t.from, t.to} + EndpointsOf(ts);
    }
  }

  lemma {:induction false} TransitionsAreRead(d: Dialect, style: Style, ts: seq<ParsedTransition>, more: seq<string>,
      n: nat, draft: Draft)
    requires Supports(d, style) && forall t :: t in ts ==> Writable(t)
    ensures ReadLines(d, TransitionLines(style, ts) + more, n, draft) ==
            ReadLines(d, more, n + |ts|, WithTransitions(draft, Kept(d, ts)))
    decreases |ts|
  {
    hide Reserved, ReadLine, Trim, TransitionLine, Absorb, WithTransitions, Writable;
    if ts == [] {
      assert TransitionLines(style, ts) + more == more;
      NoTransitions(draft);
    } else {
      var t, rest := ts[0], TransitionLines(style, ts[1..]) + more;
      var lines := TransitionLines(style, ts) + more;
      assert lines[0] == TransitionLine(style, t) && lines[1..] == rest;
      TransitionIsRead(d, style, t);
      LineOfIsNoError(t);
      if Reserved(d, t.from) {
        SkippedAddsNothing(draft);
        assert Kept(d, ts) == Kept(d, ts[1..]);
        TransitionsAreRead(d, style, ts[1..], more, n + 1, draft);
      } else {
        TransitionsAreRead(d, style, ts[1..], more, n + 1, Absorb(draft, LineOf(t)));
        AbsorbTransition(draft, t, Kept(d, ts[1..]));
      }
    }
  }

  lemma SkippedAddsNothing(draft: Draft)
    ensures Absorb(draft, Skipped) == draft
  {
  }

  lemma NoTransitions(draft: Draft)
    ensures WithTransitions(draft, []) == draft && WithFinals(draft, []) == draft
  {
  }

  lemma AbsorbFinal(draft: Draft, name: string, names: seq<string>)
    ensures WithFinals(Absorb(draft, Ends(name)), names) == WithFinals(draft, [name] + names)
  {
    assert SetOf([name] + names) == {name} + SetOf(names);
  }

  lemma {:induction false} BareAreRead(d: Dialect, bare: seq<string>, n: nat, draft: Draft)
    requires forall s :: s in bare ==> IsValidIdentifier(s)
    ensures ReadLines(d, BareLines(bare), n, draft) == Ok(WithFinals(draft, KeptNames(d, bare)))
    decreases |bare|
  {
    hide Reserved, ReadLine, Trim, ArrowLine, Absorb, WithFinals, IsValidIdentifier;
    if bare == [] {
      NoTransitions(draft);
    } else {
      BareIsRead(d, bare[0]);
      if Reserved(d, bare[0]) {
        SkippedAddsNothing(draft);
        assert KeptNames(d, bare) == KeptNames(d, bare[1..]);
        BareAreRead(d, bare[1..], n + 1, draft);
      } else {
        BareAreRead(d, bare[1..], n + 1, Absorb(draft, Ends(bare[0])));
        AbsorbFinal(draft, bare[0], KeptNames(d, bare[1..]));
      }
    }
  }

  /**
   The lines say what the definition does: its states are the ones mentioned, its finals are the
   sources of transitions to the mark and those in `bare`; and all names are identifiers.
   */
  ghost predicate Renderable(fsm: ParsedFsm, bare: seq<string>, strays: seq<string>) {
    && IsValidIdentifier(fsm.initial)
    && (forall t :: t in fsm.transitions ==> Writable(t))
    && (forall s :: s in bare + strays ==> IsValidIdentifier(s))
    && fsm.finals == FinalsOf(fsm.transitions) + SetOf(bare)
    && fsm.states == {fsm.initial} + SetOf(strays) + EndpointsOf(fsm.transitions) + SetOf(bare)
  }

  lemma {:induction false} RenderedLinesAreLines(style: Style, ts: seq<ParsedTransition>, bare: seq<string>)
    requires forall t :: t in ts ==> Writable(t)
    requires forall s :: s in bare ==> IsValidIdentifier(s)
    ensures forall l :: l in TransitionLines(style, ts) + BareLines(bare) ==> '\n' !in l
  {
    hide Writable, IsValidIdentifier, TransitionLine, ArrowLine;
    if ts != [] {
      TransitionIsRead(MacroMermaid, style, ts[0]);
      RenderedLinesAreLines(style, ts[1..], bare);
    } else if bare != [] {
      BareIsRead(MacroMermaid, bare[0]);
      RenderedLinesAreLines(style, ts, bare[1..]);
    }
  }

  /** A draft that has an initial state and some others. */
  function Begun(initial: string, strays: seq<string>): Draft {
    Draft(Some(initial), {}, {initial} + SetOf(strays), [])
  }

  lemma AbsorbStart(initial: string, before: seq<string>, name: string)
    ensures Absorb(Begun(initial, before), Starts(name)) == Begun(initial, before + [name])
  {
    assert SetOf(before + [name]) == SetOf(before) + {name};
    assert {initial} + (SetOf(before) + {name}) == {initial} + SetOf(before) + {name};
  }

  lemma {:induction false} StartsAreRead(d: Dialect, strays: seq<string>, more: seq<string>, n: nat, initial: string,
      before: seq<string>)
    requires forall s :: s in strays ==> IsValidIdentifier(s)
    ensures ReadLines(d, StartLines(strays) + more, n, Begun(initial, before)) ==
            ReadLines(d, more, n + |strays|, Begun(initial, before + strays))
    ensures forall l :: l in StartLines(strays) ==> '\n' !in l
    decreases |strays|
  {
    hide ReadLine, Trim, ArrowLine, IsValidIdentifier, Begun, Absorb;
    if strays == [] {
      assert StartLines(strays) + more == more && before + strays == before;
    } else {
      var lines := StartLines(strays) + more;
      assert lines[0] == ArrowLine(MARK, strays[0]) && lines[1..] == StartLines(strays[1..]) + more;
      InitialIsRead(d, strays[0]);
      AbsorbStart(initial, before, strays[0]);
      assert before + strays == (before + [strays[0]]) + strays[1..];
      StartsAreRead(d, strays[1..], more, n + 1, initial, before + [strays[0]]);
    }
  }

  /** What a rendered definition reads as: what is left of it once reserved sources are dropped. */
  function Surviving(d: Dialect, fsm: ParsedFsm, bare: seq<string>, strays: seq<string>): Draft {
    WithFinals(WithTransitions(Begun(fsm.initial, strays), Kept(d, fsm.transitions)), KeptNames(d, bare))
  }

  lemma RenderedReads(d: Dialect, style: Style, fsm: ParsedFsm, bare: seq<string>, strays: seq<string>)
    requires Renderable(fsm, bare, strays) && Supports(d, style)
    ensures ReadLines(d, Lines(Render(style, fsm, bare, strays)), 1, BLANK) == Ok(Surviving(d, fsm, bare, strays))
  {
    hide Reserved, ReadLine, Trim, ArrowLine, WithFinals, WithTransitions, IsValidIdentifier, Writable, Kept, KeptNames,
      TransitionLines, BareLines, StartLines, Lines;
    var ts, begun := TransitionLines(style, fsm.transitions), Begun(fsm.initial, strays);
    var starts, rest := StartLines([fsm.initial] + strays), ts + BareLines(bare);
    RenderedLinesAreLines(style, fsm.transitions, bare);
    RenderedStarts(d, fsm.initial, strays, rest);
    assert forall l :: l in starts + rest ==> l in starts || l in rest;
    JoinedLines(starts + rest);
    TransitionsAreRead(d, style, fsm.transitions, BareLines(bare), 2 + |strays|, begun);
    BareAreRead(d, bare, 2 + |strays| + |fsm.transitions|, WithTransitions(begun, Kept(d, fsm.transitions)));
  }

  lemma RenderedStarts(d: Dialect, initial: string, strays: seq<string>, rest: seq<string>)
    requires IsValidIdentifier(initial) && forall s :: s in strays ==> IsValidIdentifier(s)
    ensures var starts := StartLines([initial] + strays);
            && ReadLines(d, starts + rest, 1, BLANK) == ReadLines(d, rest, 2 + |strays|, Begun(initial, strays))
            && forall l :: l in starts ==> '\n' !in l
  {
    hide ReadLine, Trim, ArrowLine, IsValidIdentifier;
    InitialIsRead(d, initial);
    StartsAreRead(d, strays, rest, 2, initial, []);
    assert ([initial] + strays)[1..] == strays;
    var lines := StartLines([initial] + strays) + rest;
    assert lines[0] == ArrowLine(MARK, initial) && lines[1..] == StartLines(strays) + rest;
    assert Absorb(BLANK, Starts(initial)) == Begun(initial, []);
    assert [] + strays == strays;
  }

  /** All names are identifiers, and lines to the mark come from final states. */
  ghost predicate Spellable(fsm: ParsedFsm) {
    && Coherent(fsm) && (forall s :: s in fsm.states ==> IsValidIdentifier(s))
    && forall t :: t in fsm.transitions ==> IsValidIdentifier(t.event) && (t.to == TERMINAL ==> t.from in fsm.finals)
  }

  lemma {:induction false} Spelled(names: set<string>) returns (list: seq<string>)
    ensures SetOf(list) == names
  {
    list := [];
    if names != {} {
      var name :| name in names;
      list := Spelled(names - {name});
      assert SetOf([name] + list) == {name} + SetOf(list);
      list := [name] + list;
    }
  }

  /** Exactly these definitions can be written. */
  lemma RenderableExactlyWhen(fsm: ParsedFsm)
    ensures (exists bare, strays :: Renderable(fsm, bare, strays)) <==> Spellable(fsm)
  {
    if Spellable(fsm) {
      var bare := Spelled(fsm.finals);
      var strays := Spelled(fsm.states);
      assert forall s :: (s in bare <==> s in SetOf(bare)) && (s in strays <==> s in SetOf(strays));
      assert IsValidIdentifier(TERMINAL);
      hide IsValidIdentifier;
      assert Renderable(fsm, bare, strays);
    }
    forall bare, strays | Renderable(fsm, bare, strays) ensures Spellable(fsm) {
      RenderableIsSpellable(fsm, bare, strays);
    }
  }

  lemma RenderableIsSpellable(fsm: ParsedFsm, bare: seq<string>, strays: seq<string>)
    requires Renderable(fsm, bare, strays)
    ensures Spellable(fsm)
  {
    hide IsValidIdentifier;
    assert forall s :: (s in bare <==> s in SetOf(bare)) && (s in strays <==> s in SetOf(strays));
    assert forall s :: s in bare || s in strays ==> s in bare + strays;
    forall t | t in fsm.transitions
      ensures t.from in EndpointsOf(fsm.transitions)
      ensures if t.to == TERMINAL then t.from in FinalsOf(fsm.transitions) else t.to in EndpointsOf(fsm.transitions)
    {
    }
  }

  // ---- Parsing undoes rendering -------------------------------------------------------------

  lemma {:induction false} KeptIsAll(d: Dialect, ts: seq<ParsedTransition>)
    ensures |Kept(d, ts)| <= |ts|
    ensures (forall t :: t in ts ==> !Reserved(d, t.from)) ==> Kept(d, ts) == ts
    ensures Kept(d, ts) == ts ==> forall t :: t in ts ==> !Reserved(d, t.from)
  {
    hide Reserved;
    if ts != [] {
      KeptIsAll(d, ts[1..]);
      assert ts == [ts[0]] + ts[1..];
    }
  }

  lemma {:induction false} KeptNamesAreUnreserved(d: Dialect, names: seq<string>)
    ensures forall s :: s in KeptNames(d, names) <==> s in names && !Reserved(d, s)
  {
    hide Reserved;
    if names != [] {
      KeptNamesAreUnreserved(d, names[1..]);
    }
  }

  /** None of the definition's lines is taken for a header. */
  ghost predicate NothingReserved(d: Dialect, fsm: ParsedFsm, bare: seq<string>) {
    && (forall t :: t in fsm.transitions ==> !Reserved(d, t.from))
    && (forall s :: s in bare ==> !Reserved(d, s))
  }

  lemma AllSurvive(d: Dialect, fsm: ParsedFsm, bare: seq<string>, strays: seq<string>)
    requires Renderable(fsm, bare, strays) && NothingReserved(d, fsm, bare)
    ensures var draft := Surviving(d, fsm, bare, strays);
            draft.transitions == fsm.transitions && draft.finals == fsm.finals && draft.states == fsm.states
  {
    KeptIsAll(d, fsm.transitions);
    KeptNamesAreUnreserved(d, bare);
    hide Reserved, Writable, IsValidIdentifier, EndpointsOf, FinalsOf, Kept, KeptNames;
    assert SetOf(KeptNames(d, bare)) == SetOf(bare);
  }

  lemma ReservedFinalIsLost(d: Dialect, fsm: ParsedFsm, bare: seq<string>, strays: seq<string>, s: string)
    requires Renderable(fsm, bare, strays) && Kept(d, fsm.transitions) == fsm.transitions
    requires s in bare && Reserved(d, s)
    ensures s in fsm.finals && s !in Surviving(d, fsm, bare, strays).finals
  {
    KeptIsAll(d, fsm.transitions);
    KeptNamesAreUnreserved(d, bare);
    hide Reserved, Writable, IsValidIdentifier, EndpointsOf, Kept, KeptNames;
    assert s in SetOf(bare) && s !in SetOf(KeptNames(d, bare)) && s !in FinalsOf(fsm.transitions);
  }

  lemma SurvivorsAreTheDefinition(d: Dialect, fsm: ParsedFsm, bare: seq<string>, strays: seq<string>)
    requires Renderable(fsm, bare, strays)
    ensures var draft := Surviving(d, fsm, bare, strays);
            NothingReserved(d, fsm, bare) <==>
            draft.transitions == fsm.transitions && draft.finals == fsm.finals && draft.states == fsm.states
  {
    hide Reserved, Writable, IsValidIdentifier, EndpointsOf, FinalsOf, KeptNames, Kept, Renderable;
    KeptIsAll(d, fsm.transitions);
    assert Surviving(d, fsm, bare, strays).transitions == Kept(d, fsm.transitions);
    if NothingReserved(d, fsm, bare) {
      AllSurvive(d, fsm, bare, strays);
    } else if Kept(d, fsm.transitions) == fsm.transitions {
      var s :| s in bare && Reserved(d, s);
      ReservedFinalIsLost(d, fsm, bare, strays, s);
    }
  }

  /**
   Parsing undoes rendering, in every dialect and style, exactly when no line's source is reserved -
   and, for the parsers used at run time, the definition has a transition or two states.
   */
  lemma ParsingUndoesRendering(d: Dialect, style: Style, fsm: ParsedFsm, bare: seq<string>, strays: seq<string>)
    requires Renderable(fsm, bare, strays) && Supports(d, style)
    ensures Parsed(d, Render(style, fsm, bare, strays)) == Ok(fsm) <==>
            && NothingReserved(d, fsm, bare)
            && (d.RuntimeMermaid? || d.RuntimePlantUml? ==> fsm.transitions != [] || |fsm.states| > 1)
  {
    RenderedReads(d, style, fsm, bare, strays);
    SurvivorsAreTheDefinition(d, fsm, bare, strays);
    hide Reserved, Writable, IsValidIdentifier, ReadLines, Lines, Render, Surviving, NothingReserved, Renderable,
      FinalsOf, EndpointsOf;
    SurvivorsStart(d, fsm, bare, strays);
  }

  lemma SurvivorsStart(d: Dialect, fsm: ParsedFsm, bare: seq<string>, strays: seq<string>)
    ensures Surviving(d, fsm, bare, strays).initial == Some(fsm.initial)
  {
  }

  // ---- When two parsers agree ---------------------------------------------------------------

  /** The dialect refuses what is left of the definition, as it says next to nothing. */
  predicate FoundEmpty(d: Dialect, fsm: ParsedFsm, bare: seq<string>, strays: seq<string>) {
    var draft := Surviving(d, fsm, bare, strays);
    (d.RuntimeMermaid? || d.RuntimePlantUml?) && draft.transitions == [] && |draft.states| <= 1
  }

  /** The dialects take the same lines of the definition for headers. */
  ghost predicate ReserveAlike(d: Dialect, d': Dialect, fsm: ParsedFsm, bare: seq<string>) {
    && (forall t :: t in fsm.transitions ==> (Reserved(d, t.from) <==> Reserved(d', t.from)))
    && (forall s :: s in bare ==> (Reserved(d, s) <==> Reserved(d', s)))
  }

  lemma {:induction false} KeptAreUnreserved(d: Dialect, ts: seq<ParsedTransition>)
    ensures forall t :: t in Kept(d, ts) <==> t in ts && !Reserved(d, t.from)
  {
    hide Reserved;
    if ts != [] {
      KeptAreUnreserved(d, ts[1..]);
    }
  }

  lemma {:induction false} KeptAlike(d: Dialect, d': Dialect, ts: seq<ParsedTransition>)
    requires forall t :: t in ts ==> (Reserved(d, t.from) <==> Reserved(d', t.from))
    ensures Kept(d, ts) == Kept(d', ts)
  {
    hide Reserved;
    if ts != [] {
      assert ts[0] in ts;
      KeptAlike(d, d', ts[1..]);
    }
  }

  lemma {:induction false} KeptNamesAlike(d: Dialect, d': Dialect, names: seq<string>)
    requires forall s :: s in names ==> (Reserved(d, s) <==> Reserved(d', s))
    ensures KeptNames(d, names) == KeptNames(d', names)
  {
    hide Reserved;
    if names != [] {
      assert names[0] in names;
      KeptNamesAlike(d, d', names[1..]);
    }
  }

  /** What survives in both dialects is the same only if they reserve alike. */
  lemma SameSurvivors(d: Dialect, d': Dialect, fsm: ParsedFsm, bare: seq<string>, strays: seq<string>)
    requires Surviving(d, fsm, bare, strays) == Surviving(d', fsm, bare, strays)
    ensures ReserveAlike(d, d', fsm, bare)
  {
    KeptAreUnreserved(d, fsm.transitions);
    KeptAreUnreserved(d', fsm.transitions);
    KeptNamesAreUnreserved(d, bare);
    KeptNamesAreUnreserved(d', bare);
    hide Reserved, Kept, KeptNames, EndpointsOf;
    assert Surviving(d, fsm, bare, strays).transitions == Kept(d, fsm.transitions);
    assert Surviving(d', fsm, bare, strays).transitions == Kept(d', fsm.transitions);
    forall s | s in bare ensures Reserved(d, s) <==> Reserved(d', s) {
      assert s in Surviving(d, fsm, bare, strays).finals <==>
               s in FinalsOf(Kept(d, fsm.transitions)) || !Reserved(d, s);
      assert s in Surviving(d', fsm, bare, strays).finals <==>
               s in FinalsOf(Kept(d', fsm.transitions)) || !Reserved(d', s);
    }
  }

  lemma SurvivorsAlike(d: Dialect, d': Dialect, fsm: ParsedFsm, bare: seq<string>, strays: seq<string>)
    ensures Surviving(d, fsm, bare, strays) == Surviving(d', fsm, bare, strays) <==> ReserveAlike(d, d', fsm, bare)
  {
    if ReserveAlike(d, d', fsm, bare) {
      KeptAlike(d, d', fsm.transitions);
      KeptNamesAlike(d, d', bare);
    } else if Surviving(d, fsm, bare, strays) == Surviving(d', fsm, bare, strays) {
      SameSurvivors(d, d', fsm, bare, strays);
    }
  }

  /** What a rendered definition parses to, in any dialect that knows the style. */
  lemma RenderedParses(d: Dialect, style: Style, fsm: ParsedFsm, bare: seq<string>, strays: seq<string>)
    requires Renderable(fsm, bare, strays) && Supports(d, style)
    ensures var draft := Surviving(d, fsm, bare, strays);
            Parsed(d, Render(style, fsm, bare, strays)) ==
            if FoundEmpty(d, fsm, bare, strays) then Err(EmptyDefinition)
            else Ok(ParsedFsm(fsm.initial, draft.finals, draft.transitions, draft.states))
  {
    hide Reserved, Writable, IsValidIdentifier, ReadLines, Lines, Render, Surviving, Renderable, FinalsOf, EndpointsOf;
    RenderedReads(d, style, fsm, bare, strays);
    SurvivorsStart(d, fsm, bare, strays);
  }

  /**
   Two parsers that know the style agree on what is written in it exactly when both find it empty, or
   neither does and they take the same lines for headers.
   */
  lemma AgreeExactlyWhen(d: Dialect, d': Dialect, style: Style, fsm: ParsedFsm, bare: seq<string>, strays: seq<string>)
    requires Renderable(fsm, bare, strays) && Supports(d, style) && Supports(d', style)
    ensures Parsed(d, Render(style, fsm, bare, strays)) == Parsed(d', Render(style, fsm, bare, strays)) <==>
            if FoundEmpty(d, fsm, bare, strays) then FoundEmpty(d', fsm, bare, strays)
            else !FoundEmpty(d', fsm, bare, strays) && ReserveAlike(d, d', fsm, bare)
  {
    hide Parsed, Render, Surviving, ReserveAlike, Renderable, FoundEmpty, Supports;
    RenderedParses(d, style, fsm, bare, strays);
    RenderedParses(d', style, fsm, bare, strays);
    SurvivorsAlike(d, d', fsm, bare, strays);
    SurvivorsStart(d, fsm, bare, strays);
    SurvivorsStart(d', fsm, bare, strays);
  }

  /** So all four agree on every state diagram with a transition and without reserved sources. */
  lemma ParsersAgree(fsm: ParsedFsm, bare: seq<string>, strays: seq<string>, d: Dialect, d': Dialect)
    requires Renderable(fsm, bare, strays) && fsm.transitions != []
    requires NothingReserved(d, fsm, bare) && NothingReserved(d', fsm, bare)
    ensures var text := Render(StateDiagram, fsm, bare, strays);
            Parsed(d, text) == Parsed(d', text) == Ok(fsm)
  {
    ParsingUndoesRendering(d, StateDiagram, fsm, bare, strays);
    ParsingUndoesRendering(d', StateDiagram, fsm, bare, strays);
  }

  lemma LabelledInitialIsRead(d: Dialect, to: string, event: string)
    requires IsPlain(to) && IsPlain(event)
    ensures ReadLine(d, Trim(ArrowLine(MARK, ColonText(event, to)))) ==
            Starts(if d == RuntimeMermaid then ColonText(event, to) else to)
  {
    var rest := ColonText(event, to);
    MarkIsTight();
    PlainIsTight(to);
    StateDiagramRest(event, to);
    ArrowLineSplits(MARK, rest);
    MarkIsNoHeader(rest);
    hide IsPlain, FindPipes, FindColon, FindText, SplitOnce, Trim, IsTight, ArrowLine, IsMermaidHeader,
      IsPlantUmlHeader, StartsWith, ClassifyEvent, ColonText;
  }

  /**
   They do not agree on an initial arrow with a label: the run-time Mermaid parser takes the label
   for part of the state's name, because the flowchart attempt accepts whatever follows the arrow.
   */
  lemma LabelledInitialArrow(to: string, event: string)
    requires IsValidIdentifier(to) && IsValidIdentifier(event)
    ensures var line := Trim(ArrowLine(MARK, to + " : " + event));
            && ReadLine(RuntimeMermaid, line) == Starts(to + " : " + event)
            && (forall d: Dialect :: d != RuntimeMermaid ==> ReadLine(d, line) == Starts(to))
  {
    IdentifierIsPlain(to);
    IdentifierIsPlain(event);
    assert ColonText(event, to) == to + " : " + event;
    hide IsPlain, Trim, ArrowLine, ReadLine, ColonText, IsValidIdentifier;
    LabelledInitialIsRead(RuntimeMermaid, to, event);
    forall d: Dialect | d != RuntimeMermaid
      ensures ReadLine(d, Trim(ArrowLine(MARK, ColonText(event, to)))) == Starts(to)
    {
      LabelledInitialIsRead(d, to, event);
    }
  }
}
