/** The four parsers: Mermaid and PlantUML, in the macro and at run time. */
module Parsers {
  import opened Wrappers
  import opened Graphs
  import opened Definitions
  import opened Text

  datatype Dialect = MacroMermaid | MacroPlantUml | RuntimeMermaid | RuntimePlantUml

  datatype ParseError = SyntaxError(line: nat) | NoInitial | EmptyDefinition

  /** What one line of a definition says. */
  datatype Line =
    | Skipped
    | Invalid
    | Starts(to: string)
    | Ends(from: string)
    | EndsOn(from: string, event: string, kind: EventKind)
    | Goes(from: string, to: string, event: string, kind: EventKind)
    | Declares(name: string)

  const MARK: string := "[*]"

  /** The suffix of an event decides its kind. */
  function ClassifyEvent(raw: string): (string, EventKind) {
    var n := |raw|;
    if n > 0 && raw[n - 1] == '!' then (raw[..n - 1], Hard)
    else if n > 0 && raw[n - 1] == '?' then (raw[..n - 1], Soft)
    else (raw, Normal)
  }

  /** A line with an event label, by whether it comes from or goes to the mark. */
  function Labelled(from: string, to: string, raw: string): Line {
    var (event, kind) := ClassifyEvent(raw);
    if from == MARK then Starts(to)
    else if to == MARK then EndsOn(from, event, kind)
    else Goes(from, to, event, kind)
  }

  function Unlabelled(from: string, to: string): Line {
    if from == MARK && to != "" then Starts(to) else if to == MARK then Ends(from) else Invalid
  }

  /** `FROM --> |EVENT| TO`: what follows the arrow, as event and target. */
  function FindPipes(rest: string): Option<(string, string)> {
    match FindChar(rest, '|')
    case None => None
    case Some(open) =>
      var after := rest[open + 1..];
      match FindChar(after, '|')
      case None => None
      case Some(close) => Some((Trim(after[..close]), Trim(after[close + 1..])))
  }

  /** `FROM --> TO : EVENT`: what follows the arrow, as target and event. */
  function FindColon(rest: string): Option<(string, string)> {
    match FindChar(rest, ':')
    case None => None
    case Some(colon) => Some((Trim(rest[..colon]), Trim(rest[colon + 1..])))
  }

  predicate IsMermaidHeader(line: string) {
    || line == "" || StartsWith(line, "%%") || StartsWith(line, "graph")
    || StartsWith(line, "stateDiagram") || StartsWith(line, "---")
  }

  predicate IsPlantUmlHeader(line: string) {
    || line == "" || StartsWith(line, "'") || StartsWith(line, "@startuml") || StartsWith(line, "@enduml")
    || StartsWith(line, "hide") || StartsWith(line, "skin")
  }

  function SplitPlantUml(line: string): Option<(string, string)> {
    if FindText(line, "-->").Some? then SplitOnce(line, "-->") else SplitOnce(line, "->")
  }

  function ReadMacroMermaid(line: string): Line {
    if IsMermaidHeader(line) then Skipped
    else
      match SplitOnce(line, "-->")
      case None => Invalid
      case Some((before, after)) =>
        var from, rest := Trim(before), Trim(after);
        var pipes := FindPipes(rest);
        if pipes.Some? then Labelled(from, pipes.value.1, pipes.value.0)
        else
          var colon := FindColon(rest);
          if colon.Some? then Labelled(from, colon.value.0, colon.value.1) else Unlabelled(from, rest)
  }

  function ReadMacroPlantUml(line: string): Line {
    if IsPlantUmlHeader(line) || StartsWith(line, "state ") then Skipped
    else
      match SplitPlantUml(line)
      case None => Invalid
      case Some((before, after)) =>
        var from, rest := Trim(before), Trim(after);
        var colon := FindColon(rest);
        if colon.Some? then Labelled(from, colon.value.0, colon.value.1) else Unlabelled(from, rest)
  }

  /** The flowchart attempt; a bare arrow from or to the mark succeeds here, colon or not. */
  function ReadFlowchart(from: string, rest: string): Line {
    var pipes := FindPipes(rest);
    if pipes.Some? then
      if pipes.value.0 == "" || pipes.value.1 == "" then Invalid else Labelled(from, pipes.value.1, pipes.value.0)
    else if rest == "" then Invalid
    else Unlabelled(from, rest)
  }

  function ReadStateDiagram(from: string, rest: string): Line {
    var colon := FindColon(rest);
    if colon.Some? then
      if colon.value.0 == "" || colon.value.1 == "" then Invalid else Labelled(from, colon.value.0, colon.value.1)
    else if from == "" then Invalid
    else Unlabelled(from, rest)
  }

  function ReadRuntimeMermaid(line: string): Line {
    if IsMermaidHeader(line) then Skipped
    else
      match SplitOnce(line, "-->")
      case None => Invalid
      case Some((before, after)) =>
        var from, rest := Trim(before), Trim(after);
        var flowchart := ReadFlowchart(from, rest);
        if flowchart.Invalid? then ReadStateDiagram(from, rest) else flowchart
  }

  function ReadPlantUmlTransition(from: string, rest: string): Line {
    var colon := FindColon(rest);
    if colon.Some? then
      var (to, event) := colon.value;
      if to == "" then Invalid
      else if from == MARK then Starts(to)
      else if event == "" then (if to == MARK then Ends(from) else Invalid)
      else Labelled(from, to, event)
    else if from == "" then Invalid
    else Unlabelled(from, rest)
  }

  /** The first word after `state `, without the quotes around it. */
  function DeclaredName(line: string): string
    requires StartsWith(line, "state ")
  {
    Unquoted(FirstWord(TrimStart(line[6..])))
  }

  function FirstWord(s: string): string {
    if s == "" || IsSpace(s[0]) then "" else [s[0]] + FirstWord(s[1..])
  }

  function Unquoted(s: string): string {
    if s != "" && s[0] == '\"' then Unquoted(s[1..])
    else if s != "" && s[|s| - 1] == '\"' then Unquoted(s[..|s| - 1])
    else s
  }

  function ReadRuntimePlantUml(line: string): Line {
    if IsPlantUmlHeader(line) then Skipped
    else
      var transition :=
        match SplitPlantUml(line)
        case None => Invalid
        case Some((before, after)) => ReadPlantUmlTransition(Trim(before), Trim(after));
      if !transition.Invalid? then transition
      else if StartsWith(line, "state ") then Declares(DeclaredName(line))
      else Invalid
  }

  function ReadLine(d: Dialect, line: string): Line {
    match d
    case MacroMermaid => ReadMacroMermaid(line)
    case MacroPlantUml => ReadMacroPlantUml(line)
    case RuntimeMermaid => ReadRuntimeMermaid(line)
    case RuntimePlantUml => ReadRuntimePlantUml(line)
  }

  // ---- Putting the lines together -----------------------------------------------------------

  datatype Draft = Draft(
    initial: Option<string>,
    finals: set<string>,
    states: set<string>,
    transitions: seq<ParsedTransition>)

  const BLANK: Draft := Draft(None, {}, {}, [])

  function Absorb(draft: Draft, line: Line): Draft {
    match line
    case Starts(to) =>
      draft.(initial := if draft.initial.None? then Some(to) else draft.initial, states := draft.states + {to})
    case Ends(from) => draft.(finals := draft.finals + {from}, states := draft.states + {from})
    case EndsOn(from, event, kind) =>
      draft.(finals := draft.finals + {from}, states := draft.states + {from},
             transitions := draft.transitions + [ParsedTransition(from, TERMINAL, event, kind)])
    case Goes(from, to, event, kind) =>
      draft.(states := draft.states + {from, to},
             transitions := draft.transitions + [ParsedTransition(from, to, event, kind)])
    case Declares(name) => draft.(states := draft.states + {name})
    case _ => draft
  }

  /** What the lines say, from line number `n` on, on top of `draft`. */
  function ReadLines(d: Dialect, lines: seq<string>, n: nat, draft: Draft): Result<Draft, ParseError>
    decreases |lines|
  {
    if lines == [] then Ok(draft)
    else
      var line := ReadLine(d, Trim(lines[0]));
      if line.Invalid? then Err(SyntaxError(n)) else ReadLines(d, lines[1..], n + 1, Absorb(draft, line))
  }

  /** Only the parsers used at run time refuse a definition that says next to nothing. */
  function Finish(d: Dialect, draft: Draft): Result<ParsedFsm, ParseError> {
    if draft.initial.None? then Err(NoInitial)
    else if (d.RuntimeMermaid? || d.RuntimePlantUml?) && draft.transitions == []
        && |draft.states| <= 1 then Err(EmptyDefinition)
    else Ok(ParsedFsm(draft.initial.value, draft.finals, draft.transitions, draft.states))
  }

  function Parsed(d: Dialect, input: string): Result<ParsedFsm, ParseError> {
    match ReadLines(d, Lines(input), 1, BLANK)
    case Err(error) => Err(error)
    case Ok(draft) => Finish(d, draft)
  }

  method Parse(d: Dialect, input: string) returns (r: Result<ParsedFsm, ParseError>)
    ensures r == Parsed(d, input)
    ensures r.Ok? ==> Coherent(r.value)
  {
    var lines := Lines(input);
    var draft := BLANK;
    ParsedIsCoherent(d, input);
    for i := 0 to |lines|
      invariant ReadLines(d, lines, 1, BLANK) == ReadLines(d, lines[i..], i + 1, draft)
    {
      hide ReadLine, Trim, Absorb;
      var line := ReadLine(d, Trim(lines[i]));
      assert lines[i..][0] == lines[i] && lines[i..][1..] == lines[i + 1..];
      if line.Invalid? {
        return Err(SyntaxError(i + 1));
      }
      draft := Absorb(draft, line);
    }
    r := Finish(d, draft);
  }

  // ---- Every parse is coherent ----------------------------------------------------------------

  ghost predicate CoherentDraft(draft: Draft) {
    && (draft.initial.Some? ==> draft.initial.value in draft.states)
    && draft.finals <= draft.states
    && forall t :: t in draft.transitions ==>
         && t.from in draft.states
         && (t.to in draft.states || (t.to == TERMINAL && t.from in draft.finals))
  }

  lemma {:induction false} ReadIsCoherent(d: Dialect, lines: seq<string>, n: nat, draft: Draft)
    requires CoherentDraft(draft)
    ensures ReadLines(d, lines, n, draft).Ok? ==> CoherentDraft(ReadLines(d, lines, n, draft).value)
    decreases |lines|
  {
    hide ReadLine;
    if lines != [] {
      var line := ReadLine(d, Trim(lines[0]));
      if !line.Invalid? {
        ReadIsCoherent(d, lines[1..], n + 1, Absorb(draft, line));
      }
    }
  }

  /** In every definition that parses, all that is mentioned is a state or the end marker. */
  lemma ParsedIsCoherent(d: Dialect, input: string)
    ensures Parsed(d, input).Ok? ==> Coherent(Parsed(d, input).value)
  {
    ReadIsCoherent(d, Lines(input), 1, BLANK);
  }
}
