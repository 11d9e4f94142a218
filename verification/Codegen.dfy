/** From a validated definition to the transition graph the macro generates. */
module Codegen {
  import opened Wrappers
  import opened Graphs
  import opened Definitions

  function Upper(c: char): char {
    if 'a' <= c <= 'z' then (c as int - 'a' as int + 'A' as int) as char else c
  }

  /** Drops the underscores and capitalises what follows each of them; `start` says one was just dropped. */
  function Capitalised(s: string, start: bool): string {
    if s == "" then ""
    else if s[0] == '_' then Capitalised(s[1..], true)
    else [if start then Upper(s[0]) else s[0]] + Capitalised(s[1..], false)
  }

  /** The enum variant for a state or event name. */
  function Pascal(s: string): string {
    Capitalised(s, true)
  }

  /** A transition to the end marker stays in its source, which is a final state. */
  function TargetOf(t: ParsedTransition): string {
    if t.to == TERMINAL then t.from else t.to
  }

  function EntryOf(t: ParsedTransition): Transition<string, string> {
    Transition(Pascal(t.from), [Pascal(TargetOf(t))], Pascal(t.event), t.kind)
  }

  function Entries(ts: seq<ParsedTransition>): seq<Transition<string, string>> {
    seq(|ts|, i requires 0 <= i < |ts| => EntryOf(ts[i]))
  }

  function Variants(names: set<string>): set<string> {
    set s | s in names :: Pascal(s)
  }

  /** No two states, and no two events, get the same variant: the generated enums would not compile. */
  ghost predicate NamesDistinct(fsm: ParsedFsm) {
    && (forall a, b :: a in fsm.states && b in fsm.states && Pascal(a) == Pascal(b) ==> a == b)
    && (forall s, t :: s in fsm.transitions && t in fsm.transitions && Pascal(s.event) == Pascal(t.event) ==>
          s.event == t.event)
  }

  /** The name has a variant: an empty identifier, or one that begins with a digit, cannot be generated. */
  predicate HasVariant(name: string) {
    IsValidIdentifier(Pascal(name))
  }

  /** Every name that generation turns into a variant has one. */
  predicate Nameable(fsm: ParsedFsm) {
    && HasVariant(fsm.initial)
    && (forall s :: s in fsm.states + fsm.finals ==> HasVariant(s))
    && (forall t :: t in fsm.transitions ==> HasVariant(t.from) && HasVariant(TargetOf(t)) && HasVariant(t.event))
  }

  /** Generation breaks off at a name without a variant. */
  method Generate(fsm: ParsedFsm) returns (r: Option<TransitionGraph<string, string>>)
    ensures r.Some? <==> Nameable(fsm)
    ensures r.Some? ==> Compiles(fsm, r.value)
  {
    if !Nameable(fsm) {
      return None;
    }
    var g := TransitionGraph<string, string>.New(Pascal(fsm.initial), Variants(fsm.finals), Entries(fsm.transitions));
    r := Some(g);
  }

  /** The graph is the one generated from the definition. */
  ghost predicate Compiles(fsm: ParsedFsm, g: TransitionGraph<string, string>) {
    && g.Indexed() && g.initial == Pascal(fsm.initial)
    && g.finals == Variants(fsm.finals) && g.transitions == Entries(fsm.transitions)
  }

  // ---- Names and variants -----------------------------------------------------------------

  const SMALL: string := "abcdefghijklmnopqrstuvwxyz"
  const CAPITAL: string := "ABCDEFGHIJKLMNOPQRSTUVWXYZ"

  /** Small letters become capitals, in the order of the alphabet; everything else stays. */
  lemma UpperIsCapital(c: char)
    ensures c !in SMALL ==> Upper(c) == c
    ensures forall i :: 0 <= i < 26 && c == SMALL[i] ==> Upper(c) == CAPITAL[i]
  {
    assert forall i :: 0 <= i < 26 ==> SMALL[i] as int == 'a' as int + i && CAPITAL[i] as int == 'A' as int + i;
    if 'a' <= c <= 'z' {
      assert SMALL[c as int - 'a' as int] == c;
    }
  }

  lemma {:induction false} CapitalisedSplits(a: string, b: string, start: bool)
    ensures Capitalised(a + "_" + b, start) == Capitalised(a, start) + Pascal(b)
  {
    var s := a + "_" + b;
    if a == "" {
      assert s[0] == '_' && s[1..] == b;
    } else {
      assert s[0] == a[0] && s[1..] == a[1..] + "_" + b;
      CapitalisedSplits(a[1..], b, a[0] == '_');
    }
  }

  lemma {:induction false} WordStays(s: string)
    requires '_' !in s
    ensures Capitalised(s, false) == s
  {
    if s != "" {
      WordStays(s[1..]);
    }
  }

  /**
   The variant of a name is put together from its words, each with its first letter capitalised and
   the rest as it is; the words are what underscores separate.
   */
  lemma PascalByWords(a: string, b: string)
    ensures Pascal(a + "_" + b) == Pascal(a) + Pascal(b)
    ensures Pascal("") == ""
    ensures a != "" && '_' !in a ==> Pascal(a) == [Upper(a[0])] + a[1..]
  {
    CapitalisedSplits(a, b, true);
    if a != "" && '_' !in a {
      assert '_' !in a[1..];
      WordStays(a[1..]);
    }
  }

  /** After its leading underscores the name goes on with a letter. */
  predicate BeginsWithLetter(s: string) {
    s != "" && (IsLetter(s[0]) || (s[0] == '_' && BeginsWithLetter(s[1..])))
  }

  lemma {:induction false} CapitalisedIsNamed(s: string, start: bool)
    requires forall i :: 0 <= i < |s| ==> IsNameChar(s[i])
    ensures forall i :: 0 <= i < |Capitalised(s, start)| ==> IsNameChar(Capitalised(s, start)[i])
    ensures Capitalised(s, start) != "" && IsLetter(Capitalised(s, start)[0]) <==> BeginsWithLetter(s)
    ensures Capitalised(s, start) != "" ==> Capitalised(s, start)[0] != '_'
  {
    if s != "" {
      CapitalisedIsNamed(s[1..], s[0] == '_');
    }
  }

  /** A valid name has a variant exactly when a letter is the first thing in it that is no underscore. */
  lemma VariantExactlyWhen(name: string)
    requires IsValidIdentifier(name)
    ensures HasVariant(name) <==> BeginsWithLetter(name)
  {
    CapitalisedIsNamed(name, true);
    hide Capitalised;
  }

  /** A definition that validation accepts, and that no code can be generated from. */
  lemma NamelessState()
    ensures var fsm := ParsedFsm("_", {"_"}, [ParsedTransition("_", TERMINAL, "go", Normal)], {"_"});
            Coherent(fsm) && Acceptable(fsm) && NamesDistinct(fsm) && !Nameable(fsm)
  {
    var fsm := ParsedFsm("_", {"_"}, [ParsedTransition("_", TERMINAL, "go", Normal)], {"_"});
    ReachesSelf(fsm, "_");
    VariantExactlyWhen("_");
  }

  // ---- Meaning is preserved ---------------------------------------------------------------

  lemma ChainsAvoidTerminal(fsm: ParsedFsm, a: string, b: string, chain: seq<string>)
    requires ChainBetween(fsm, a, b, chain) && a != b
    ensures b != TERMINAL
  {
    assert Links(fsm, chain[|chain| - 2], chain[|chain| - 1]);
  }

  /**
   The name of the end marker is the name of a state exactly when it is the initial state's name:
   everywhere else validation finds such a state unreachable.
   */
  lemma TerminalIsNoState(fsm: ParsedFsm)
    requires Coherent(fsm) && Acceptable(fsm)
    ensures TERMINAL in fsm.states <==> fsm.initial == TERMINAL
  {
    forall s | s in fsm.states && s != fsm.initial ensures s != TERMINAL {
      var chain :| ChainBetween(fsm, fsm.initial, s, chain);
      ChainsAvoidTerminal(fsm, fsm.initial, s, chain);
    }
  }

  lemma EntriesAreUnique(fsm: ParsedFsm)
    requires Coherent(fsm) && UniqueLines(fsm.transitions) && NamesDistinct(fsm)
    ensures UniqueEvents(Entries(fsm.transitions))
  {
    hide Pascal;
    var ts := fsm.transitions;
    forall i, j | 0 <= i < j < |ts|
      ensures !(Entries(ts)[i].from == Entries(ts)[j].from && Entries(ts)[i].event == Entries(ts)[j].event)
    {
      assert ts[i] in ts && ts[j] in ts;
    }
  }

  /** Every line of the definition is what the graph answers for its source and event. */
  lemma LineIsAllowed(fsm: ParsedFsm, g: TransitionGraph<string, string>, t: ParsedTransition)
    requires Coherent(fsm) && UniqueLines(fsm.transitions) && NamesDistinct(fsm) && Compiles(fsm, g)
    requires t in fsm.transitions
    ensures g.Allowed(Pascal(t.from), Pascal(t.event)) == Some(([Pascal(TargetOf(t))], t.kind))
    ensures t.to == TERMINAL && TERMINAL !in fsm.states ==> TargetOf(t) == t.from && g.IsFinal(Pascal(t.from))
  {
    hide Pascal;
    EntriesAreUnique(fsm);
    var i :| 0 <= i < |fsm.transitions| && fsm.transitions[i] == t;
    assert g.transitions[i] == EntryOf(t);
    g.UniqueEventsAreAllowed(EntryOf(t));
  }

  /** The graph answers nothing but lines of the definition. */
  lemma AllowedIsALine(fsm: ParsedFsm, g: TransitionGraph<string, string>, s: string, event: string)
    returns (t: ParsedTransition)
    requires Compiles(fsm, g) && g.Allowed(s, event).Some?
    ensures t in fsm.transitions && Pascal(t.from) == s && Pascal(t.event) == event
    ensures g.Allowed(s, event) == Some(([Pascal(TargetOf(t))], t.kind))
  {
    hide Pascal;
    g.AllowedIsScan(s, event);
    ScanFindsATransition(g.transitions, s, event);
    var e :| e in g.transitions && e.from == s && e.event == event && g.Allowed(s, event).value == (e.to, e.kind);
    var i :| 0 <= i < |g.transitions| && g.transitions[i] == e;
    t := fsm.transitions[i];
    assert e == EntryOf(t);
  }

  lemma LinkIsEdge(fsm: ParsedFsm, g: TransitionGraph<string, string>, a: string, b: string) returns (event: string)
    requires Compiles(fsm, g) && Links(fsm, a, b)
    ensures g.Edge(Pascal(a), event, Pascal(b))
  {
    hide Pascal;
    var t :| t in fsm.transitions && t.from == a && t.to == b;
    var i :| 0 <= i < |fsm.transitions| && fsm.transitions[i] == t;
    event := Pascal(t.event);
    var e := g.transitions[i];
    assert e == EntryOf(t) && e in g.transitions;
    assert Pascal(b) in e.to;
  }

  lemma {:induction false} ChainIsWalked(fsm: ParsedFsm, g: TransitionGraph<string, string>, chain: seq<string>, i: nat)
    requires Compiles(fsm, g) && IsChain(fsm, chain) && i < |chain|
    ensures g.Reachable(Pascal(chain[0]), Pascal(chain[i]))
  {
    hide Pascal;
    if i == 0 {
      g.ReachableSelf(Pascal(chain[0]));
    } else {
      ChainIsWalked(fsm, g, chain, i - 1);
      var event := LinkIsEdge(fsm, g, chain[i - 1], chain[i]);
      g.ReachableStep(Pascal(chain[0]), Pascal(chain[i - 1]), event, Pascal(chain[i]));
    }
  }

  lemma GraphStatesAreVariants(fsm: ParsedFsm, g: TransitionGraph<string, string>, x: string)
    requires Coherent(fsm) && Compiles(fsm, g) && x in g.States()
    ensures x in Variants(fsm.states)
  {
    hide Pascal, g.Indexed;
    if x in g.Sources(g.transitions) || x in g.Targets(g.transitions) {
      var e :| e in g.transitions && (e.from == x || x in e.to);
      var i :| 0 <= i < |g.transitions| && g.transitions[i] == e;
      var t := fsm.transitions[i];
      assert e == EntryOf(t) && t in fsm.transitions;
      assert t.from in fsm.states && TargetOf(t) in fsm.states;
    }
  }

  /**
   What the macro accepts passes the runtime's own validation. With the lemmas above: the generated
   graph means exactly what the definition says.
   */
  lemma AcceptedIsWellFormed(fsm: ParsedFsm, g: TransitionGraph<string, string>)
    requires Coherent(fsm) && Acceptable(fsm) && Compiles(fsm, g)
    ensures g.WellFormed()
  {
    hide Pascal, g.Indexed, g.States, g.Reachable;
    var f :| f in fsm.finals;
    assert Pascal(f) in g.finals;
    forall x | x in g.States() ensures g.Reachable(g.initial, x) {
      GraphStatesAreVariants(fsm, g, x);
      var s :| s in fsm.states && Pascal(s) == x;
      var chain :| ChainBetween(fsm, fsm.initial, s, chain);
      ChainIsWalked(fsm, g, chain, |chain| - 1);
    }
  }

  /** The graph answers each line of the definition, and nothing else, and passes the runtime's validation. */
  ghost predicate MeansTheSame(fsm: ParsedFsm, g: TransitionGraph<string, string>)
    requires g.Indexed()
  {
    && (forall t :: t in fsm.transitions ==> IsMeant(g, t))
    && AnswersOnlyLines(fsm, g) && UniqueEvents(g.transitions) && g.WellFormed()
  }

  ghost predicate AnswersOnlyLines(fsm: ParsedFsm, g: TransitionGraph<string, string>)
    requires g.Indexed()
  {
    forall s, event :: g.Allowed(s, event).Some? ==>
      exists t :: t in fsm.transitions && Pascal(t.from) == s && Pascal(t.event) == event
  }

  /** The line's source and event are answered with its target and kind; to the mark means staying in a final state. */
  ghost predicate IsMeant(g: TransitionGraph<string, string>, t: ParsedTransition)
    requires g.Indexed()
  {
    && g.Allowed(Pascal(t.from), Pascal(t.event)) ==
       Some(([Pascal(if t.to == TERMINAL then t.from else t.to)], t.kind))
    && (t.to == TERMINAL ==> g.IsFinal(Pascal(t.from)))
  }

  /** Every line to the mark, or to a state that is named like it, has a final source. */
  ghost predicate MarksAreFinal(fsm: ParsedFsm) {
    forall t :: t in fsm.transitions && t.to == TERMINAL ==> t.from in fsm.finals
  }

  lemma FinalVariant(fsm: ParsedFsm, g: TransitionGraph<string, string>, s: string)
    requires Coherent(fsm) && NamesDistinct(fsm) && Compiles(fsm, g) && s in fsm.states
    ensures g.IsFinal(Pascal(s)) <==> s in fsm.finals
  {
    hide Pascal, g.Indexed;
  }

  lemma LineIsMeant(fsm: ParsedFsm, g: TransitionGraph<string, string>, t: ParsedTransition)
    requires Coherent(fsm) && UniqueLines(fsm.transitions) && NamesDistinct(fsm) && Compiles(fsm, g)
    requires t in fsm.transitions
    ensures IsMeant(g, t) <==> (t.to == TERMINAL ==> t.from in fsm.finals)
  {
    LineIsAllowed(fsm, g, t);
    FinalVariant(fsm, g, t.from);
    hide Pascal, g.Indexed, g.Allowed, g.IsFinal;
  }

  /**
   An accepted definition whose names stay distinct and the graph generated from it mean the same
   exactly when every line to the mark has a final source. A parser sees to that for lines to the
   mark itself; only a line to a state that is named like the mark, and so the initial one, may fail.
   */
  lemma CompilationPreservesMeaning(fsm: ParsedFsm, g: TransitionGraph<string, string>)
    requires Coherent(fsm) && Acceptable(fsm) && NamesDistinct(fsm) && Compiles(fsm, g)
    ensures MeansTheSame(fsm, g) <==> MarksAreFinal(fsm)
    ensures fsm.initial != TERMINAL ==> MarksAreFinal(fsm)
  {
    hide Pascal, Coherent, Acceptable, UniqueLines, NamesDistinct, AnswersOnlyLines, UniqueEvents, Entries, Variants,
      g.WellFormed, g.Indexed, IsMeant;
    TerminalIsNoState(fsm);
    AcceptedIsWellFormed(fsm, g);
    AcceptableLines(fsm);
    EntriesAreUnique(fsm);
    OnlyLinesAreAnswered(fsm, g);
    if fsm.initial != TERMINAL {
      CoherentMarks(fsm);
    }
    forall t | t in fsm.transitions ensures IsMeant(g, t) <==> (t.to == TERMINAL ==> t.from in fsm.finals) {
      LineIsMeant(fsm, g, t);
    }
  }

  lemma OnlyLinesAreAnswered(fsm: ParsedFsm, g: TransitionGraph<string, string>)
    requires Compiles(fsm, g)
    ensures AnswersOnlyLines(fsm, g)
  {
    hide Pascal, g.Allowed, g.Indexed;
    forall s, event | g.Allowed(s, event).Some?
      ensures exists t :: t in fsm.transitions && Pascal(t.from) == s && Pascal(t.event) == event
    {
      var t := AllowedIsALine(fsm, g, s, event);
    }
  }

  lemma CoherentMarks(fsm: ParsedFsm)
    requires Coherent(fsm) && TERMINAL !in fsm.states
    ensures MarksAreFinal(fsm)
  {
  }

  lemma AcceptableLines(fsm: ParsedFsm)
    requires Acceptable(fsm)
    ensures UniqueLines(fsm.transitions)
  {
  }

  /**
   A definition that is accepted and loses its meaning: its initial state is named like the mark, and
   the line that leads back to it becomes one that stays where it is.
   */
  const COLLIDING: ParsedFsm := ParsedFsm(TERMINAL, {"b"},
    [ParsedTransition(TERMINAL, "a", "go", Normal), ParsedTransition("a", TERMINAL, "back", Normal),
     ParsedTransition("a", "b", "end", Normal)],
    {TERMINAL, "a", "b"})

  lemma CollidingIsCoherent()
    ensures Coherent(COLLIDING) && UniqueLines(COLLIDING.transitions)
    ensures forall t :: t in COLLIDING.transitions ==> IsValidIdentifier(t.event)
    ensures forall s :: s in COLLIDING.states ==> IsValidIdentifier(s)
  {
  }

  lemma CollidingIsReachable()
    ensures forall s :: s in COLLIDING.states ==> Reaches(COLLIDING, TERMINAL, s)
  {
    var ts := COLLIDING.transitions;
    assert ts[0] in ts && ts[2] in ts;
    assert "a" != TERMINAL && "b" != TERMINAL;
    assert Links(COLLIDING, TERMINAL, "a") && Links(COLLIDING, "a", "b");
    hide Links, Reaches;
    ReachesSelf(COLLIDING, TERMINAL);
    ReachesNext(COLLIDING, TERMINAL, TERMINAL, "a");
    ReachesNext(COLLIDING, TERMINAL, "a", "b");
  }

  lemma CollidingIsAccepted()
    ensures Coherent(COLLIDING) && Acceptable(COLLIDING)
  {
    hide Reaches, UniqueLines, IsValidIdentifier;
    CollidingIsCoherent();
    CollidingIsReachable();
  }

  lemma PlainVariant(s: string)
    requires s != "" && forall i :: 0 <= i < |s| ==> IsLetter(s[i])
    ensures HasVariant(s) && Pascal(s) != "" && Pascal(s)[0] == Upper(s[0])
  {
    VariantExactlyWhen(s);
  }

  lemma TerminalVariant()
    ensures HasVariant(TERMINAL) && Pascal(TERMINAL) != "" && Pascal(TERMINAL)[0] == 'T'
  {
    assert TERMINAL[1..] == "_terminal__" && TERMINAL[1..][1..] == "terminal__";
    assert BeginsWithLetter("terminal__") && BeginsWithLetter("_terminal__");
    VariantExactlyWhen(TERMINAL);
  }

  lemma CollidingNames()
    ensures NamesDistinct(COLLIDING) && Nameable(COLLIDING)
  {
    hide Pascal, HasVariant, BeginsWithLetter, IsValidIdentifier;
    TerminalVariant();
    PlainVariant("a");
    PlainVariant("b");
    PlainVariant("go");
    PlainVariant("back");
    PlainVariant("end");
    var ts := COLLIDING.transitions;
    assert forall t :: t in ts ==> t == ts[0] || t == ts[1] || t == ts[2];
    assert Upper('a') == 'A' && Upper('b') == 'B' && Upper('g') == 'G' && Upper('e') == 'E';
  }

  lemma CollidingDefinition(g: TransitionGraph<string, string>)
    requires Compiles(COLLIDING, g)
    ensures Coherent(COLLIDING) && Acceptable(COLLIDING) && NamesDistinct(COLLIDING) && Nameable(COLLIDING)
    ensures g.Allowed(Pascal("a"), Pascal("back")) == Some(([Pascal("a")], Normal))
    ensures !MeansTheSame(COLLIDING, g)
  {
    hide Acceptable, UniqueLines, Pascal, NamesDistinct, Nameable, Coherent, Compiles, g.Indexed, g.Allowed,
      MeansTheSame;
    CollidingIsAccepted();
    CollidingNames();
    AcceptableLines(COLLIDING);
    var t := COLLIDING.transitions[1];
    assert t in COLLIDING.transitions;
    LineIsAllowed(COLLIDING, g, t);
    CompilationPreservesMeaning(COLLIDING, g);
  }
}
