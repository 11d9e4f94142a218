/** The whole way: from the text of a definition to the runs of an actor on its graph. */
module Pipeline {
  import opened Wrappers
  import opened Graphs
  import opened Protocol
  import opened Machines
  import opened Definitions
  import opened Parsers
  import opened Rendering
  import opened Codegen
  import Guarantees

  datatype MacroError = ParseFailed(error: ParseError) | ValidationFailed(faults: seq<Fault>) | NoVariant

  /** The graph is what the macro makes of the text. */
  ghost predicate BuiltFrom(d: Dialect, input: string, fsm: ParsedFsm, g: TransitionGraph<string, string>) {
    Parsed(d, input) == Ok(fsm) && Acceptable(fsm) && Compiles(fsm, g)
  }

  /**
   What the macro does: parse, validate, generate. It succeeds exactly on texts that parse, are
   acceptable and whose names have variants; its graph passes the runtime's validation.
   */
  method Expand(d: Dialect, input: string) returns (r: Result<TransitionGraph<string, string>, MacroError>)
    requires d.MacroMermaid? || d.MacroPlantUml?
    ensures r.Ok? <==>
            Parsed(d, input).Ok? && Acceptable(Parsed(d, input).value) && Nameable(Parsed(d, input).value)
    ensures r.Ok? ==> BuiltFrom(d, input, Parsed(d, input).value, r.value) && r.value.WellFormed()
    ensures r.Err? && r.error.ParseFailed? ==> Parsed(d, input) == Err(r.error.error)
    ensures r.Err? && r.error.ValidationFailed? ==>
              Parsed(d, input).Ok? && forall f :: f in r.error.faults <==> HasFault(Parsed(d, input).value, f)
    ensures r.Err? && r.error.NoVariant? ==> Parsed(d, input).Ok? && Acceptable(Parsed(d, input).value)
  {
    hide Acceptable, Parsed, HasFault, Nameable;
    var parsed := Parse(d, input);
    if parsed.Err? {
      return Err(ParseFailed(parsed.error));
    }
    var verdict := Validate(parsed.value);
    if verdict.Err? {
      return Err(ValidationFailed(verdict.error));
    }
    var g := Generate(parsed.value);
    if g.None? {
      return Err(NoVariant);
    }
    AcceptedIsWellFormed(parsed.value, g.value);
    r := Ok(g.value);
  }

  /** The text of a definition of one state and no transition. */
  const EMPTY: string := "[*] --> a\na --> [*]\n"

  /** What the text says. */
  const LONELY: ParsedFsm := ParsedFsm("a", {"a"}, [], {"a"})

  lemma EmptyText()
    ensures Render(StateDiagram, LONELY, ["a"], []) == EMPTY
  {
    var first, last := ArrowLine(MARK, "a"), ArrowLine("a", MARK);
    assert first == "[*] --> a" && last == "a --> [*]";
    assert BareLines(["a"]) == [last] + BareLines(["a"][1..]) == [last];
    assert TransitionLines(StateDiagram, []) == [];
    assert StartLines(["a"] + []) == [first] + StartLines(["a"][1..]) == [first];
    assert [first] + ([] + [last]) == [first, last];
    assert [first, last][1..] == [last] && [last][1..] == [];
    assert Join([last]) == last + "\n" + Join([]);
    assert Join([first, last]) == first + "\n" + Join([last]);
    hide ArrowLine, Join;
    assert first + "\n" + (last + "\n" + "") == EMPTY;
  }

  lemma LonelySurvives(d: Dialect)
    ensures Renderable(LONELY, ["a"], [])
    ensures var draft := Surviving(d, LONELY, ["a"], []);
            draft.transitions == [] && draft.finals == {"a"} && draft.states == {"a"}
  {
    assert SetOf(["a"]) == {"a"};
    hide Surviving;
    AllSurvive(d, LONELY, ["a"], []);
  }

  lemma LonelyIsAcceptable()
    ensures Acceptable(LONELY) && Nameable(LONELY)
  {
    ReachesSelf(LONELY, "a");
    VariantExactlyWhen("a");
  }

  /** The macro takes a definition that says next to nothing; the run-time parsers refuse it. */
  lemma EmptyIsTaken(d: Dialect)
    ensures Parsed(d, EMPTY) == if d.MacroMermaid? || d.MacroPlantUml? then Ok(LONELY) else Err(EmptyDefinition)
    ensures Acceptable(LONELY) && Nameable(LONELY)
  {
    hide Parsed, Render, Surviving, Acceptable, Nameable, Renderable;
    EmptyText();
    LonelyIsAcceptable();
    LonelySurvives(d);
    RenderedParses(d, StateDiagram, LONELY, ["a"], []);
  }

  /** The note is a line of the definition. */
  ghost predicate IsALine(fsm: ParsedFsm, note: Note<string, string>) {
    exists t :: && t in fsm.transitions && Pascal(t.from) == note.from
                && Pascal(t.event) == note.event && Pascal(TargetOf(t)) == note.to
  }

  lemma MoveIsALine<P>(fsm: ParsedFsm, c: Config<string, string, P>, note: Note<string, string>)
    requires c.Valid() && Compiles(fsm, c.graph) && c.MayMove(note.from, note.event, note.to)
    ensures IsALine(fsm, note)
  {
    hide Pascal;
    var t := AllowedIsALine(fsm, c.graph, note.from, note.event);
  }

  /**
   In every run, crashes included, of an actor on a graph the macro built: everything the listener is
   told is a line of the definition, and the actor is always in one of its states.
   */
  lemma RunsFollowTheDefinition<P>(d: Dialect, input: string, fsm: ParsedFsm, k: Machine<string, string, P>,
      steps: seq<Step<string, P>>, n: nat)
    requires BuiltFrom(d, input, fsm, k.c.graph) && k.c.Valid() && n <= |k.Run(steps).journal|
    ensures var w := k.Run(steps);
            var log := LogOf(w.journal[..n]);
            && (forall i :: 0 <= i < |log| ==> IsALine(fsm, log[i]))
            && k.c.Watch(w.journal[..n]).current in Variants(fsm.states)
  {
    hide k.Run, k.c.Watch, LogOf, Parsed, Acceptable, Coherent, IsALine, k.c.MayMove, k.c.graph.Reachable;
    ParsedIsCoherent(d, input);
    Guarantees.ListenerReplaysRun(k, steps, n);
    var j := k.Run(steps).journal[..n];
    var log := LogOf(j);
    forall i | 0 <= i < |log| ensures IsALine(fsm, log[i]) {
      Guarantees.NoteIsAllowed(k, steps, n, i);
      MoveIsALine(fsm, k.c, log[i]);
    }
    ReachableIsAState(fsm, k.c.graph, k.c.Watch(j).current);
  }

  lemma ReachableIsAState(fsm: ParsedFsm, g: TransitionGraph<string, string>, s: string)
    requires Coherent(fsm) && Compiles(fsm, g) && g.Reachable(g.initial, s)
    ensures s in Variants(fsm.states)
  {
    var path :| g.WalkBetween(g.initial, s, path);
    assert g.ClosedUnderEdges(g.States()) by { StatesAreClosed(g); }
    g.ClosedHoldsWalk(g.States(), g.initial, path, |path|);
    GraphStatesAreVariants(fsm, g, s);
  }

  lemma StatesAreClosed(g: TransitionGraph<string, string>)
    ensures g.ClosedUnderEdges(g.States())
  {
    forall t, x | t in g.transitions && t.from in g.States() && x in t.to ensures x in g.States() {
      assert x in g.Targets(g.transitions);
    }
  }
}
