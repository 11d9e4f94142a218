/** FSM definitions as the parsers leave them, and the compile-time validation of the macro. */
module Definitions {
  import opened Wrappers
  import opened Graphs
  import opened Orders

  datatype ParsedTransition = ParsedTransition(from: string, to: string, event: string, kind: EventKind)

  /** The two sets are the ordered, duplicate-free lists of the original. */
  datatype ParsedFsm = ParsedFsm(
    initial: string,
    finals: set<string>,
    transitions: seq<ParsedTransition>,
    states: set<string>)

  /** The target a parser records for a transition to the end marker. */
  const TERMINAL: string := "__terminal__"

  /** What every successful parse guarantees. */
  ghost predicate Coherent(fsm: ParsedFsm) {
    && fsm.initial in fsm.states && fsm.finals <= fsm.states
    && forall t :: t in fsm.transitions ==>
         && t.from in fsm.states
         && (t.to in fsm.states || (t.to == TERMINAL && t.from in fsm.finals))
  }

  // ---- Reachability in a definition -------------------------------------------------------

  ghost predicate Links(fsm: ParsedFsm, a: string, b: string) {
    b != TERMINAL && exists t :: t in fsm.transitions && t.from == a && t.to == b
  }

  /** The last state of a chain of linked states that begins with `a`. */
  ghost predicate IsChain(fsm: ParsedFsm, chain: seq<string>) {
    forall i :: 0 < i < |chain| ==> Links(fsm, chain[i - 1], chain[i])
  }

  ghost predicate ChainBetween(fsm: ParsedFsm, a: string, b: string, chain: seq<string>) {
    chain != [] && chain[0] == a && chain[|chain| - 1] == b && IsChain(fsm, chain)
  }

  ghost predicate Reaches(fsm: ParsedFsm, a: string, b: string) {
    exists chain :: ChainBetween(fsm, a, b, chain)
  }

  lemma ReachesSelf(fsm: ParsedFsm, a: string)
    ensures Reaches(fsm, a, a)
  {
    assert ChainBetween(fsm, a, a, [a]);
  }

  lemma ReachesNext(fsm: ParsedFsm, a: string, b: string, c: string)
    requires Reaches(fsm, a, b) && Links(fsm, b, c)
    ensures Reaches(fsm, a, c)
  {
    var chain :| ChainBetween(fsm, a, b, chain);
    assert ChainBetween(fsm, a, c, chain + [c]);
  }

  ghost predicate ClosedUnderLinks(fsm: ParsedFsm, states: set<string>) {
    forall a, b :: a in states && Links(fsm, a, b) ==> b in states
  }

  lemma {:induction false} ClosedHoldsChain(fsm: ParsedFsm, states: set<string>, chain: seq<string>, i: nat)
    requires ClosedUnderLinks(fsm, states) && IsChain(fsm, chain) && i < |chain| && chain[0] in states
    ensures chain[i] in states
  {
    if i > 0 {
      ClosedHoldsChain(fsm, states, chain, i - 1);
    }
  }

  /** Queues the unvisited targets of the transitions that leave `current`. */
  method QueueLinks(fsm: ParsedFsm, current: string, visited: set<string>, queue: seq<string>)
    returns (longer: seq<string>)
    ensures queue <= longer
    ensures forall x :: x in longer ==> x in queue || Links(fsm, current, x)
    ensures forall x :: Links(fsm, current, x) ==> x in visited || x in longer
  {
    longer := queue;
    for i := 0 to |fsm.transitions|
      invariant queue <= longer
      invariant forall x :: x in longer ==> x in queue || Links(fsm, current, x)
      invariant forall t :: t in fsm.transitions[..i] && t.from == current && t.to != TERMINAL ==>
                  t.to in visited || t.to in longer
    {
      var t := fsm.transitions[i];
      assert fsm.transitions[..i + 1] == fsm.transitions[..i] + [t];
      if t.from == current && t.to !in visited && t.to != TERMINAL {
        assert t in fsm.transitions && Links(fsm, current, t.to);
        longer := longer + [t.to];
      }
    }
    assert fsm.transitions[..|fsm.transitions|] == fsm.transitions;
  }

  ghost function Mentioned(fsm: ParsedFsm): set<string> {
    {fsm.initial} + (set t | t in fsm.transitions :: t.to)
  }

  lemma QueuedAreReached(fsm: ParsedFsm, current: string, queue: seq<string>, longer: seq<string>)
    requires Reaches(fsm, fsm.initial, current)
    requires forall x :: x in queue ==> x in Mentioned(fsm) && Reaches(fsm, fsm.initial, x)
    requires forall x :: x in longer ==> x in queue || Links(fsm, current, x)
    ensures forall x :: x in longer ==> x in Mentioned(fsm) && Reaches(fsm, fsm.initial, x)
  {
    forall x | x in longer && x !in queue ensures x in Mentioned(fsm) && Reaches(fsm, fsm.initial, x) {
      ReachesNext(fsm, fsm.initial, current, x);
    }
  }

  lemma LinksStayCovered(fsm: ParsedFsm, current: string, seen: set<string>, queue: seq<string>, longer: seq<string>)
    requires queue <= longer
    requires forall a, b :: a in seen && Links(fsm, a, b) ==> b in seen || b == current || b in queue
    requires forall b :: Links(fsm, current, b) ==> b in seen + {current} || b in longer
    ensures forall a, b :: a in seen + {current} && Links(fsm, a, b) ==> b in seen + {current} || b in longer
  {
    forall a, b | a in seen && Links(fsm, a, b) ensures b in seen + {current} || b in longer {
      if b in queue {
        var i :| 0 <= i < |queue| && queue[i] == b;
        assert longer[i] == b;
      }
    }
  }

  method ReachableFrom(fsm: ParsedFsm) returns (visited: set<string>)
    ensures forall s :: s in visited <==> Reaches(fsm, fsm.initial, s)
  {
    visited := {};
    var queue := [fsm.initial];
    ReachesSelf(fsm, fsm.initial);
    while queue != []
      invariant visited <= Mentioned(fsm)
      invariant fsm.initial in visited || fsm.initial in queue
      invariant forall s :: s in visited ==> Reaches(fsm, fsm.initial, s)
      invariant forall s :: s in queue ==> s in Mentioned(fsm) && Reaches(fsm, fsm.initial, s)
      invariant forall a, b :: a in visited && Links(fsm, a, b) ==> b in visited || b in queue
      decreases Mentioned(fsm) - visited, |queue|
    {
      hide Reaches, Links, Mentioned;
      var current, rest := queue[0], queue[1..];
      assert queue == [current] + rest;
      if current in visited {
        queue := rest;
        continue;
      }
      var longer := QueueLinks(fsm, current, visited + {current}, rest);
      QueuedAreReached(fsm, current, rest, longer);
      LinksStayCovered(fsm, current, visited, rest, longer);
      visited, queue := visited + {current}, longer;
    }
    forall s | Reaches(fsm, fsm.initial, s) ensures s in visited {
      var chain :| ChainBetween(fsm, fsm.initial, s, chain);
      ClosedHoldsChain(fsm, visited, chain, |chain| - 1);
    }
  }

  // ---- Validation ---------------------------------------------------------------------------

  predicate IsLetter(c: char) {
    'a' <= c <= 'z' || 'A' <= c <= 'Z'
  }

  predicate IsDigit(c: char) {
    '0' <= c <= '9'
  }

  predicate IsNameChar(c: char) {
    IsLetter(c) || IsDigit(c) || c == '_'
  }

  predicate IsValidIdentifier(s: string) {
    s != "" && (IsLetter(s[0]) || s[0] == '_') && forall i :: 0 <= i < |s| ==> IsNameChar(s[i])
  }

  datatype Fault =
    | NoInitialState
    | NoFinalState
    | Unreachable(state: string)
    | Duplicate(from: string, event: string)
    | BadEvent(event: string)
    | BadState(state: string)

  /** The transition at `i` repeats the source and event of an earlier one. */
  ghost predicate Repeats(ts: seq<ParsedTransition>, i: nat) {
    i < |ts| && exists j :: 0 <= j < i && ts[j].from == ts[i].from && ts[j].event == ts[i].event
  }

  ghost predicate UniqueLines(ts: seq<ParsedTransition>) {
    forall i, j :: 0 <= i < j < |ts| ==> !(ts[i].from == ts[j].from && ts[i].event == ts[j].event)
  }

  /** What the macro accepts. */
  ghost predicate Acceptable(fsm: ParsedFsm) {
    && fsm.initial != "" && fsm.finals != {}
    && (forall s :: s in fsm.states ==> Reaches(fsm, fsm.initial, s))
    && UniqueLines(fsm.transitions)
    && (forall t :: t in fsm.transitions ==> IsValidIdentifier(t.event))
    && (forall s :: s in fsm.states ==> IsValidIdentifier(s))
  }

  // ---- The list of faults ---------------------------------------------------------------------

  /** Strings are ordered like their characters. */
  predicate Precedes(a: string, b: string) {
    b != [] && (a == [] || a[0] < b[0] || (a[0] == b[0] && Precedes(a[1..], b[1..])))
  }

  lemma {:induction false} PrecedesOneWay(a: string, b: string)
    ensures Precedes(a, b) ==> a != b && !Precedes(b, a)
  {
    if a != [] && b != [] {
      PrecedesOneWay(a[1..], b[1..]);
    }
  }

  lemma {:induction false} PrecedesSomeWay(a: string, b: string)
    ensures a != b ==> Precedes(a, b) || Precedes(b, a)
  {
    if a != [] && b != [] && a[0] == b[0] {
      PrecedesSomeWay(a[1..], b[1..]);
      assert a == [a[0]] + a[1..] && b == [b[0]] + b[1..];
    }
  }

  lemma {:induction false} PrecedesOnward(a: string, b: string, c: string)
    ensures Precedes(a, b) && Precedes(b, c) ==> Precedes(a, c)
  {
    if a != [] && b != [] && c != [] {
      PrecedesOnward(a[1..], b[1..], c[1..]);
    }
  }

  lemma StringsAreOrdered()
    ensures IsOrder(Precedes)
  {
    forall a, b ensures Precedes(a, b) ==> a != b && !Precedes(b, a) {
      PrecedesOneWay(a, b);
    }
    forall a, b ensures a != b ==> Precedes(a, b) || Precedes(b, a) {
      PrecedesSomeWay(a, b);
    }
    forall a, b, c ensures Precedes(a, b) && Precedes(b, c) ==> Precedes(a, c) {
      PrecedesOnward(a, b, c);
    }
  }

  ghost function UnreachableAmong(fsm: ParsedFsm, listed: seq<string>, n: nat): seq<Fault>
    requires n <= |listed|
  {
    if n == 0 then []
    else
      UnreachableAmong(fsm, listed, n - 1)
      + (if Reaches(fsm, fsm.initial, listed[n - 1]) then [] else [Unreachable(listed[n - 1])])
  }

  ghost function Duplicates(ts: seq<ParsedTransition>, n: nat): seq<Fault>
    requires n <= |ts|
  {
    if n == 0 then []
    else
      Duplicates(ts, n - 1) + (if Repeats(ts, n - 1) then [Duplicate(ts[n - 1].from, ts[n - 1].event)] else [])
  }

  function BadEvents(ts: seq<ParsedTransition>, n: nat): seq<Fault>
    requires n <= |ts|
  {
    if n == 0 then []
    else BadEvents(ts, n - 1) + (if IsValidIdentifier(ts[n - 1].event) then [] else [BadEvent(ts[n - 1].event)])
  }

  function BadStates(listed: seq<string>, n: nat): seq<Fault>
    requires n <= |listed|
  {
    if n == 0 then []
    else BadStates(listed, n - 1) + (if IsValidIdentifier(listed[n - 1]) then [] else [BadState(listed[n - 1])])
  }

  /** What is missing; unreachable states; duplicates, one for each repetition; names of events and of states. */
  ghost function FaultsOf(fsm: ParsedFsm, listed: seq<string>): seq<Fault> {
    (if fsm.initial == "" then [Fault.NoInitialState] else []) + (if fsm.finals == {} then [Fault.NoFinalState] else [])
    + UnreachableAmong(fsm, listed, |listed|) + Duplicates(fsm.transitions, |fsm.transitions|)
    + BadEvents(fsm.transitions, |fsm.transitions|) + BadStates(listed, |listed|)
  }

  lemma {:induction false} DuplicatesAreRepeats(ts: seq<ParsedTransition>, n: nat)
    requires n <= |ts|
    ensures Duplicates(ts, n) == [] <==> forall i :: 0 <= i < n ==> !Repeats(ts, i)
    ensures forall f :: f in Duplicates(ts, n) <==>
              exists i :: 0 <= i < n && Repeats(ts, i) && f == Duplicate(ts[i].from, ts[i].event)
  {
    hide Repeats;
    if n > 0 {
      DuplicatesAreRepeats(ts, n - 1);
    }
  }

  lemma UniqueIsUnrepeated(ts: seq<ParsedTransition>)
    ensures UniqueLines(ts) <==> forall i :: 0 <= i < |ts| ==> !Repeats(ts, i)
  {
    if !UniqueLines(ts) {
      var i, j :| 0 <= i < j < |ts| && ts[i].from == ts[j].from && ts[i].event == ts[j].event;
      assert Repeats(ts, j);
    }
  }

  /** The faults of the transitions' sources and events, in order. */
  method FindDuplicates(ts: seq<ParsedTransition>) returns (faults: seq<Fault>)
    ensures faults == Duplicates(ts, |ts|)
    ensures faults == [] <==> UniqueLines(ts)
    ensures forall f :: f in faults ==> f.Duplicate?
    ensures forall from, event :: Duplicate(from, event) in faults <==>
              exists i :: 0 <= i < |ts| && ts[i].from == from && ts[i].event == event && Repeats(ts, i)
  {
    var seen: set<(string, string)> := {};
    faults := [];
    for i := 0 to |ts|
      invariant forall p :: p in seen <==> exists j :: 0 <= j < i && (ts[j].from, ts[j].event) == p
      invariant faults == Duplicates(ts, i)
    {
      var key := (ts[i].from, ts[i].event);
      assert key in seen <==> Repeats(ts, i);
      if key in seen {
        faults := faults + [Duplicate(ts[i].from, ts[i].event)];
      } else {
        seen := seen + {key};
      }
    }
    DuplicatesAreRepeats(ts, |ts|);
    UniqueIsUnrepeated(ts);
    hide Repeats, UniqueLines, Duplicates;
  }

  method FindUnreachable(fsm: ParsedFsm, listed: seq<string>) returns (faults: seq<Fault>)
    requires forall s :: s in listed <==> s in fsm.states
    ensures faults == UnreachableAmong(fsm, listed, |listed|)
    ensures forall f :: f in faults <==>
              f.Unreachable? && f.state in fsm.states && !Reaches(fsm, fsm.initial, f.state)
  {
    hide Reaches;
    var reachable := ReachableFrom(fsm);
    ReachesSelf(fsm, fsm.initial);
    faults := [];
    for i := 0 to |listed|
      invariant faults == UnreachableAmong(fsm, listed, i)
      invariant forall f :: f in faults <==> f.Unreachable? && f.state in listed[..i] && f.state !in reachable
    {
      var state := listed[i];
      assert listed[..i + 1] == listed[..i] + [state];
      if state != fsm.initial && state !in reachable {
        faults := faults + [Unreachable(state)];
      }
    }
  }

  method FindBadEvents(ts: seq<ParsedTransition>) returns (faults: seq<Fault>)
    ensures faults == BadEvents(ts, |ts|)
    ensures forall f :: f in faults <==>
              f.BadEvent? && exists t :: t in ts && t.event == f.event && !IsValidIdentifier(t.event)
  {
    hide IsValidIdentifier;
    faults := [];
    for i := 0 to |ts|
      invariant faults == BadEvents(ts, i)
      invariant forall f :: f in faults <==>
                  f.BadEvent? && exists t :: t in ts[..i] && t.event == f.event && !IsValidIdentifier(t.event)
    {
      assert ts[..i + 1] == ts[..i] + [ts[i]];
      if !IsValidIdentifier(ts[i].event) {
        faults := faults + [BadEvent(ts[i].event)];
      }
    }
    assert ts[..|ts|] == ts;
  }

  method FindBadStates(listed: seq<string>) returns (faults: seq<Fault>)
    ensures faults == BadStates(listed, |listed|)
    ensures forall f :: f in faults <==> f.BadState? && f.state in listed && !IsValidIdentifier(f.state)
  {
    hide IsValidIdentifier;
    faults := [];
    for i := 0 to |listed|
      invariant faults == BadStates(listed, i)
      invariant forall f :: f in faults <==> f.BadState? && f.state in listed[..i] && !IsValidIdentifier(f.state)
    {
      var state := listed[i];
      assert listed[..i + 1] == listed[..i] + [state];
      if !IsValidIdentifier(state) {
        faults := faults + [BadState(state)];
      }
    }
  }

  /** Exactly the faults a definition has. */
  ghost predicate HasFault(fsm: ParsedFsm, f: Fault) {
    match f
    case NoInitialState => fsm.initial == ""
    case NoFinalState => fsm.finals == {}
    case Unreachable(s) => s in fsm.states && !Reaches(fsm, fsm.initial, s)
    case Duplicate(from, event) =>
      exists i :: 0 <= i < |fsm.transitions| && fsm.transitions[i].from == from && fsm.transitions[i].event == event
                  && Repeats(fsm.transitions, i)
    case BadEvent(e) => exists t :: t in fsm.transitions && t.event == e && !IsValidIdentifier(t.event)
    case BadState(s) => s in fsm.states && !IsValidIdentifier(s)
  }

  /** The macro's validation reports exactly the faults, in order, and accepts exactly what has none. */
  method Validate(fsm: ParsedFsm) returns (r: Result<(), seq<Fault>>)
    ensures r.Ok? <==> Acceptable(fsm)
    ensures r.Err? ==> forall f :: f in r.error <==> HasFault(fsm, f)
    ensures r.Err? ==> exists listed :: Lists(listed, fsm.states, Precedes) && r.error == FaultsOf(fsm, listed)
  {
    StringsAreOrdered();
    hide IsOrder, Acceptable, HasFault, FaultsOf;
    var listed := Listing(fsm.states, Precedes);
    var faults := FindFaults(fsm, listed);
    r := if faults == [] then Ok(()) else Err(faults);
  }

  method FindFaults(fsm: ParsedFsm, listed: seq<string>) returns (faults: seq<Fault>)
    requires forall s :: s in listed <==> s in fsm.states
    ensures faults == FaultsOf(fsm, listed)
    ensures faults == [] <==> Acceptable(fsm)
    ensures forall f :: f in faults <==> HasFault(fsm, f)
  {
    hide Reaches, IsValidIdentifier, Repeats, UnreachableAmong, Duplicates, BadEvents, BadStates;
    var missing :=
      (if fsm.initial == "" then [Fault.NoInitialState] else [])
      + (if fsm.finals == {} then [Fault.NoFinalState] else []);
    var unreachable := FindUnreachable(fsm, listed);
    var duplicates := FindDuplicates(fsm.transitions);
    var badEvents := FindBadEvents(fsm.transitions);
    var badStates := FindBadStates(listed);
    faults := missing + unreachable + duplicates + badEvents + badStates;
    assert forall f :: f in faults <==>
             f in missing || f in unreachable || f in duplicates || f in badEvents || f in badStates;
    NoFaultIsAcceptable(fsm, unreachable, badEvents, badStates);
  }

  lemma NoFaultIsAcceptable(fsm: ParsedFsm, unreachable: seq<Fault>, badEvents: seq<Fault>, badStates: seq<Fault>)
    requires forall f :: f in unreachable <==>
               f.Unreachable? && f.state in fsm.states && !Reaches(fsm, fsm.initial, f.state)
    requires forall f :: f in badEvents <==>
               f.BadEvent? && exists t :: t in fsm.transitions && t.event == f.event && !IsValidIdentifier(t.event)
    requires forall f :: f in badStates <==> f.BadState? && f.state in fsm.states && !IsValidIdentifier(f.state)
    ensures unreachable == [] <==> forall s :: s in fsm.states ==> Reaches(fsm, fsm.initial, s)
    ensures badEvents == [] <==> forall t :: t in fsm.transitions ==> IsValidIdentifier(t.event)
    ensures badStates == [] <==> forall s :: s in fsm.states ==> IsValidIdentifier(s)
  {
    hide Reaches, IsValidIdentifier;
    if unreachable == [] {
      forall s | s in fsm.states ensures Reaches(fsm, fsm.initial, s) {
        assert Unreachable(s) !in unreachable;
      }
    } else {
      assert unreachable[0] in unreachable;
    }
    if badEvents == [] {
      forall t | t in fsm.transitions ensures IsValidIdentifier(t.event) {
        assert BadEvent(t.event) !in badEvents;
      }
    } else {
      assert badEvents[0] in badEvents;
    }
    if badStates == [] {
      forall s | s in fsm.states ensures IsValidIdentifier(s) {
        assert BadState(s) !in badStates;
      }
    } else {
      assert badStates[0] in badStates;
    }
  }
}
