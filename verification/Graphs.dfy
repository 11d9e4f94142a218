/** The transition graph: per-source index, lookups, reachability, shortest paths, validation. */
module Graphs {
  import opened Wrappers
  import opened Orders

  datatype EventKind = Normal | Hard | Soft

  datatype Transition<S, E> = Transition(from: S, to: seq<S>, event: E, kind: EventKind)

  /** One step of a path: the event that was fired and the state that was entered. */
  datatype Hop<S, E> = Hop(event: E, state: S)

  datatype ValidationError<S> = NoFinalState | UnreachableState(state: S)

  // ---- Lists of transitions -----------------------------------------------------------------

  /** The positions of the transitions that leave `s`, in the order they were given. */
  function Positions<S(==), E>(ts: seq<Transition<S, E>>, s: S): (ps: seq<nat>)
    ensures forall k :: 0 <= k < |ps| ==> ps[k] < |ts|
  {
    if ts == [] then []
    else
      var n := |ts| - 1;
      Positions(ts[..n], s) + (if ts[n].from == s then [n] else [])
  }

  /** Strictly increasing, and exactly the positions whose transition leaves `s`. */
  lemma {:induction false} PositionsAreExact<S, E>(ts: seq<Transition<S, E>>, s: S)
    ensures forall j, k :: 0 <= j < k < |Positions(ts, s)| ==> Positions(ts, s)[j] < Positions(ts, s)[k]
    ensures forall i: nat :: i in Positions(ts, s) <==> i < |ts| && ts[i].from == s
  {
    if ts != [] {
      PositionsAreExact(ts[..|ts| - 1], s);
    }
  }

  lemma PositionsSnoc<S, E>(ts: seq<Transition<S, E>>, t: Transition<S, E>, s: S)
    ensures Positions(ts + [t], s) == Positions(ts, s) + (if t.from == s then [|ts|] else [])
  {
    assert (ts + [t])[..|ts|] == ts;
  }

  lemma {:induction false} NoPositions<S, E>(ts: seq<Transition<S, E>>, s: S)
    requires forall t :: t in ts ==> t.from != s
    ensures Positions(ts, s) == []
  {
    if ts != [] {
      assert ts[|ts| - 1] in ts;
      NoPositions(ts[..|ts| - 1], s);
    }
  }

  /** A linear scan for the first transition that leaves `s` on `event`. */
  function Scan<S(==), E(==)>(ts: seq<Transition<S, E>>, s: S, event: E): Option<(seq<S>, EventKind)> {
    if ts == [] then None
    else if ts[0].from == s && ts[0].event == event then Some((ts[0].to, ts[0].kind))
    else Scan(ts[1..], s, event)
  }

  lemma {:induction false} ScanSnoc<S, E>(ts: seq<Transition<S, E>>, t: Transition<S, E>, s: S, event: E)
    ensures Scan(ts + [t], s, event) ==
            if Scan(ts, s, event).Some? then Scan(ts, s, event)
            else if t.from == s && t.event == event then Some((t.to, t.kind))
            else None
  {
    if ts == [] {
      assert Scan([t][1..], s, event) == None;
    } else {
      assert (ts + [t])[1..] == ts[1..] + [t];
      ScanSnoc(ts[1..], t, s, event);
    }
  }

  lemma {:induction false} ScanFindsATransition<S, E>(ts: seq<Transition<S, E>>, s: S, event: E)
    ensures Scan(ts, s, event).Some? ==>
              exists t :: && t in ts && t.from == s && t.event == event
                          && Scan(ts, s, event).value == (t.to, t.kind)
    ensures Scan(ts, s, event).None? ==> forall t :: t in ts ==> !(t.from == s && t.event == event)
  {
    if ts != [] {
      assert ts == [ts[0]] + ts[1..];
      ScanFindsATransition(ts[1..], s, event);
    }
  }

  /** The labels of the transitions that leave `s`, filtered from the whole list in order. */
  function Outgoing<S(==), E>(ts: seq<Transition<S, E>>, s: S): seq<(E, EventKind)> {
    if ts == [] then []
    else (if ts[0].from == s then [(ts[0].event, ts[0].kind)] else []) + Outgoing(ts[1..], s)
  }

  lemma {:induction false} OutgoingSnoc<S, E>(ts: seq<Transition<S, E>>, t: Transition<S, E>, s: S)
    ensures Outgoing(ts + [t], s) == Outgoing(ts, s) + (if t.from == s then [(t.event, t.kind)] else [])
  {
    if ts == [] {
      assert Outgoing([t][1..], s) == [];
    } else {
      assert (ts + [t])[1..] == ts[1..] + [t];
      OutgoingSnoc(ts[1..], t, s);
    }
  }

  lemma {:induction false} LabelsAreOutgoing<S, E>(ts: seq<Transition<S, E>>, s: S)
    ensures |Positions(ts, s)| == |Outgoing(ts, s)|
    ensures forall k :: 0 <= k < |Positions(ts, s)| ==>
              Outgoing(ts, s)[k] == (ts[Positions(ts, s)[k]].event, ts[Positions(ts, s)[k]].kind)
  {
    if ts != [] {
      var n := |ts| - 1;
      LabelsAreOutgoing(ts[..n], s);
      OutgoingSnoc(ts[..n], ts[n], s);
      assert ts == ts[..n] + [ts[n]];
    }
  }

  lemma {:induction false} OutgoingComesFromATransition<S, E>(ts: seq<Transition<S, E>>, s: S, tag: (E, EventKind))
    requires tag in Outgoing(ts, s)
    ensures exists t :: t in ts && t.from == s && (t.event, t.kind) == tag
  {
    if !(ts[0].from == s && (ts[0].event, ts[0].kind) == tag) {
      OutgoingComesFromATransition(ts[1..], s, tag);
    }
  }

  /** Two transitions never share both a source and an event. */
  ghost predicate UniqueEvents<S, E>(ts: seq<Transition<S, E>>) {
    forall i, j :: 0 <= i < j < |ts| ==> !(ts[i].from == ts[j].from && ts[i].event == ts[j].event)
  }

  // ---- Walks --------------------------------------------------------------------------------

  /** The state a path is in after its first `k` hops. */
  function StateAt<S, E>(start: S, path: seq<Hop<S, E>>, k: nat): S
    requires k <= |path|
  {
    if k == 0 then start else path[k - 1].state
  }

  function EndOf<S, E>(start: S, path: seq<Hop<S, E>>): S {
    StateAt(start, path, |path|)
  }

  // ---- The graph ----------------------------------------------------------------------------

  datatype TransitionGraph<S(==, !new), E(==, !new)> = TransitionGraph(
    initial: S,
    finals: set<S>,
    transitions: seq<Transition<S, E>>,
    index: map<S, seq<nat>>)
  {
    /** What `New` establishes: the index lists, for each source, exactly its transitions. */
    ghost predicate Indexed() {
      IndexOver(transitions, index)
    }

    static ghost predicate IndexOver(ts: seq<Transition<S, E>>, index: map<S, seq<nat>>) {
      && (forall t :: t in ts ==> t.from in index)
      && (forall s :: s in index ==> index[s] == Positions(ts, s))
      && (forall s :: s in index ==> index[s] != [])
    }

    static lemma IndexGrows(ts: seq<Transition<S, E>>, t: Transition<S, E>, index: map<S, seq<nat>>)
      requires IndexOver(ts, index)
      ensures IndexOver(ts + [t], index[t.from := (if t.from in index then index[t.from] else []) + [|ts|]])
    {
      var grown := index[t.from := (if t.from in index then index[t.from] else []) + [|ts|]];
      if t.from !in index {
        NoPositions(ts, t.from);
      }
      forall s | s in grown ensures grown[s] == Positions(ts + [t], s) {
        PositionsSnoc(ts, t, s);
      }
    }

    static method New(initial: S, finals: set<S>, transitions: seq<Transition<S, E>>) returns (g: TransitionGraph<S, E>)
      ensures g.Indexed()
      ensures g.initial == initial && g.finals == finals && g.transitions == transitions
    {
      var index: map<S, seq<nat>> := map[];
      for i := 0 to |transitions|
        invariant IndexOver(transitions[..i], index)
      {
        var t := transitions[i];
        IndexGrows(transitions[..i], t, index);
        assert transitions[..i + 1] == transitions[..i] + [t];
        index := index[t.from := (if t.from in index then index[t.from] else []) + [i]];
      }
      assert transitions[..|transitions|] == transitions;
      g := TransitionGraph(initial, finals, transitions, index);
    }

    function IndicesOf(s: S): seq<nat> {
      if s in index then index[s] else []
    }

    lemma IndicesAreThePositions(s: S)
      requires Indexed()
      ensures IndicesOf(s) == Positions(transitions, s)
    {
      if s !in index {
        NoPositions(transitions, s);
      }
    }

    predicate IsFinal(s: S) {
      s in finals
    }

    /** The first of the listed transitions that is labelled `event`. */
    function FindEvent(indices: seq<nat>, event: E): Option<(seq<S>, EventKind)>
      requires forall k :: 0 <= k < |indices| ==> indices[k] < |transitions|
    {
      if indices == [] then None
      else
        var t := transitions[indices[0]];
        if t.event == event then Some((t.to, t.kind)) else FindEvent(indices[1..], event)
    }

    function Allowed(from: S, event: E): Option<(seq<S>, EventKind)>
      requires Indexed()
    {
      if from in index then FindEvent(index[from], event) else None
    }

    predicate Responds(state: S, event: E)
      requires Indexed()
    {
      Allowed(state, event).Some?
    }

    function EventsFor(state: S): seq<(E, EventKind)>
      requires Indexed()
    {
      if state in index then
        var ps := index[state];
        seq(|ps|, k requires 0 <= k < |ps| => (transitions[ps[k]].event, transitions[ps[k]].kind))
      else []
    }

    // ---- Index refines scan -------------------------------------------------------------

    lemma {:induction false} FindEventSnoc(indices: seq<nat>, i: nat, event: E)
      requires forall k :: 0 <= k < |indices| ==> indices[k] < |transitions|
      requires i < |transitions|
      ensures FindEvent(indices + [i], event) ==
              if FindEvent(indices, event).Some? then FindEvent(indices, event)
              else if transitions[i].event == event then Some((transitions[i].to, transitions[i].kind))
              else None
    {
      if indices == [] {
        assert FindEvent([i][1..], event) == None;
      } else {
        assert (indices + [i])[1..] == indices[1..] + [i];
        FindEventSnoc(indices[1..], i, event);
      }
    }

    lemma {:induction false} FindEventIsScan(n: nat, from: S, event: E)
      requires n <= |transitions|
      ensures FindEvent(Positions(transitions[..n], from), event) == Scan(transitions[..n], from, event)
    {
      if n > 0 {
        var t := transitions[n - 1];
        var before := transitions[..n - 1];
        FindEventIsScan(n - 1, from, event);
        assert transitions[..n] == before + [t];
        PositionsSnoc(before, t, from);
        ScanSnoc(before, t, from, event);
        FindEventSnoc(Positions(before, from), n - 1, event);
        assert t.from != from ==> Positions(before, from) + [] == Positions(before, from);
      }
    }

    /** The indexed lookup answers exactly what a linear scan of all transitions answers. */
    lemma AllowedIsScan(from: S, event: E)
      requires Indexed()
      ensures Allowed(from, event) == Scan(transitions, from, event)
    {
      IndicesAreThePositions(from);
      FindEventIsScan(|transitions|, from, event);
      assert transitions[..|transitions|] == transitions;
    }

    /** `EventsFor` is the in-order filter of the whole transition list. */
    lemma EventsForIsFilter(state: S)
      requires Indexed()
      ensures EventsFor(state) == Outgoing(transitions, state)
    {
      IndicesAreThePositions(state);
      LabelsAreOutgoing(transitions, state);
    }

    /** With unique events no transition is shadowed by an earlier one. */
    lemma UniqueEventsAreAllowed(t: Transition<S, E>)
      requires Indexed() && UniqueEvents(transitions) && t in transitions
      ensures Allowed(t.from, t.event) == Some((t.to, t.kind))
    {
      AllowedIsScan(t.from, t.event);
      ScanFindsATransition(transitions, t.from, t.event);
    }

    // ---- States, edges and walks --------------------------------------------------------

    /** Every state the graph mentions. */
    ghost function States(): set<S> {
      {initial} + finals + Sources(transitions) + Targets(transitions)
    }

    static ghost function Sources(ts: seq<Transition<S, E>>): set<S> {
      set t | t in ts :: t.from
    }

    static ghost function Targets(ts: seq<Transition<S, E>>): set<S> {
      set t, x | t in ts && x in t.to :: x
    }

    method AllStates() returns (states: set<S>)
      ensures states == States()
    {
      states := {initial} + finals;
      for i := 0 to |transitions|
        invariant states == {initial} + finals + Sources(transitions[..i]) + Targets(transitions[..i])
      {
        var t := transitions[i];
        assert transitions[..i + 1] == transitions[..i] + [t];
        states := states + {t.from};
        ghost var before := states;
        for j := 0 to |t.to|
          invariant states == before + (set x | x in t.to[..j])
        {
          assert t.to[..j + 1] == t.to[..j] + [t.to[j]];
          states := states + {t.to[j]};
        }
        assert t.to[..|t.to|] == t.to;
      }
      assert transitions[..|transitions|] == transitions;
    }

    ghost predicate Edge(s: S, event: E, target: S) {
      exists t :: t in transitions && t.from == s && t.event == event && target in t.to
    }

    ghost predicate IsWalk(start: S, path: seq<Hop<S, E>>) {
      forall k :: 0 <= k < |path| ==> Edge(StateAt(start, path, k), path[k].event, path[k].state)
    }

    ghost predicate WalkBetween(a: S, b: S, path: seq<Hop<S, E>>) {
      IsWalk(a, path) && EndOf(a, path) == b
    }

    ghost predicate Reachable(a: S, b: S) {
      exists path :: WalkBetween(a, b, path)
    }

    lemma ExtendWalk(a: S, b: S, path: seq<Hop<S, E>>, event: E, c: S)
      requires WalkBetween(a, b, path) && Edge(b, event, c)
      ensures WalkBetween(a, c, path + [Hop(event, c)])
    {
      var longer := path + [Hop(event, c)];
      forall k | 0 <= k < |longer|
        ensures Edge(StateAt(a, longer, k), longer[k].event, longer[k].state)
      {
        if k < |path| {
          assert StateAt(a, longer, k) == StateAt(a, path, k);
        } else {
          assert StateAt(a, longer, k) == b;
        }
      }
    }

    lemma ReachableSelf(a: S)
      ensures Reachable(a, a)
    {
      var none: seq<Hop<S, E>> := [];
      assert WalkBetween(a, a, none);
    }

    lemma ReachableStep(a: S, b: S, event: E, c: S)
      requires Reachable(a, b) && Edge(b, event, c)
      ensures Reachable(a, c)
    {
      var path :| WalkBetween(a, b, path);
      ExtendWalk(a, b, path, event, c);
    }

    lemma AllowedIsEdge(s: S, event: E, target: S)
      requires Indexed() && Allowed(s, event).Some? && target in Allowed(s, event).value.0
      ensures Edge(s, event, target) && s in States() && target in States()
    {
      AllowedIsScan(s, event);
      ScanFindsATransition(transitions, s, event);
      assert s in Sources(transitions) && target in Targets(transitions);
    }

    // ---- Reachability -------------------------------------------------------------------

    ghost predicate ClosedUnderEdges(states: set<S>) {
      forall t, x :: t in transitions && t.from in states && x in t.to ==> x in states
    }

    /** A closed set that holds the start of a walk holds every state on it. */
    lemma {:induction false} ClosedHoldsWalk(closed: set<S>, a: S, path: seq<Hop<S, E>>, k: nat)
      requires ClosedUnderEdges(closed) && a in closed && IsWalk(a, path) && k <= |path|
      ensures StateAt(a, path, k) in closed
    {
      if k > 0 {
        ClosedHoldsWalk(closed, a, path, k - 1);
        assert Edge(StateAt(a, path, k - 1), path[k - 1].event, path[k - 1].state);
      }
    }

    /** Each of the targets has been visited or is waiting to be. */
    static ghost predicate Covered(targets: seq<S>, visited: set<S>, queue: seq<S>) {
      forall x :: x in targets ==> x in visited || x in queue
    }

    static lemma CoveredGrows(targets: seq<S>, visited: set<S>, queue: seq<S>, longer: seq<S>)
      requires Covered(targets, visited, queue) && queue <= longer
      ensures Covered(targets, visited, longer)
    {
      forall x | x in targets ensures x in visited || x in longer {
        if x in queue {
          var i :| 0 <= i < |queue| && queue[i] == x;
          assert longer[i] == x;
        }
      }
    }

    /** Queues the targets of `t` that have not been visited. */
    static method QueueTargets(t: Transition<S, E>, visited: set<S>, queue: seq<S>) returns (longer: seq<S>)
      ensures queue <= longer && Covered(t.to, visited, longer)
      ensures forall x :: x in longer ==> x in queue || x in t.to
    {
      longer := queue;
      for b := 0 to |t.to|
        invariant queue <= longer && Covered(t.to[..b], visited, longer)
        invariant forall x :: x in longer ==> x in queue || x in t.to
      {
        ghost var shorter := longer;
        if t.to[b] !in visited {
          longer := longer + [t.to[b]];
        }
        CoveredGrows(t.to[..b], visited, shorter, longer);
        assert t.to[..b + 1] == t.to[..b] + [t.to[b]];
      }
      assert t.to[..|t.to|] == t.to;
    }

    /** Queues the unvisited targets of every transition that leaves `current`. */
    method QueueSuccessors(current: S, visited: set<S>, queue: seq<S>) returns (longer: seq<S>)
      requires Indexed()
      ensures queue <= longer
      ensures forall x :: x in longer ==> x in queue || exists event :: Edge(current, event, x)
      ensures forall t :: t in transitions && t.from == current ==> Covered(t.to, visited, longer)
    {
      longer := queue;
      var indices := IndicesOf(current);
      IndicesAreThePositions(current);
      PositionsAreExact(transitions, current);
      for a := 0 to |indices|
        invariant queue <= longer
        invariant forall x :: x in longer ==> x in queue || exists event :: Edge(current, event, x)
        invariant forall m :: 0 <= m < a ==> Covered(transitions[indices[m]].to, visited, longer)
      {
        var t := transitions[indices[a]];
        ghost var shorter := longer;
        longer := QueueTargets(t, visited, longer);
        assert indices[a] in indices && t in transitions && t.from == current;
        forall x | x in longer ensures x in queue || exists event :: Edge(current, event, x) {
          if x in t.to {
            assert Edge(current, t.event, x);
          }
        }
        forall m | 0 <= m < a ensures Covered(transitions[indices[m]].to, visited, longer) {
          CoveredGrows(transitions[indices[m]].to, visited, shorter, longer);
        }
      }
      forall t | t in transitions && t.from == current ensures Covered(t.to, visited, longer) {
        var i :| 0 <= i < |transitions| && transitions[i] == t;
        assert i in indices;
      }
    }

    lemma SuccessorsAreReached(start: S, current: S, queue: seq<S>, longer: seq<S>)
      requires Reachable(start, current)
      requires forall x :: x in queue ==> Reachable(start, x) && x in States() + {start}
      requires forall x :: x in longer ==> x in queue || exists event :: Edge(current, event, x)
      ensures forall x :: x in longer ==> Reachable(start, x) && x in States() + {start}
    {
      forall x | x in longer && x !in queue ensures Reachable(start, x) && x in States() {
        var event :| Edge(current, event, x);
        ReachableStep(start, current, event, x);
        assert x in Targets(transitions);
      }
    }

    method ReachableFrom(start: S) returns (visited: set<S>)
      requires Indexed()
      ensures start in visited && ClosedUnderEdges(visited)
      ensures forall s :: s in visited <==> Reachable(start, s)
    {
      visited := {};
      var queue := [start];
      ghost var universe := States() + {start};
      ReachableSelf(start);
      hide Reachable, States, Edge, Covered, Indexed;
      while queue != []
        invariant visited <= universe
        invariant start in visited || start in queue
        invariant forall s :: s in queue ==> Reachable(start, s) && s in universe
        invariant forall s :: s in visited ==> Reachable(start, s)
        invariant forall t :: t in transitions && t.from in visited ==> Covered(t.to, visited, queue)
        decreases universe - visited, |queue|
      {
        var current, rest := queue[0], queue[1..];
        assert queue == [current] + rest;
        if current in visited {
          VisitedIsCovered(visited, queue);
          queue := rest;
          continue;
        }
        var longer := QueueSuccessors(current, visited + {current}, rest);
        SuccessorsAreReached(start, current, rest, longer);
        SuccessorsAreCovered(current, visited, queue, longer);
        visited, queue := visited + {current}, longer;
      }
      CoveredIsClosed(visited);
      ClosedHoldsReachable(visited, start);
    }

    lemma VisitedIsCovered(visited: set<S>, queue: seq<S>)
      requires queue != [] && queue[0] in visited
      requires forall t :: t in transitions && t.from in visited ==> Covered(t.to, visited, queue)
      ensures forall t :: t in transitions && t.from in visited ==> Covered(t.to, visited, queue[1..])
    {
      assert queue == [queue[0]] + queue[1..];
    }

    lemma CoveredIsClosed(visited: set<S>)
      requires forall t :: t in transitions && t.from in visited ==> Covered(t.to, visited, [])
      ensures ClosedUnderEdges(visited)
    {
    }

    lemma SuccessorsAreCovered(current: S, visited: set<S>, queue: seq<S>, longer: seq<S>)
      requires queue != [] && current == queue[0] && queue[1..] <= longer
      requires forall t :: t in transitions && t.from in visited ==> Covered(t.to, visited, queue)
      requires forall t :: t in transitions && t.from == current ==> Covered(t.to, visited + {current}, longer)
      ensures forall t :: t in transitions && t.from in visited + {current} ==>
                Covered(t.to, visited + {current}, longer)
    {
      forall t | t in transitions && t.from in visited ensures Covered(t.to, visited + {current}, longer) {
        assert queue == [current] + queue[1..];
        assert Covered(t.to, visited + {current}, queue[1..]);
        CoveredGrows(t.to, visited + {current}, queue[1..], longer);
      }
    }

    lemma ClosedHoldsReachable(closed: set<S>, start: S)
      requires ClosedUnderEdges(closed) && start in closed
      ensures forall s :: Reachable(start, s) ==> s in closed
    {
      forall s | Reachable(start, s) ensures s in closed {
        var path :| WalkBetween(start, s, path);
        ClosedHoldsWalk(closed, start, path, |path|);
      }
    }

    // ---- Shortest paths -----------------------------------------------------------------

    /** The distances found so far: `done` states have all their successors measured too. */
    ghost predicate Measured(from: S, dist: map<S, nat>, done: set<S>) {
      && from in dist && dist[from] == 0 && done <= dist.Keys
      && forall t, x :: t in transitions && t.from in done && x in t.to ==>
           x in dist && dist[x] <= dist[t.from] + 1
    }

    /** Whatever is not done is at least `d` hops away. */
    static ghost predicate Settled(dist: map<S, nat>, done: set<S>, d: nat) {
      forall v :: v in dist ==> v in done || dist[v] >= d
    }

    /** A walk's first `d` hops only meet measured states, and none is measured too far. */
    lemma {:induction false} WalkIsMeasured(from: S, dist: map<S, nat>, done: set<S>, d: nat, path: seq<Hop<S, E>>,
        k: nat)
      requires Measured(from, dist, done) && Settled(dist, done, d)
      requires IsWalk(from, path) && k <= |path| && k <= d
      ensures StateAt(from, path, k) in dist && dist[StateAt(from, path, k)] <= k
    {
      if k > 0 {
        WalkIsMeasured(from, dist, done, d, path, k - 1);
        assert Edge(StateAt(from, path, k - 1), path[k - 1].event, path[k - 1].state);
      }
    }

    lemma NoShorterWalk(from: S, to: S, dist: map<S, nat>, done: set<S>, d: nat)
      requires Measured(from, dist, done) && Settled(dist, done, d) && to !in dist
      ensures forall p :: WalkBetween(from, to, p) ==> |p| > d
    {
      forall p | WalkBetween(from, to, p) ensures |p| > d {
        if |p| <= d {
          WalkIsMeasured(from, dist, done, d, p, |p|);
        }
      }
    }

    lemma NoWalk(from: S, to: S, dist: map<S, nat>, done: set<S>)
      requires Measured(from, dist, done) && to !in dist && dist.Keys <= done
      ensures !Reachable(from, to)
    {
      if Reachable(from, to) {
        var p :| WalkBetween(from, to, p);
        WalkIsMeasured(from, dist, done, |p|, p, |p|);
      }
    }

    /** A queue entry is a state together with the path that discovered it. */
    ghost predicate PathsLead(from: S, queue: seq<(S, seq<Hop<S, E>>)>) {
      forall k :: 0 <= k < |queue| ==> WalkBetween(from, queue[k].0, queue[k].1)
    }

    /** The path that discovered a state is as long as the state's distance. */
    static ghost predicate Discovered(dist: map<S, nat>, queue: seq<(S, seq<Hop<S, E>>)>) {
      forall k :: 0 <= k < |queue| ==> queue[k].0 in dist && dist[queue[k].0] == |queue[k].1|
    }

    static ghost predicate InOrder(queue: seq<(S, seq<Hop<S, E>>)>, d: nat) {
      && (forall k :: 0 <= k < |queue| ==> d <= |queue[k].1| <= d + 1)
      && (forall j, k :: 0 <= j < k < |queue| ==> |queue[j].1| <= |queue[k].1|)
    }

    static ghost predicate Waiting(v: S, queue: seq<(S, seq<Hop<S, E>>)>) {
      exists k :: 0 <= k < |queue| && queue[k].0 == v
    }

    /** `longer` is `queue` followed by entries one hop beyond `path`, for states in `newcomers`. */
    ghost predicate Expanded(current: S, path: seq<Hop<S, E>>, newcomers: set<S>, queue: seq<(S, seq<Hop<S, E>>)>,
        longer: seq<(S, seq<Hop<S, E>>)>)
    {
      && queue <= longer
      && forall k :: |queue| <= k < |longer| ==>
           && longer[k].0 in newcomers
           && |longer[k].1| == |path| + 1
           && longer[k].1 == path + [longer[k].1[|path|]]
           && longer[k].1[|path|].state == longer[k].0
           && Edge(current, longer[k].1[|path|].event, longer[k].0)
    }

    method ExploreTargets(t: Transition<S, E>, to: S, path: seq<Hop<S, E>>, visited: set<S>,
        queue: seq<(S, seq<Hop<S, E>>)>, ghost origin: set<S>, ghost start: seq<(S, seq<Hop<S, E>>)>)
      returns (found: bool, seen: set<S>, longer: seq<(S, seq<Hop<S, E>>)>)
      requires t in transitions && origin <= visited && to !in visited
      requires Expanded(t.from, path, visited - origin, start, queue)
      requires forall v :: v in visited ==> v in origin || Waiting(v, queue)
      ensures found <==> to in t.to
      ensures !found ==>
                && visited <= seen && to !in seen
                && (forall x :: x in t.to ==> x in seen)
                && (forall v :: v in seen ==> v in visited || v in t.to)
                && Expanded(t.from, path, seen - origin, start, longer)
                && (forall v :: v in seen ==> v in origin || Waiting(v, longer))
    {
      seen, longer := visited, queue;
      for b := 0 to |t.to|
        invariant to !in t.to[..b]
        invariant visited <= seen && to !in seen
        invariant forall x :: x in t.to[..b] ==> x in seen
        invariant forall v :: v in seen ==> v in visited || v in t.to
        invariant Expanded(t.from, path, seen - origin, start, longer)
        invariant forall v :: v in seen ==> v in origin || Waiting(v, longer)
      {
        var target := t.to[b];
        if target == to {
          return true, seen, longer;
        }
        if target !in seen {
          var entry := (target, path + [Hop(t.event, target)]);
          assert Edge(t.from, t.event, target);
          ghost var shorter := longer;
          seen := seen + {target};
          longer := longer + [entry];
          forall v | v in seen ensures v in origin || Waiting(v, longer) {
            if v == target {
              assert longer[|shorter|].0 == v;
            } else if Waiting(v, shorter) {
              var k :| 0 <= k < |shorter| && shorter[k].0 == v;
              assert longer[k].0 == v;
            }
          }
        }
        assert t.to[..b + 1] == t.to[..b] + [target];
      }
      assert t.to[..|t.to|] == t.to;
      found := false;
    }

    method Explore(current: S, to: S, path: seq<Hop<S, E>>, visited: set<S>, queue: seq<(S, seq<Hop<S, E>>)>)
      returns (found: Option<Hop<S, E>>, seen: set<S>, longer: seq<(S, seq<Hop<S, E>>)>)
      requires Indexed() && to !in visited
      ensures found.Some? ==> found.value.state == to && Edge(current, found.value.event, to)
      ensures found.None? ==>
                && visited <= seen <= visited + States() && to !in seen
                && (forall t, x :: t in transitions && t.from == current && x in t.to ==> x in seen)
                && Expanded(current, path, seen - visited, queue, longer)
                && (forall v :: v in seen ==> v in visited || Waiting(v, longer))
    {
      hide Waiting, Positions;
      seen, longer := visited, queue;
      var indices := IndicesOf(current);
      IndicesAreThePositions(current);
      PositionsAreExact(transitions, current);
      for a := 0 to |indices|
        invariant visited <= seen <= visited + States() && to !in seen
        invariant forall m, x :: 0 <= m < a && x in transitions[indices[m]].to ==> x in seen
        invariant Expanded(current, path, seen - visited, queue, longer)
        invariant forall v :: v in seen ==> v in visited || Waiting(v, longer)
      {
        var t := transitions[indices[a]];
        assert indices[a] in indices && t in transitions && t.from == current;
        var hit;
        ghost var known := seen;
        hit, seen, longer := ExploreTargets(t, to, path, seen, longer, visited, queue);
        if hit {
          assert Edge(current, t.event, to);
          return Some(Hop(t.event, to)), seen, longer;
        }
        assert seen <= known + Targets(transitions);
      }
      forall t, x | t in transitions && t.from == current && x in t.to ensures x in seen {
        var i :| 0 <= i < |transitions| && transitions[i] == t;
        assert i in indices;
      }
      found := None;
    }

    /** The distances once the states of `seen` that had none are given distance `d`. */
    static ghost function Deepen(dist: map<S, nat>, seen: set<S>, d: nat): (deeper: map<S, nat>)
      ensures deeper.Keys == seen
      ensures forall v :: v in seen ==> deeper[v] == if v in dist then dist[v] else d
    {
      map v | v in seen :: if v in dist then dist[v] else d
    }

    /** The state of the search between two queue heads. */
    ghost predicate Frontier(from: S, dist: map<S, nat>, done: set<S>, queue: seq<(S, seq<Hop<S, E>>)>) {
      && Measured(from, dist, done) && Discovered(dist, queue)
      && (forall v :: v in dist ==> v in done || Waiting(v, queue))
      && NearestFirst(dist, done, queue)
    }

    /** The queue's head is its nearest entry, and nothing that is done is farther away. */
    static ghost predicate NearestFirst(dist: map<S, nat>, done: set<S>, queue: seq<(S, seq<Hop<S, E>>)>) {
      queue != [] ==>
        && InOrder(queue, |queue[0].1|)
        && forall v :: v in dist && v in done ==> dist[v] <= |queue[0].1|
    }

    static lemma OrderedIsNearestFirst(dist: map<S, nat>, done: set<S>, queue: seq<(S, seq<Hop<S, E>>)>, d: nat)
      requires InOrder(queue, d)
      requires forall v :: v in dist && v in done ==> dist[v] <= d
      ensures NearestFirst(dist, done, queue)
    {
    }

    lemma InitialFrontier(from: S)
      ensures Frontier(from, map[from := 0], {}, [(from, [])])
      ensures PathsLead(from, [(from, [])])
    {
      var queue: seq<(S, seq<Hop<S, E>>)> := [(from, [])];
      assert queue[0].0 == from;
    }

    /** What is known about the rest of the queue, and about `done`, once its head is taken. */
    static lemma PopHead(dist: map<S, nat>, done: set<S>, queue: seq<(S, seq<Hop<S, E>>)>)
      requires queue != [] && Discovered(dist, queue) && NearestFirst(dist, done, queue)
      requires forall v :: v in dist ==> v in done || Waiting(v, queue)
      ensures Discovered(dist, queue[1..]) && InOrder(queue[1..], |queue[0].1|)
      ensures Settled(dist, done, |queue[0].1|)
      ensures forall v :: v in dist ==> v in done || v == queue[0].0 || Waiting(v, queue[1..])
    {
      var rest := queue[1..];
      forall v | v in dist && v !in done
        ensures dist[v] >= |queue[0].1|
        ensures v == queue[0].0 || Waiting(v, rest)
      {
        var k :| 0 <= k < |queue| && queue[k].0 == v;
        if k > 0 {
          assert rest[k - 1].0 == v;
        }
      }
    }

    lemma ExpansionMeasures(from: S, dist: map<S, nat>, done: set<S>, current: S, d: nat,
        rest: seq<(S, seq<Hop<S, E>>)>, seen: set<S>)
      requires Measured(from, dist, done)
      requires current in dist && dist[current] == d && dist.Keys <= seen
      requires InOrder(rest, d) && Discovered(dist, rest)
      requires forall v :: v in dist ==> v in done || v == current || Waiting(v, rest)
      requires forall v :: v in dist && v in done ==> dist[v] <= d
      requires forall t, x :: t in transitions && t.from == current && x in t.to ==> x in seen
      ensures Measured(from, Deepen(dist, seen, d + 1), done + {current})
    {
      var dist' := Deepen(dist, seen, d + 1);
      forall t, x | t in transitions && t.from in done + {current} && x in t.to
        ensures x in dist' && dist'[x] <= dist'[t.from] + 1
      {
        if t.from == current && x in dist && x !in done && x != current {
          var k :| 0 <= k < |rest| && rest[k].0 == x;
        }
      }
    }

    lemma ExpansionDiscovers(dist: map<S, nat>, current: S, path: seq<Hop<S, E>>, rest: seq<(S, seq<Hop<S, E>>)>,
        seen: set<S>, longer: seq<(S, seq<Hop<S, E>>)>)
      requires dist.Keys <= seen && Discovered(dist, rest) && InOrder(rest, |path|)
      requires Expanded(current, path, seen - dist.Keys, rest, longer)
      ensures Discovered(Deepen(dist, seen, |path| + 1), longer) && InOrder(longer, |path|)
    {
      forall k | 0 <= k < |rest| ensures longer[k] == rest[k] {
      }
    }

    lemma ExpansionPathsLead(from: S, queue: seq<(S, seq<Hop<S, E>>)>, newcomers: set<S>,
        longer: seq<(S, seq<Hop<S, E>>)>)
      requires queue != [] && PathsLead(from, queue)
      requires Expanded(queue[0].0, queue[0].1, newcomers, queue[1..], longer)
      ensures PathsLead(from, longer)
    {
      var (current, path) := queue[0];
      var rest := queue[1..];
      forall k | 0 <= k < |longer| ensures WalkBetween(from, longer[k].0, longer[k].1) {
        if k < |rest| {
          assert longer[k] == rest[k] == queue[k + 1];
        } else {
          ExtendWalk(from, current, path, longer[k].1[|path|].event, longer[k].0);
        }
      }
    }

    static lemma NothingIsForgotten(dist: map<S, nat>, done: set<S>, current: S, rest: seq<(S, seq<Hop<S, E>>)>,
        seen: set<S>, longer: seq<(S, seq<Hop<S, E>>)>)
      requires rest <= longer
      requires forall v :: v in dist ==> v in done || v == current || Waiting(v, rest)
      requires forall v :: v in seen ==> v in dist || Waiting(v, longer)
      ensures forall v :: v in seen ==> v in done + {current} || Waiting(v, longer)
    {
      forall v | v in seen && v in dist && v !in done + {current} ensures Waiting(v, longer) {
        var k :| 0 <= k < |rest| && rest[k].0 == v;
        assert longer[k].0 == v;
      }
    }

    /** Expanding the head of the queue leaves a frontier. */
    lemma ExpansionKeepsFrontier(from: S, dist: map<S, nat>, done: set<S>, queue: seq<(S, seq<Hop<S, E>>)>,
        seen: set<S>, longer: seq<(S, seq<Hop<S, E>>)>)
      requires queue != [] && Frontier(from, dist, done, queue)
      requires dist.Keys <= seen
      requires forall t, x :: t in transitions && t.from == queue[0].0 && x in t.to ==> x in seen
      requires Expanded(queue[0].0, queue[0].1, seen - dist.Keys, queue[1..], longer)
      requires forall v :: v in seen ==> v in dist || Waiting(v, longer)
      ensures Frontier(from, Deepen(dist, seen, |queue[0].1| + 1), done + {queue[0].0}, longer)
    {
      var (current, path) := queue[0];
      PopHead(dist, done, queue);
      ExpansionMeasures(from, dist, done, current, |path|, queue[1..], seen);
      ExpansionDiscovers(dist, current, path, queue[1..], seen, longer);
      NothingIsForgotten(dist, done, current, queue[1..], seen, longer);
      OrderedIsNearestFirst(Deepen(dist, seen, |path| + 1), done + {current}, longer, |path|);
    }

    /** A hop from the head of the queue to the target completes a walk that no other is shorter than. */
    lemma FoundIsShortest(from: S, to: S, dist: map<S, nat>, done: set<S>, queue: seq<(S, seq<Hop<S, E>>)>, event: E)
      requires queue != [] && Frontier(from, dist, done, queue) && PathsLead(from, queue)
      requires to !in dist && Edge(queue[0].0, event, to)
      ensures WalkBetween(from, to, queue[0].1 + [Hop(event, to)]) && Reachable(from, to)
      ensures forall p :: WalkBetween(from, to, p) ==> |queue[0].1| + 1 <= |p|
    {
      PopHead(dist, done, queue);
      NoShorterWalk(from, to, dist, done, |queue[0].1|);
      ExtendWalk(from, queue[0].0, queue[0].1, event, to);
    }

    /** Once the queue is empty, what has not been found cannot be reached. */
    lemma NothingLeft(from: S, to: S, dist: map<S, nat>, done: set<S>)
      requires Frontier(from, dist, done, []) && to !in dist
      ensures !Reachable(from, to)
    {
      var none: seq<(S, seq<Hop<S, E>>)> := [];
      forall v | v in dist ensures v in done {
        assert !Waiting(v, none);
      }
      NoWalk(from, to, dist, done);
    }

    /** Expanding the head of the queue keeps all that is known, and meets new states or shortens the queue. */
    lemma SearchGoesOn(from: S, dist: map<S, nat>, done: set<S>, queue: seq<(S, seq<Hop<S, E>>)>, seen: set<S>,
        longer: seq<(S, seq<Hop<S, E>>)>)
      requires queue != [] && Frontier(from, dist, done, queue) && PathsLead(from, queue) && dist.Keys <= seen
      requires forall t, x :: t in transitions && t.from == queue[0].0 && x in t.to ==> x in seen
      requires Expanded(queue[0].0, queue[0].1, seen - dist.Keys, queue[1..], longer)
      requires forall v :: v in seen ==> v in dist || Waiting(v, longer)
      ensures Frontier(from, Deepen(dist, seen, |queue[0].1| + 1), done + {queue[0].0}, longer)
      ensures PathsLead(from, longer)
      ensures |longer| >= |queue| ==> dist.Keys < seen
    {
      ExpansionKeepsFrontier(from, dist, done, queue, seen, longer);
      ExpansionPathsLead(from, queue, seen - dist.Keys, longer);
      if |longer| >= |queue| {
        assert longer[|queue| - 1].0 in seen - dist.Keys;
      }
    }

    /** Breadth-first search for the events and states that lead from `from` to `to`. */
    method ShortestPath(from: S, to: S) returns (r: Option<seq<Hop<S, E>>>)
      requires Indexed()
      ensures r.Some? ==> WalkBetween(from, to, r.value)
      ensures r.Some? ==> forall p :: WalkBetween(from, to, p) ==> |r.value| <= |p|
      ensures r.None? <==> !Reachable(from, to)
    {
      if from == to {
        ReachableSelf(from);
        return Some([]);
      }
      var visited := {from};
      var queue: seq<(S, seq<Hop<S, E>>)> := [(from, [])];
      ghost var dist: map<S, nat> := map[from := 0];
      ghost var done: set<S> := {};
      InitialFrontier(from);
      while queue != []
        invariant visited == dist.Keys && visited <= States() + {from} && to !in visited
        invariant Frontier(from, dist, done, queue)
        invariant PathsLead(from, queue)
        decreases States() + {from} - visited, |queue|
      {
        var (current, path) := queue[0];
        var found, seen, longer := Explore(current, to, path, visited, queue[1..]);
        if found.Some? {
          FoundIsShortest(from, to, dist, done, queue, found.value.event);
          return Some(path + [found.value]);
        }
        SearchGoesOn(from, dist, done, queue, seen, longer);
        visited, queue, dist, done := seen, longer, Deepen(dist, seen, |path| + 1), done + {current};
      }
      NothingLeft(from, to, dist, done);
      r := None;
    }

    // ---- Validation ---------------------------------------------------------------------

    /** There is a final state and every state can be reached from the initial one. */
    ghost predicate WellFormed() {
      finals != {} && forall s :: s in States() ==> Reachable(initial, s)
    }

    /** The faults of the first `n` states listed. */
    ghost function UnreachableAmong(listed: seq<S>, n: nat): seq<ValidationError<S>>
      requires n <= |listed|
    {
      if n == 0 then []
      else
        UnreachableAmong(listed, n - 1)
        + (if Reachable(initial, listed[n - 1]) then [] else [UnreachableState(listed[n - 1])])
    }

    /** The states that are neither initial nor among the reachable ones, in the order they are listed. */
    method FindUnreachable(reachable: set<S>, listed: seq<S>) returns (errors: seq<ValidationError<S>>)
      requires forall s :: s in reachable <==> Reachable(initial, s)
      requires forall s :: s in listed <==> s in States()
      requires forall i, j :: 0 <= i < j < |listed| ==> listed[i] != listed[j]
      ensures errors == UnreachableAmong(listed, |listed|)
      ensures forall i, j :: 0 <= i < j < |errors| ==> errors[i] != errors[j]
      ensures forall e :: e in errors <==>
                e.UnreachableState? && e.state in States() && e.state != initial && e.state !in reachable
    {
      ReachableSelf(initial);
      hide States, Reachable;
      errors := [];
      for i := 0 to |listed|
        invariant errors == UnreachableAmong(listed, i)
        invariant forall i, j :: 0 <= i < j < |errors| ==> errors[i] != errors[j]
        invariant forall e :: e in errors <==>
                    e.UnreachableState? && e.state in listed[..i] && e.state != initial && e.state !in reachable
      {
        var state := listed[i];
        assert listed[..i + 1] == listed[..i] + [state];
        if state != initial && state !in reachable {
          errors := errors + [UnreachableState(state)];
        }
      }
    }

    lemma NoErrorIsWellFormed(reachable: set<S>, errors: seq<ValidationError<S>>)
      requires forall s :: s in reachable <==> Reachable(initial, s)
      requires forall e :: e in errors <==> if e.NoFinalState? then finals == {}
                                            else e.state in States() && e.state != initial && e.state !in reachable
      ensures errors == [] <==> WellFormed()
      ensures forall s :: UnreachableState(s) in errors <==> s in States() && !Reachable(initial, s)
    {
      ReachableSelf(initial);
      hide States, Reachable;
      if errors == [] {
        assert NoFinalState !in errors;
        forall s | s in States() ensures Reachable(initial, s) {
          assert UnreachableState(s) !in errors;
        }
      } else {
        assert errors[0] in errors;
      }
    }

    /** `before` is the order of the states' type; faults are reported in it. */
    method Validate(before: (S, S) -> bool) returns (r: Result<(), seq<ValidationError<S>>>)
      requires Indexed() && IsOrder(before)
      ensures r.Ok? <==> WellFormed()
      ensures r.Err? ==>
                && (forall i, j :: 0 <= i < j < |r.error| ==> r.error[i] != r.error[j])
                && (NoFinalState in r.error <==> finals == {})
                && (forall s :: UnreachableState(s) in r.error <==> s in States() && !Reachable(initial, s))
      ensures r.Err? ==>
                exists listed :: && Lists(listed, States(), before)
                                 && r.error == (if finals == {} then [NoFinalState] else [])
                                               + UnreachableAmong(listed, |listed|)
    {
      hide IsOrder, States, Reachable, WellFormed, UnreachableAmong;
      var states := AllStates();
      var listed := Listing(states, before);
      Ascending(listed, states, before);
      var errors := FindErrors(listed);
      r := if errors == [] then Ok(()) else Err(errors);
    }

    lemma Ascending(listed: seq<S>, states: set<S>, before: (S, S) -> bool)
      requires IsOrder(before) && Lists(listed, states, before)
      ensures forall i, j :: 0 <= i < j < |listed| ==> listed[i] != listed[j]
    {
    }

    method FindErrors(listed: seq<S>) returns (errors: seq<ValidationError<S>>)
      requires Indexed() && forall s :: s in listed <==> s in States()
      requires forall i, j :: 0 <= i < j < |listed| ==> listed[i] != listed[j]
      ensures errors == [] <==> WellFormed()
      ensures forall i, j :: 0 <= i < j < |errors| ==> errors[i] != errors[j]
      ensures NoFinalState in errors <==> finals == {}
      ensures forall s :: UnreachableState(s) in errors <==> s in States() && !Reachable(initial, s)
      ensures errors == (if finals == {} then [NoFinalState] else []) + UnreachableAmong(listed, |listed|)
    {
      hide States, Reachable, WellFormed, UnreachableAmong;
      var missing := if finals == {} then [NoFinalState] else [];
      var reachable := ReachableFrom(initial);
      var unreachable := FindUnreachable(reachable, listed);
      errors := missing + unreachable;
      assert forall e :: e in errors <==> e in missing || e in unreachable;
      assert forall i :: |missing| <= i < |errors| ==>
               errors[i] == unreachable[i - |missing|] && errors[i] in unreachable;
      NoErrorIsWellFormed(reachable, errors);
    }
  }
}
