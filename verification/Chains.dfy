/** Chains of transitions: hard events that fire one another, and paths that are fired on purpose. */
module Chains {
  import opened Wrappers
  import opened Graphs
  import opened History
  import opened States
  import opened Protocol
  import opened Machines
  import opened Conformance
  import opened Refusals

  // ---- Hard chains end --------------------------------------------------------------------

  /** A hard event leads from `a` to `b`. */
  ghost predicate HardStep<S(!new), E(!new)>(g: TransitionGraph<S, E>, a: S, b: S)
    requires g.Indexed()
  {
    exists event :: g.Allowed(a, event).Some? && g.Allowed(a, event).value.1 == Hard && b in g.Allowed(a, event).value.0
  }

  /** No walk of hard events comes back to where it started. */
  ghost predicate HardAcyclic<S(!new), E(!new)>(g: TransitionGraph<S, E>)
    requires g.Indexed()
  {
    forall walk: seq<S> :: |walk| > 1 && Steps(walk, (a, b) => HardStep(g, a, b)) ==> walk[0] != walk[|walk| - 1]
  }

  /** The event is answered as a hard one and may lead to `b`, and arriving there does not terminate. */
  ghost predicate HardHop<S(!new), E(!new), P>(c: Config<S, E, P>, a: S, event: E, b: S)
    requires c.Valid()
  {
    c.MayMove(a, event, b) && c.graph.Allowed(a, event).value.1 == Hard && !(c.autoTerminate && c.graph.IsFinal(b))
  }

  /** The step a chain makes by itself, on the first hard event listed for `a`. */
  ghost predicate FiringStep<S(!new), E(!new), P>(c: Config<S, E, P>, a: S, b: S)
    requires c.Valid()
  {
    var hard := FirstHard(c.graph.EventsFor(a));
    hard.Some? && HardHop(c, a, hard.value, b)
  }

  ghost predicate Distinct<T>(s: seq<T>) {
    forall i, j :: 0 <= i < j < |s| ==> s[i] != s[j]
  }

  /** No walk of such steps meets a state twice. */
  ghost predicate NeverReturns<S(!new)>(follows: (S, S) -> bool, start: S) {
    forall walk: seq<S> :: walk != [] && walk[0] == start && Steps(walk, follows) ==> Distinct(walk)
  }

  /** A walk that meets a state twice has a loop in it. */
  lemma FindLoop<S>(follows: (S, S) -> bool, walk: seq<S>) returns (i: nat, j: nat)
    requires Steps(walk, follows) && !Distinct(walk)
    ensures i < j < |walk| && walk[i] == walk[j] && Steps(walk[i..j + 1], follows)
  {
    i, j :| 0 <= i < j < |walk| && walk[i] == walk[j];
    var loop := walk[i..j + 1];
    forall n | 0 < n < |loop| ensures follows(loop[n - 1], loop[n]) {
      assert loop[n - 1] == walk[i + n - 1] && loop[n] == walk[i + n];
    }
  }

  lemma AcyclicNeverReturns<S(!new), E(!new)>(g: TransitionGraph<S, E>, start: S)
    requires g.Indexed() && HardAcyclic(g)
    ensures NeverReturns((a, b) => HardStep(g, a, b), start)
  {
    hide HardStep;
    forall walk: seq<S> | walk != [] && walk[0] == start && Steps(walk, (a, b) => HardStep(g, a, b))
      ensures Distinct(walk)
    {
      if !Distinct(walk) {
        var i, j := FindLoop((a, b) => HardStep(g, a, b), walk);
        assert false;
      }
    }
  }

  lemma {:induction false} Pigeonhole<T>(s: seq<T>, holes: set<T>)
    requires Distinct(s) && forall x :: x in s ==> x in holes
    ensures |s| <= |holes|
  {
    if s != [] {
      var n := |s| - 1;
      assert forall x :: x in s[..n] ==> x in s && x != s[n];
      Pigeonhole(s[..n], holes - {s[n]});
    }
  }

  /** A transition after which the chain goes on was a hard hop to a state of the graph. */
  lemma ContinuedIsHop<S(!new), E(!new), P>(k: Machine<S, E, P>, w: World<S, E, P>, m: Monitor<S, E, P>, event: E,
      eventPayload: P)
    requires k.c.Valid() && Linked(k, w, m) && m.phase.Ready?
    ensures var (after, r) := k.Transit(w, event, eventPayload);
            r == Ok(HardContinue) ==>
              HardHop(k.c, m.current, event, after.state.current) && after.state.current in k.c.graph.States()
  {
    hide k.c.Accepts, k.c.Watch, k.c.graph.Indexed, k.c.graph.Allowed, k.c.graph.States, k.Transit, PushAll, Pushed;
    TransitFollows(k, w, m, event, eventPayload);
    var (after, r) := k.Transit(w, event, eventPayload);
    if r == Ok(HardContinue) {
      k.c.graph.AllowedIsEdge(m.current, event, after.state.current);
    }
  }

  /**
   Where steps of a kind never return, a chain that makes only such steps ends: with `walk` already
   walked, what fuel is left suffices for the states not yet visited.
   */
  lemma {:induction false} ChainEnds<S(!new), E(!new), P>(k: Machine<S, E, P>, w: World<S, E, P>, m: Monitor<S, E, P>,
      event: E, eventPayload: P, fuel: nat, follows: (S, S) -> bool, walk: seq<S>)
    requires k.c.Valid() && Linked(k, w, m) && m.phase.Ready?
    requires forall a, b :: FiringStep(k.c, a, b) ==> follows(a, b)
    requires forall b :: HardHop(k.c, m.current, event, b) ==> follows(m.current, b)
    requires walk != [] && walk[|walk| - 1] == m.current && Steps(walk, follows) && NeverReturns(follows, walk[0])
    requires forall x :: x in walk ==> x in k.c.graph.States()
    requires |walk| + fuel > |k.c.graph.States()|
    ensures k.DoTransition(w, event, eventPayload, fuel).1 != OutOfFuel
    decreases fuel
  {
    hide k.c.Accepts, k.c.Watch, k.c.graph.Indexed, k.c.graph.States, k.Transit, PushAll, Pushed, HardHop;
    Pigeonhole(walk, k.c.graph.States());
    var (after, r) := k.Transit(w, event, eventPayload);
    if r == Ok(HardContinue) {
      var cached := k.Cache(after);
      CachedAfterTransit(k, w, m, event, eventPayload);
      ContinuedIsHop(k, w, m, event, eventPayload);
      var next := k.HardEvent(cached.state.current);
      if next.Some? {
        ChainEnds(k, cached, k.c.Watch(cached.journal), next.value, cached.state.payload, fuel - 1, follows,
            walk + [after.state.current]);
      }
    }
  }

  /** Without a hard cycle, one event makes at most as many transitions as the graph has states. */
  lemma HardChainsEnd<S(!new), E(!new), P>(k: Machine<S, E, P>, w: World<S, E, P>, event: E, eventPayload: P)
    requires k.c.Valid() && HardAcyclic(k.c.graph)
    requires Linked(k, w, k.c.Watch(w.journal)) && k.c.Watch(w.journal).phase.Ready?
    ensures k.DoTransition(w, event, eventPayload, |k.c.graph.States()|).1 != OutOfFuel
  {
    hide k.c.Accepts, k.c.Watch, PushAll, Pushed, HardAcyclic, k.c.graph.Indexed;
    var g, s := k.c.graph, w.state.current;
    assert g.initial in g.States();
    if g.Allowed(s, event).Some? {
      g.AllowedIsScan(s, event);
      ScanFindsATransition(g.transitions, s, event);
      assert s in g.Sources(g.transitions);
      AcyclicNeverReturns(g, s);
      ChainEnds(k, w, k.c.Watch(w.journal), event, eventPayload, |g.States()|, (a, b) => HardStep(g, a, b), [s]);
    }
  }

  /** Fuel beyond what a chain needs makes no difference. */
  lemma {:induction false} MoreFuelIsHarmless<S(!new), E(!new), P>(k: Machine<S, E, P>, w: World<S, E, P>, event: E,
      eventPayload: P, fuel: nat, more: nat)
    requires k.c.Valid() && fuel <= more
    requires k.DoTransition(w, event, eventPayload, fuel).1 != OutOfFuel
    ensures k.DoTransition(w, event, eventPayload, more) == k.DoTransition(w, event, eventPayload, fuel)
    decreases fuel
  {
    hide k.Transit, k.HardEvent, k.c.graph.Indexed;
    var (after, r) := k.Transit(w, event, eventPayload);
    var cached := k.Cache(after);
    if r == Ok(HardContinue) && k.HardEvent(cached.state.current).Some? {
      MoreFuelIsHarmless(k, cached, k.HardEvent(cached.state.current).value, cached.state.payload, fuel - 1, more - 1);
    }
  }

  /** The hard event that is fired is the first one listed. */
  lemma {:induction false} FirstHardIsFirst<E>(labels: seq<(E, EventKind)>)
    ensures FirstHard(labels).Some? ==>
              exists i :: && 0 <= i < |labels| && labels[i] == (FirstHard(labels).value, Hard)
                          && forall j :: 0 <= j < i ==> labels[j].1 != Hard
    ensures FirstHard(labels).None? ==> forall l :: l in labels ==> l.1 != Hard
  {
    if labels != [] && labels[0].1 != Hard {
      FirstHardIsFirst(labels[1..]);
      if FirstHard(labels).Some? {
        var i :| && 0 <= i < |labels[1..]| && labels[1..][i] == (FirstHard(labels).value, Hard)
                 && forall j :: 0 <= j < i ==> labels[1..][j].1 != Hard;
        assert labels[i + 1] == (FirstHard(labels).value, Hard);
      }
    }
  }

  /** With unique events, the hard event that is fired next is answered as a hard event. */
  lemma HardEventIsHard<S(!new), E(!new), P>(k: Machine<S, E, P>, s: S)
    requires k.c.Valid() && UniqueEvents(k.c.graph.transitions) && k.HardEvent(s).Some?
    ensures var allowed := k.c.graph.Allowed(s, k.HardEvent(s).value);
            allowed.Some? && allowed.value.1 == Hard
  {
    var g := k.c.graph;
    FirstHardIsFirst(g.EventsFor(s));
    g.EventsForIsFilter(s);
    OutgoingComesFromATransition(g.transitions, s, (k.HardEvent(s).value, Hard));
    var t :| t in g.transitions && t.from == s && (t.event, t.kind) == (k.HardEvent(s).value, Hard);
    g.UniqueEventsAreAllowed(t);
  }

  /**
   With unique events, a chain that begins with a hard event ends in an error, in auto-termination,
   or in a state that no hard event leaves.
   */
  lemma {:induction false} HardChainEnding<S(!new), E(!new), P>(k: Machine<S, E, P>, w: World<S, E, P>, event: E,
      eventPayload: P, fuel: nat)
    requires k.c.Valid() && UniqueEvents(k.c.graph.transitions)
    requires Linked(k, w, k.c.Watch(w.journal)) && k.c.Watch(w.journal).phase.Ready?
    requires var allowed := k.c.graph.Allowed(w.state.current, event);
             allowed.Some? && allowed.value.1 == Hard
    ensures var (w', ending) := k.DoTransition(w, event, eventPayload, fuel);
            && (ending == OutOfFuel || ending == Failed || ending == Finished || ending == NoHardEvent)
            && (ending == Finished ==> k.c.autoTerminate && k.c.graph.IsFinal(w'.state.current))
            && (ending == NoHardEvent ==> forall l :: l in k.c.graph.EventsFor(w'.state.current) ==> l.1 != Hard)
    decreases fuel
  {
    hide k.c.Accepts, k.c.Watch, k.c.graph.Indexed, k.c.graph.Allowed, k.Transit, PushAll, Pushed, UniqueEvents;
    if fuel > 0 {
      var m := k.c.Watch(w.journal);
      var (after, r) := k.Transit(w, event, eventPayload);
      var cached := k.Cache(after);
      TransitFollows(k, w, m, event, eventPayload);
      CachedAfterTransit(k, w, m, event, eventPayload);
      var next := k.HardEvent(cached.state.current);
      FirstHardIsFirst(k.c.graph.EventsFor(cached.state.current));
      if r == Ok(HardContinue) && next.Some? {
        HardEventIsHard(k, cached.state.current);
        HardChainEnding(k, cached, next.value, cached.state.payload, fuel - 1);
      }
    }
  }

  /**
   A state's hard event does not fire whenever the state is entered: after a transition that completes
   without terminating, another one is attempted exactly when the transition was itself a hard one
   and the state entered has a hard event.
   */
  lemma HardEventFiresAfterHard<S(!new), E(!new), P>(k: Machine<S, E, P>, w: World<S, E, P>, event: E, eventPayload: P,
      fuel: nat)
    requires k.c.Valid() && fuel > 1
    requires Linked(k, w, k.c.Watch(w.journal)) && k.c.Watch(w.journal).phase.Ready?
    requires var r := k.Transit(w, event, eventPayload).1;
             r == Ok(Transitioned) || r == Ok(HardContinue)
    ensures var entered := k.Transit(w, event, eventPayload).0;
            var (w', _) := k.DoTransition(w, event, eventPayload, fuel);
            w'.journal != k.Cache(entered).journal <==>
            k.c.graph.Allowed(w.state.current, event).value.1 == Hard && k.HardEvent(entered.state.current).Some?
  {
    hide k.c.Accepts, k.c.Watch, k.c.graph.Indexed, k.c.graph.Allowed, k.Transit, PushAll, Pushed, k.HardEvent;
    var m := k.c.Watch(w.journal);
    var (entered, r) := k.Transit(w, event, eventPayload);
    var cached := k.Cache(entered);
    TransitFollows(k, w, m, event, eventPayload);
    CachedAfterTransit(k, w, m, event, eventPayload);
    if r == Ok(HardContinue) && k.HardEvent(cached.state.current).Some? {
      ListedEventIsAttempted(k, cached, cached.state.payload, fuel - 1);
    }
  }

  lemma ListedEventIsAttempted<S(!new), E(!new), P>(k: Machine<S, E, P>, w: World<S, E, P>, eventPayload: P, fuel: nat)
    requires k.c.Valid() && fuel > 0
    requires Linked(k, w, k.c.Watch(w.journal)) && k.c.Watch(w.journal).phase.Ready?
    requires k.HardEvent(w.state.current).Some?
    ensures |k.DoTransition(w, k.HardEvent(w.state.current).value, eventPayload, fuel).0.journal| > |w.journal|
  {
    hide k.c.Accepts, k.c.Watch, PushAll, Pushed, k.HardEvent, k.Transit;
    var event := k.HardEvent(w.state.current).value;
    var (after, r) := k.Transit(w, event, eventPayload);
    TransitFollows(k, w, k.c.Watch(w.journal), event, eventPayload);
    var cached := k.Cache(after);
    CachedAfterTransit(k, w, k.c.Watch(w.journal), event, eventPayload);
    if r == Ok(HardContinue) && k.HardEvent(cached.state.current).Some? {
      DoTransitionFollows(k, cached, k.c.Watch(cached.journal), k.HardEvent(cached.state.current).value,
          cached.state.payload, fuel - 1);
    }
  }

  // ---- Firing a path ----------------------------------------------------------------------

  /** Fires the events of a path one after the other, as long as each one moves the instance. */
  function Fire<S(==, !new), E(==, !new), P>(k: Machine<S, E, P>, w: World<S, E, P>, path: seq<Hop<S, E>>,
      eventPayload: P): (World<S, E, P>, bool)
    requires k.c.Valid()
    decreases |path|
  {
    if path == [] then (w, true)
    else
      var (after, r) := k.Transit(w, path[0].event, eventPayload);
      if r.Ok? && r.value != SoftSkipped then Fire(k, after, path[1..], eventPayload) else (after, false)
  }

  /** Asked about the path's events, the callbacks choose the path's states, and stores succeed. */
  ghost predicate Obliging<S(!new), E(!new), P>(k: Machine<S, E, P>, w: World<S, E, P>, path: seq<Hop<S, E>>,
      eventPayload: P)
    requires k.c.Valid()
    decreases |path|
  {
    path != [] ==>
      var asked := k.Ask(w, path[0].event, eventPayload);
      && k.env.storeSucceeds(asked.journal)
      && k.env.decide(asked.journal) == Move(path[0].state)
      && Obliging(k, k.Transit(w, path[0].event, eventPayload).0, path[1..], eventPayload)
  }

  /** Every hop goes where the first transition for its state and event may go. */
  ghost predicate Unshadowed<S(!new), E(!new), P>(c: Config<S, E, P>, start: S, path: seq<Hop<S, E>>)
    requires c.Valid()
  {
    path != [] ==> c.MayMove(start, path[0].event, path[0].state) && Unshadowed(c, path[0].state, path[1..])
  }

  /** With obliging callbacks, one attempt moves to the chosen state exactly when the graph allows it. */
  lemma ObligingTransit<S(!new), E(!new), P>(k: Machine<S, E, P>, w: World<S, E, P>, m: Monitor<S, E, P>, event: E,
      target: S, eventPayload: P)
    requires k.c.Valid() && !k.c.autoTerminate && Linked(k, w, m) && m.phase.Ready?
    requires var asked := k.Ask(w, event, eventPayload);
             k.env.storeSucceeds(asked.journal) && k.env.decide(asked.journal) == Move(target)
    ensures var (after, r) := k.Transit(w, event, eventPayload);
            && (r.Ok? && r.value != SoftSkipped <==> k.c.MayMove(m.current, event, target))
            && (r.Ok? && r.value != SoftSkipped ==>
                  && after.state.current == target
                  && Linked(k, after, k.c.Watch(after.journal)) && k.c.Watch(after.journal).phase.Ready?)
  {
    hide k.c.Accepts, k.c.Watch, k.c.Legal, k.c.Advance, k.Ask, k.Announce, k.Enter, k.Abort, k.Terminate, PushAll,
      Pushed, k.c.graph.Indexed, k.c.graph.Allowed;
    TransitFollows(k, w, m, event, eventPayload);
    var (after, r) := k.Transit(w, event, eventPayload);
    AfterTransit(k, w, m, event, after, r);
    CompletesExactlyWhen(k, w, event, eventPayload);
  }

  /** A path is fired to its end exactly when no hop is shadowed, and then leads where it says. */
  lemma {:induction false} FiringFollowsPath<S(!new), E(!new), P>(k: Machine<S, E, P>, w: World<S, E, P>,
      m: Monitor<S, E, P>, path: seq<Hop<S, E>>, eventPayload: P)
    requires k.c.Valid() && !k.c.autoTerminate && Linked(k, w, m) && m.phase.Ready?
    requires Obliging(k, w, path, eventPayload)
    ensures Fire(k, w, path, eventPayload).1 <==> Unshadowed(k.c, m.current, path)
    ensures Fire(k, w, path, eventPayload).1 ==>
              Fire(k, w, path, eventPayload).0.state.current == EndOf(m.current, path)
    decreases |path|
  {
    hide k.c.Accepts, k.c.Watch, k.Ask, k.Transit, PushAll, Pushed, k.c.graph.Indexed, k.c.MayMove;
    if path != [] {
      var (after, r) := k.Transit(w, path[0].event, eventPayload);
      ObligingTransit(k, w, m, path[0].event, path[0].state, eventPayload);
      if r.Ok? && r.value != SoftSkipped {
        FiringFollowsPath(k, after, k.c.Watch(after.journal), path[1..], eventPayload);
      }
    }
  }

  lemma {:induction false} UniqueWalksAreUnshadowed<S(!new), E(!new), P>(c: Config<S, E, P>, start: S,
      path: seq<Hop<S, E>>)
    requires c.Valid() && UniqueEvents(c.graph.transitions) && c.graph.IsWalk(start, path)
    ensures Unshadowed(c, start, path)
  {
    if path != [] {
      var g := c.graph;
      assert StateAt(start, path, 0) == start;
      assert g.Edge(start, path[0].event, path[0].state);
      var t :| t in g.transitions && t.from == start && t.event == path[0].event && path[0].state in t.to;
      g.UniqueEventsAreAllowed(t);
      forall i | 0 <= i < |path[1..]|
        ensures g.Edge(StateAt(path[0].state, path[1..], i), path[1..][i].event, path[1..][i].state)
      {
        assert StateAt(path[0].state, path[1..], i) == StateAt(start, path, i + 1);
      }
      UniqueWalksAreUnshadowed(c, path[0].state, path[1..]);
    }
  }

  /** An instance is between attempts, and its state is what its journal says. */
  ghost predicate IsReady<S(!new), E(!new), P>(c: Config<S, E, P>, w: World<S, E, P>)
    requires c.Valid()
  {
    c.Accepts(w.journal) && c.Watch(w.journal).phase.Ready? && Agrees(w.state, c.Watch(w.journal))
  }

  /** Each hop of the path completes, in the state it says. */
  ghost predicate FiresAlong<S(!new), E(!new), P>(k: Machine<S, E, P>, w: World<S, E, P>, path: seq<Hop<S, E>>,
      eventPayload: P)
    requires k.c.Valid()
    decreases |path|
  {
    path != [] ==>
      var (after, r) := k.Transit(w, path[0].event, eventPayload);
      && r.Ok? && r.value != SoftSkipped && after.state.current == path[0].state
      && FiresAlong(k, after, path[1..], eventPayload)
  }

  lemma {:induction false} FiringAlongEnds<S(!new), E(!new), P>(k: Machine<S, E, P>, w: World<S, E, P>,
      path: seq<Hop<S, E>>, eventPayload: P)
    requires k.c.Valid() && FiresAlong(k, w, path, eventPayload)
    ensures var (after, done) := Fire(k, w, path, eventPayload);
            done && after.state.current == EndOf(w.state.current, path)
    decreases |path|
  {
    hide k.Transit;
    if path != [] {
      FiringAlongEnds(k, k.Transit(w, path[0].event, eventPayload).0, path[1..], eventPayload);
    }
  }

  /** What a completed attempt adds to the journal, if it does not terminate the instance. */
  function HopLength<S(!new), E(!new), P>(c: Config<S, E, P>): nat {
    4 + (if c.persistent then 1 else 0) + (if c.listening then 1 else 0)
  }

  lemma HopTakes<S(!new), E(!new), P>(k: Machine<S, E, P>, w: World<S, E, P>, event: E, eventPayload: P)
    requires k.c.Valid() && !k.c.autoTerminate
    requires var r := k.Transit(w, event, eventPayload).1;
             r.Ok? && r.value != SoftSkipped
    ensures |k.Transit(w, event, eventPayload).0.journal| == |w.journal| + HopLength(k.c)
  {
    hide k.Abort, k.c.graph.Indexed, k.c.graph.Allowed, PushAll, Pushed;
  }

  lemma AskTakes<S(!new), E(!new), P>(k: Machine<S, E, P>, w: World<S, E, P>, event: E, eventPayload: P)
    ensures |k.Ask(w, event, eventPayload).journal| == |w.journal| + 2
  {
  }

  /** What to answer on the path, by the length of the journal, which was `base` before the first hop. */
  function Direction<S(!new), E(!new), P>(c: Config<S, E, P>, path: seq<Hop<S, E>>, base: nat, now: nat):
      TransitionResult<S, P>
  {
    if path == [] then Refuse(Unknown)
    else if now < base + HopLength(c) then Move(path[0].state)
    else Direction(c, path[1..], base + HopLength(c), now)
  }

  /** Callbacks that follow the path from when the journal has `base` effects, and stores that succeed. */
  function Escort<S(==, !new), E(==, !new), P>(c: Config<S, E, P>, path: seq<Hop<S, E>>, base: nat):
      Environment<S, E, P>
  {
    Environment(_ => c.payload, j => Direction(c, path, base, |j|), _ => None, _ => true)
  }

  /** From here on the callbacks answer as `Escort` does. */
  ghost predicate Escorts<S(!new), E(!new), P(!new)>(k: Machine<S, E, P>, path: seq<Hop<S, E>>, base: nat) {
    forall j: Journal<S, E, P> :: |j| >= base ==>
      k.env.storeSucceeds(j) && k.env.decide(j) == Direction(k.c, path, base, |j|)
  }

  lemma {:induction false} EscortFires<S(!new), E(!new), P(!new)>(k: Machine<S, E, P>, w: World<S, E, P>,
      path: seq<Hop<S, E>>, eventPayload: P)
    requires k.c.Valid() && !k.c.autoTerminate && IsReady(k.c, w)
    requires Unshadowed(k.c, w.state.current, path) && Escorts(k, path, |w.journal|)
    ensures Obliging(k, w, path, eventPayload) && FiresAlong(k, w, path, eventPayload)
    decreases |path|
  {
    hide k.c.Accepts, k.c.Watch, k.Ask, k.Transit, PushAll, Pushed, k.c.graph.Indexed, k.c.MayMove;
    if path != [] {
      var asked := k.Ask(w, path[0].event, eventPayload);
      var after := k.Transit(w, path[0].event, eventPayload).0;
      AskTakes(k, w, path[0].event, eventPayload);
      ObligingTransit(k, w, k.c.Watch(w.journal), path[0].event, path[0].state, eventPayload);
      HopTakes(k, w, path[0].event, eventPayload);
      EscortFires(k, after, path[1..], eventPayload);
    }
  }

  lemma {:induction false} FiringAlongIsUnshadowed<S(!new), E(!new), P>(k: Machine<S, E, P>, w: World<S, E, P>,
      path: seq<Hop<S, E>>, eventPayload: P)
    requires k.c.Valid() && !k.c.autoTerminate && IsReady(k.c, w) && FiresAlong(k, w, path, eventPayload)
    ensures Unshadowed(k.c, w.state.current, path)
    decreases |path|
  {
    hide k.c.Accepts, k.c.Watch, k.Ask, k.Transit, PushAll, Pushed, k.c.graph.Indexed, k.c.MayMove;
    if path != [] {
      var m := k.c.Watch(w.journal);
      var (after, r) := k.Transit(w, path[0].event, eventPayload);
      TransitFollows(k, w, m, path[0].event, eventPayload);
      AfterTransit(k, w, m, path[0].event, after, r);
      CompletesExactlyWhen(k, w, path[0].event, eventPayload);
      FiringAlongIsUnshadowed(k, after, path[1..], eventPayload);
    }
  }

  /**
   There are callbacks that fire a path from an instance that is ready, each hop to the state it names,
   exactly when no hop is shadowed.
   */
  lemma PathFiresExactlyWhen<S(!new), E(!new), P(!new)>(c: Config<S, E, P>, w: World<S, E, P>, path: seq<Hop<S, E>>,
      eventPayload: P)
    requires c.Valid() && !c.autoTerminate && IsReady(c, w)
    ensures (exists env: Environment<S, E, P> :: FiresAlong(Machine(c, env), w, path, eventPayload)) <==>
            Unshadowed(c, w.state.current, path)
  {
    hide c.Accepts, c.Watch, PushAll, c.graph.Indexed, FiresAlong, Unshadowed;
    if Unshadowed(c, w.state.current, path) {
      var env: Environment<S, E, P> := Escort(c, path, |w.journal|);
      EscortFires(Machine(c, env), w, path, eventPayload);
    }
    forall env: Environment<S, E, P> | FiresAlong(Machine(c, env), w, path, eventPayload)
      ensures Unshadowed(c, w.state.current, path)
    {
      FiringAlongIsUnshadowed(Machine(c, env), w, path, eventPayload);
    }
  }

  /**
   On a graph with unique events there are callbacks with which any walk - the shortest path to a
   state, say - is fired from an instance that is ready, and ends in its last state.
   */
  lemma WalksCanBeFired<S(!new), E(!new), P(!new)>(c: Config<S, E, P>, w: World<S, E, P>, target: S,
      path: seq<Hop<S, E>>, eventPayload: P)
    returns (k: Machine<S, E, P>)
    requires c.Valid() && !c.autoTerminate && UniqueEvents(c.graph.transitions) && IsReady(c, w)
    requires c.graph.WalkBetween(w.state.current, target, path)
    ensures k.c == c && Obliging(k, w, path, eventPayload) && FiresAlong(k, w, path, eventPayload)
    ensures var (after, done) := Fire(k, w, path, eventPayload);
            done && after.state.current == target
  {
    UniqueWalksAreUnshadowed(c, w.state.current, path);
    var env: Environment<S, E, P> := Escort(c, path, |w.journal|);
    k := Machine(c, env);
    hide c.Accepts, c.Watch, PushAll, c.graph.Indexed, FiresAlong, Obliging, Unshadowed, Fire;
    EscortFires(k, w, path, eventPayload);
    FiringAlongEnds(k, w, path, eventPayload);
  }

  /**
   Unique events are needed. Here the only shortest path from 0 to 2, the one that breadth-first search
   returns, is the second transition, which the first one shadows: whatever the callbacks choose, its
   event does not lead to 2.
   */
  lemma ShadowedEdge<P>(k: Machine<int, int, P>, w: World<int, int, P>, eventPayload: P)
    requires k.c.Valid() && w.state.current == 0
    requires k.c.graph.transitions == [Transition(0, [1], 7, Normal), Transition(0, [2], 7, Normal)]
    ensures k.c.graph.WalkBetween(0, 2, [Hop(7, 2)])
    ensures forall path: seq<Hop<int, int>> :: k.c.graph.WalkBetween(0, 2, path) && |path| <= 1 ==> path == [Hop(7, 2)]
    ensures Fire(k, w, [Hop(7, 2)], eventPayload).0.state.current != 2
  {
    ShadowedPath(k.c.graph);
    k.c.graph.AllowedIsScan(0, 7);
    assert Scan(k.c.graph.transitions, 0, 7) == Some(([1], Normal));
    hide k.Ask, k.Transit, k.c.graph.Indexed, k.c.graph.Allowed, k.c.graph.WalkBetween;
    if IsRefused(k, w, 7, eventPayload) {
      RefusedStays(k, w, 7, eventPayload);
    } else {
      CompletesExactlyWhen(k, w, 7, eventPayload);
    }
  }

  lemma ShadowedPath(g: TransitionGraph<int, int>)
    requires g.transitions == [Transition(0, [1], 7, Normal), Transition(0, [2], 7, Normal)]
    ensures g.WalkBetween(0, 2, [Hop(7, 2)])
    ensures forall path: seq<Hop<int, int>> :: g.WalkBetween(0, 2, path) && |path| <= 1 ==> path == [Hop(7, 2)]
  {
    var t := g.transitions[1];
    assert t in g.transitions && 2 in t.to;
    assert g.Edge(0, 7, 2);
    forall path: seq<Hop<int, int>> | g.WalkBetween(0, 2, path) && |path| <= 1 ensures path == [Hop(7, 2)] {
      assert |path| == 1 && g.Edge(StateAt(0, path, 0), path[0].event, path[0].state);
    }
  }

  lemma RefusedStays<S(!new), E(!new), P>(k: Machine<S, E, P>, w: World<S, E, P>, event: E, eventPayload: P)
    requires k.c.Valid() && IsRefused(k, w, event, eventPayload)
    ensures k.Transit(w, event, eventPayload).0.state.current == w.state.current
  {
    hide k.c.graph.Indexed, k.c.graph.Allowed;
  }
}
