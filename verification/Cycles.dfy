/** When chains of hard events end: exactly when no loop of firing hard events can be entered. */
module Cycles {
  import opened Wrappers
  import opened Graphs
  import opened History
  import opened States
  import opened Protocol
  import opened Machines
  import opened Conformance
  import opened Runs
  import opened Refusals
  import opened Chains

  // ---- Where an instance can be -----------------------------------------------------------

  /** Arriving in `s` does not end the instance for good: it lives, or can be recovered there. */
  predicate GoesOn<S(!new), E(!new), P>(c: Config<S, E, P>, s: S) {
    c.autoTerminate && !c.persistent ==> !c.graph.IsFinal(s)
  }

  /** The graph allows the move, and the instance goes on from its target. */
  ghost predicate LiveMove<S(!new), E(!new), P>(c: Config<S, E, P>, a: S, event: E, b: S)
    requires c.Valid()
  {
    c.MayMove(a, event, b) && GoesOn(c, b)
  }

  ghost predicate LiveStep<S(!new), E(!new), P>(c: Config<S, E, P>, a: S, b: S)
    requires c.Valid()
  {
    exists event :: LiveMove(c, a, event, b)
  }

  /** A walk from the initial state along moves that the instance goes on from. */
  ghost predicate LiveWalk<S(!new), E(!new), P>(c: Config<S, E, P>, walk: seq<S>)
    requires c.Valid()
  {
    && walk != [] && walk[0] == c.graph.initial
    && forall i :: 0 < i < |walk| ==> LiveStep(c, walk[i - 1], walk[i])
  }

  ghost predicate Live<S(!new), E(!new), P>(c: Config<S, E, P>, s: S)
    requires c.Valid()
  {
    exists walk :: LiveWalk(c, walk) && walk[|walk| - 1] == s
  }

  lemma InitialIsLive<S(!new), E(!new), P>(c: Config<S, E, P>)
    requires c.Valid()
    ensures Live(c, c.graph.initial)
  {
    assert LiveWalk(c, [c.graph.initial]);
  }

  lemma LiveNext<S(!new), E(!new), P>(c: Config<S, E, P>, a: S, event: E, b: S)
    requires c.Valid() && Live(c, a) && LiveMove(c, a, event, b)
    ensures Live(c, b)
  {
    hide LiveMove;
    var walk :| LiveWalk(c, walk) && walk[|walk| - 1] == a;
    assert LiveStep(c, a, b);
    assert LiveWalk(c, walk + [b]);
  }

  lemma FiringStepIsLive<S(!new), E(!new), P>(c: Config<S, E, P>, a: S, b: S)
    requires c.Valid() && Live(c, a) && FiringStep(c, a, b)
    ensures Live(c, b)
  {
    LiveNext(c, a, FirstHard(c.graph.EventsFor(a)).value, b);
  }

  /** An instance that may still act is in a live state, and so is what it could be recovered to. */
  ghost predicate StandsLive<S(!new), E(!new), P>(c: Config<S, E, P>, m: Monitor<S, E, P>)
    requires c.Valid()
  {
    && (!m.moved || GoesOn(c, m.current) ==> Live(c, m.current))
    && (m.stored.Some? ==> c.persistent && Live(c, m.stored.value.0))
  }

  lemma MoveStandsLive<S(!new), E(!new), P>(c: Config<S, E, P>, m: Monitor<S, E, P>, event: E, target: S)
    requires c.Valid() && StandsLive(c, m) && c.TracksFinals(m) && c.MayMove(m.current, event, target)
    requires m.phase.Asked? || m.phase.Saved?
    ensures GoesOn(c, target) ==> Live(c, target)
  {
    hide Live, c.MayMove;
    if GoesOn(c, target) {
      LiveNext(c, m.current, event, target);
    }
  }

  lemma StepStandsLive<S(!new), E(!new), P>(c: Config<S, E, P>, m: Monitor<S, E, P>, x: Effect<S, E, P>)
    requires c.Valid() && c.TracksStore(m) && c.TracksFinals(m) && c.Legal(m, x) && StandsLive(c, m)
    ensures StandsLive(c, c.Advance(m, x))
  {
    hide Live, c.MayMove, c.graph.Indexed;
    if x.Committed? || x.Stored? {
      MoveStandsLive(c, m, m.phase.event, x.state);
    } else if x.Born? || x.Seeded? {
      InitialIsLive(c);
    }
  }

  lemma {:induction false} AcceptedStandsLive<S(!new), E(!new), P>(c: Config<S, E, P>, j: Journal<S, E, P>)
    requires c.Valid() && c.Accepts(j)
    ensures StandsLive(c, c.Watch(j))
  {
    hide Live, c.Legal, c.Advance;
    InitialIsLive(c);
    if j != [] {
      AcceptedStandsLive(c, j[..|j| - 1]);
      c.AcceptedIsSane(j[..|j| - 1]);
      StepStandsLive(c, c.Watch(j[..|j| - 1]), j[|j| - 1]);
    }
  }

  lemma ReadyIsLive<S(!new), E(!new), P>(k: Machine<S, E, P>, w: World<S, E, P>)
    requires k.c.Valid() && Linked(k, w, k.c.Watch(w.journal)) && k.c.Watch(w.journal).phase.Ready?
    ensures Live(k.c, w.state.current)
  {
    hide k.c.Accepts, k.c.Watch, Live, PushAll, Pushed;
    AcceptedStandsLive(k.c, w.journal);
    LinkedIsSane(k, w, k.c.Watch(w.journal));
  }

  // ---- Without a trap, every action ends ----------------------------------------------------

  /** Firing steps that come back to where they started. */
  ghost predicate FiringLoop<S(!new), E(!new), P>(c: Config<S, E, P>, loop: seq<S>)
    requires c.Valid()
  {
    && |loop| > 1 && loop[0] == loop[|loop| - 1]
    && forall i :: 0 < i < |loop| ==> FiringStep(c, loop[i - 1], loop[i])
  }

  /** Some loop of firing hard events can be entered. */
  ghost predicate HasTrap<S(!new), E(!new), P>(c: Config<S, E, P>)
    requires c.Valid()
  {
    exists loop :: FiringLoop(c, loop) && Live(c, loop[0])
  }

  /** In a graph without a trap, firing steps from a live state never return. */
  lemma LiveNeverReturns<S(!new), E(!new), P>(c: Config<S, E, P>, start: S)
    requires c.Valid() && !HasTrap(c) && Live(c, start)
    ensures NeverReturns((a, b) => FiringStep(c, a, b), start)
  {
    hide Live, FiringStep;
    forall walk: seq<S> | walk != [] && walk[0] == start && Steps(walk, (a, b) => FiringStep(c, a, b))
      ensures Distinct(walk)
    {
      if !Distinct(walk) {
        var i, j := FindLoop((a, b) => FiringStep(c, a, b), walk);
        WalkStaysLive(c, walk, i);
        assert false;
      }
    }
  }

  lemma {:induction false} WalkStaysLive<S(!new), E(!new), P>(c: Config<S, E, P>, walk: seq<S>, i: nat)
    requires c.Valid() && walk != [] && Live(c, walk[0]) && i < |walk|
    requires Steps(walk, (a, b) => FiringStep(c, a, b))
    ensures Live(c, walk[i])
  {
    hide Live, FiringStep;
    if i > 0 {
      WalkStaysLive(c, walk, i - 1);
      FiringStepIsLive(c, walk[i - 1], walk[i]);
    }
  }

  /** Without a trap, one event makes at most one transition more than the graph has states. */
  lemma UntrappedChainEnds<S(!new), E(!new), P>(k: Machine<S, E, P>, w: World<S, E, P>, event: E, eventPayload: P)
    requires k.c.Valid() && !HasTrap(k.c)
    requires Linked(k, w, k.c.Watch(w.journal)) && k.c.Watch(w.journal).phase.Ready?
    ensures k.DoTransition(w, event, eventPayload, |k.c.graph.States()| + 1).1 != OutOfFuel
  {
    hide k.c.Accepts, k.c.Watch, k.Transit, k.c.graph.States, k.c.graph.Indexed, PushAll, Pushed, HasTrap, Live,
      k.HardEvent, HardHop;
    var (after, r) := k.Transit(w, event, eventPayload);
    var cached := k.Cache(after);
    var m := k.c.Watch(cached.journal);
    CachedAfterTransit(k, w, k.c.Watch(w.journal), event, eventPayload);
    ContinuedIsHop(k, w, k.c.Watch(w.journal), event, eventPayload);
    var next := k.HardEvent(cached.state.current);
    if r == Ok(HardContinue) && next.Some? {
      ReadyIsLive(k, cached);
      LiveNeverReturns(k.c, cached.state.current);
      HardEventIsFirstHard(k, cached.state.current);
      ChainEnds(k, cached, m, next.value, cached.state.payload, |k.c.graph.States()|,
          (a, b) => FiringStep(k.c, a, b), [cached.state.current]);
    }
  }

  lemma HardEventIsFirstHard<S(!new), E(!new), P>(k: Machine<S, E, P>, s: S)
    requires k.c.Valid()
    ensures k.HardEvent(s) == FirstHard(k.c.graph.EventsFor(s))
  {
  }

  lemma StartedEnds<S(!new), E(!new), P>(k: Machine<S, E, P>, w: World<S, E, P>)
    requires k.c.Valid() && !HasTrap(k.c) && Linked(k, w, k.c.Watch(w.journal))
    requires k.c.Watch(w.journal).phase.Ready? && k.c.Watch(w.journal).pending == 0
    ensures k.Started(w, |k.c.graph.States()| + 1).1 != OutOfFuel
  {
    hide k.c.Accepts, k.c.Watch, k.DoTransition, PushAll, Pushed, HasTrap, k.c.graph.Indexed;
    var timed := if k.c.timer then k.Emit(w, Scheduled) else w;
    if k.c.timer {
      ScheduleFollows(k, w, k.c.Watch(w.journal));
    }
    var hard := k.HardEvent(timed.state.current);
    if hard.Some? {
      UntrappedChainEnds(k, timed, hard.value, timed.state.payload);
    }
  }

  lemma TickEnds<S(!new), E(!new), P>(k: Machine<S, E, P>, w: World<S, E, P>)
    requires k.c.Valid() && !HasTrap(k.c) && Linked(k, w, k.c.Watch(w.journal))
    requires k.c.Watch(w.journal).phase.Ready? && k.c.Watch(w.journal).pending > 0
    ensures k.HandleTimerTick(k.Emit(w, Ticked), |k.c.graph.States()| + 1).1 != OutOfFuel
  {
    hide k.c.Accepts, k.c.Watch, k.DoTransition, PushAll, Pushed, HasTrap, k.c.graph.Indexed;
    TickFollows(k, w, k.c.Watch(w.journal));
    var ticked := k.Emit(w, Ticked);
    var polled := k.Call(ticked, OnTimer(ticked.state.current, ticked.state.payload));
    var answer := k.env.poll(polled.journal);
    if answer.Some? {
      UntrappedChainEnds(k, polled, answer.value.0, answer.value.1);
    }
  }

  lemma BeginningEnds<S(!new), E(!new), P>(k: Machine<S, E, P>, w: World<S, E, P>, payload: P)
    requires k.c.Valid() && !HasTrap(k.c) && k.c.Accepts(w.journal)
    ensures k.Started(k.Incarnate(w, payload).(up := true), |k.c.graph.States()| + 1).1 != OutOfFuel
  {
    hide k.c.Accepts, k.c.Watch, k.Started, k.Incarnate, PushAll, Pushed, HasTrap, k.c.graph.Indexed;
    IncarnateFollows(k, w, payload);
    StartedEnds(k, k.Incarnate(w, payload).(up := true));
  }

  /** Without a trap, every action of every run is performed to its end. */
  lemma EveryActionEnds<S(!new), E(!new), P>(k: Machine<S, E, P>, steps: seq<Step<E, P>>, action: Action<E, P>)
    requires k.c.Valid() && !HasTrap(k.c) && k.Enabled(k.Run(steps), action)
    ensures k.Perform(k.Run(steps), action, |k.c.graph.States()| + 1).1 != OutOfFuel
  {
    hide k.c.Accepts, k.c.Watch, k.DoTransition, k.HandleTimerTick, k.Run, k.Started, k.Incarnate, k.Seed, k.Terminate,
      k.Stopped, PushAll, Pushed, HasTrap, k.c.graph.Indexed, Coherent;
    EveryRunIsSafe(k, steps);
    var w := k.Run(steps);
    match action {
      case Launch(payload) =>
        if k.c.supervised { SeedFollows(k, w); }
        BeginningEnds(k, if k.c.supervised then k.Seed(w) else w, payload);
      case Restart => BeginningEnds(k, w, k.c.payload);
      case Deliver(TransitionMsg(event, payload)) => UntrappedChainEnds(k, w, event, payload);
      case Deliver(TimerTickMsg) => TickEnds(k, w);
      case _ =>
    }
  }

  // ---- Following a plan into a trap ---------------------------------------------------------

  /** A live walk from the initial state, the events that make its moves, and the loop it leads to. */
  datatype Plan<S, E> = Plan(walk: seq<S>, events: seq<E>, loop: seq<S>)

  ghost predicate LeadsIntoTrap<S(!new), E(!new), P>(c: Config<S, E, P>, plan: Plan<S, E>)
    requires c.Valid()
  {
    && |plan.walk| == |plan.events| + 1 && plan.walk[0] == c.graph.initial
    && (forall i :: 0 <= i < |plan.events| ==> LiveMove(c, plan.walk[i], plan.events[i], plan.walk[i + 1]))
    && FiringLoop(c, plan.loop) && plan.walk[|plan.events|] == plan.loop[0]
  }

  /** A live walk, with the events that make its moves. */
  lemma {:induction false} EventsOfWalk<S(!new), E(!new), P>(c: Config<S, E, P>, walk: seq<S>) returns (events: seq<E>)
    requires c.Valid() && LiveWalk(c, walk)
    ensures |walk| == |events| + 1
    ensures forall i :: 0 <= i < |events| ==> LiveMove(c, walk[i], events[i], walk[i + 1])
  {
    hide LiveMove;
    events := [];
    var n := |walk| - 1;
    if n > 0 {
      var shorter := EventsOfWalk(c, walk[..n]);
      assert LiveStep(c, walk[n - 1], walk[n]);
      var event :| LiveMove(c, walk[n - 1], event, walk[n]);
      events := shorter + [event];
    }
  }

  lemma TrapHasPlan<S(!new), E(!new), P>(c: Config<S, E, P>) returns (plan: Plan<S, E>)
    requires c.Valid() && HasTrap(c)
    ensures LeadsIntoTrap(c, plan)
  {
    hide LiveMove, FiringStep;
    var loop :| FiringLoop(c, loop) && Live(c, loop[0]);
    var walk :| LiveWalk(c, walk) && walk[|walk| - 1] == loop[0];
    var events := EventsOfWalk(c, walk);
    plan := Plan(walk, events, loop);
  }

  /** The last position of `s`. */
  function LastAt<S(==)>(states: seq<S>, s: S): (i: nat)
    requires s in states
    ensures i < |states| && states[i] == s && forall j :: i < j < |states| ==> states[j] != s
  {
    if states[|states| - 1] == s then |states| - 1 else LastAt(states[..|states| - 1], s)
  }

  predicate OnPlan<S(==), E>(plan: Plan<S, E>, s: S) {
    s in plan.walk || s in plan.loop
  }

  /** How many moves of the plan are left before the loop. */
  function Distance<S(==), E>(plan: Plan<S, E>, s: S): nat
    requires OnPlan(plan, s)
  {
    if s in plan.loop then 0 else |plan.walk| - LastAt(plan.walk, s)
  }

  /** The state after `s` on the loop. */
  function Around<S(==)>(loop: seq<S>, s: S): S
    requires |loop| > 1 && s in loop
  {
    loop[if LastAt(loop, s) + 1 < |loop| then LastAt(loop, s) + 1 else 1]
  }

  /** Where the plan goes from `s` on `event`: on from the last visit to `s`, and around the loop. */
  function Target<S(!new), E(==, !new), P>(c: Config<S, E, P>, plan: Plan<S, E>, s: S, event: E): Option<S>
    requires c.Valid() && LeadsIntoTrap(c, plan)
  {
    if s in plan.loop then
      if FirstHard(c.graph.EventsFor(s)) == Some(event) then Some(Around(plan.loop, s)) else None
    else if s in plan.walk then
      var i := LastAt(plan.walk, s);
      assert plan.walk[|plan.events|] in plan.loop;
      if plan.events[i] == event then Some(plan.walk[i + 1]) else None
    else None
  }

  /** The decision of on_transition, asked at the end of the journal. */
  function Steer<S(!new), E(==, !new), P>(c: Config<S, E, P>, plan: Plan<S, E>,
      j: Journal<S, E, P>): TransitionResult<S, P>
    requires c.Valid() && LeadsIntoTrap(c, plan)
  {
    if j != [] && j[|j| - 1].OnTransition? && Target(c, plan, j[|j| - 1].from, j[|j| - 1].event).Some?
    then Move(Target(c, plan, j[|j| - 1].from, j[|j| - 1].event).value)
    else Refuse(Unknown)
  }

  /** Callbacks that follow the plan and refuse everything else; every store succeeds. */
  function Guide<S(!new), E(==, !new), P>(c: Config<S, E, P>, plan: Plan<S, E>): Environment<S, E, P>
    requires c.Valid() && LeadsIntoTrap(c, plan)
  {
    Environment(_ => c.payload, j => Steer(c, plan, j), _ => None, _ => true)
  }

  lemma TargetIsNearer<S(!new), E(!new), P>(c: Config<S, E, P>, plan: Plan<S, E>, s: S, event: E)
    requires c.Valid() && LeadsIntoTrap(c, plan) && OnPlan(plan, s) && Target(c, plan, s, event).Some?
    ensures var target := Target(c, plan, s, event).value;
            && LiveMove(c, s, event, target) && OnPlan(plan, target)
            && Distance(plan, target) <= Distance(plan, s)
            && (s in plan.loop ==> target in plan.loop && HardHop(c, s, event, target))
            && (s !in plan.loop ==> Distance(plan, target) < Distance(plan, s))
  {
    hide LiveMove, HardHop;
    if s in plan.loop {
      AroundIsFired(c, plan.loop, s);
      HardHopIsLive(c, s, event, Around(plan.loop, s));
    } else {
      var i := LastAt(plan.walk, s);
      assert plan.walk[|plan.events|] in plan.loop;
      assert LiveMove(c, plan.walk[i], plan.events[i], plan.walk[i + 1]);
      assert LastAt(plan.walk, plan.walk[i + 1]) >= i + 1;
    }
  }

  lemma AroundIsFired<S(!new), E(!new), P>(c: Config<S, E, P>, loop: seq<S>, s: S)
    requires c.Valid() && FiringLoop(c, loop) && s in loop
    ensures Around(loop, s) in loop && FiringStep(c, s, Around(loop, s))
  {
    hide FiringStep;
    var i := LastAt(loop, s);
    if i + 1 < |loop| {
      assert FiringStep(c, loop[i], loop[i + 1]);
    } else {
      assert FiringStep(c, loop[0], loop[1]);
    }
  }

  lemma HardHopIsLive<S(!new), E(!new), P>(c: Config<S, E, P>, a: S, event: E, b: S)
    requires c.Valid() && HardHop(c, a, event, b)
    ensures LiveMove(c, a, event, b)
  {
  }

  /** A machine whose callbacks follow the plan. */
  ghost predicate Guided<S(!new), E(!new), P>(k: Machine<S, E, P>, plan: Plan<S, E>) {
    k.c.Valid() && LeadsIntoTrap(k.c, plan) && k.env == Guide(k.c, plan)
  }

  /** An attempt of a guided instance goes where the plan says, and nowhere else. */
  lemma GuidedTransit<S(!new), E(!new), P>(k: Machine<S, E, P>, plan: Plan<S, E>, w: World<S, E, P>,
      m: Monitor<S, E, P>, event: E, eventPayload: P)
    requires Guided(k, plan) && Linked(k, w, m) && m.phase.Ready? && OnPlan(plan, m.current)
    ensures var (after, r) := k.Transit(w, event, eventPayload);
            match Target(k.c, plan, m.current, event)
            case None => (r.Err? || r == Ok(SoftSkipped)) && after.state.current == m.current
            case Some(target) =>
              && r.Ok? && r.value != SoftSkipped && after.state.current == target
              && (m.current in plan.loop ==> r == Ok(HardContinue))
              && (r == Ok(AutoTerminate) ==> k.c.persistent)
  {
    hide k.c.Accepts, k.c.Watch, k.c.graph.Indexed, k.c.graph.Allowed, k.Transit, PushAll, Pushed, Target, OnPlan,
      Distance, LeadsIntoTrap;
    GuidedDecision(k, plan, w, event, eventPayload);
    TransitFollows(k, w, m, event, eventPayload);
    CompletesExactlyWhen(k, w, event, eventPayload);
    if Target(k.c, plan, m.current, event).Some? {
      TargetIsNearer(k.c, plan, m.current, event);
    }
  }

  lemma GuidedDecision<S(!new), E(!new), P>(k: Machine<S, E, P>, plan: Plan<S, E>, w: World<S, E, P>, event: E,
      eventPayload: P)
    requires Guided(k, plan)
    ensures var asked := k.Ask(w, event, eventPayload).journal;
            && k.env.storeSucceeds(asked)
            && k.env.decide(asked) ==
               match Target(k.c, plan, w.state.current, event)
               case None => Refuse(Unknown)
               case Some(target) => Move(target)
  {
    hide Target, LeadsIntoTrap;
  }

  /** On the loop, no fuel ends the chain. */
  lemma {:induction false} LoopNeverEnds<S(!new), E(!new), P>(k: Machine<S, E, P>, plan: Plan<S, E>, w: World<S, E, P>,
      eventPayload: P, fuel: nat)
    requires Guided(k, plan) && Linked(k, w, k.c.Watch(w.journal)) && k.c.Watch(w.journal).phase.Ready?
    requires w.state.current in plan.loop && k.HardEvent(w.state.current).Some?
    ensures k.DoTransition(w, k.HardEvent(w.state.current).value, eventPayload, fuel).1 == OutOfFuel
    decreases fuel
  {
    hide k.c.Accepts, k.c.Watch, k.c.graph.Indexed, k.Transit, PushAll, Pushed, HardHop, LeadsIntoTrap;
    if fuel > 0 {
      var event := k.HardEvent(w.state.current).value;
      var cached := k.Cache(k.Transit(w, event, eventPayload).0);
      GuidedTransit(k, plan, w, k.c.Watch(w.journal), event, eventPayload);
      CachedAfterTransit(k, w, k.c.Watch(w.journal), event, eventPayload);
      TargetIsNearer(k.c, plan, w.state.current, event);
      LoopHasHardEvent(k, plan, cached.state.current);
      LoopNeverEnds(k, plan, cached, cached.state.payload, fuel - 1);
    }
  }

  lemma LoopHasHardEvent<S(!new), E(!new), P>(k: Machine<S, E, P>, plan: Plan<S, E>, s: S)
    requires k.c.Valid() && LeadsIntoTrap(k.c, plan) && s in plan.loop
    ensures k.HardEvent(s).Some? && Target(k.c, plan, s, k.HardEvent(s).value).Some?
  {
    AroundIsFired(k.c, plan.loop, s);
  }

  /** A chain that ends has not left the plan, nor gone back on it; it halts only if it went on. */
  lemma {:induction false} ChainStaysOnPlan<S(!new), E(!new), P>(k: Machine<S, E, P>, plan: Plan<S, E>,
      w: World<S, E, P>, event: E, eventPayload: P, fuel: nat)
    requires Guided(k, plan) && Linked(k, w, k.c.Watch(w.journal)) && k.c.Watch(w.journal).phase.Ready?
    requires OnPlan(plan, w.state.current)
    ensures var (w', ending) := k.DoTransition(w, event, eventPayload, fuel);
            ending != OutOfFuel ==>
              && OnPlan(plan, w'.state.current)
              && Distance(plan, w'.state.current) <= Distance(plan, w.state.current)
              && (w.state.current !in plan.loop && Target(k.c, plan, w.state.current, event).Some? ==>
                    Distance(plan, w'.state.current) < Distance(plan, w.state.current))
              && (ending == Finished ==>
                    k.c.persistent && Distance(plan, w'.state.current) < Distance(plan, w.state.current))
    decreases fuel
  {
    hide k.c.Accepts, k.c.Watch, k.c.graph.Indexed, k.Transit, PushAll, Pushed, LeadsIntoTrap, k.HardEvent, OnPlan,
      Distance, Target;
    if fuel > 0 {
      var m := k.c.Watch(w.journal);
      var (after, r) := k.Transit(w, event, eventPayload);
      var cached := k.Cache(after);
      GuidedTransit(k, plan, w, m, event, eventPayload);
      CachedAfterTransit(k, w, m, event, eventPayload);
      if Target(k.c, plan, w.state.current, event).Some? {
        TargetIsNearer(k.c, plan, w.state.current, event);
        if r == Ok(HardContinue) && k.HardEvent(cached.state.current).Some? {
          ChainStaysOnPlan(k, plan, cached, k.HardEvent(cached.state.current).value, cached.state.payload, fuel - 1);
        }
      }
    }
  }

  /** A new incarnation that finds its start within reach has not left the plan either. */
  lemma BeginningStaysOnPlan<S(!new), E(!new), P>(k: Machine<S, E, P>, plan: Plan<S, E>, w: World<S, E, P>, payload: P,
      fuel: nat)
    requires Guided(k, plan) && k.c.Accepts(w.journal) && OnPlan(plan, k.c.RecoveryPoint(k.c.Watch(w.journal)))
    ensures var (w', ending) := k.Started(k.Incarnate(w, payload).(up := true), fuel);
            var start := k.c.RecoveryPoint(k.c.Watch(w.journal));
            ending != OutOfFuel ==>
              && w'.up && OnPlan(plan, w'.state.current)
              && Distance(plan, w'.state.current) <= Distance(plan, start)
              && (k.c.Watch(w'.journal).halted ==>
                    k.c.persistent && Distance(plan, w'.state.current) < Distance(plan, start))
  {
    hide k.c.Accepts, k.c.Watch, k.DoTransition, k.Incarnate, k.HardEvent, PushAll, Pushed, k.c.graph.Indexed,
      LeadsIntoTrap, OnPlan, Distance, k.c.RecoveryPoint;
    IncarnateFollows(k, w, payload);
    var born := k.Incarnate(w, payload).(up := true);
    LinkedIsSane(k, born, k.c.Watch(born.journal));
    var timed := if k.c.timer then k.Emit(born, Scheduled) else born;
    if k.c.timer {
      ScheduleFollows(k, born, k.c.Watch(born.journal));
    }
    LinkedIsSane(k, timed, k.c.Watch(timed.journal));
    var hard := k.HardEvent(timed.state.current);
    if hard.Some? {
      ChainStaysOnPlan(k, plan, timed, hard.value, timed.state.payload, fuel);
      EndedChainHalts(k, timed, hard.value, timed.state.payload, fuel);
    }
  }

  lemma EndedChainHalts<S(!new), E(!new), P>(k: Machine<S, E, P>, w: World<S, E, P>, event: E, eventPayload: P,
      fuel: nat)
    requires k.c.Valid() && Linked(k, w, k.c.Watch(w.journal)) && k.c.Watch(w.journal).phase.Ready?
    ensures var (w', ending) := k.DoTransition(w, event, eventPayload, fuel);
            (k.c.Watch(w'.journal).halted <==> ending == Finished) && w'.up == w.up
  {
    hide k.c.Accepts, k.c.Watch, k.DoTransition, PushAll, Pushed, k.c.graph.Indexed;
    DoTransitionFollows(k, w, k.c.Watch(w.journal), event, eventPayload, fuel);
    var w' := k.DoTransition(w, event, eventPayload, fuel).0;
    LinkedIsSane(k, w', k.c.Watch(w'.journal));
  }

  /** The action may be performed, and is never performed to its end. */
  ghost predicate Endless<S(!new), E(!new), P>(k: Machine<S, E, P>, w: World<S, E, P>, action: Action<E, P>)
    requires k.c.Valid()
  {
    k.Enabled(w, action) && forall fuel: nat :: k.Perform(w, action, fuel).1 == OutOfFuel
  }

  /** An instance that is down and would be recovered on the plan runs into the trap when it is launched. */
  lemma {:induction false} LaunchIntoTrap<S(!new), E(!new), P>(k: Machine<S, E, P>, plan: Plan<S, E>,
      steps: seq<Step<E, P>>)
    returns (longer: seq<Step<E, P>>, action: Action<E, P>)
    requires Guided(k, plan) && !k.Run(steps).up
    requires OnPlan(plan, k.c.RecoveryPoint(k.c.Watch(k.Run(steps).journal)))
    ensures Endless(k, k.Run(longer), action)
    decreases Distance(plan, k.c.RecoveryPoint(k.c.Watch(k.Run(steps).journal))), 2
  {
    hide k.c.Accepts, k.c.Watch, k.Run, k.Started, k.Incarnate, k.Seed, LeadsIntoTrap, OnPlan, Distance,
      k.c.RecoveryPoint, k.c.graph.Indexed;
    EveryRunIsSafe(k, steps);
    var w := k.Run(steps);
    longer, action := steps, Launch(k.c.payload);
    if !Endless(k, w, action) {
      var fuel: nat :| k.Perform(w, action, fuel).1 != OutOfFuel;
      if k.c.supervised { SeedFollows(k, w); }
      var seeded := if k.c.supervised then k.Seed(w) else w;
      BeginningStaysOnPlan(k, plan, seeded, k.c.payload, fuel);
      RunSnoc(k, steps, Act(action, fuel));
      longer, action := RestIntoTrap(k, plan, steps + [Act(action, fuel)]);
    }
  }

  /** So does one that rests on the plan: it is stopped and launched again if it has halted. */
  lemma {:induction false} RestIntoTrap<S(!new), E(!new), P>(k: Machine<S, E, P>, plan: Plan<S, E>,
      steps: seq<Step<E, P>>)
    returns (longer: seq<Step<E, P>>, action: Action<E, P>)
    requires Guided(k, plan) && k.Run(steps).up && OnPlan(plan, k.Run(steps).state.current)
    requires k.c.Watch(k.Run(steps).journal).halted ==> k.c.persistent
    ensures Endless(k, k.Run(longer), action)
    decreases Distance(plan, k.Run(steps).state.current),
              if k.c.Watch(k.Run(steps).journal).halted then 3 else 1
  {
    hide k.c.Accepts, k.c.Watch, k.Run, k.DoTransition, LeadsIntoTrap, OnPlan, Distance, Target, k.c.graph.Indexed,
      k.HardEvent, PushAll, Pushed;
    EveryRunIsSafe(k, steps);
    var w := k.Run(steps);
    if k.c.Watch(w.journal).halted {
      HaltedIsStopped(k, steps);
      longer, action := LaunchIntoTrap(k, plan, steps + [Act(Stop, 0)]);
    } else {
      var event := NextEvent(k, plan, w.state.current);
      longer, action := steps, Deliver(TransitionMsg(event, k.c.payload));
      if !Endless(k, w, action) {
        var fuel: nat :| k.Perform(w, action, fuel).1 != OutOfFuel;
        if w.state.current in plan.loop {
          LoopNeverEnds(k, plan, w, k.c.payload, fuel);
        }
        ChainStaysOnPlan(k, plan, w, event, k.c.payload, fuel);
        EndedChainHalts(k, w, event, k.c.payload, fuel);
        RunSnoc(k, steps, Act(action, fuel));
        longer, action := RestIntoTrap(k, plan, steps + [Act(action, fuel)]);
      }
    }
  }

  /** The event that goes on along the plan. */
  lemma NextEvent<S(!new), E(!new), P>(k: Machine<S, E, P>, plan: Plan<S, E>, s: S) returns (event: E)
    requires k.c.Valid() && LeadsIntoTrap(k.c, plan) && OnPlan(plan, s)
    ensures Target(k.c, plan, s, event).Some?
    ensures s in plan.loop ==> k.HardEvent(s) == Some(event)
  {
    if s in plan.loop {
      LoopHasHardEvent(k, plan, s);
      event := k.HardEvent(s).value;
    } else {
      assert plan.walk[|plan.events|] in plan.loop;
      event := plan.events[LastAt(plan.walk, s)];
    }
  }

  /** A halted instance with a store is recovered, once stopped, where it halted. */
  lemma HaltedIsStopped<S(!new), E(!new), P>(k: Machine<S, E, P>, steps: seq<Step<E, P>>)
    requires k.c.Valid() && k.c.persistent && k.Run(steps).up && k.c.Watch(k.Run(steps).journal).halted
    ensures var stopped := k.Run(steps + [Act(Stop, 0)]);
            !stopped.up && k.c.RecoveryPoint(k.c.Watch(stopped.journal)) == k.Run(steps).state.current
  {
    hide k.c.Accepts, k.c.Watch, k.Run, PushAll, Pushed, k.c.graph.Indexed;
    EveryRunIsSafe(k, steps);
    LinkedIsSane(k, k.Run(steps), k.c.Watch(k.Run(steps).journal));
    RunSnoc(k, steps, Act(Stop, 0));
  }

  // ---- The exact condition ------------------------------------------------------------------

  /** Whatever the callbacks do, every action of every run is performed to its end. */
  ghost predicate AllActionsEnd<S(!new), E(!new), P(!new)>(c: Config<S, E, P>)
    requires c.Valid()
  {
    forall env: Environment<S, E, P>, steps: seq<Step<E, P>>, action: Action<E, P> ::
      !Endless(Machine(c, env), Machine(c, env).Run(steps), action)
  }

  /**
   Every action of every run ends, whatever the callbacks do, exactly when no loop of firing hard
   events can be entered. The graph alone decides it.
   */
  lemma ActionsEndExactlyWhen<S(!new), E(!new), P(!new)>(c: Config<S, E, P>)
    requires c.Valid()
    ensures AllActionsEnd(c) <==> !HasTrap(c)
  {
    hide HasTrap;
    if HasTrap(c) {
      var plan := TrapHasPlan(c);
      var env := Guide(c, plan);
      var k := Machine(c, env);
      var steps, action := LaunchIntoTrap(k, plan, []);
      assert Endless(k, k.Run(steps), action);
    } else {
      forall env: Environment<S, E, P>, steps: seq<Step<E, P>>, action: Action<E, P>
        ensures !Endless(Machine(c, env), Machine(c, env).Run(steps), action)
      {
        var k := Machine(c, env);
        if k.Enabled(k.Run(steps), action) {
          EveryActionEnds(k, steps, action);
        }
      }
    }
  }

  /** An instance that would be recovered on a firing loop never gets through its launch. */
  lemma LaunchOnLoop<S(!new), E(!new), P>(k: Machine<S, E, P>, plan: Plan<S, E>, steps: seq<Step<E, P>>, payload: P,
      fuel: nat)
    requires Guided(k, plan) && !k.Run(steps).up
    requires k.c.RecoveryPoint(k.c.Watch(k.Run(steps).journal)) in plan.loop
    ensures k.Perform(k.Run(steps), Launch(payload), fuel).1 == OutOfFuel
  {
    hide k.c.Accepts, k.c.Watch, k.Run, k.DoTransition, k.Incarnate, k.Seed, k.HardEvent, PushAll, Pushed,
      k.c.graph.Indexed, LeadsIntoTrap, k.c.RecoveryPoint;
    EveryRunIsSafe(k, steps);
    var w := k.Run(steps);
    if k.c.supervised { SeedFollows(k, w); }
    var seeded := if k.c.supervised then k.Seed(w) else w;
    IncarnateFollows(k, seeded, payload);
    var born := k.Incarnate(seeded, payload).(up := true);
    LinkedIsSane(k, born, k.c.Watch(born.journal));
    if k.c.timer {
      ScheduleFollows(k, born, k.c.Watch(born.journal));
    }
    var timed := if k.c.timer then k.Emit(born, Scheduled) else born;
    LoopHasHardEvent(k, plan, timed.state.current);
    LoopNeverEnds(k, plan, timed, timed.state.payload, fuel);
  }

  /** A graph that passes validation, and on which hard events lead from 0 to 1 and back for ever. */
  const PINGPONG: seq<Transition<int, int>> :=
    [Transition(0, [1], 7, Hard), Transition(1, [0], 8, Hard), Transition(1, [2], 9, Normal)]

  lemma PingPongLoops<P>(c: Config<int, int, P>)
    requires c.Valid() && c.graph.initial == 0 && c.graph.finals == {2} && c.graph.transitions == PINGPONG
    ensures FiringLoop(c, [0, 1, 0])
  {
    var g := c.graph;
    g.EventsForIsFilter(0);
    g.EventsForIsFilter(1);
    g.AllowedIsScan(0, 7);
    g.AllowedIsScan(1, 8);
    hide g.Indexed, g.Allowed, g.EventsFor;
    var rest := PINGPONG[1..];
    assert rest == [Transition(1, [0], 8, Hard), Transition(1, [2], 9, Normal)];
    assert Outgoing(PINGPONG, 0)[0] == (7, Hard);
    assert Outgoing(rest, 1)[0] == (8, Hard);
    assert Outgoing(PINGPONG, 1) == Outgoing(rest, 1);
    assert Scan(PINGPONG, 1, 8) == Scan(rest, 1, 8);
    assert FiringStep(c, 0, 1) && FiringStep(c, 1, 0);
  }

  lemma PingPongStates(g: TransitionGraph<int, int>)
    requires g.initial == 0 && g.finals == {2} && g.transitions == PINGPONG
    ensures forall s :: s in g.States() ==> s == 0 || s == 1 || s == 2
  {
    hide g.Indexed;
    forall t | t in PINGPONG ensures t.from <= 1 && t.from >= 0 && |t.to| == 1 && 0 <= t.to[0] <= 2 {
    }
  }

  lemma PingPongEdges(g: TransitionGraph<int, int>)
    requires g.transitions == PINGPONG
    ensures g.Edge(0, 7, 1) && g.Edge(1, 9, 2)
  {
    assert PINGPONG[0] in PINGPONG && PINGPONG[2] in PINGPONG;
  }

  lemma PingPongIsWellFormed(g: TransitionGraph<int, int>)
    requires g.initial == 0 && g.finals == {2} && g.transitions == PINGPONG
    ensures g.WellFormed()
  {
    hide g.Edge, g.Reachable, g.States;
    PingPongEdges(g);
    PingPongStates(g);
    var start := g.initial;
    g.ReachableSelf(start);
    g.ReachableStep(start, 0, 7, 1);
    g.ReachableStep(start, 1, 9, 2);
    assert 2 in g.finals;
    forall s | s in g.States() ensures g.Reachable(start, s) {
      assert s == 0 || s == 1 || s == 2;
    }
  }

  /** On it, an instance whose callbacks oblige is never launched to the end. */
  lemma LaunchNeverEnds<P>(c: Config<int, int, P>, payload: P) returns (k: Machine<int, int, P>)
    requires c.Valid() && c.graph.initial == 0 && c.graph.finals == {2} && c.graph.transitions == PINGPONG
    ensures c.graph.WellFormed()
    ensures k.c == c && forall fuel: nat :: k.Perform(k.Run([]), Launch(payload), fuel).1 == OutOfFuel
  {
    PingPongIsWellFormed(c.graph);
    hide c.graph.WellFormed;
    PingPongLoops(c);
    hide FiringLoop;
    var plan := Plan([0], [], [0, 1, 0]);
    var env := Guide(c, plan);
    k := Machine(c, env);
    forall fuel: nat ensures k.Perform(k.Run([]), Launch(payload), fuel).1 == OutOfFuel {
      LaunchOnLoop(k, plan, [], payload, fuel);
    }
  }

  /** A cycle of hard events is no trap if another hard event is listed first. */
  lemma UnfiredCycle<P>(c: Config<int, int, P>)
    requires c.Valid() && c.graph.transitions == [Transition(0, [1], 7, Hard), Transition(0, [0], 8, Hard)]
    ensures !HardAcyclic(c.graph) && !HasTrap(c)
  {
    var g := c.graph;
    g.AllowedIsScan(0, 8);
    assert Scan(g.transitions[1..], 0, 8) == Some(([0], Hard));
    assert HardStep(g, 0, 0);
    assert Steps([0, 0], (a, b) => HardStep(g, a, b));
    forall loop | FiringLoop(c, loop) ensures false {
      OnlyFirstFires(c, loop[0], loop[1]);
      OnlyFirstFires(c, loop[|loop| - 2], loop[|loop| - 1]);
    }
  }

  lemma OnlyFirstFires<P>(c: Config<int, int, P>, a: int, b: int)
    requires c.Valid() && c.graph.transitions == [Transition(0, [1], 7, Hard), Transition(0, [0], 8, Hard)]
    requires FiringStep(c, a, b)
    ensures a == 0 && b == 1
  {
    var g := c.graph;
    var ts := g.transitions;
    g.EventsForIsFilter(a);
    assert ts[1..] == [Transition(0, [0], 8, Hard)] && ts[1..][1..] == [];
    assert Outgoing(ts[1..], a) == if a == 0 then [(8, Hard)] else [];
    g.AllowedIsScan(a, 7);
  }

  // ---- Entered, and not fired ---------------------------------------------------------------

  /** Callbacks that always move to `target`. */
  function Going<S, E, P>(payload: P, target: S): Environment<S, E, P> {
    Environment(_ => payload, _ => Move(target), _ => None, _ => true)
  }

  lemma LaunchWithoutHardEvent<S(!new), E(!new), P>(k: Machine<S, E, P>, payload: P)
    requires k.c.Valid() && FirstHard(k.c.graph.EventsFor(k.c.graph.initial)).None?
    requires k.env.storeSucceeds == (_ => true)
    ensures var w := k.Run([Act(Launch(payload), 0)]);
            && w.up && Linked(k, w, k.c.Watch(w.journal)) && k.c.Watch(w.journal).phase.Ready?
            && !k.c.Watch(w.journal).halted && w.state.current == k.c.graph.initial
  {
    hide k.c.Accepts, k.c.Watch, k.DoTransition, k.Incarnate, k.Seed, PushAll, Pushed, k.c.graph.Indexed,
      k.c.RecoveryPoint;
    RunSnoc(k, [], Act(Launch(payload), 0));
    EveryRunIsSafe(k, []);
    var w := k.Run([]);
    NothingToRecover(k.c);
    if k.c.supervised { SeedFollows(k, w); }
    var seeded := if k.c.supervised then k.Seed(w) else w;
    IncarnateFollows(k, seeded, payload);
    var born := k.Incarnate(seeded, payload).(up := true);
    LinkedIsSane(k, born, k.c.Watch(born.journal));
    if k.c.timer {
      ScheduleFollows(k, born, k.c.Watch(born.journal));
    }
    var timed := if k.c.timer then k.Emit(born, Scheduled) else born;
    LinkedIsSane(k, timed, k.c.Watch(timed.journal));
  }

  lemma NothingToRecover<S(!new), E(!new), P>(c: Config<S, E, P>)
    ensures c.RecoveryPoint(c.Watch([])) == c.graph.initial
  {
  }

  lemma GoingCompletes<S(!new), E(!new), P>(k: Machine<S, E, P>, w: World<S, E, P>, event: E, target: S)
    requires k.c.Valid() && Linked(k, w, k.c.Watch(w.journal)) && k.c.Watch(w.journal).phase.Ready?
    requires k.c.MayMove(w.state.current, event, target)
    requires k.c.graph.Allowed(w.state.current, event).value.1 != Hard
    requires !(k.c.autoTerminate && k.c.graph.IsFinal(target))
    requires k.env == Going(k.c.payload, target)
    ensures var (after, r) := k.Transit(w, event, k.c.payload);
            && r == Ok(Transitioned) && after.up == w.up
            && after.state.current == target && after.state.lifecycle == Running
  {
    hide k.c.Watch, k.c.Accepts, k.Transit, k.Ask, PushAll, Pushed, k.c.graph.Indexed, k.c.graph.Allowed;
    CompletesExactlyWhen(k, w, event, k.c.payload);
    TransitFollows(k, w, k.c.Watch(w.journal), event, k.c.payload);
  }

  /** Delivering an event that is not hard makes one attempt. */
  lemma NormalDelivery<S(!new), E(!new), P>(k: Machine<S, E, P>, w: World<S, E, P>, event: E, eventPayload: P,
      fuel: nat)
    requires k.c.Valid() && k.Enabled(w, Deliver(TransitionMsg(event, eventPayload))) && fuel > 0
    requires k.Transit(w, event, eventPayload).1 == Ok(Transitioned)
    ensures k.Next(w, Act(Deliver(TransitionMsg(event, eventPayload)), fuel)) ==
            k.Cache(k.Transit(w, event, eventPayload).0)
  {
    hide k.Transit, k.c.graph.Indexed;
  }

  /**
   A state may be entered and its hard event left unfired: launched, and taken there by a transition
   that is not hard, an instance makes that one attempt and rests.
   */
  lemma UnfiredEntry<S(!new), E(!new), P>(c: Config<S, E, P>, event: E, target: S) returns (k: Machine<S, E, P>)
    requires c.Valid() && FirstHard(c.graph.EventsFor(c.graph.initial)).None?
    requires c.MayMove(c.graph.initial, event, target) && c.graph.Allowed(c.graph.initial, event).value.1 != Hard
    requires FirstHard(c.graph.EventsFor(target)).Some? && !(c.autoTerminate && c.graph.IsFinal(target))
    ensures k.c == c
    ensures var launched := k.Run([Act(Launch(c.payload), 0)]);
            var w := k.Run([Act(Launch(c.payload), 0)] + [Act(Deliver(TransitionMsg(event, c.payload)), 2)]);
            && w.up && w.state.current == target && w.state.lifecycle == Running && k.HardEvent(target).Some?
            && w == k.Cache(k.Transit(launched, event, c.payload).0)
  {
    var env: Environment<S, E, P> := Going(c.payload, target);
    k := Machine(c, env);
    hide k.Run, k.Next, k.c.Watch, k.c.Accepts, k.Transit, PushAll, Pushed, k.c.graph.Indexed, k.c.graph.Allowed,
      k.c.MayMove;
    LaunchWithoutHardEvent(k, c.payload);
    var launched := k.Run([Act(Launch(c.payload), 0)]);
    RunSnoc(k, [Act(Launch(c.payload), 0)], Act(Deliver(TransitionMsg(event, c.payload)), 2));
    GoingCompletes(k, launched, event, target);
    NormalDelivery(k, launched, event, c.payload, 2);
  }

  /** On this graph: in state 1, with the hard event 8 listed for it, and at rest. */
  lemma UnfiredExample<P>(c: Config<int, int, P>) returns (k: Machine<int, int, P>)
    requires c.Valid() && c.graph.initial == 0 && c.graph.finals == {2}
    requires c.graph.transitions == [Transition(0, [1], 7, Normal), Transition(1, [2], 8, Hard)]
    ensures k.c == c
    ensures var w := k.Run([Act(Launch(c.payload), 0)] + [Act(Deliver(TransitionMsg(7, c.payload)), 2)]);
            w.up && w.state.current == 1 && w.state.lifecycle == Running && k.HardEvent(1) == Some(8)
  {
    var g := c.graph;
    var ts := g.transitions;
    g.AllowedIsScan(0, 7);
    g.EventsForIsFilter(0);
    g.EventsForIsFilter(1);
    hide k.Run, g.Indexed, g.Allowed, g.EventsFor;
    assert ts[1..] == [Transition(1, [2], 8, Hard)] && ts[1..][1..] == [];
    assert Outgoing(ts[1..], 0) == [] && Outgoing(ts[1..], 1) == [(8, Hard)];
    assert Outgoing(ts, 0) == [(7, Normal)] && Outgoing(ts, 1) == [(8, Hard)];
    assert FirstHard([(7, Normal)]) == FirstHard([(7, Normal)][1..]);
    k := UnfiredEntry(c, 7, 1);
  }
}
