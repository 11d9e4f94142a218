/** The transition engine: one attempt, step by step, on the instance's own state. */
module Engine {
  import opened Wrappers
  import opened Graphs
  import opened States
  import opened Protocol
  import opened Machines
  import opened Services
  import opened Traces

  /** The optional services of a transition. */
  datatype TransitContext<S, P> = TransitContext(
    persistency: InMemoryPersistency?<S, P>,
    listening: bool,
    autoTerminate: bool)
  {
    ghost function Repr(): set<object> {
      if persistency == null then {} else {persistency}
    }

    ghost predicate Reflects<E>(name: string, j: Journal<S, E, P>)
      reads Repr()
    {
      persistency != null ==> persistency.Reflects(name, j)
    }

    /** Entries of other instances have not been touched. */
    twostate predicate KeepsOthers(name: string)
      reads Repr()
    {
      persistency != null ==> persistency.entries - {name} == old(persistency.entries) - {name}
    }
  }

  /** The machine configured like this graph and context, with these callbacks. */
  ghost predicate Describes<S(!new), E(!new), P>(k: Machine<S, E, P>, env: Environment<S, E, P>,
      graph: TransitionGraph<S, E>, ctx: TransitContext<S, P>)
  {
    && k.env == env && k.c.graph == graph && k.c.Valid()
    && k.c.persistent == (ctx.persistency != null)
    && k.c.listening == ctx.listening && k.c.autoTerminate == ctx.autoTerminate
  }

  ghost function Now<S, E, P>(state: FsmState<S, P>, outside: Outside<S, E, P>): World<S, E, P>
    reads state, state.history, outside
  {
    World(state.View(), outside.journal, true)
  }

  /** Whether an event that the current state does not answer is to be skipped silently. */
  method IsSoft<S(!new), E(==, !new)>(graph: TransitionGraph<S, E>, event: E) returns (soft: bool)
    ensures soft <==> exists t :: t in graph.transitions && t.event == event && t.kind == Soft
  {
    for i := 0 to |graph.transitions|
      invariant forall t :: t in graph.transitions[..i] ==> !(t.event == event && t.kind == Soft)
    {
      var t := graph.transitions[i];
      if t.event == event && t.kind == Soft {
        return true;
      }
      assert graph.transitions[..i + 1] == graph.transitions[..i] + [t];
    }
    assert graph.transitions[..|graph.transitions|] == graph.transitions;
    soft := false;
  }

  /** A callback that is given the state's payload to edit. */
  method Visit<S(!new), E(!new), P>(outside: Outside<S, E, P>, state: FsmState<S, P>, x: Effect<S, E, P>,
      ghost k: Machine<S, E, P>)
    requires k.env == outside.env && !x.Stored? && !x.Seeded? && !x.Cached?
    modifies outside, state`payload
    ensures Now(state, outside) == k.Call(old(Now(state, outside)), x)
    ensures StoredOf(outside.journal) == old(StoredOf(outside.journal))
    ensures CachedOf(outside.journal) == old(CachedOf(outside.journal))
  {
    state.payload := outside.Call(x);
  }

  /** After a refused decision: on_failure, the error is recorded, and the state entered again. */
  method Abort<S(!new), E(!new), P>(outside: Outside<S, E, P>, state: FsmState<S, P>, event: E, error: ErrorStage,
      ghost k: Machine<S, E, P>)
    requires k.env == outside.env
    modifies outside, state`payload, state`lastError
    ensures Now(state, outside) == k.Abort(old(Now(state, outside)), old(state.current), event, error)
    ensures StoredOf(outside.journal) == old(StoredOf(outside.journal))
    ensures CachedOf(outside.journal) == old(CachedOf(outside.journal))
  {
    Visit(outside, state, OnFailure(event, error, state.payload), k);
    state.SetError(error);
    Visit(outside, state, OnEnter(state.current, state.payload), k);
  }

  /** The target is stored; a backend that refuses leaves its entry as it was. */
  method Persist<S(!new), E(!new), P>(outside: Outside<S, E, P>, state: FsmState<S, P>, target: S,
      ctx: TransitContext<S, P>, ghost k: Machine<S, E, P>)
    returns (ok: bool)
    requires k.env == outside.env && k.c.persistent == (ctx.persistency != null)
    requires ctx.Reflects(state.name, outside.journal)
    modifies outside, ctx.Repr()
    ensures ok == (!k.c.persistent || k.env.storeSucceeds(old(outside.journal)))
    ensures Now(state, outside) ==
            if !k.c.persistent then old(Now(state, outside))
            else if ok then k.Emit(old(Now(state, outside)), Stored(target, state.payload))
            else k.Emit(old(Now(state, outside)), StoreFailed(target, state.payload))
    ensures ctx.Reflects(state.name, outside.journal) && ctx.KeepsOthers(state.name)
    ensures CachedOf(outside.journal) == old(CachedOf(outside.journal))
  {
    if ctx.persistency == null {
      return true;
    }
    ok := outside.env.storeSucceeds(outside.journal);
    if ok {
      ctx.persistency.Store(state.name, target, state.payload);
      outside.Note(Stored(target, state.payload));
    } else {
      outside.Note(StoreFailed(target, state.payload));
    }
  }

  /** The state moves to the target, is entered there, and is terminated if that is asked for. */
  method Complete<S(==, !new), E(==, !new), P>(outside: Outside<S, E, P>, graph: TransitionGraph<S, E>,
      state: FsmState<S, P>, event: E, target: S, kind: EventKind, ctx: TransitContext<S, P>, ghost k: Machine<S, E, P>)
    returns (outcome: Outcome)
    requires Describes(k, outside.env, graph, ctx) && state.Valid()
    modifies outside, state, state.history
    ensures (Now(state, outside), Ok(outcome)) ==
            k.Arrive(old(Now(state, outside)), old(state.current), event, target, kind)
    ensures StoredOf(outside.journal) == old(StoredOf(outside.journal))
    ensures CachedOf(outside.journal) == old(CachedOf(outside.journal))
  {
    ghost var w := Now(state, outside);
    var from := state.current;
    state.ClearError();
    state.TransitionTo(target);
    state.lifecycle := Running;
    outside.Note(Committed(target));
    if ctx.listening {
      outside.Note(Notified(from, target, event));
    }
    assert Now(state, outside) == k.Announce(w, from, event, target);
    Visit(outside, state, OnEnter(target, state.payload), k);
    if ctx.autoTerminate && graph.IsFinal(target) {
      Terminate(outside, state, k);
      outcome := AutoTerminate;
    } else {
      outcome := if kind == Hard then HardContinue else Transitioned;
    }
  }

  /** The lifecycle passes through on_terminate. */
  method Terminate<S(!new), E(!new), P>(outside: Outside<S, E, P>, state: FsmState<S, P>, ghost k: Machine<S, E, P>)
    requires k.env == outside.env
    modifies outside, state`lifecycle, state`payload
    ensures Now(state, outside) == k.Terminate(old(Now(state, outside)))
    ensures StoredOf(outside.journal) == old(StoredOf(outside.journal))
    ensures CachedOf(outside.journal) == old(CachedOf(outside.journal))
  {
    state.lifecycle := Terminating;
    outside.Note(Turned(Terminating));
    Visit(outside, state, OnTerminate(state.payload), k);
    state.lifecycle := Terminated;
    outside.Note(Turned(Terminated));
  }

  /** The second half of an attempt: the chosen target is checked, stored and moved to. */
  method Settle<S(==, !new), E(==, !new), P>(outside: Outside<S, E, P>, graph: TransitionGraph<S, E>,
      state: FsmState<S, P>, event: E, target: S, allowed: (seq<S>, EventKind), ctx: TransitContext<S, P>,
      ghost k: Machine<S, E, P>)
    returns (r: Result<Outcome, ErrorStage>)
    requires Describes(k, outside.env, graph, ctx) && state.Valid()
    requires ctx.Reflects(state.name, outside.journal)
    modifies outside, state, state.history, ctx.Repr()
    ensures (Now(state, outside), r) == k.Settle(old(Now(state, outside)), old(state.current), event, target, allowed)
    ensures ctx.Reflects(state.name, outside.journal) && ctx.KeepsOthers(state.name)
    ensures CachedOf(outside.journal) == old(CachedOf(outside.journal))
  {
    if target !in allowed.0 {
      Abort(outside, state, event, NotAllowed, k);
      return Err(NotAllowed);
    }
    var stored := Persist(outside, state, target, ctx, k);
    if !stored {
      state.SetError(AtPersistency);
      Visit(outside, state, OnEnter(state.current, state.payload), k);
      return Err(AtPersistency);
    }
    var outcome := Complete(outside, graph, state, event, target, allowed.1, ctx, k);
    r := Ok(outcome);
  }

  /** The state is left, and on_transition is asked where to go. */
  method Ask<S(!new), E(!new), P>(outside: Outside<S, E, P>, state: FsmState<S, P>, event: E, eventPayload: P,
      ghost k: Machine<S, E, P>)
    requires k.env == outside.env
    modifies outside, state`payload
    ensures Now(state, outside) == k.Ask(old(Now(state, outside)), event, eventPayload)
    ensures var before := old(outside.journal);
            && before <= outside.journal && |outside.journal| == |before| + 2
            && Asks(outside.journal, |before|, state.current, event, eventPayload)
    ensures StoredOf(outside.journal) == old(StoredOf(outside.journal))
    ensures CachedOf(outside.journal) == old(CachedOf(outside.journal))
  {
    Visit(outside, state, OnExit(state.current, state.payload), k);
    var from := state.current;
    Visit(outside, state, OnTransition(from, event, eventPayload, state.payload), k);
  }

  /** One attempt at a transition, with every step of the protocol in order. */
  method Transit<S(==, !new), E(==, !new), P>(outside: Outside<S, E, P>, graph: TransitionGraph<S, E>,
      state: FsmState<S, P>, event: E, eventPayload: P, ctx: TransitContext<S, P>, ghost k: Machine<S, E, P>)
    returns (r: Result<Outcome, ErrorStage>)
    requires Describes(k, outside.env, graph, ctx) && state.Valid()
    requires ctx.Reflects(state.name, outside.journal)
    modifies outside, state, state.history, ctx.Repr()
    ensures (Now(state, outside), r) == k.Transit(old(Now(state, outside)), event, eventPayload)
    ensures IsAttempt(k, old(Now(state, outside)), event, eventPayload, Now(state, outside), r)
    ensures ctx.Reflects(state.name, outside.journal) && ctx.KeepsOthers(state.name)
    ensures CachedOf(outside.journal) == old(CachedOf(outside.journal))
  {
    hide IsAttempt, Asks;
    AttemptShows(k, Now(state, outside), event, eventPayload);
    var allowed := graph.Allowed(state.current, event);
    if allowed.None? {
      var soft := IsSoft(graph, event);
      return if soft then Ok(SoftSkipped) else Err(NotResponds);
    }
    hide k.Ask, k.Abort, k.Settle, StoredOf, CachedOf;
    Ask(outside, state, event, eventPayload, k);
    var target;
    match outside.env.decide(outside.journal) {
      case Refuse(error) =>
        Abort(outside, state, event, error, k);
        return Err(error);
      case Move(t) => target := t;
      case MoveWithPayload(t, payload) =>
        state.payload := payload;
        target := t;
    }
    r := Settle(outside, graph, state, event, target, allowed.value, ctx, k);
  }
}
