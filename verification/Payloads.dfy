/** The payload is threaded: each callback gets, and each store and cache entry holds, what was left last. */
module Payloads {
  import opened Wrappers
  import opened Graphs
  import opened States
  import opened Protocol
  import opened Machines
  import opened Services

  predicate IsCallback<S, E, P>(x: Effect<S, E, P>) {
    x.OnStart? || x.OnEnter? || x.OnExit? || x.OnTransition? || x.OnFailure? || x.OnTimer? || x.OnTerminate?
  }

  /** The payload an effect passes on, if it passes one on. */
  function Given<S, E, P>(x: Effect<S, E, P>): Option<P> {
    if IsCallback(x) || x.Stored? || x.StoreFailed? then Some(x.payload)
    else if x.Cached? then Some(x.snapshot.payload)
    else None
  }

  /**
   The payload after the journal: what the last callback made of it, unless on_transition's decision
   replaced it, or what the incarnation was born with.
   */
  function Left<S(==, !new), E(==, !new), P>(k: Machine<S, E, P>, j: Journal<S, E, P>): Option<P> {
    if j == [] then None
    else
      var x := j[|j| - 1];
      if x.Born? then Some(x.payload)
      else if x.OnTransition? && k.env.decide(j).MoveWithPayload? then Some(k.env.decide(j).payload)
      else if IsCallback(x) then Some(k.env.edit(j))
      else Left(k, j[..|j| - 1])
  }

  ghost predicate Threaded<S(!new), E(!new), P>(k: Machine<S, E, P>, j: Journal<S, E, P>) {
    forall n :: 0 <= n < |j| && Given(j[n]).Some? ==> Given(j[n]) == Left(k, j[..n])
  }

  /** The journal is threaded, and the state carries what it left. */
  ghost predicate Carried<S(!new), E(!new), P>(k: Machine<S, E, P>, w: World<S, E, P>) {
    Threaded(k, w.journal) && Left(k, w.journal) == Some(w.state.payload)
  }

  lemma ThreadSnoc<S(!new), E(!new), P>(k: Machine<S, E, P>, j: Journal<S, E, P>, x: Effect<S, E, P>)
    requires Threaded(k, j) && (Given(x).Some? ==> Given(x) == Left(k, j))
    ensures Threaded(k, j + [x])
    ensures !x.Born? && !IsCallback(x) ==> Left(k, j + [x]) == Left(k, j)
  {
    hide Left;
    var longer := j + [x];
    forall n | 0 <= n < |longer| && Given(longer[n]).Some? ensures Given(longer[n]) == Left(k, longer[..n]) {
      if n < |j| {
        assert longer[n] == j[n] && longer[..n] == j[..n];
      } else {
        assert longer[..n] == j;
      }
    }
    LeftSnoc(k, j, x);
  }

  lemma LeftSnoc<S(!new), E(!new), P>(k: Machine<S, E, P>, j: Journal<S, E, P>, x: Effect<S, E, P>)
    ensures Left(k, j + [x]) ==
            if x.Born? then Some(x.payload)
            else if x.OnTransition? && k.env.decide(j + [x]).MoveWithPayload? then Some(k.env.decide(j + [x]).payload)
            else if IsCallback(x) then Some(k.env.edit(j + [x]))
            else Left(k, j)
  {
    assert (j + [x])[..|j|] == j;
  }

  lemma EmitCarries<S(!new), E(!new), P>(k: Machine<S, E, P>, w: World<S, E, P>, x: Effect<S, E, P>, w': World<S, E, P>)
    requires Carried(k, w) && !x.Born? && !IsCallback(x) && (Given(x).Some? ==> Given(x) == Some(w.state.payload))
    requires w'.journal == w.journal + [x] && w'.state.payload == w.state.payload
    ensures Carried(k, w')
  {
    hide Threaded, Left;
    ThreadSnoc(k, w.journal, x);
  }

  lemma CallCarries<S(!new), E(!new), P>(k: Machine<S, E, P>, w: World<S, E, P>, x: Effect<S, E, P>)
    requires Carried(k, w) && IsCallback(x) && !x.OnTransition? && Given(x) == Some(w.state.payload)
    ensures Carried(k, k.Call(w, x))
  {
    hide Threaded, Left;
    ThreadSnoc(k, w.journal, x);
    LeftSnoc(k, w.journal, x);
  }

  /** After on_transition, the payload is the decision's if it brings one, and else the edited one. */
  lemma AskCarries<S(!new), E(!new), P>(k: Machine<S, E, P>, w: World<S, E, P>, event: E, eventPayload: P)
    requires Carried(k, w)
    ensures var asked := k.Ask(w, event, eventPayload);
            match k.env.decide(asked.journal)
            case MoveWithPayload(_, payload) => Carried(k, k.WithPayload(asked, payload))
            case _ => Carried(k, asked)
  {
    hide Threaded, Left;
    var x := OnExit(w.state.current, w.state.payload);
    CallCarries(k, w, x);
    var left := k.Call(w, x);
    var y := OnTransition(w.state.current, event, eventPayload, left.state.payload);
    ThreadSnoc(k, left.journal, y);
    LeftSnoc(k, left.journal, y);
  }

  lemma AbortCarries<S(!new), E(!new), P>(k: Machine<S, E, P>, w: World<S, E, P>, from: S, event: E, error: ErrorStage)
    requires Carried(k, w)
    ensures Carried(k, k.Abort(w, from, event, error))
  {
    hide Threaded, Left;
    var x := OnFailure(event, error, w.state.payload);
    CallCarries(k, w, x);
    var failed := k.Fail(k.Call(w, x), error);
    CallCarries(k, failed, OnEnter(from, failed.state.payload));
  }

  lemma TurnCarries<S(!new), E(!new), P>(k: Machine<S, E, P>, w: World<S, E, P>, life: Lifecycle)
    requires Carried(k, w)
    ensures Carried(k, k.Turn(w, life))
  {
    hide Threaded, Left, Carried;
    EmitCarries(k, w, Turned(life), k.Turn(w, life));
  }

  lemma TerminateCarries<S(!new), E(!new), P>(k: Machine<S, E, P>, w: World<S, E, P>)
    requires Carried(k, w)
    ensures Carried(k, k.Terminate(w))
  {
    hide Threaded, Left, Carried;
    TurnCarries(k, w, Terminating);
    var turned := k.Turn(w, Terminating);
    var x := OnTerminate(turned.state.payload);
    CallCarries(k, turned, x);
    TurnCarries(k, k.Call(turned, x), Terminated);
  }

  lemma ArriveCarries<S(!new), E(!new), P>(k: Machine<S, E, P>, w: World<S, E, P>, from: S, event: E, target: S,
      kind: EventKind)
    requires Carried(k, w)
    ensures Carried(k, k.Arrive(w, from, event, target, kind).0)
  {
    hide Threaded, Left, Carried, k.Terminate;
    var committed := k.Emit(w.(state := Moved(w.state, target)), Committed(target));
    EmitCarries(k, w, Committed(target), committed);
    var told := k.Announce(w, from, event, target);
    if k.c.listening {
      EmitCarries(k, committed, Notified(from, target, event), told);
    }
    CallCarries(k, told, OnEnter(target, told.state.payload));
    if k.c.autoTerminate && k.c.graph.IsFinal(target) {
      TerminateCarries(k, k.Enter(told, target));
    }
  }

  lemma SettleCarries<S(!new), E(!new), P>(k: Machine<S, E, P>, w: World<S, E, P>, from: S, event: E, target: S,
      allowed: (seq<S>, EventKind))
    requires Carried(k, w)
    ensures Carried(k, k.Settle(w, from, event, target, allowed).0)
  {
    hide Threaded, Left, Carried, k.Arrive, k.Abort;
    if target !in allowed.0 {
      AbortCarries(k, w, from, event, NotAllowed);
    } else if k.c.persistent && !k.env.storeSucceeds(w.journal) {
      var x := StoreFailed(target, w.state.payload);
      var failed := k.Fail(k.Emit(w, x), AtPersistency);
      EmitCarries(k, w, x, failed);
      CallCarries(k, failed, OnEnter(from, failed.state.payload));
    } else {
      var x := Stored(target, w.state.payload);
      EmitCarries(k, w, x, k.Emit(w, x));
      ArriveCarries(k, if k.c.persistent then k.Emit(w, x) else w, from, event, target, allowed.1);
    }
  }

  lemma TransitCarries<S(!new), E(!new), P>(k: Machine<S, E, P>, w: World<S, E, P>, event: E, eventPayload: P)
    requires k.c.Valid() && Carried(k, w)
    ensures Carried(k, k.Transit(w, event, eventPayload).0)
  {
    hide Carried, k.Settle, k.Abort, k.Ask, k.c.graph.Allowed, k.c.graph.Indexed;
    var allowed := k.c.graph.Allowed(w.state.current, event);
    if allowed.Some? {
      AskCarries(k, w, event, eventPayload);
      var asked := k.Ask(w, event, eventPayload);
      match k.env.decide(asked.journal) {
        case Refuse(error) => AbortCarries(k, asked, w.state.current, event, error);
        case Move(target) => SettleCarries(k, asked, w.state.current, event, target, allowed.value);
        case MoveWithPayload(target, payload) =>
          SettleCarries(k, k.WithPayload(asked, payload), w.state.current, event, target, allowed.value);
      }
    }
  }

  lemma {:induction false} DoTransitionCarries<S(!new), E(!new), P>(k: Machine<S, E, P>, w: World<S, E, P>, event: E,
      eventPayload: P, fuel: nat)
    requires k.c.Valid() && Carried(k, w)
    ensures Carried(k, k.DoTransition(w, event, eventPayload, fuel).0)
    decreases fuel
  {
    hide Carried, k.Transit, k.HardEvent, k.c.graph.Indexed;
    if fuel > 0 {
      var (after, r) := k.Transit(w, event, eventPayload);
      TransitCarries(k, w, event, eventPayload);
      var cached := k.Cache(after);
      EmitCarries(k, after, Cached(after.state), cached);
      EmitCarries(k, cached, Halted, k.Emit(cached, Halted));
      if r == Ok(HardContinue) && k.HardEvent(cached.state.current).Some? {
        DoTransitionCarries(k, cached, k.HardEvent(cached.state.current).value, cached.state.payload, fuel - 1);
      }
    }
  }

  lemma BirthCarries<S(!new), E(!new), P>(k: Machine<S, E, P>, w: World<S, E, P>, s: S, payload: P, awake: bool,
      life: Lifecycle)
    requires Threaded(k, w.journal)
    ensures var born := w.(state := FreshSnapshot(s, payload).(lifecycle := life));
            Carried(k, k.Emit(born, Born(s, payload, awake, life)))
  {
    hide Threaded, Left;
    ThreadSnoc(k, w.journal, Born(s, payload, awake, life));
    LeftSnoc(k, w.journal, Born(s, payload, awake, life));
  }

  lemma IncarnateCarries<S(!new), E(!new), P>(k: Machine<S, E, P>, w: World<S, E, P>, payload: P)
    requires Threaded(k, w.journal)
    ensures Carried(k, k.Incarnate(w, payload))
  {
    hide Threaded, Carried, k.Awaken, k.c.Watch;
    var m := k.c.Watch(w.journal);
    if k.c.persistent && m.stored.Some? {
      AwakenCarries(k, w, m.stored.value.0, m.stored.value.1, k.c.BirthLife(m));
    } else if k.c.supervised {
      BirthCarries(k, w, k.c.graph.initial, k.c.payload, false, Created);
    } else {
      AwakenCarries(k, w, k.c.graph.initial, payload, Created);
    }
  }

  lemma AwakenCarries<S(!new), E(!new), P>(k: Machine<S, E, P>, w: World<S, E, P>, s: S, payload: P, life: Lifecycle)
    requires Threaded(k, w.journal)
    ensures Carried(k, k.Awaken(w, s, payload, life))
  {
    hide Threaded, Carried, k.Turn;
    BirthCarries(k, w, s, payload, true, life);
    var born := k.Emit(w.(state := FreshSnapshot(s, payload).(lifecycle := life)), Born(s, payload, true, life));
    CallCarries(k, born, OnStart(payload));
    var started := k.Call(born, OnStart(payload));
    CallCarries(k, started, OnEnter(s, started.state.payload));
    var greeted := k.Enter(started, s);
    TurnCarries(k, greeted, Running);
    var running := k.Turn(greeted, Running);
    EmitCarries(k, running, Cached(running.state), k.Cache(running));
  }

  lemma StartedCarries<S(!new), E(!new), P>(k: Machine<S, E, P>, w: World<S, E, P>, fuel: nat)
    requires k.c.Valid() && Carried(k, w)
    ensures Carried(k, k.Started(w, fuel).0)
  {
    hide Carried, k.DoTransition, k.HardEvent, k.c.graph.Indexed;
    var timed := if k.c.timer then k.Emit(w, Scheduled) else w;
    if k.c.timer {
      EmitCarries(k, w, Scheduled, timed);
    }
    var hard := k.HardEvent(timed.state.current);
    if hard.Some? {
      DoTransitionCarries(k, timed, hard.value, timed.state.payload, fuel);
    }
  }

  lemma MessageCarries<S(!new), E(!new), P>(k: Machine<S, E, P>, w: World<S, E, P>, message: Message<E, P>, fuel: nat)
    requires k.c.Valid() && Carried(k, w)
    ensures Carried(k, k.HandleMessage(w, message, fuel).0)
  {
    hide Carried, k.DoTransition, k.Terminate, k.c.graph.Indexed;
    match message {
      case TransitionMsg(event, payload) => DoTransitionCarries(k, w, event, payload, fuel);
      case ShutdownMsg =>
        TerminateCarries(k, w);
        var ended := k.Terminate(w);
        EmitCarries(k, ended, Cached(ended.state), k.Cache(ended));
        EmitCarries(k, k.Cache(ended), Halted, k.Emit(k.Cache(ended), Halted));
      case TimerTickMsg =>
        var ticked := k.Emit(w, Ticked);
        EmitCarries(k, w, Ticked, ticked);
        var x := OnTimer(ticked.state.current, ticked.state.payload);
        CallCarries(k, ticked, x);
        var polled := k.Call(ticked, x);
        var answer := k.env.poll(polled.journal);
        if answer.Some? {
          DoTransitionCarries(k, polled, answer.value.0, answer.value.1, fuel);
        }
        var after := k.HandleTimerTick(ticked, fuel).0;
        EmitCarries(k, after, Scheduled, k.Emit(after, Scheduled));
    }
  }

  lemma StoppedCarries<S(!new), E(!new), P>(k: Machine<S, E, P>, w: World<S, E, P>)
    requires Carried(k, w)
    ensures Carried(k, k.Stopped(w))
  {
    hide Carried, k.Turn;
    TurnCarries(k, w, Terminated);
    var turned := k.Turn(w, Terminated);
    var x := OnTerminate(turned.state.payload);
    CallCarries(k, turned, x);
    var called := k.Call(turned, x);
    EmitCarries(k, called, Cached(called.state), k.Cache(called));
  }

  lemma SeedThreads<S(!new), E(!new), P>(k: Machine<S, E, P>, w: World<S, E, P>)
    requires Threaded(k, w.journal)
    ensures Threaded(k, k.Seed(w).journal)
  {
    hide Threaded, Left, k.c.Watch;
    ThreadSnoc(k, w.journal, Seeded(k.c.graph.initial, k.c.payload));
  }

  lemma PrefixThreads<S(!new), E(!new), P>(k: Machine<S, E, P>, j: Journal<S, E, P>, n: nat)
    requires Threaded(k, j) && n <= |j|
    ensures Threaded(k, j[..n])
  {
    hide Left;
    forall i | 0 <= i < n && Given(j[i]).Some? ensures Given(j[..n][i]) == Left(k, j[..n][..i]) {
      assert j[..n][..i] == j[..i];
    }
  }

  lemma PerformCarries<S(!new), E(!new), P>(k: Machine<S, E, P>, w: World<S, E, P>, action: Action<E, P>, fuel: nat)
    requires k.c.Valid() && Threaded(k, w.journal) && (w.up ==> Carried(k, w)) && k.Enabled(w, action)
    ensures var w' := k.Perform(w, action, fuel).0;
            Threaded(k, w'.journal) && (w'.up ==> Carried(k, w'))
  {
    hide Threaded, Left, k.Started, k.HandleMessage, k.Stopped, k.Incarnate, k.Seed, k.c.Watch, k.c.graph.Indexed;
    match action {
      case Launch(payload) =>
        SeedThreads(k, w);
        var seeded := if k.c.supervised then k.Seed(w) else w;
        IncarnateCarries(k, seeded, payload);
        StartedCarries(k, k.Incarnate(seeded, payload).(up := true), fuel);
      case Restart =>
        IncarnateCarries(k, w, k.c.payload);
        StartedCarries(k, k.Incarnate(w, k.c.payload).(up := true), fuel);
      case Deliver(message) => MessageCarries(k, w, message, fuel);
      case Stop => StoppedCarries(k, w);
    }
  }

  /**
   In every run, crashes included: each callback gets the payload the one before it left - or that an
   accepted decision brought - and exactly that payload is stored, and cached, where one is.
   */
  lemma {:induction false} PayloadIsThreaded<S(!new), E(!new), P>(k: Machine<S, E, P>, steps: seq<Step<E, P>>)
    requires k.c.Valid()
    ensures Threaded(k, k.Run(steps).journal)
    ensures k.Run(steps).up ==> Carried(k, k.Run(steps))
  {
    hide Left, Threaded, k.Perform, k.Enabled, k.c.graph.Indexed;
    if steps == [] {
      EmptyIsThreaded(k);
    } else {
      PayloadIsThreaded(k, steps[..|steps| - 1]);
      var w, step := k.Run(steps[..|steps| - 1]), steps[|steps| - 1];
      if k.Enabled(w, step.action) {
        PerformCarries(k, w, step.action, step.fuel);
        var after := k.Perform(w, step.action, step.fuel).0;
        if step.Crash? && step.cut <= |after.journal| {
          PrefixThreads(k, after.journal, step.cut);
        }
      }
    }
  }

  lemma EmptyIsThreaded<S(!new), E(!new), P>(k: Machine<S, E, P>)
    ensures Threaded(k, [])
  {
  }

  /** An instance that finds something stored is born with the state and the payload stored last. */
  lemma RebornFromStore<S(!new), E(!new), P>(k: Machine<S, E, P>, steps: seq<Step<E, P>>, payload: P)
    requires k.c.Valid() && k.c.persistent && StoredOf(k.Run(steps).journal).Some?
    ensures var w := k.Run(steps);
            var born := k.Incarnate(w, payload);
            && |born.journal| > |w.journal| && born.journal[|w.journal|].Born?
            && (born.journal[|w.journal|].state, born.journal[|w.journal|].payload) == StoredOf(w.journal).value
  {
    var w := k.Run(steps);
    hide k.Run, k.c.Watch;
    StoredIsWatched(k.c, w.journal);
  }
}
