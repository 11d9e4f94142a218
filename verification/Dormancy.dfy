/**
 Instances that are born dormant: supervised ones that find nothing to recover begin without on_start,
 on_enter and cache entry, and stay `Created` until they first move. What others may rely on until
 then, and exactly when they may always rely on it.
 */
module Dormancy {
  import opened Wrappers
  import opened Graphs
  import opened History
  import opened States
  import opened Protocol
  import opened Machines
  import opened Conformance
  import opened Runs
  import opened Refusals
  import opened Services
  import opened Guarantees

  /** From the initial state the instance can only move to where it is terminated. */
  ghost predicate NoLiveMove<S(!new), E(!new), P>(c: Config<S, E, P>)
    requires c.Valid()
  {
    forall event, target :: c.MayMove(c.graph.initial, event, target) ==> c.autoTerminate && c.graph.IsFinal(target)
  }

  // ---- What is known of a dormant instance --------------------------------------------------

  /** An instance that was not born awake is unmoved, in the initial state and not running, or has moved. */
  ghost predicate Sleeps<S(!new), E(!new), P>(c: Config<S, E, P>, m: Monitor<S, E, P>)
    requires c.Valid()
  {
    && (!c.supervised && !m.phase.Absent? ==> m.awake)
    && (c.supervised && !c.persistent ==> !m.awake)
    && (!m.awake ==> !m.phase.Waking? && !m.phase.Started? && !m.phase.Greeted?)
    && (!m.awake && !m.moved ==> m.current == c.graph.initial && m.life != Running && m.life != Loaded)
    && (!m.awake && m.moved && NoLiveMove(c) ==> c.autoTerminate && c.graph.IsFinal(m.current))
    && (c.persistent && c.supervised && (m.awake || m.moved) ==> m.stored.Some?)
  }

  lemma CommitSleeps<S(!new), E(!new), P>(c: Config<S, E, P>, m: Monitor<S, E, P>, x: Effect<S, E, P>)
    requires c.Valid() && c.Sane(m) && Sleeps(c, m) && c.Legal(m, x) && x.Committed?
    ensures Sleeps(c, c.Advance(m, x))
  {
    hide c.graph.Indexed, c.graph.Allowed, PushAll;
    if !m.awake && !m.moved && NoLiveMove(c) {
      assert c.MayMove(c.graph.initial, m.phase.event, x.state);
    }
  }

  lemma OtherSleeps<S(!new), E(!new), P>(c: Config<S, E, P>, m: Monitor<S, E, P>, x: Effect<S, E, P>)
    requires c.Valid() && Sleeps(c, m) && c.Legal(m, x) && !x.Committed?
    ensures Sleeps(c, c.Advance(m, x))
  {
    hide c.graph.Indexed, c.graph.Allowed, NoLiveMove, PushAll;
  }

  lemma {:induction false} AcceptedSleeps<S(!new), E(!new), P>(c: Config<S, E, P>, j: Journal<S, E, P>)
    requires c.Valid() && c.Accepts(j)
    ensures Sleeps(c, c.Watch(j))
  {
    hide c.Legal, c.Advance, Sleeps;
    if j == [] {
      NobodySleeps(c);
    } else {
      var n := |j| - 1;
      AcceptedSleeps(c, j[..n]);
      c.AcceptedIsSane(j[..n]);
      if j[n].Committed? {
        CommitSleeps(c, c.Watch(j[..n]), j[n]);
      } else {
        OtherSleeps(c, c.Watch(j[..n]), j[n]);
      }
    }
  }

  lemma NobodySleeps<S(!new), E(!new), P>(c: Config<S, E, P>)
    requires c.Valid()
    ensures Sleeps(c, c.StartMonitor())
  {
  }

  /** Between messages a dormant instance runs only if it has moved to where it lives on. */
  lemma RestingSleeper<S(!new), E(!new), P>(k: Machine<S, E, P>, steps: seq<Step<E, P>>)
    requires k.c.Valid() && k.Run(steps).up
    ensures var w, m := k.Run(steps), k.c.Watch(k.Run(steps).journal);
            && (!k.c.supervised ==> m.awake)
            && (w.state.lifecycle == Running ==> m.phase.Ready? && (m.awake || (m.moved && !NoLiveMove(k.c))))
            && (w.state.lifecycle == Created ==> !m.awake && !m.moved)
            && (k.c.persistent && k.c.supervised && (m.awake || m.moved) ==> m.stored.Some?)
  {
    hide k.Run, k.c.Watch, k.c.Accepts, NoLiveMove, Coherent;
    EveryRunIsSafe(k, steps);
    AcceptedSleeps(k.c, k.Run(steps).journal);
    RestingLife(k, k.Run(steps));
    LinkedIsSane(k, k.Run(steps), k.c.Watch(k.Run(steps).journal));
  }

  // ---- Runs of dormant instances --------------------------------------------------------------

  /**
   Callbacks that move to `target`, once, when the timer has `ticks` ticks due, and refuse all other
   attempts; the store fails when nothing has happened yet.
   */
  function Mover<S(==, !new), E(==, !new), P>(c: Config<S, E, P>, target: S, ticks: nat): Environment<S, E, P> {
    Environment(
      _ => c.payload,
      j => if !c.Watch(j).moved && c.Watch(j).pending == ticks then Move(target) else Refuse(Unknown),
      _ => None,
      j => j != [])
  }

  /** A world with a dormant instance between messages. */
  ghost predicate IsDormant<S(!new), E(!new), P>(k: Machine<S, E, P>, w: World<S, E, P>)
    requires k.c.Valid()
  {
    var m := k.c.Watch(w.journal);
    && w.up && Linked(k, w, m) && m.phase.Ready? && !m.awake && !m.moved && !m.halted
    && w.state.current == k.c.graph.initial && w.state.lifecycle == Created
  }

  lemma RefusedChain<S(!new), E(!new), P>(k: Machine<S, E, P>, w: World<S, E, P>, event: E, eventPayload: P, fuel: nat)
    requires k.c.Valid() && fuel > 0 && IsRefused(k, w, event, eventPayload)
    ensures var (v, ending) := k.DoTransition(w, event, eventPayload, fuel);
            ending != OutOfFuel && v == k.Cache(k.Transit(w, event, eventPayload).0)
  {
    hide k.Transit, k.HardEvent, k.c.graph.Indexed;
  }

  /** A refused attempt of an instance, cached, leaves it where it was, as it was. */
  lemma RefusedRests<S(!new), E(!new), P>(k: Machine<S, E, P>, w: World<S, E, P>, event: E, eventPayload: P)
    requires k.c.Valid() && Linked(k, w, k.c.Watch(w.journal)) && k.c.Watch(w.journal).phase.Ready?
    requires IsRefused(k, w, event, eventPayload)
    ensures var v := k.Cache(k.Transit(w, event, eventPayload).0);
            var m, m' := k.c.Watch(w.journal), k.c.Watch(v.journal);
            && v.state == w.state.(payload := v.state.payload, lastError := v.state.lastError) && v.up == w.up
            && Linked(k, v, m') && m'.phase.Ready? && m'.awake == m.awake && m'.moved == m.moved
            && m'.pending == m.pending && !m'.halted
  {
    hide k.c.Accepts, k.c.Watch, k.Transit, PushAll, Pushed, k.c.graph.Indexed, k.c.graph.Allowed;
    var m := k.c.Watch(w.journal);
    var after := k.Transit(w, event, eventPayload).0;
    LinkedIsSane(k, w, m);
    TransitFollows(k, w, m, event, eventPayload);
    CachedAfterTransit(k, w, m, event, eventPayload);
    CacheFollows(k, after, k.c.Watch(after.journal));
  }

  /** The decision of `Mover` in an attempt depends on what was before the attempt. */
  lemma MoverDecides<S(!new), E(!new), P>(k: Machine<S, E, P>, w: World<S, E, P>, event: E, eventPayload: P, target: S,
      ticks: nat)
    requires k.c.Valid() && k.env == Mover(k.c, target, ticks)
    requires Linked(k, w, k.c.Watch(w.journal)) && k.c.Watch(w.journal).phase.Ready?
    requires k.c.graph.Allowed(w.state.current, event).Some?
    ensures var m, asked := k.c.Watch(w.journal), k.Ask(w, event, eventPayload).journal;
            && k.env.storeSucceeds(asked)
            && k.env.decide(asked) == if !m.moved && m.pending == ticks then Move(target) else Refuse(Unknown)
  {
    hide k.c.Accepts, k.c.Watch, PushAll, k.c.graph.Indexed, k.c.graph.Allowed;
    AskFollows(k, w, k.c.Watch(w.journal), event, eventPayload);
  }

  lemma MoverRefuses<S(!new), E(!new), P>(k: Machine<S, E, P>, w: World<S, E, P>, event: E, eventPayload: P, target: S,
      ticks: nat)
    requires k.c.Valid() && k.env == Mover(k.c, target, ticks)
    requires Linked(k, w, k.c.Watch(w.journal)) && k.c.Watch(w.journal).phase.Ready?
    requires k.c.Watch(w.journal).moved || k.c.Watch(w.journal).pending != ticks
    ensures IsRefused(k, w, event, eventPayload)
  {
    hide k.c.Accepts, k.c.Watch, k.Ask, k.Abort, k.Settle, PushAll, k.c.graph.Indexed, k.c.graph.Allowed, Mover;
    if k.c.graph.Allowed(w.state.current, event).Some? {
      MoverDecides(k, w, event, eventPayload, target, ticks);
    }
  }

  lemma BornDormant<S(!new), E(!new), P>(k: Machine<S, E, P>, w: World<S, E, P>, payload: P)
    requires k.c.Valid() && k.c.supervised && k.c.Accepts(w.journal)
    requires !(k.c.persistent && k.c.Watch(w.journal).stored.Some?)
    ensures var born := k.Incarnate(w, payload).(up := true);
            IsDormant(k, born) && k.c.Watch(born.journal).pending == 0 && k.c.Watch(born.journal).cached.None?
            && CachedOf(born.journal) == CachedOf(w.journal)
  {
    hide k.c.Accepts, PushAll, k.c.graph.Indexed;
    var x := Born(k.c.graph.initial, k.c.payload, false, Created);
    IncarnateFollows(k, w, payload);
    assert (w.journal + [x])[..|w.journal|] == w.journal;
  }

  /** A dormant instance begins: its first hard event, if there is one, is refused. */
  lemma BeginsDormant<S(!new), E(!new), P>(k: Machine<S, E, P>, w: World<S, E, P>, target: S, ticks: nat)
    requires k.c.Valid() && IsDormant(k, w) && k.c.Watch(w.journal).pending == 0
    requires k.env == Mover(k.c, target, ticks)
    requires FirstHard(k.c.graph.EventsFor(k.c.graph.initial)).None? || ticks != if k.c.timer then 1 else 0
    ensures var (v, ending) := k.Started(w, 1);
            && ending != OutOfFuel && IsDormant(k, v)
            && k.c.Watch(v.journal).pending == (if k.c.timer then 1 else 0)
            && (FirstHard(k.c.graph.EventsFor(k.c.graph.initial)).None? ==>
                  && k.c.Watch(v.journal).cached == k.c.Watch(w.journal).cached
                  && CachedOf(v.journal) == CachedOf(w.journal))
  {
    hide k.c.Accepts, k.c.Watch, k.DoTransition, k.Transit, PushAll, Pushed, k.c.graph.Indexed, Mover;
    var timed := if k.c.timer then k.Emit(w, Scheduled) else w;
    if k.c.timer {
      ScheduleFollows(k, w, k.c.Watch(w.journal));
      assert timed.journal[..|w.journal|] == w.journal;
    }
    var hard := k.HardEvent(timed.state.current);
    if hard.Some? {
      MoverRefuses(k, timed, hard.value, timed.state.payload, target, ticks);
      RefusedChain(k, timed, hard.value, timed.state.payload, 1);
      RefusedRests(k, timed, hard.value, timed.state.payload);
    }
  }

  /** The run that launches a dormant instance. */
  function Launched<E, P>(payload: P): seq<Step<E, P>> {
    [Act(Launch(payload), 1)]
  }

  lemma LaunchIsDormant<S(!new), E(!new), P>(k: Machine<S, E, P>, target: S, ticks: nat)
    requires k.c.Valid() && k.c.supervised && k.env == Mover(k.c, target, ticks)
    requires FirstHard(k.c.graph.EventsFor(k.c.graph.initial)).None? || ticks != if k.c.timer then 1 else 0
    ensures var w := k.Run(Launched(k.c.payload));
            && IsDormant(k, w) && k.c.Watch(w.journal).pending == (if k.c.timer then 1 else 0)
            && (FirstHard(k.c.graph.EventsFor(k.c.graph.initial)).None? ==> CachedOf(w.journal).None?)
  {
    var w := k.Run([]);
    assert k.Seed(w) == w;
    RunSnoc(k, [], Act(Launch(k.c.payload), 1));
    BornDormant(k, w, k.c.payload);
    hide IsDormant, k.Incarnate, k.Started, k.c.Watch, k.c.graph.Indexed;
    BeginsDormant(k, k.Incarnate(w, k.c.payload).(up := true), target, ticks);
  }

  /** A tick that is received by a dormant instance is not followed by another one. */
  lemma DormantTick<S(!new), E(!new), P>(k: Machine<S, E, P>, w: World<S, E, P>, target: S, ticks: nat)
    requires k.c.Valid() && IsDormant(k, w) && k.c.Watch(w.journal).pending == 1 && k.env == Mover(k.c, target, ticks)
    ensures var step := Act(Deliver(TimerTickMsg), 0);
            var v := k.Next(w, step);
            IsDormant(k, v) && k.c.Watch(v.journal).pending == 0
  {
    hide k.c.Accepts, k.c.Watch, PushAll, Pushed, k.c.graph.Indexed, k.DoTransition;
    TickFollows(k, w, k.c.Watch(w.journal));
  }

  lemma MoverCompletes<S(!new), E(!new), P>(k: Machine<S, E, P>, w: World<S, E, P>, event: E, target: S, ticks: nat)
    requires k.c.Valid() && k.env == Mover(k.c, target, ticks)
    requires IsDormant(k, w) && k.c.Watch(w.journal).pending == ticks
    requires k.c.MayMove(k.c.graph.initial, event, target) && !(k.c.autoTerminate && k.c.graph.IsFinal(target))
    ensures var (after, r) := k.Transit(w, event, k.c.payload);
            var v := k.Cache(after);
            var m := k.c.Watch(v.journal);
            && (r == Ok(Transitioned) || r == Ok(HardContinue)) && v.up
            && Linked(k, v, m) && m.phase.Ready? && m.moved && !m.awake
            && m.pending == ticks && m.cached == Some(v.state)
            && v.state.current == target && v.state.lifecycle == Running
  {
    hide k.c.Accepts, k.c.Watch, k.Transit, k.Ask, PushAll, Pushed, k.c.graph.Indexed, k.c.graph.Allowed, Mover;
    var m := k.c.Watch(w.journal);
    var after := k.Transit(w, event, k.c.payload).0;
    MoverDecides(k, w, event, k.c.payload, target, ticks);
    CompletesExactlyWhen(k, w, event, k.c.payload);
    TransitFollows(k, w, m, event, k.c.payload);
    CachedAfterTransit(k, w, m, event, k.c.payload);
    CacheFollows(k, after, k.c.Watch(after.journal));
  }

  /** A dormant instance moves: now it runs, is cached, and has the ticks it had. */
  lemma DormantMove<S(!new), E(!new), P>(k: Machine<S, E, P>, w: World<S, E, P>, event: E, target: S, ticks: nat)
    requires k.c.Valid() && k.env == Mover(k.c, target, ticks)
    requires IsDormant(k, w) && k.c.Watch(w.journal).pending == ticks
    requires k.c.MayMove(k.c.graph.initial, event, target) && !(k.c.autoTerminate && k.c.graph.IsFinal(target))
    ensures var v := k.Next(w, Act(Deliver(TransitionMsg(event, k.c.payload)), 2));
            var m := k.c.Watch(v.journal);
            && v.up && Linked(k, v, m) && m.pending == ticks && !m.halted && !m.awake
            && v.state.current == target && v.state.lifecycle == Running
            && CachedOf(v.journal) == Some(v.state)
  {
    hide k.c.Accepts, k.c.Watch, k.Transit, PushAll, Pushed, k.c.graph.Indexed, Mover, CachedOf, k.HardEvent;
    MoverCompletes(k, w, event, target, ticks);
    var (after, r) := k.Transit(w, event, k.c.payload);
    var v := k.Cache(after);
    LinkedIsSane(k, v, k.c.Watch(v.journal));
    CacheIsLast(v);
    var hard := k.HardEvent(v.state.current);
    if r == Ok(HardContinue) && hard.Some? {
      MoverRefuses(k, v, hard.value, v.state.payload, target, ticks);
      RefusedChain(k, v, hard.value, v.state.payload, 1);
      RefusedRests(k, v, hard.value, v.state.payload);
      CacheIsLast(k.Cache(k.Transit(v, hard.value, v.state.payload).0));
    }
  }

  lemma CacheIsLast<S, E, P>(w: World<S, E, P>)
    requires w.journal != [] && w.journal[|w.journal| - 1] == Cached(w.state)
    ensures CachedOf(w.journal) == Some(w.state)
  {
  }

  // ---- on_terminate ---------------------------------------------------------------------------

  /** Whatever the callbacks do, stopping an instance that is up leaves on_terminate called. */
  ghost predicate AlwaysTerminates<S(!new), E(!new), P(!new)>(c: Config<S, E, P>)
    requires c.Valid()
  {
    forall env: Environment<S, E, P>, steps: seq<Step<E, P>> :: StopTerminates(Machine(c, env), steps)
  }

  ghost predicate StopTerminates<S(!new), E(!new), P>(k: Machine<S, E, P>, steps: seq<Step<E, P>>)
    requires k.c.Valid()
  {
    k.Run(steps).up ==> TerminationsOf(k.Next(k.Run(steps), Act(Stop, 0)).journal) == 1
  }

  /** A stopped instance has called on_terminate, in every run, exactly when it is not supervised. */
  lemma StopTerminatesExactlyWhen<S(!new), E(!new), P(!new)>(c: Config<S, E, P>)
    requires c.Valid()
    ensures AlwaysTerminates(c) <==> !c.supervised
  {
    if c.supervised {
      var env: Environment<S, E, P> := Mover(c, c.graph.initial, 2);
      var k := Machine(c, env);
      hide Mover, k.Run, k.Next, TerminationsOf, k.c.Watch, k.c.graph.Indexed;
      LaunchIsDormant(k, c.graph.initial, 2);
      StopTerminatesOnce(k, Launched(c.payload));
      assert !StopTerminates(k, Launched(c.payload));
    } else {
      forall env: Environment<S, E, P>, steps: seq<Step<E, P>> ensures StopTerminates(Machine(c, env), steps) {
        var k := Machine(c, env);
        hide k.Run, k.Next, TerminationsOf, k.c.Watch, k.c.graph.Indexed;
        if k.Run(steps).up {
          RestingSleeper(k, steps);
          StopTerminatesOnce(k, steps);
        }
      }
    }
  }

  /** Launched, asked for a transition that is refused, and stopped: on_terminate is never called. */
  lemma NeverTerminated<S(!new), E(!new), P>(c: Config<S, E, P>, event: E) returns (k: Machine<S, E, P>)
    requires c.Valid() && c.supervised
    ensures k.c == c
    ensures var w := k.Run(Launched(c.payload) + [Act(Deliver(TransitionMsg(event, c.payload)), 1)]);
            && w.up && w.state.lifecycle == Created && CachedOf(w.journal) == Some(w.state)
            && TerminationsOf(k.Next(w, Act(Stop, 0)).journal) == 0
  {
    var env: Environment<S, E, P> := Mover(c, c.graph.initial, 2);
    k := Machine(c, env);
    hide Mover, k.Run, k.Transit, TerminationsOf, k.c.Watch, k.c.Accepts, k.c.graph.Indexed, PushAll, CachedOf,
      Launched;
    LaunchIsDormant(k, c.graph.initial, 2);
    var w := k.Run(Launched(c.payload));
    var steps := Launched(c.payload) + [Act(Deliver(TransitionMsg(event, c.payload)), 1)];
    RunSnoc(k, Launched(c.payload), Act(Deliver(TransitionMsg(event, c.payload)), 1));
    MoverRefuses(k, w, event, c.payload, c.graph.initial, 2);
    RefusedDelivery(k, w, event, c.payload, 1);
    RefusedRests(k, w, event, c.payload);
    CacheIsLast(k.Cache(k.Transit(w, event, c.payload).0));
    StopTerminatesOnce(k, steps);
  }

  // ---- The timer ------------------------------------------------------------------------------

  /** Whatever the callbacks do, an instance that runs has one tick due between messages. */
  ghost predicate AlwaysTicks<S(!new), E(!new), P(!new)>(c: Config<S, E, P>)
    requires c.Valid()
  {
    forall env: Environment<S, E, P>, steps: seq<Step<E, P>> :: TicksWhileRunning(Machine(c, env), steps)
  }

  ghost predicate TicksWhileRunning<S(!new), E(!new), P>(k: Machine<S, E, P>, steps: seq<Step<E, P>>)
    requires k.c.Valid()
  {
    k.Run(steps).up && k.Run(steps).state.lifecycle == Running ==> TicksDue(k.Run(steps).journal) == 1
  }

  /** Launched, ticked, and only then asked to move. */
  function TickedThenMoved<E, P>(event: E, payload: P): seq<Step<E, P>> {
    Launched(payload) + [Act(Deliver(TimerTickMsg), 0)] + [Act(Deliver(TransitionMsg(event, payload)), 2)]
  }

  /** A run that loses its timer: the tick is received while the instance is still dormant. */
  lemma TimerStops<S(!new), E(!new), P>(c: Config<S, E, P>, event: E, target: S) returns (k: Machine<S, E, P>)
    requires c.Valid() && c.supervised && c.timer
    requires c.MayMove(c.graph.initial, event, target) && !(c.autoTerminate && c.graph.IsFinal(target))
    ensures k.c == c
    ensures var w := k.Run(TickedThenMoved(event, c.payload));
            w.up && w.state.current == target && w.state.lifecycle == Running && TicksDue(w.journal) == 0
  {
    var env: Environment<S, E, P> := Mover(c, target, 0);
    k := Machine(c, env);
    hide Mover, k.Run, k.Next, TicksDue, k.c.Watch, k.c.Accepts, k.c.graph.Indexed, k.c.MayMove, Launched, IsDormant,
      PushAll;
    var ticked := Launched(c.payload) + [Act(Deliver(TimerTickMsg), 0)];
    LaunchIsDormant(k, target, 0);
    RunSnoc(k, Launched(c.payload), Act(Deliver(TimerTickMsg), 0));
    DormantTick(k, k.Run(Launched(c.payload)), target, 0);
    RunSnoc(k, ticked, Act(Deliver(TransitionMsg(event, c.payload)), 2));
    DormantMove(k, k.Run(ticked), event, target, 0);
    k.c.MonitorCounts(k.Run(TickedThenMoved(event, c.payload)).journal);
  }

  /**
   Running instances always have their next tick due exactly when they are not supervised, or no
   dormant instance can move without being terminated.
   */
  lemma TimerTicksExactlyWhen<S(!new), E(!new), P(!new)>(c: Config<S, E, P>)
    requires c.Valid() && c.timer
    ensures AlwaysTicks(c) <==> !c.supervised || NoLiveMove(c)
  {
    if c.supervised && !NoLiveMove(c) {
      var event, target :|
        c.MayMove(c.graph.initial, event, target) && !(c.autoTerminate && c.graph.IsFinal(target));
      var k := TimerStops(c, event, target);
      assert k == Machine(c, k.env) && !TicksWhileRunning(k, TickedThenMoved(event, c.payload));
    } else {
      forall env: Environment<S, E, P>, steps: seq<Step<E, P>> ensures TicksWhileRunning(Machine(c, env), steps) {
        var k := Machine(c, env);
        hide k.Run, TicksDue, k.c.Watch, NoLiveMove, k.c.graph.Indexed;
        if k.Run(steps).up && k.Run(steps).state.lifecycle == Running {
          RestingSleeper(k, steps);
          TimerKeepsTicking(k, steps);
        }
      }
    }
  }

  // ---- The cache ------------------------------------------------------------------------------

  /** The incarnation has cached something. */
  ghost predicate HasCached<S(!new), E(!new), P>(k: Machine<S, E, P>, w: World<S, E, P>) {
    k.c.Watch(w.journal).cached.Some?
  }

  /** Every incarnation caches something before its first message: at birth, or after a first hard event. */
  ghost predicate CachesAtOnce<S(!new), E(!new), P>(c: Config<S, E, P>)
    requires c.Valid()
  {
    !c.supervised || FirstHard(c.graph.EventsFor(c.graph.initial)).Some?
  }

  /** The incarnation has cached something, unless it does not do so at once and is still dormant. */
  ghost predicate IsNoted<S(!new), E(!new), P>(k: Machine<S, E, P>, w: World<S, E, P>)
    requires k.c.Valid()
  {
    HasCached(k, w) || (w.state.lifecycle == Created && !CachesAtOnce(k.c))
  }

  lemma BeginningCaches<S(!new), E(!new), P>(k: Machine<S, E, P>, w: World<S, E, P>, payload: P, fuel: nat)
    requires k.c.Valid() && k.c.Accepts(w.journal)
    ensures var (v, ending) := k.Started(k.Incarnate(w, payload).(up := true), fuel);
            ending != OutOfFuel ==> IsNoted(k, v)
  {
    hide k.c.Accepts, k.c.Watch, k.DoTransition, k.Awaken, PushAll, Pushed, k.c.graph.Indexed;
    IncarnateFollows(k, w, payload);
    var born := k.Incarnate(w, payload).(up := true);
    var timed := if k.c.timer then k.Emit(born, Scheduled) else born;
    if k.c.timer {
      ScheduleFollows(k, born, k.c.Watch(born.journal));
    }
    var hard := k.HardEvent(timed.state.current);
    if hard.Some? {
      DoTransitionFollows(k, timed, k.c.Watch(timed.journal), hard.value, timed.state.payload, fuel);
    } else if !k.c.supervised || (k.c.persistent && k.c.Watch(w.journal).stored.Some?) {
      AwakeBirth(k, w, payload);
    }
  }

  lemma AwakeBirth<S(!new), E(!new), P>(k: Machine<S, E, P>, w: World<S, E, P>, payload: P)
    requires k.c.Valid() && k.c.Accepts(w.journal)
    requires !k.c.supervised || (k.c.persistent && k.c.Watch(w.journal).stored.Some?)
    ensures HasCached(k, k.Incarnate(w, payload))
  {
    hide k.c.Accepts, k.c.Watch, k.Awaken, PushAll, Pushed, k.c.graph.Indexed;
    var m := k.c.Watch(w.journal);
    if k.c.persistent && m.stored.Some? {
      AwakenFollows(k, w, m.stored.value.0, m.stored.value.1, k.c.BirthLife(m));
    } else {
      AwakenFollows(k, w, k.c.graph.initial, payload, Created);
    }
  }

  lemma TickCaches<S(!new), E(!new), P>(k: Machine<S, E, P>, w: World<S, E, P>, fuel: nat)
    requires k.c.Valid() && AtRest(k, w) && k.c.Watch(w.journal).phase.Ready? && k.c.Watch(w.journal).pending > 0
    requires IsNoted(k, w)
    ensures var (v, ending) := k.HandleMessage(w, TimerTickMsg, fuel);
            ending != OutOfFuel ==> IsNoted(k, v)
  {
    hide k.c.Accepts, k.c.Watch, k.DoTransition, CachesAtOnce, PushAll, Pushed, k.c.graph.Indexed;
    var m := k.c.Watch(w.journal);
    TickFollows(k, w, m);
    var ticked := k.Emit(w, Ticked);
    var polled := k.Call(ticked, OnTimer(ticked.state.current, ticked.state.payload));
    var answer := k.env.poll(polled.journal);
    if answer.Some? {
      DoTransitionFollows(k, polled, k.c.Watch(polled.journal), answer.value.0, answer.value.1, fuel);
    }
    var after := k.HandleTimerTick(ticked, fuel).0;
    SnocWatches(k.c, after.journal, Scheduled);
  }

  lemma PerformCaches<S(!new), E(!new), P>(k: Machine<S, E, P>, w: World<S, E, P>, action: Action<E, P>, fuel: nat)
    requires k.c.Valid() && Safe(k, w) && (w.up ==> IsNoted(k, w)) && k.Enabled(w, action)
    ensures var (v, ending) := k.Perform(w, action, fuel);
            ending != OutOfFuel && v.up ==> IsNoted(k, v)
  {
    hide k.c.Accepts, k.c.Watch, k.HandleMessage, k.Started, k.Incarnate, k.Seed, IsNoted, Coherent, k.c.graph.Indexed,
      PushAll;
    match action {
      case Launch(payload) =>
        if k.c.supervised { SeedFollows(k, w); }
        BeginningCaches(k, if k.c.supervised then k.Seed(w) else w, payload, fuel);
      case Restart => BeginningCaches(k, w, k.c.payload, fuel);
      case Deliver(TimerTickMsg) => TickCaches(k, w, fuel);
      case Deliver(message) =>
        MessageMirrors(k, w, message, fuel);
        MirrorIsCached(k, k.HandleMessage(w, message, fuel).0);
      case Stop =>
    }
  }

  lemma MirrorIsCached<S(!new), E(!new), P>(k: Machine<S, E, P>, w: World<S, E, P>)
    requires k.c.Valid()
    ensures Mirrored(k, w) ==> IsNoted(k, w)
  {
  }

  lemma {:induction false} RunCaches<S(!new), E(!new), P>(k: Machine<S, E, P>, steps: seq<Step<E, P>>)
    requires k.c.Valid()
    ensures k.Run(steps).up ==> IsNoted(k, k.Run(steps))
  {
    hide k.Perform, k.Enabled, IsNoted, k.c.graph.Indexed;
    if steps != [] {
      var n := |steps| - 1;
      RunCaches(k, steps[..n]);
      EveryRunIsSafe(k, steps[..n]);
      if k.Enabled(k.Run(steps[..n]), steps[n].action) {
        PerformCaches(k, k.Run(steps[..n]), steps[n].action, steps[n].fuel);
      }
    }
  }

  /** What others find in the cache is the instance as it is, but for payload edits of on_timer. */
  ghost predicate IsShown<S(!new), E(!new), P>(k: Machine<S, E, P>, steps: seq<Step<E, P>>)
    requires k.c.Valid()
  {
    var w, entry := k.Run(steps), CachedOf(k.Run(steps).journal);
    w.up ==> entry.Some? && entry.value.(payload := w.state.payload) == w.state
  }

  /** Whatever the callbacks do, the cache shows every instance as it is between messages. */
  ghost predicate AlwaysShown<S(!new), E(!new), P(!new)>(c: Config<S, E, P>)
    requires c.Valid()
  {
    forall env: Environment<S, E, P>, steps: seq<Step<E, P>> :: IsShown(Machine(c, env), steps)
  }

  /**
   The cache shows every instance as it is exactly when none is supervised, or the initial state has
   a hard event, whose attempt caches a dormant instance before its first message.
   */
  lemma ShownExactlyWhen<S(!new), E(!new), P(!new)>(c: Config<S, E, P>)
    requires c.Valid()
    ensures AlwaysShown(c) <==> CachesAtOnce(c)
  {
    if CachesAtOnce(c) {
      forall env: Environment<S, E, P>, steps: seq<Step<E, P>> ensures IsShown(Machine(c, env), steps) {
        var k := Machine(c, env);
        hide k.Run, k.c.Watch, CachedOf, CachesAtOnce, k.c.graph.Indexed;
        if k.Run(steps).up {
          RunCaches(k, steps);
          CacheIsCoherent(k, steps);
        }
      }
    } else {
      var env: Environment<S, E, P> := Mover(c, c.graph.initial, 2);
      var k := Machine(c, env);
      hide Mover, k.Run, k.c.Watch, CachedOf, k.c.graph.Indexed;
      LaunchIsDormant(k, c.graph.initial, 2);
      assert !IsShown(k, Launched(c.payload));
    }
  }

  // ---- Stale entries --------------------------------------------------------------------------

  /** Launched dormant, moved, lost in a crash when idle, and restarted. */
  function LostAndRestarted<E, P>(event: E, payload: P, cut: nat): seq<Step<E, P>> {
    MovedAndLost(event, payload, cut) + [Act(Restart, 1)]
  }

  function Moved<E, P>(event: E, payload: P): seq<Step<E, P>> {
    Launched(payload) + [Act(Deliver(TransitionMsg(event, payload)), 2)]
  }

  function MovedAndLost<E, P>(event: E, payload: P, cut: nat): seq<Step<E, P>> {
    Moved(event, payload) + [Crash(Stop, 0, cut)]
  }

  /**
   A restart that recovers nothing: the cache goes on showing the incarnation that was lost, as
   running in the state it had moved to, while the new one is in the initial state and not running.
   */
  lemma StaleEntry<S(!new), E(!new), P>(c: Config<S, E, P>, event: E, target: S)
    returns (k: Machine<S, E, P>, lost: World<S, E, P>, cut: nat)
    requires c.Valid() && c.supervised && !c.persistent && FirstHard(c.graph.EventsFor(c.graph.initial)).None?
    requires c.MayMove(c.graph.initial, event, target) && !(c.autoTerminate && c.graph.IsFinal(target))
    ensures k.c == c && lost == k.Run(Moved(event, c.payload))
    ensures lost.up && lost.state.current == target && lost.state.lifecycle == Running
    ensures var w := k.Run(LostAndRestarted(event, c.payload, cut));
            && w.up && w.state.current == c.graph.initial && w.state.lifecycle == Created
            && CachedOf(w.journal) == Some(lost.state)
  {
    var ticks := if c.timer then 1 else 0;
    var env: Environment<S, E, P> := Mover(c, target, ticks);
    k := Machine(c, env);
    hide Mover, k.Run, k.Next, k.c.Watch, k.c.Accepts, k.c.graph.Indexed, k.c.MayMove, Launched, IsDormant, PushAll,
      CachedOf;
    LaunchIsDormant(k, target, ticks);
    RunSnoc(k, Launched(c.payload), Act(Deliver(TransitionMsg(event, c.payload)), 2));
    DormantMove(k, k.Run(Launched(c.payload)), event, target, ticks);
    lost := k.Run(Moved(event, c.payload));
    cut := |lost.journal|;
    EveryRunIsSafe(k, Moved(event, c.payload));
    RunSnoc(k, Moved(event, c.payload), Crash(Stop, 0, cut));
    LostInIdleness(k, lost);
    RunSnoc(k, MovedAndLost(event, c.payload, cut), Act(Restart, 1));
    RestartIsDormant(k, lost.(up := false), target, ticks);
  }

  lemma LostInIdleness<S(!new), E(!new), P>(k: Machine<S, E, P>, w: World<S, E, P>)
    requires k.c.Valid() && Safe(k, w) && w.up
    ensures k.Next(w, Crash(Stop, 0, |w.journal|)) == w.(up := false)
  {
    hide k.c.Watch, k.c.Accepts, k.Perform, PushAll, k.c.graph.Indexed;
    PerformFollows(k, w, Stop, 0);
  }

  lemma RestartIsDormant<S(!new), E(!new), P>(k: Machine<S, E, P>, w: World<S, E, P>, target: S, ticks: nat)
    requires k.c.Valid() && k.c.supervised && !k.c.persistent && k.c.Accepts(w.journal) && !w.up
    requires k.env == Mover(k.c, target, ticks) && FirstHard(k.c.graph.EventsFor(k.c.graph.initial)).None?
    ensures var v := k.Next(w, Act(Restart, 1));
            IsDormant(k, v) && CachedOf(v.journal) == CachedOf(w.journal)
  {
    BornDormant(k, w, k.c.payload);
    hide IsDormant, k.Incarnate, k.Started, k.c.Watch, k.c.Accepts, k.c.graph.Indexed, CachedOf;
    BeginsDormant(k, k.Incarnate(w, k.c.payload).(up := true), target, ticks);
  }

  /** One transition, by which a dormant instance can move to where it lives on. */
  const ONE_STEP: seq<Transition<int, int>> := [Transition(0, [1], 7, Normal)]

  lemma OneStepMoves<P>(c: Config<int, int, P>)
    requires c.Valid() && c.graph.transitions == ONE_STEP
    ensures c.MayMove(0, 7, 1) && FirstHard(c.graph.EventsFor(0)).None?
  {
    c.graph.AllowedIsScan(0, 7);
    c.graph.EventsForIsFilter(0);
    assert ONE_STEP[1..] == [] && Outgoing(ONE_STEP, 0) == [(7, Normal)] + Outgoing(ONE_STEP[1..], 0);
    assert FirstHard([(7, Normal)]) == FirstHard([(7, Normal)][1..]);
  }

  /** The cache shows state 1, running, of an instance that is in state 0 and is not running. */
  lemma StaleExample<P>(c: Config<int, int, P>) returns (k: Machine<int, int, P>, cut: nat)
    requires c.Valid() && c.supervised && !c.persistent && !c.autoTerminate
    requires c.graph.initial == 0 && c.graph.transitions == ONE_STEP
    ensures k.c == c
    ensures var w := k.Run(LostAndRestarted(7, c.payload, cut));
            && w.up && w.state.current == 0 && w.state.lifecycle == Created
            && CachedOf(w.journal).Some? && CachedOf(w.journal).value.current == 1 && EntryRuns(w.journal)
  {
    hide k.Run, LostAndRestarted, CachedOf;
    OneStepMoves(c);
    var lost;
    k, lost, cut := StaleEntry(c, 7, 1);
  }

  /** Launched, ticked and moved, an instance runs in state 1 with no tick due. */
  lemma TimerExample<P>(c: Config<int, int, P>) returns (k: Machine<int, int, P>)
    requires c.Valid() && c.supervised && c.timer && !c.autoTerminate
    requires c.graph.initial == 0 && c.graph.transitions == ONE_STEP
    ensures k.c == c
    ensures var w := k.Run(TickedThenMoved(7, c.payload));
            w.up && w.state.current == 1 && w.state.lifecycle == Running && TicksDue(w.journal) == 0
  {
    hide k.Run, TickedThenMoved, TicksDue;
    OneStepMoves(c);
    k := TimerStops(c, 7, 1);
  }

  // ---- Whether an instance is alive -----------------------------------------------------------

  /** With a store, or where no dormant instance ever runs, an entry that runs is one that is recovered. */
  lemma {:induction false} RunningEntryIsStored<S(!new), E(!new), P>(c: Config<S, E, P>, j: Journal<S, E, P>)
    requires c.Valid() && c.supervised && (c.persistent || NoLiveMove(c)) && c.Accepts(j)
    ensures EntryRuns(j) ==> c.persistent && c.Watch(j).stored.Some?
  {
    if j != [] {
      var n := |j| - 1;
      RunningEntryIsStored(c, j[..n]);
      c.AcceptedIsSane(j[..n]);
      AcceptedSleeps(c, j[..n]);
      hide c.Accepts, c.Watch, NoLiveMove, c.graph.Indexed, c.graph.Allowed;
      StepStores(c, c.Watch(j[..n]), j[n]);
      if j[n].Cached? && j[n].snapshot.lifecycle == Running {
        CachedRunningIsStored(c, c.Watch(j[..n]), j[n].snapshot);
      }
    }
  }

  lemma CachedRunningIsStored<S(!new), E(!new), P>(c: Config<S, E, P>, m: Monitor<S, E, P>, v: Snapshot<S, P>)
    requires c.Valid() && c.supervised && (c.persistent || NoLiveMove(c)) && c.Sane(m) && Sleeps(c, m)
    requires c.Legal(m, Cached(v)) && v.lifecycle == Running
    ensures c.persistent && m.stored.Some?
  {
    hide NoLiveMove, PushAll, c.graph.Indexed, c.graph.Allowed;
  }

  lemma StepKeepsAwake<S(!new), E(!new), P>(c: Config<S, E, P>, m: Monitor<S, E, P>, x: Effect<S, E, P>)
    requires c.Valid() && c.Legal(m, x)
    ensures c.Advance(m, x).awake == if x.Born? then c.BornAwake(m) else m.awake
    ensures m.phase.Absent? && !x.Born? ==> c.Advance(m, x).phase.Absent?
  {
    hide c.graph.Indexed, c.graph.Allowed, PushAll;
  }

  /** An incarnation that was not born awake had nothing to recover. */
  lemma {:induction false} DormantBirth<S(!new), E(!new), P>(c: Config<S, E, P>, j: Journal<S, E, P>)
    requires c.Valid() && c.Accepts(j)
    ensures c.Accepts(BeforeBirth(j))
    ensures !c.Watch(j).awake && !c.Watch(j).phase.Absent? ==> !c.BornAwake(c.Watch(BeforeBirth(j)))
  {
    if j != [] {
      var n := |j| - 1;
      DormantBirth(c, j[..n]);
      StepKeepsAwake(c, c.Watch(j[..n]), j[n]);
      hide c.Legal, c.Advance, c.BornAwake;
    }
  }

  /** The cache tells whether the instance is running. */
  ghost predicate IsAliveRight<S(!new), E(!new), P>(k: Machine<S, E, P>, steps: seq<Step<E, P>>)
    requires k.c.Valid()
  {
    k.Run(steps).up ==> (EntryRuns(k.Run(steps).journal) <==> k.Run(steps).state.lifecycle == Running)
  }

  ghost predicate AlwaysAliveRight<S(!new), E(!new), P(!new)>(c: Config<S, E, P>)
    requires c.Valid()
  {
    forall env: Environment<S, E, P>, steps: seq<Step<E, P>> :: IsAliveRight(Machine(c, env), steps)
  }

  /** No entry of an incarnation that ran can outlive it unless that incarnation is recovered. */
  ghost predicate LeavesNoGhosts<S(!new), E(!new), P>(c: Config<S, E, P>)
    requires c.Valid()
  {
    CachesAtOnce(c) || c.persistent || NoLiveMove(c)
  }

  lemma GhostlessIsRight<S(!new), E(!new), P>(k: Machine<S, E, P>, steps: seq<Step<E, P>>)
    requires k.c.Valid() && LeavesNoGhosts(k.c)
    ensures IsAliveRight(k, steps)
  {
    hide k.Run, k.c.Watch, k.c.Accepts, CachedOf, CachesAtOnce, NoLiveMove, k.c.graph.Indexed;
    var w := k.Run(steps);
    if w.up {
      RunCaches(k, steps);
      CacheIsCoherent(k, steps);
      if !HasCached(k, w) {
        EveryRunIsSafe(k, steps);
        RestingSleeper(k, steps);
        DormantBirth(k.c, w.journal);
        NotAtOnce(k.c);
        RunningEntryIsStored(k.c, BeforeBirth(w.journal));
      }
    }
  }

  lemma NotAtOnce<S(!new), E(!new), P>(c: Config<S, E, P>)
    requires c.Valid()
    ensures !CachesAtOnce(c) ==> c.supervised
  {
  }

  /**
   The cache always tells rightly whether an instance is running, exactly when instances cache at
   once, or have a store to be recovered from, or never run if they were born dormant.
   */
  lemma AliveIsRightExactlyWhen<S(!new), E(!new), P(!new)>(c: Config<S, E, P>)
    requires c.Valid()
    ensures AlwaysAliveRight(c) <==> LeavesNoGhosts(c)
  {
    if LeavesNoGhosts(c) {
      forall env: Environment<S, E, P>, steps: seq<Step<E, P>> ensures IsAliveRight(Machine(c, env), steps) {
        GhostlessIsRight(Machine(c, env), steps);
      }
    } else {
      var event, target :|
        c.MayMove(c.graph.initial, event, target) && !(c.autoTerminate && c.graph.IsFinal(target));
      var k, lost, cut := StaleEntry(c, event, target);
      assert k == Machine(c, k.env) && !IsAliveRight(k, LostAndRestarted(event, c.payload, cut));
    }
  }
}
