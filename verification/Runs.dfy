/** Every run of an instance, with crashes at any point, keeps to the protocol; what follows from that. */
module Runs {
  import opened Wrappers
  import opened History
  import opened States
  import opened Protocol
  import opened Machines
  import opened Conformance

  // ---- Births and stops -------------------------------------------------------------------

  lemma FreshHistory<S, P>(s: S, payload: P)
    ensures FreshSnapshot(s, payload).history == PushAll(HISTORY_SIZE, [s])
  {
    assert [s][..0] == [];
  }

  lemma BirthFollows<S(!new), E(!new), P>(k: Machine<S, E, P>, w: World<S, E, P>, s: S, payload: P, awake: bool,
      life: Lifecycle)
    requires k.c.Valid() && k.c.Accepts(w.journal)
    requires k.c.Legal(k.c.Watch(w.journal), Born(s, payload, awake, life))
    ensures var x := Born(s, payload, awake, life);
            var born := k.Emit(w.(state := FreshSnapshot(s, payload).(lifecycle := life)), x);
            Linked(k, born, k.c.Advance(k.c.Watch(w.journal), x)) && Extends(w, born)
  {
    hide k.c.Accepts, k.c.graph.Indexed, k.c.graph.Allowed, PushAll, k.c.Watch;
    k.c.Snoc(w.journal, Born(s, payload, awake, life));
    FreshHistory(s, payload);
  }

  lemma WakingFollows<S(!new), E(!new), P>(k: Machine<S, E, P>, w: World<S, E, P>, m: Monitor<S, E, P>, payload: P)
    requires k.c.Valid() && Linked(k, w, m) && m.phase.Waking? && m.open.None?
    ensures var greeted := k.Enter(k.Call(w, OnStart(payload)), m.current);
            Linked(k, greeted, m.(phase := Greeted, open := Some(m.current))) && Extends(w, greeted)
  {
    hide k.c.Accepts, k.c.graph.Indexed, k.c.graph.Allowed, PushAll, Pushed, k.c.Watch;
    var started := k.Call(w, OnStart(payload));
    Follow(k, w, m, OnStart(payload), started);
    Follow(k, started, m.(phase := Started), OnEnter(m.current, started.state.payload), k.Enter(started, m.current));
  }

  lemma AwakenFollows<S(!new), E(!new), P>(k: Machine<S, E, P>, w: World<S, E, P>, s: S, payload: P, life: Lifecycle)
    requires k.c.Valid() && k.c.Accepts(w.journal)
    requires k.c.Legal(k.c.Watch(w.journal), Born(s, payload, true, life))
    ensures var awake := k.Awaken(w, s, payload, life);
            var m' := k.c.Watch(awake.journal);
            && Linked(k, awake, m') && Extends(w, awake) && Mirrored(k, awake)
            && m'.phase.Ready? && m'.pending == 0 && awake.state.current == s
  {
    hide k.c.Accepts, k.c.Watch, k.c.Legal, k.Enter, k.Call, PushAll, Pushed, k.c.graph.Indexed, k.c.graph.Allowed;
    var m := k.c.Advance(k.c.Watch(w.journal), Born(s, payload, true, life));
    var born := k.Emit(w.(state := FreshSnapshot(s, payload).(lifecycle := life)), Born(s, payload, true, life));
    BirthFollows(k, w, s, payload, true, life);
    var greeted := k.Enter(k.Call(born, OnStart(payload)), s);
    WakingFollows(k, born, m, payload);
    var m1 := m.(phase := Greeted, open := Some(s));
    RunningFollows(k, greeted, m1);
    var running := k.Turn(greeted, Running);
    CacheFollows(k, running, m1.(phase := Ready, life := Running));
    ExtendsTrans(w, born, greeted);
    ExtendsTrans(w, greeted, running);
    ExtendsTrans(w, running, k.Cache(running));
  }

  lemma RunningFollows<S(!new), E(!new), P>(k: Machine<S, E, P>, w: World<S, E, P>, m: Monitor<S, E, P>)
    requires k.c.Valid() && Linked(k, w, m) && m.phase.Greeted?
    ensures Linked(k, k.Turn(w, Running), m.(phase := Ready, life := Running)) && Extends(w, k.Turn(w, Running))
  {
    hide k.c.Accepts, k.c.graph.Indexed, k.c.graph.Allowed, PushAll, Pushed, k.c.Watch;
    Follow(k, w, m, Turned(Running), k.Turn(w, Running));
  }

  /** A new incarnation is ready, in the recovery point, and mirrored if it began awake. */
  lemma IncarnateFollows<S(!new), E(!new), P>(k: Machine<S, E, P>, w: World<S, E, P>, payload: P)
    requires k.c.Valid() && k.c.Accepts(w.journal)
    ensures var born := k.Incarnate(w, payload);
            var m' := k.c.Watch(born.journal);
            && Linked(k, born, m') && Extends(w, born) && Coherent(born, m')
            && m'.phase.Ready? && m'.pending == 0
            && born.state.current == k.c.RecoveryPoint(k.c.Watch(w.journal))
  {
    hide k.c.Accepts, k.c.Watch, k.Awaken, PushAll, Pushed, k.c.graph.Indexed, k.c.graph.Allowed;
    var m := k.c.Watch(w.journal);
    if k.c.persistent && m.stored.Some? {
      AwakenFollows(k, w, m.stored.value.0, m.stored.value.1, k.c.BirthLife(m));
    } else if k.c.supervised {
      BirthFollows(k, w, k.c.graph.initial, k.c.payload, false, Created);
    } else {
      AwakenFollows(k, w, k.c.graph.initial, payload, Created);
    }
  }

  lemma SeedFollows<S(!new), E(!new), P>(k: Machine<S, E, P>, w: World<S, E, P>)
    requires k.c.Valid() && k.c.Accepts(w.journal) && k.c.supervised
    ensures k.c.Accepts(k.Seed(w).journal) && Extends(w, k.Seed(w))
    ensures k.c.RecoveryPoint(k.c.Watch(k.Seed(w).journal)) == k.c.RecoveryPoint(k.c.Watch(w.journal))
  {
    hide k.c.Accepts, k.c.graph.Indexed, k.c.graph.Allowed, PushAll, Pushed;
    k.c.Snoc(w.journal, Seeded(k.c.graph.initial, k.c.payload));
  }

  /** Between messages, an instance that runs is ready, and one that has halted is terminated. */
  lemma RestingLife<S(!new), E(!new), P>(k: Machine<S, E, P>, w: World<S, E, P>)
    requires k.c.Valid() && AtRest(k, w)
    ensures var m := k.c.Watch(w.journal);
            && (w.state.lifecycle == Running ==> m.phase.Ready?)
            && (m.halted <==> w.state.lifecycle == Terminated)
            && m.terminations == (if m.halted then 1 else 0)
            && (k.c.autoTerminate && m.moved && !m.halted ==> !k.c.graph.IsFinal(w.state.current))
            && (w.state.lifecycle == Running || w.state.lifecycle == Created || m.halted)
  {
    LinkedIsSane(k, w, k.c.Watch(w.journal));
    hide k.c.Accepts, k.c.Watch;
  }

  lemma DropFollows<S(!new), E(!new), P>(k: Machine<S, E, P>, w: World<S, E, P>, m: Monitor<S, E, P>)
    requires k.c.Valid() && Linked(k, w, m) && m.phase.Ready? && m.life == Running
    ensures var turned := k.Turn(w, Terminated);
            var dropped := k.Call(turned, OnTerminate(turned.state.payload));
            && Linked(k, dropped, m.(phase := Closed, life := Terminated, terminations := m.terminations + 1))
            && Extends(w, dropped)
  {
    hide k.c.Accepts, k.c.graph.Indexed, k.c.graph.Allowed, PushAll, Pushed, k.c.Watch;
    var turned := k.Turn(w, Terminated);
    Follow(k, w, m, Turned(Terminated), turned);
    FarewellFollows(k, turned, m.(phase := Dropping, life := Terminated));
  }

  lemma StoppedFollows<S(!new), E(!new), P>(k: Machine<S, E, P>, w: World<S, E, P>)
    requires k.c.Valid() && AtRest(k, w)
    ensures k.c.Accepts(k.Stopped(w).journal) && Extends(w, k.Stopped(w))
    ensures w.state.lifecycle == Running ==>
              k.c.Watch(k.Stopped(w).journal).terminations == 1 && Mirrored(k, k.Stopped(w))
  {
    hide k.c.Accepts, k.c.Watch, k.c.Legal, k.c.Advance, k.Turn, k.Call, PushAll, Pushed, k.c.graph.Indexed, Coherent;
    RestingLife(k, w);
    if w.state.lifecycle == Running {
      var m := k.c.Watch(w.journal);
      DropFollows(k, w, m);
      var turned := k.Turn(w, Terminated);
      var dropped := k.Call(turned, OnTerminate(turned.state.payload));
      CacheFollows(k, dropped, m.(phase := Closed, life := Terminated, terminations := m.terminations + 1));
      ExtendsTrans(w, dropped, k.Cache(dropped));
    }
  }

  // ---- Runs -------------------------------------------------------------------------------

  /** What holds between any two steps of any run. */
  ghost predicate Safe<S(!new), E(!new), P>(k: Machine<S, E, P>, w: World<S, E, P>)
    requires k.c.Valid()
  {
    k.c.Accepts(w.journal) && (w.up ==> AtRest(k, w))
  }

  lemma PerformFollows<S(!new), E(!new), P>(k: Machine<S, E, P>, w: World<S, E, P>, action: Action<E, P>, fuel: nat)
    requires k.c.Valid() && Safe(k, w) && k.Enabled(w, action)
    ensures var (w', ending) := k.Perform(w, action, fuel);
            && k.c.Accepts(w'.journal) && w.journal <= w'.journal
            && (ending != OutOfFuel ==> Safe(k, w'))
  {
    hide k.c.Accepts, k.c.Watch, k.Started, k.HandleMessage, k.Stopped, k.Incarnate, k.Seed, PushAll, Pushed,
      k.c.graph.Indexed, k.c.graph.Allowed;
    match action {
      case Launch(payload) =>
        if k.c.supervised { SeedFollows(k, w); }
        var seeded := if k.c.supervised then k.Seed(w) else w;
        BeginFollows(k, seeded, payload, fuel);
      case Restart => BeginFollows(k, w, k.c.payload, fuel);
      case Deliver(message) => MessageFollows(k, w, message, fuel);
      case Stop => StoppedFollows(k, w);
    }
  }

  lemma BeginFollows<S(!new), E(!new), P>(k: Machine<S, E, P>, w: World<S, E, P>, payload: P, fuel: nat)
    requires k.c.Valid() && k.c.Accepts(w.journal)
    ensures var (w', ending) := k.Started(k.Incarnate(w, payload).(up := true), fuel);
            && k.c.Accepts(w'.journal) && w.journal <= w'.journal
            && (ending != OutOfFuel ==> AtRest(k, w'))
  {
    hide k.c.Accepts, k.c.Watch, k.Started, k.Incarnate, PushAll, Pushed, k.c.graph.Indexed, k.c.graph.Allowed;
    IncarnateFollows(k, w, payload);
    var born := k.Incarnate(w, payload).(up := true);
    StartedFollows(k, born, k.c.Watch(born.journal), fuel);
  }

  lemma NextIsSafe<S(!new), E(!new), P>(k: Machine<S, E, P>, w: World<S, E, P>, step: Step<E, P>)
    requires k.c.Valid() && Safe(k, w)
    ensures Safe(k, k.Next(w, step)) && (!step.Crash? ==> w.journal <= k.Next(w, step).journal)
  {
    hide k.c.Accepts, k.c.Watch, k.Perform, PushAll, Pushed, k.c.graph.Indexed, k.c.graph.Allowed;
    if k.Enabled(w, step.action) {
      var (after, ending) := k.Perform(w, step.action, step.fuel);
      PerformFollows(k, w, step.action, step.fuel);
      if step.Crash? && |w.journal| <= step.cut <= |after.journal| {
        k.c.AcceptsPrefix(after.journal, step.cut);
      }
    }
  }

  /** Every world any run can reach is safe, wherever crashes struck on the way. */
  lemma {:induction false} EveryRunIsSafe<S(!new), E(!new), P>(k: Machine<S, E, P>, steps: seq<Step<E, P>>)
    requires k.c.Valid()
    ensures Safe(k, k.Run(steps))
  {
    if steps != [] {
      EveryRunIsSafe(k, steps[..|steps| - 1]);
      NextIsSafe(k, k.Run(steps[..|steps| - 1]), steps[|steps| - 1]);
    }
  }

  lemma RunSnoc<S(!new), E(!new), P>(k: Machine<S, E, P>, steps: seq<Step<E, P>>, step: Step<E, P>)
    requires k.c.Valid()
    ensures k.Run(steps + [step]) == k.Next(k.Run(steps), step)
  {
    assert (steps + [step])[..|steps|] == steps;
  }
}
