/** The actor that owns one instance: it handles messages one at a time. */
module Actors {
  import opened Wrappers
  import opened Graphs
  import opened States
  import opened Protocol
  import opened Machines
  import opened Services
  import opened Engine
  import opened Traces
  import opened Conformance
  import opened Guarantees
  import opened Dormancy

  class FsmActor<S(==, !new), E(==, !new), P> {
    const name: string
    const graph: TransitionGraph<S, E>
    const outside: Outside<S, E, P>
    const cache: StateCache<S, P>
    const ctx: TransitContext<S, P>
    const timer: bool
    const recoverOnStart: bool
    const defaultPayload: P
    var state: FsmState<S, P>

    /** The machine that specifies this actor. */
    ghost function Model(): Machine<S, E, P> {
      var config :=
        Config(graph, defaultPayload, ctx.persistency != null, ctx.listening, ctx.autoTerminate, timer, recoverOnStart);
      Machine(config, outside.env)
    }

    ghost predicate Valid()
      reads this, state, state.history, outside, cache, ctx.Repr()
    {
      && graph.Indexed() && state.Valid() && state.name == name
      && ctx.Reflects(name, outside.journal) && cache.Reflects(name, outside.journal)
    }

    ghost function Now(): World<S, E, P>
      reads this, state, state.history, outside
    {
      Engine.Now(state, outside)
    }

    /** Only this instance's entries in the store and the cache may have changed. */
    twostate predicate KeepsOthers()
      reads cache, ctx.Repr()
    {
      && ctx.KeepsOthers(name)
      && cache.entries - {name} == old(cache.entries) - {name}
    }

    /** An actor around an instance that is there already, or that `Started` is to recover. */
    constructor (name: string, graph: TransitionGraph<S, E>, outside: Outside<S, E, P>, state: FsmState<S, P>,
        cache: StateCache<S, P>, ctx: TransitContext<S, P>, timer: bool, recoverOnStart: bool, defaultPayload: P)
      ensures this.name == name && this.graph == graph && this.outside == outside && this.state == state
      ensures this.cache == cache && this.ctx == ctx && this.timer == timer
      ensures this.recoverOnStart == recoverOnStart && this.defaultPayload == defaultPayload
    {
      this.name := name;
      this.graph := graph;
      this.outside := outside;
      this.state := state;
      this.cache := cache;
      this.ctx := ctx;
      this.timer := timer;
      this.recoverOnStart := recoverOnStart;
      this.defaultPayload := defaultPayload;
    }

    method UpdateCache()
      requires Valid()
      modifies outside, cache
      ensures Valid() && KeepsOthers()
      ensures Now() == Model().Cache(old(Now()))
    {
      cache.Update(name, state.View());
      outside.Note(Cached(state.View()));
    }

    /** The first hard event among the labels, in order. */
    static method FindHard(labels: seq<(E, EventKind)>) returns (r: Option<E>)
      ensures r == FirstHard(labels)
    {
      for i := 0 to |labels|
        invariant FirstHard(labels) == FirstHard(labels[i..])
      {
        if labels[i].1 == Hard {
          return Some(labels[i].0);
        }
      }
      r := None;
    }

    /** One attempt, whose result is cached whatever it is. */
    method Attempt(event: E, eventPayload: P) returns (r: Result<Outcome, ErrorStage>)
      requires Valid()
      modifies outside, state, state.history, cache, ctx.Repr()
      ensures Valid() && KeepsOthers()
      ensures Now() == Model().Cache(Model().Transit(old(Now()), event, eventPayload).0)
      ensures r == Model().Transit(old(Now()), event, eventPayload).1
    {
      ghost var k := Model();
      hide k.Transit;
      r := Transit(outside, graph, state, event, eventPayload, ctx, k);
      UpdateCache();
    }

    /** Something happens that touches neither the store nor the cache. */
    method Log(x: Effect<S, E, P>)
      requires Valid() && !x.Stored? && !x.Seeded? && !x.Cached?
      modifies outside
      ensures Valid() && Now() == Model().Emit(old(Now()), x)
    {
      outside.Note(x);
    }

    /** A callback is called, and may edit the payload. */
    method Hook(x: Effect<S, E, P>)
      requires Valid() && !x.Stored? && !x.Seeded? && !x.Cached?
      modifies outside, state`payload
      ensures Valid() && Now() == Model().Call(old(Now()), x)
    {
      Visit(outside, state, x, Model());
    }

    /** The lifecycle is assigned. */
    method Turn(life: Lifecycle)
      requires Valid()
      modifies outside, state`lifecycle
      ensures Valid() && Now() == Model().Turn(old(Now()), life)
    {
      state.lifecycle := life;
      outside.Note(Turned(life));
    }

    /** What the machine does where the first hard event of the current state is to be fired. */
    static ghost function Fired(k: Machine<S, E, P>, w: World<S, E, P>, fuel: nat): (World<S, E, P>, Ending)
      requires k.c.Valid()
    {
      match k.HardEvent(w.state.current)
      case None => (w, NoHardEvent)
      case Some(event) => k.DoTransition(w, event, w.state.payload, fuel)
    }

    /** Fires the first hard event of the current state, if there is one. */
    method FireHard(fuel: nat) returns (ending: Ending)
      requires Valid()
      modifies outside, state, state.history, cache, ctx.Repr()
      ensures Valid() && KeepsOthers()
      ensures (Now(), ending) == Fired(Model(), old(Now()), fuel)
      decreases fuel, 1
    {
      ghost var k := Model();
      hide k.DoTransition, FirstHard;
      var hard := FindHard(graph.EventsFor(state.current));
      if hard.None? {
        return NoHardEvent;
      }
      ending := DoTransition(hard.value, state.payload, fuel);
    }

    /**
     A transition and the hard events it triggers, at most `fuel` transitions in all. A chain that
     goes on for ever is exact in every finite part.
     */
    method DoTransition(event: E, eventPayload: P, fuel: nat) returns (ending: Ending)
      requires Valid()
      modifies outside, state, state.history, cache, ctx.Repr()
      ensures Valid() && KeepsOthers()
      ensures (Now(), ending) == Model().DoTransition(old(Now()), event, eventPayload, fuel)
      decreases fuel, 0
    {
      if fuel == 0 {
        return OutOfFuel;
      }
      ghost var k := Model();
      hide k.Transit, k.HardEvent, StoredOf, CachedOf, k.c.graph.Indexed;
      var r := Attempt(event, eventPayload);
      match r {
        case Err(_) => ending := Failed;
        case Ok(AutoTerminate) =>
          Log(Halted);
          ending := Finished;
        case Ok(HardContinue) => ending := FireHard(fuel - 1);
        case Ok(_) => ending := Ending.Settled;
      }
    }

    method HandleTimerTick(fuel: nat) returns (ending: Ending)
      requires Valid()
      modifies outside, state, state.history, cache, ctx.Repr()
      ensures Valid() && KeepsOthers()
      ensures (Now(), ending) == Model().HandleTimerTick(old(Now()), fuel)
      ensures IsPoll(Model(), old(state.View()), |old(outside.journal)|, outside.journal, fuel, ending)
    {
      ghost var k := Model();
      hide k.DoTransition, IsPoll;
      PollShows(k, Now(), fuel);
      Hook(OnTimer(state.current, state.payload));
      var answer := outside.env.poll(outside.journal);
      if answer.None? {
        return Ending.Settled;
      }
      ending := DoTransition(answer.value.0, answer.value.1, fuel);
    }

    /** A tick is received, handled, and followed by another one if the instance is still running. */
    method ReceiveTick(fuel: nat) returns (ending: Ending)
      requires Valid()
      modifies outside, state, state.history, cache, ctx.Repr()
      ensures Valid() && KeepsOthers()
      ensures (Now(), ending) == Model().HandleMessage(old(Now()), TimerTickMsg, fuel)
    {
      ghost var k := Model();
      hide k.HandleTimerTick;
      Log(Ticked);
      ending := HandleTimerTick(fuel);
      if ending != OutOfFuel && timer && state.lifecycle == Running {
        Log(Scheduled);
      }
    }

    method HandleMessage(message: Message<E, P>, fuel: nat) returns (ending: Ending)
      requires Valid()
      modifies outside, state, state.history, cache, ctx.Repr()
      ensures Valid() && KeepsOthers()
      ensures (Now(), ending) == Model().HandleMessage(old(Now()), message, fuel)
      ensures Plays(Model(), old(Now()), Deliver(message), fuel, outside.journal, ending)
    {
      ghost var k := Model();
      ActionShows(k, Now(), Deliver(message), fuel);
      hide Plays;
      hide k.DoTransition, k.HandleTimerTick, k.Terminate;
      match message {
        case TransitionMsg(event, payload) => ending := DoTransition(event, payload, fuel);
        case ShutdownMsg =>
          Terminate(outside, state, k);
          UpdateCache();
          Log(Halted);
          ending := Finished;
        case TimerTickMsg => ending := ReceiveTick(fuel);
      }
    }

    /** The runtime's last call, after the actor has been stopped without a crash. */
    method Stopped()
      requires Valid()
      modifies outside, state`lifecycle, state`payload, cache
      ensures Valid() && KeepsOthers()
      ensures Now() == Model().Stopped(old(Now()))
      ensures Plays(Model(), old(Now()), Stop, 0, outside.journal, Settled)
    {
      ghost var k := Model();
      ActionShows(k, Now(), Stop, 0);
      hide Plays;
      if state.lifecycle == Running {
        hide k.Turn, k.Call, k.Cache;
        Turn(Terminated);
        Hook(OnTerminate(state.payload));
        UpdateCache();
      }
    }

    /** A new incarnation is told that it starts and what it enters, and is cached. */
    method Wake()
      requires Valid()
      requires state.View() == FreshSnapshot(state.current, state.payload).(lifecycle := state.lifecycle)
      modifies outside, state`lifecycle, state`payload, cache
      ensures Valid() && KeepsOthers()
      ensures Now() == Model().Awaken(old(Now()), old(state.current), old(state.payload), old(state.lifecycle))
    {
      ghost var k := Model();
      hide k.Cache, k.Turn;
      Log(Born(state.current, state.payload, true, state.lifecycle));
      Hook(OnStart(state.payload));
      Hook(OnEnter(state.current, state.payload));
      Turn(Running);
      UpdateCache();
    }

    /** What the store holds under this actor's name, if it has a store. */
    method Load() returns (r: Option<(Lifecycle, S, P)>)
      requires Valid()
      ensures ctx.persistency == null ==> r == None
      ensures ctx.persistency != null ==>
                match StoredOf(outside.journal)
                case None => r == None
                case Some((s, p)) => r == Some((Running, s, p))
    {
      if ctx.persistency == null {
        return None;
      }
      r := ctx.persistency.Load(name);
    }

    /** Being born awake replaces whatever state was there. */
    static lemma AwakenIgnoresState(k: Machine<S, E, P>, w: World<S, E, P>, v: World<S, E, P>, s: S, payload: P,
        life: Lifecycle)
      requires w.journal == v.journal && w.up == v.up
      ensures k.Awaken(w, s, payload, life) == k.Awaken(v, s, payload, life)
    {
    }

    /** A restarted instance resumes from what is stored; with nothing stored it is left as it was made. */
    method Recover()
      requires Valid() && recoverOnStart && state.View() == FreshSnapshot(graph.initial, defaultPayload)
      modifies this`state, outside, cache
      ensures Valid() && KeepsOthers() && (state == old(state) || (fresh(state) && fresh(state.history)))
      ensures Now() == Model().Incarnate(old(Now()), defaultPayload)
    {
      ghost var k := Model();
      hide k.c.Watch, k.Awaken;
      StoredIsWatched(k.c, outside.journal);
      var loaded := Load();
      if loaded.Some? {
        Replace(loaded.value.1, loaded.value.2, Loaded);
        AwakenIgnoresState(k, Now(), old(Now()), state.current, state.payload, Loaded);
        Wake();
      } else {
        Log(Born(graph.initial, defaultPayload, false, Created));
      }
    }

    /** The runtime's first call, once the state is there: the first timer tick, the first hard event. */
    method Begin(fuel: nat) returns (ending: Ending)
      requires Valid()
      modifies outside, state, state.history, cache, ctx.Repr()
      ensures Valid() && KeepsOthers()
      ensures (Now(), ending) == Model().Started(old(Now()), fuel)
    {
      ghost var k := Model();
      hide k.DoTransition, k.HardEvent;
      if timer {
        Log(Scheduled);
      }
      ending := FireHard(fuel);
    }

    /** The runtime's first call: recovery where it is asked for, and then the beginning. */
    method Started(fuel: nat) returns (ending: Ending)
      requires Valid()
      requires recoverOnStart ==> state.View() == FreshSnapshot(graph.initial, defaultPayload)
      modifies this`state, outside, state, state.history, cache, ctx.Repr()
      ensures Valid() && KeepsOthers()
      ensures var w := old(Now());
              (Now(), ending) ==
              Model().Started(if recoverOnStart then Model().Incarnate(w, defaultPayload) else w, fuel)
    {
      ghost var k := Model();
      hide k.Started, k.Incarnate;
      if recoverOnStart {
        Recover();
      }
      ending := Begin(fuel);
    }

    /** start_fsm: an unsupervised actor around an instance that is awake when the actor begins. */
    static method StartFsm(name: string, graph: TransitionGraph<S, E>, outside: Outside<S, E, P>,
        cache: StateCache<S, P>, ctx: TransitContext<S, P>, timer: bool, payload: P)
      returns (actor: FsmActor<S, E, P>)
      requires graph.Indexed() && ctx.Reflects(name, outside.journal) && cache.Reflects(name, outside.journal)
      modifies outside, cache
      ensures fresh(actor) && fresh(actor.state) && fresh(actor.state.history)
      ensures actor.Valid() && cache.entries - {name} == old(cache.entries) - {name} && !actor.recoverOnStart
      ensures actor.outside == outside && actor.ctx == ctx && actor.cache == cache
      ensures actor.graph == graph && actor.timer == timer
      ensures var before := World(FreshSnapshot(graph.initial, payload), old(outside.journal), true);
              actor.Now() == actor.Model().Incarnate(before, payload)
    {
      var state := new FsmState<S, P>(name, graph.initial, payload);
      actor := new FsmActor(name, graph, outside, state, cache, ctx, timer, false, payload);
      ghost var k := actor.Model();
      hide k.c.Watch, k.Awaken;
      StoredIsWatched(k.c, outside.journal);
      var loaded := actor.Load();
      if loaded.Some? {
        actor.Replace(loaded.value.1, loaded.value.2, loaded.value.0);
      }
      ghost var before := World(FreshSnapshot(graph.initial, payload), old(outside.journal), true);
      AwakenIgnoresState(k, actor.Now(), before, actor.state.current, actor.state.payload, actor.state.lifecycle);
      actor.Wake();
    }

    method Replace(s: S, payload: P, life: Lifecycle)
      requires Valid()
      modifies this`state
      ensures Valid() && fresh(state) && fresh(state.history) && outside.journal == old(outside.journal)
      ensures Now() == old(Now()).(state := FreshSnapshot(s, payload).(lifecycle := life))
    {
      state := new FsmState(name, s, payload);
      state.lifecycle := life;
    }

    /** The initial state is stored unless something is. */
    method StoreInitial()
      requires Valid() && state.current == graph.initial && state.payload == defaultPayload
      modifies outside, ctx.Repr()
      ensures Valid() && ctx.KeepsOthers(name) && Now() == Model().Seed(old(Now()))
      ensures ctx.persistency != null ==>
                var before := old(ctx.persistency.entries);
                ctx.persistency.entries ==
                if name !in before && outside.env.storeSucceeds(old(outside.journal))
                then before[name := (Running, graph.initial, defaultPayload)] else before
    {
      ghost var k := Model();
      hide k.c.Watch;
      StoredIsWatched(k.c, outside.journal);
      var loaded := Load();
      if ctx.persistency != null && loaded.None? {
        var ok := outside.env.storeSucceeds(outside.journal);
        if ok {
          ctx.persistency.Store(name, graph.initial, defaultPayload);
          outside.Note(Seeded(graph.initial, defaultPayload));
        }
      }
    }

    /** spawn_supervised: the initial state is stored unless something is, and an actor is made to recover it. */
    static method SpawnSupervised(name: string, graph: TransitionGraph<S, E>, outside: Outside<S, E, P>,
        cache: StateCache<S, P>, ctx: TransitContext<S, P>, timer: bool, payload: P)
      returns (actor: FsmActor<S, E, P>)
      requires graph.Indexed() && ctx.Reflects(name, outside.journal) && cache.Reflects(name, outside.journal)
      modifies outside, ctx.Repr()
      ensures fresh(actor) && fresh(actor.state) && fresh(actor.state.history)
      ensures actor.Valid() && ctx.KeepsOthers(name) && actor.recoverOnStart
      ensures actor.outside == outside && actor.ctx == ctx && actor.cache == cache
      ensures actor.graph == graph && actor.timer == timer
      ensures actor.defaultPayload == payload
      ensures var before := World(FreshSnapshot(graph.initial, payload), old(outside.journal), true);
              actor.Now() == actor.Model().Seed(before)
      ensures ctx.persistency != null ==>
                var before := old(ctx.persistency.entries);
                ctx.persistency.entries ==
                if name !in before && outside.env.storeSucceeds(old(outside.journal))
                then before[name := (Running, graph.initial, payload)] else before
    {
      actor := Manufacture(name, graph, outside, cache, ctx, timer, payload);
      ghost var k := actor.Model();
      hide k.Seed;
      actor.StoreInitial();
    }

    // ---- What others see ------------------------------------------------------------------

    /**
     Between messages the cache's entry is the actor's own state, as far as this incarnation has
     cached it: only a payload that on_timer has edited since may differ. Before that, it is what
     there was when the incarnation was born.
     */
    lemma CacheShowsState()
      requires Valid() && AtRest(Model(), Now())
      ensures var m := Model().c.Watch(outside.journal);
              if m.cached.Some? then
                && name in cache.entries && cache.entries[name].(payload := state.payload) == state.View()
                && (!m.polled ==> cache.entries[name] == state.View())
              else
                !m.awake && cache.Reflects(name, BeforeBirth(outside.journal))
    {
      ghost var k := Model();
      hide k.c.Watch, k.c.Accepts;
      CachedIsWatched(k.c, outside.journal);
    }

    /**
     Between messages the actor is alive in the cache exactly when it is running, once its incarnation
     has been cached or where no entry outlives the incarnation it shows.
     */
    lemma AliveIsRunning(steps: seq<Step<E, P>>)
      requires Valid() && Now() == Model().Run(steps) && Model().Run(steps).up
      requires Model().c.Watch(outside.journal).cached.Some? || LeavesNoGhosts(Model().c)
      ensures IsAlive(cache, name) <==> state.lifecycle == Running
    {
      ghost var k := Model();
      hide k.c.Watch, k.c.Accepts, k.Run, LeavesNoGhosts, CachedOf;
      AliveInJournal();
      if LeavesNoGhosts(k.c) {
        GhostlessIsRight(k, steps);
      } else {
        CacheIsCoherent(k, steps);
      }
    }

    /** Whether the actor is alive in the cache can be read off what has happened. */
    lemma AliveInJournal()
      requires Valid()
      ensures IsAlive(cache, name) <==> EntryRuns(outside.journal)
    {
    }

    /** After a transition message or a shutdown the entry is the whole of the actor's state. */
    lemma HandledIsCached(before: World<S, E, P>, message: Message<E, P>, fuel: nat)
      requires Valid() && AtRest(Model(), before) && !Model().c.Watch(before.journal).halted
      requires !message.TimerTickMsg? && Model().HandleMessage(before, message, fuel).1 != OutOfFuel
      requires Now() == Model().HandleMessage(before, message, fuel).0
      ensures name in cache.entries && cache.entries[name] == state.View()
    {
      ghost var k := Model();
      hide k.c.Watch, k.c.Accepts, k.HandleMessage;
      MessageMirrors(k, before, message, fuel);
      CachedIsWatched(k.c, outside.journal);
    }

    /** What the supervisor's factory makes, at the first start and at every restart. */
    static method Manufacture(name: string, graph: TransitionGraph<S, E>, outside: Outside<S, E, P>,
        cache: StateCache<S, P>, ctx: TransitContext<S, P>, timer: bool, payload: P)
      returns (actor: FsmActor<S, E, P>)
      requires graph.Indexed() && ctx.Reflects(name, outside.journal) && cache.Reflects(name, outside.journal)
      ensures fresh(actor) && fresh(actor.state) && fresh(actor.state.history)
      ensures actor.Valid() && actor.recoverOnStart && actor.name == name
      ensures actor.outside == outside && actor.ctx == ctx && actor.cache == cache
      ensures actor.graph == graph && actor.timer == timer
      ensures actor.defaultPayload == payload
      ensures actor.Now() == World(FreshSnapshot(graph.initial, payload), outside.journal, true)
    {
      var state := new FsmState<S, P>(name, graph.initial, payload);
      actor := new FsmActor(name, graph, outside, state, cache, ctx, timer, true, payload);
    }
  }

  /** An instance of that name is cached as running. */
  ghost predicate IsAlive<S, P>(cache: StateCache<S, P>, name: string)
    reads cache
  {
    name in cache.entries && cache.entries[name].lifecycle == Running
  }

  method Alive<S, P>(cache: StateCache<S, P>, name: string) returns (alive: bool)
    ensures alive <==> IsAlive(cache, name)
  {
    var entry := cache.Get(name);
    alive := entry.Some? && entry.value.lifecycle == Running;
  }

  /** An actor after this run is taken for alive, because of the incarnation before it, and is not running. */
  lemma AliveIsWrong<P>(c: Config<int, int, P>) returns (k: Machine<int, int, P>, steps: seq<Step<int, P>>)
    requires c.Valid() && c.supervised && !c.persistent && !c.autoTerminate
    requires c.graph.initial == 0 && c.graph.transitions == ONE_STEP
    ensures k.c == c && k.Run(steps).up
    ensures forall actor: FsmActor<int, int, P> ::
              actor.Valid() && actor.Model() == k && actor.Now() == k.Run(steps) ==>
                IsAlive(actor.cache, actor.name) && actor.state.lifecycle == Created
  {
    var cut;
    k, cut := StaleExample(c);
    steps := LostAndRestarted(7, c.payload, cut);
    hide k.Run, LostAndRestarted, EntryRuns, IsAlive;
    forall actor: FsmActor<int, int, P> | actor.Valid() && actor.Model() == k && actor.Now() == k.Run(steps)
      ensures IsAlive(actor.cache, actor.name) && actor.state.lifecycle == Created
    {
      actor.AliveInJournal();
    }
  }
}
