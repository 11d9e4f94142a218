/**
 What the engine and the actor do, as functions from worlds to worlds. A world is the instance's
 state and the journal of everything that has happened; the callbacks and the storage backend are an
 arbitrary environment, whose every answer may depend on the whole journal.
 */
module Machines {
  import opened Wrappers
  import opened Graphs
  import opened States
  import opened Protocol

  datatype TransitionResult<+S, +P> =
    | Move(target: S)
    | MoveWithPayload(target: S, payload: P)
    | Refuse(error: ErrorStage)

  /** How callbacks and storage answer, given the journal up to and including the question. */
  datatype Environment<!S, !E, !P> = Environment(
    edit: Journal<S, E, P> -> P,                        // the payload a callback leaves behind
    decide: Journal<S, E, P> -> TransitionResult<S, P>, // what on_transition returns
    poll: Journal<S, E, P> -> Option<(E, P)>,           // what on_timer returns
    storeSucceeds: Journal<S, E, P> -> bool)

  datatype World<S, E, P> = World(state: Snapshot<S, P>, journal: Journal<S, E, P>, up: bool)

  datatype Outcome = Transitioned | SoftSkipped | AutoTerminate | HardContinue

  /** How a chain of transitions ends. */
  datatype Ending = OutOfFuel | Settled | Failed | Finished | NoHardEvent

  datatype Message<E, P> = TransitionMsg(event: E, payload: P) | TimerTickMsg | ShutdownMsg

  /** What can happen to an instance; `Launch` is start_fsm or spawn_supervised. */
  datatype Action<E, P> = Launch(payload: P) | Restart | Deliver(message: Message<E, P>) | Stop

  /** An action is performed to its end, or the actor is lost when the journal has `cut` effects. */
  datatype Step<E, P> =
    | Act(action: Action<E, P>, fuel: nat)
    | Crash(action: Action<E, P>, fuel: nat, cut: nat)

  /** The first hard event among the labels. */
  function FirstHard<E>(labels: seq<(E, EventKind)>): Option<E> {
    if labels == [] then None
    else if labels[0].1 == Hard then Some(labels[0].0)
    else FirstHard(labels[1..])
  }

  datatype Machine<!S(==, !new), !E(==, !new), !P> = Machine(c: Config<S, E, P>, env: Environment<S, E, P>)
  {
    // ---- Effects on a world -------------------------------------------------------------

    function Emit(w: World<S, E, P>, x: Effect<S, E, P>): World<S, E, P> {
      w.(journal := w.journal + [x])
    }

    function WithPayload(w: World<S, E, P>, payload: P): World<S, E, P> {
      w.(state := w.state.(payload := payload))
    }

    /** A callback is called, and may edit the payload. */
    function Call(w: World<S, E, P>, x: Effect<S, E, P>): World<S, E, P> {
      WithPayload(Emit(w, x), env.edit(w.journal + [x]))
    }

    function Enter(w: World<S, E, P>, s: S): World<S, E, P> {
      Call(w, OnEnter(s, w.state.payload))
    }

    function Turn(w: World<S, E, P>, life: Lifecycle): World<S, E, P> {
      Emit(w.(state := w.state.(lifecycle := life)), Turned(life))
    }

    function Cache(w: World<S, E, P>): World<S, E, P> {
      Emit(w, Cached(w.state))
    }

    function Fail(w: World<S, E, P>, error: ErrorStage): World<S, E, P> {
      w.(state := w.state.(lastError := Some(error)))
    }

    // ---- One transition -----------------------------------------------------------------

    predicate SoftSomewhere(event: E) {
      exists t :: t in c.graph.transitions && t.event == event && t.kind == Soft
    }

    function Transit(w: World<S, E, P>, event: E, eventPayload: P): (World<S, E, P>, Result<Outcome, ErrorStage>)
      requires c.Valid()
    {
      var from := w.state.current;
      var allowed := c.graph.Allowed(from, event);
      if allowed.None? then
        (w, if SoftSomewhere(event) then Ok(SoftSkipped) else Err(NotResponds))
      else
        var asked := Ask(w, event, eventPayload);
        match env.decide(asked.journal)
        case Refuse(error) => (Abort(asked, from, event, error), Err(error))
        case Move(target) => Settle(asked, from, event, target, allowed.value)
        case MoveWithPayload(target, payload) =>
          Settle(WithPayload(asked, payload), from, event, target, allowed.value)
    }

    function Ask(w: World<S, E, P>, event: E, eventPayload: P): World<S, E, P> {
      var left := Call(w, OnExit(w.state.current, w.state.payload));
      Call(left, OnTransition(w.state.current, event, eventPayload, left.state.payload))
    }

    function Abort(w: World<S, E, P>, from: S, event: E, error: ErrorStage): World<S, E, P> {
      Enter(Fail(Call(w, OnFailure(event, error, w.state.payload)), error), from)
    }

    function Settle(w: World<S, E, P>, from: S, event: E, target: S, allowed: (seq<S>, EventKind)): (World<S, E, P>,
        Result<Outcome, ErrorStage>)
    {
      if target !in allowed.0 then
        (Abort(w, from, event, NotAllowed), Err(NotAllowed))
      else if c.persistent && !env.storeSucceeds(w.journal) then
        (Enter(Fail(Emit(w, StoreFailed(target, w.state.payload)), AtPersistency), from), Err(AtPersistency))
      else
        var saved := if c.persistent then Emit(w, Stored(target, w.state.payload)) else w;
        Arrive(saved, from, event, target, allowed.1)
    }

    /** The state and history are updated, and the listener is told. */
    function Announce(w: World<S, E, P>, from: S, event: E, target: S): World<S, E, P> {
      var committed := Emit(w.(state := Moved(w.state, target)), Committed(target));
      if c.listening then Emit(committed, Notified(from, target, event)) else committed
    }

    function Arrive(w: World<S, E, P>, from: S, event: E, target: S, kind: EventKind): (World<S, E, P>,
        Result<Outcome, ErrorStage>)
    {
      var entered := Enter(Announce(w, from, event, target), target);
      if c.autoTerminate && c.graph.IsFinal(target) then (Terminate(entered), Ok(AutoTerminate))
      else (entered, Ok(if kind == Hard then HardContinue else Transitioned))
    }

    function Terminate(w: World<S, E, P>): World<S, E, P> {
      var turned := Turn(w, Terminating);
      Turn(Call(turned, OnTerminate(turned.state.payload)), Terminated)
    }

    // ---- The actor ----------------------------------------------------------------------

    function HardEvent(state: S): Option<E>
      requires c.Valid()
    {
      FirstHard(c.graph.EventsFor(state))
    }

    /** A transition and the hard events it triggers, at most `fuel` transitions in all. */
    function DoTransition(w: World<S, E, P>, event: E, eventPayload: P, fuel: nat): (World<S, E, P>, Ending)
      requires c.Valid()
      decreases fuel
    {
      if fuel == 0 then (w, OutOfFuel)
      else
        var (after, outcome) := Transit(w, event, eventPayload);
        var cached := Cache(after);
        match outcome
        case Err(_) => (cached, Failed)
        case Ok(AutoTerminate) => (Emit(cached, Halted), Finished)
        case Ok(HardContinue) =>
          (match HardEvent(cached.state.current)
           case None => (cached, NoHardEvent)
           case Some(next) => DoTransition(cached, next, cached.state.payload, fuel - 1))
        case Ok(_) => (cached, Settled)
    }

    function Awaken(w: World<S, E, P>, s: S, payload: P, life: Lifecycle): World<S, E, P> {
      var born := Emit(w.(state := FreshSnapshot(s, payload).(lifecycle := life)), Born(s, payload, true, life));
      Cache(Turn(Enter(Call(born, OnStart(payload)), s), Running))
    }

    /** A supervised instance with nothing stored starts without on_start, on_enter or cache entry. */
    function Dormant(w: World<S, E, P>): World<S, E, P> {
      var s := c.graph.initial;
      Emit(w.(state := FreshSnapshot(s, c.payload)), Born(s, c.payload, false, Created))
    }

    function Incarnate(w: World<S, E, P>, payload: P): World<S, E, P> {
      var m := c.Watch(w.journal);
      if c.persistent && m.stored.Some? then
        Awaken(w, m.stored.value.0, m.stored.value.1, c.BirthLife(m))
      else if c.supervised then Dormant(w)
      else Awaken(w, c.graph.initial, payload, Created)
    }

    function Seed(w: World<S, E, P>): World<S, E, P> {
      if c.persistent && c.Watch(w.journal).stored.None? && env.storeSucceeds(w.journal)
      then Emit(w, Seeded(c.graph.initial, c.payload))
      else w
    }

    /** The started hook, once the state is there: the first timer tick and the first hard event. */
    function Started(w: World<S, E, P>, fuel: nat): (World<S, E, P>, Ending)
      requires c.Valid()
    {
      var timed := if c.timer then Emit(w, Scheduled) else w;
      match HardEvent(timed.state.current)
      case None => (timed, NoHardEvent)
      case Some(event) => DoTransition(timed, event, timed.state.payload, fuel)
    }

    function HandleTimerTick(w: World<S, E, P>, fuel: nat): (World<S, E, P>, Ending)
      requires c.Valid()
    {
      var polled := Call(w, OnTimer(w.state.current, w.state.payload));
      match env.poll(polled.journal)
      case None => (polled, Settled)
      case Some((event, payload)) => DoTransition(polled, event, payload, fuel)
    }

    function HandleMessage(w: World<S, E, P>, message: Message<E, P>, fuel: nat): (World<S, E, P>, Ending)
      requires c.Valid()
    {
      match message
      case TransitionMsg(event, payload) => DoTransition(w, event, payload, fuel)
      case ShutdownMsg => (Emit(Cache(Terminate(w)), Halted), Finished)
      case TimerTickMsg =>
        var (after, ending) := HandleTimerTick(Emit(w, Ticked), fuel);
        if ending != OutOfFuel && c.timer && after.state.lifecycle == Running
        then (Emit(after, Scheduled), ending)
        else (after, ending)
    }

    function Stopped(w: World<S, E, P>): World<S, E, P> {
      if w.state.lifecycle == Running then
        var turned := Turn(w, Terminated);
        Cache(Call(turned, OnTerminate(turned.state.payload)))
      else w
    }

    // ---- Runs ---------------------------------------------------------------------------

    function Perform(w: World<S, E, P>, action: Action<E, P>, fuel: nat): (World<S, E, P>, Ending)
      requires c.Valid()
    {
      match action
      case Launch(payload) => Started(Incarnate(if c.supervised then Seed(w) else w, payload).(up := true), fuel)
      case Restart => Started(Incarnate(w, c.payload).(up := true), fuel)
      case Deliver(message) => HandleMessage(w, message, fuel)
      case Stop => (Stopped(w).(up := false), Settled)
    }

    /** An actor that asked to be stopped gets no more messages; a tick must have been sent. */
    predicate Enabled(w: World<S, E, P>, action: Action<E, P>) {
      match action
      case Launch(_) => !w.up
      case Restart => !w.up && c.supervised
      case Deliver(message) =>
        w.up && !c.Watch(w.journal).halted && (message.TimerTickMsg? ==> c.Watch(w.journal).pending > 0)
      case Stop => w.up
    }

    function Next(w: World<S, E, P>, step: Step<E, P>): World<S, E, P>
      requires c.Valid()
    {
      if !Enabled(w, step.action) then w
      else
        var (after, ending) := Perform(w, step.action, step.fuel);
        match step
        case Act(_, _) => if ending == OutOfFuel then w else after
        case Crash(_, _, cut) =>
          if |w.journal| <= cut <= |after.journal| then w.(journal := after.journal[..cut], up := false) else w
    }

    function Run(steps: seq<Step<E, P>>): World<S, E, P>
      requires c.Valid()
    {
      if steps == [] then World(FreshSnapshot(c.graph.initial, c.payload), [], false)
      else Next(Run(steps[..|steps| - 1]), steps[|steps| - 1])
    }
  }
}
