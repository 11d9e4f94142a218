/** The engine and the actor follow the protocol: every effect they emit is legal when it comes. */
module Conformance {
  import opened Wrappers
  import opened Graphs
  import opened History
  import opened States
  import opened Protocol
  import opened Machines

  /** The journal is legal, `m` is what it amounts to, and the state agrees with it. */
  ghost predicate Linked<S(!new), E(!new), P>(k: Machine<S, E, P>, w: World<S, E, P>, m: Monitor<S, E, P>)
    requires k.c.Valid()
  {
    && k.c.Accepts(w.journal) && k.c.Watch(w.journal) == m
    && Agrees(w.state, m)
  }

  ghost predicate Agrees<S, E, P>(s: Snapshot<S, P>, m: Monitor<S, E, P>) {
    s.current == m.current && s.history == PushAll(HISTORY_SIZE, m.visits) && s.lifecycle == m.life
  }

  ghost predicate Extends<S, E, P>(w: World<S, E, P>, w': World<S, E, P>) {
    w.journal <= w'.journal && w'.up == w.up
  }

  lemma Follow<S(!new), E(!new), P>(k: Machine<S, E, P>, w: World<S, E, P>, m: Monitor<S, E, P>, x: Effect<S, E, P>,
      w': World<S, E, P>)
    requires k.c.Valid() && Linked(k, w, m) && k.c.Legal(m, x)
    requires w'.journal == w.journal + [x] && w'.up == w.up
    requires Agrees(w'.state, k.c.Advance(m, x))
    ensures Linked(k, w', k.c.Advance(m, x)) && Extends(w, w')
  {
    k.c.Snoc(w.journal, x);
  }

  lemma LinkedIsSane<S(!new), E(!new), P>(k: Machine<S, E, P>, w: World<S, E, P>, m: Monitor<S, E, P>)
    requires k.c.Valid() && Linked(k, w, m)
    ensures k.c.Sane(m)
  {
    k.c.AcceptedIsSane(w.journal);
  }

  // ---- The stages of a transition ---------------------------------------------------------

  lemma AskFollows<S(!new), E(!new), P>(k: Machine<S, E, P>, w: World<S, E, P>, m: Monitor<S, E, P>, event: E,
      eventPayload: P)
    requires k.c.Valid() && Linked(k, w, m) && m.phase.Ready?
    requires k.c.graph.Allowed(m.current, event).Some?
    ensures var asked := k.Ask(w, event, eventPayload);
            && Linked(k, asked, m.(phase := Asked(event), open := None)) && Extends(w, asked)
            && asked.state == w.state.(payload := asked.state.payload)
  {
    hide k.c.Accepts, k.c.graph.Indexed, k.c.graph.Allowed, PushAll, Pushed, k.c.Watch;
    LinkedIsSane(k, w, m);
    var x := OnExit(w.state.current, w.state.payload);
    var left := k.Call(w, x);
    Follow(k, w, m, x, left);
    var y := OnTransition(w.state.current, event, eventPayload, left.state.payload);
    Follow(k, left, m.(phase := Left, open := None), y, k.Call(left, y));
  }

  lemma ReenterFollows<S(!new), E(!new), P>(k: Machine<S, E, P>, w: World<S, E, P>, m: Monitor<S, E, P>)
    requires k.c.Valid() && Linked(k, w, m) && m.phase.Refused? && m.open.None?
    ensures var entered := k.Enter(w, m.current);
            && Linked(k, entered, m.(phase := Ready, open := Some(m.current))) && Extends(w, entered)
            && entered.state == w.state.(payload := entered.state.payload)
  {
    hide k.c.Accepts, k.c.graph.Indexed, k.c.graph.Allowed, PushAll, Pushed, k.c.Watch;
    Follow(k, w, m, OnEnter(m.current, w.state.payload), k.Enter(w, m.current));
  }

  lemma AbortFollows<S(!new), E(!new), P>(k: Machine<S, E, P>, w: World<S, E, P>, m: Monitor<S, E, P>, event: E,
      error: ErrorStage)
    requires k.c.Valid() && Linked(k, w, m) && m.phase == Asked(event) && m.open.None?
    ensures var aborted := k.Abort(w, m.current, event, error);
            && Linked(k, aborted, m.(phase := Ready, open := Some(m.current))) && Extends(w, aborted)
            && aborted.state == w.state.(payload := aborted.state.payload, lastError := Some(error))
  {
    hide k.c.Accepts, k.c.graph.Indexed, k.c.graph.Allowed, PushAll, Pushed, k.c.Watch;
    var x := OnFailure(event, error, w.state.payload);
    var failed := k.Fail(k.Call(w, x), error);
    Follow(k, w, m, x, failed);
    ReenterFollows(k, failed, m.(phase := Refused));
  }

  lemma StoreFailureFollows<S(!new), E(!new), P>(k: Machine<S, E, P>, w: World<S, E, P>, m: Monitor<S, E, P>, target: S)
    requires k.c.Valid() && Linked(k, w, m) && m.phase.Asked? && m.open.None?
    requires k.c.persistent && k.c.MayMove(m.current, m.phase.event, target)
    ensures var x := StoreFailed(target, w.state.payload);
            var entered := k.Enter(k.Fail(k.Emit(w, x), AtPersistency), m.current);
            && Linked(k, entered, m.(phase := Ready, open := Some(m.current))) && Extends(w, entered)
            && entered.state == w.state.(payload := entered.state.payload, lastError := Some(AtPersistency))
  {
    hide k.c.Accepts, k.c.graph.Indexed, k.c.graph.Allowed, PushAll, Pushed, k.c.Watch;
    var x := StoreFailed(target, w.state.payload);
    var failed := k.Fail(k.Emit(w, x), AtPersistency);
    Follow(k, w, m, x, failed);
    ReenterFollows(k, failed, m.(phase := Refused));
  }

  lemma TurnFollows<S(!new), E(!new), P>(k: Machine<S, E, P>, w: World<S, E, P>, m: Monitor<S, E, P>, life: Lifecycle)
    requires k.c.Valid() && Linked(k, w, m) && k.c.Legal(m, Turned(life))
    ensures Linked(k, k.Turn(w, life), k.c.Advance(m, Turned(life))) && Extends(w, k.Turn(w, life))
  {
    hide k.c.Accepts, k.c.graph.Indexed, k.c.graph.Allowed, PushAll, Pushed, k.c.Watch;
    Follow(k, w, m, Turned(life), k.Turn(w, life));
  }

  lemma FarewellFollows<S(!new), E(!new), P>(k: Machine<S, E, P>, w: World<S, E, P>, m: Monitor<S, E, P>)
    requires k.c.Valid() && Linked(k, w, m) && (m.phase.Closing? || m.phase.Dropping?)
    ensures var x := OnTerminate(w.state.payload);
            Linked(k, k.Call(w, x), k.c.Advance(m, x)) && Extends(w, k.Call(w, x))
  {
    hide k.c.Accepts, k.c.graph.Indexed, k.c.graph.Allowed, PushAll, Pushed, k.c.Watch;
    var x := OnTerminate(w.state.payload);
    Follow(k, w, m, x, k.Call(w, x));
  }

  lemma ClosingFollows<S(!new), E(!new), P>(k: Machine<S, E, P>, w: World<S, E, P>, m: Monitor<S, E, P>)
    requires k.c.Valid() && Linked(k, w, m) && (m.phase.Ready? || m.phase.Doomed?)
    ensures var turned := k.Turn(w, Terminating);
            var dismissed := k.Call(turned, OnTerminate(turned.state.payload));
            && Linked(k, dismissed, m.(phase := Ending, life := Terminating, terminations := m.terminations + 1))
            && Extends(w, dismissed)
  {
    hide k.c.Accepts, k.c.Watch, k.c.graph.Indexed, k.c.graph.Allowed, PushAll, Pushed;
    TurnFollows(k, w, m, Terminating);
    FarewellFollows(k, k.Turn(w, Terminating), m.(phase := Closing, life := Terminating));
  }

  lemma TerminateFollows<S(!new), E(!new), P>(k: Machine<S, E, P>, w: World<S, E, P>, m: Monitor<S, E, P>)
    requires k.c.Valid() && Linked(k, w, m) && (m.phase.Ready? || m.phase.Doomed?)
    ensures var ended := k.Terminate(w);
            && Linked(k, ended, m.(phase := Closed, life := Terminated, terminations := m.terminations + 1))
            && Extends(w, ended)
            && ended.state == w.state.(payload := ended.state.payload, lifecycle := Terminated)
  {
    hide k.c.Accepts, k.c.Watch, k.c.graph.Indexed, k.c.graph.Allowed, PushAll, Pushed;
    ClosingFollows(k, w, m);
    var turned := k.Turn(w, Terminating);
    TurnFollows(k, k.Call(turned, OnTerminate(turned.state.payload)),
        m.(phase := Ending, life := Terminating, terminations := m.terminations + 1), Terminated);
  }

  /** The monitor once an instance in `m` has moved to `target`. */
  ghost function MovedTo<S, E, P>(m: Monitor<S, E, P>, target: S, phase: Phase<S, E>, open: Option<S>): Monitor<S, E, P>
  {
    m.(phase := phase, open := open, current := target, visits := m.visits + [target], life := Running, moved := true)
  }

  lemma CommitFollows<S(!new), E(!new), P>(k: Machine<S, E, P>, w: World<S, E, P>, m: Monitor<S, E, P>, event: E,
      target: S)
    requires k.c.Valid() && Linked(k, w, m) && m.open.None?
    requires if k.c.persistent then m.phase == Saved(event, target)
             else m.phase == Asked(event) && k.c.MayMove(m.current, event, target)
    ensures var told := k.Announce(w, m.current, event, target);
            && Linked(k, told, MovedTo(m, target, if k.c.listening then Told else Changed(m.current, event), None))
            && Extends(w, told) && told.state == Moved(w.state, target)
  {
    hide k.c.Accepts, k.c.graph.Indexed, k.c.graph.Allowed, PushAll, k.c.Watch;
    var committed := k.Emit(w.(state := Moved(w.state, target)), Committed(target));
    PushAllSnoc(HISTORY_SIZE, m.visits, target);
    Follow(k, w, m, Committed(target), committed);
    if k.c.listening {
      var x := Notified(m.current, target, event);
      Follow(k, committed, MovedTo(m, target, Changed(m.current, event), None), x, k.Emit(committed, x));
    }
  }

  lemma EntryFollows<S(!new), E(!new), P>(k: Machine<S, E, P>, w: World<S, E, P>, m: Monitor<S, E, P>, target: S)
    requires k.c.Valid() && Linked(k, w, m) && m.open.None? && m.current == target
    requires if k.c.listening then m.phase.Told? else m.phase.Changed?
    ensures var entered := k.Enter(w, target);
            var next := if k.c.autoTerminate && k.c.graph.IsFinal(target) then Doomed else Ready;
            && Linked(k, entered, m.(phase := next, open := Some(target))) && Extends(w, entered)
            && entered.state == w.state.(payload := entered.state.payload)
  {
    hide k.c.Accepts, k.c.graph.Indexed, k.c.graph.Allowed, PushAll, Pushed, k.c.Watch;
    Follow(k, w, m, OnEnter(target, w.state.payload), k.Enter(w, target));
  }

  lemma ArrivalFollows<S(!new), E(!new), P>(k: Machine<S, E, P>, w: World<S, E, P>, m: Monitor<S, E, P>, event: E,
      target: S)
    requires k.c.Valid() && Linked(k, w, m) && m.open.None?
    requires if k.c.persistent then m.phase == Saved(event, target)
             else m.phase == Asked(event) && k.c.MayMove(m.current, event, target)
    ensures var entered := k.Enter(k.Announce(w, m.current, event, target), target);
            var next := if k.c.autoTerminate && k.c.graph.IsFinal(target) then Doomed else Ready;
            && Linked(k, entered, MovedTo(m, target, next, Some(target))) && Extends(w, entered)
            && entered.state == Moved(w.state, target).(payload := entered.state.payload)
  {
    CommitFollows(k, w, m, event, target);
    var before := MovedTo(m, target, if k.c.listening then Told else Changed(m.current, event), None);
    EntryFollows(k, k.Announce(w, m.current, event, target), before, target);
  }

  /** What a completed transition leaves: ready in the target, or terminated there. */
  ghost predicate Arrived<S(!new), E(!new), P>(k: Machine<S, E, P>, m: Monitor<S, E, P>, target: S,
      before: Snapshot<S, P>, w: World<S, E, P>, outcome: Outcome)
    requires k.c.Valid()
  {
    if k.c.autoTerminate && k.c.graph.IsFinal(target) then
      && outcome == AutoTerminate
      && Linked(k, w, MovedTo(m, target, Doomed, Some(target))
                      .(phase := Closed, life := Terminated, terminations := m.terminations + 1))
      && w.state == Moved(before, target).(payload := w.state.payload, lifecycle := Terminated)
    else
      && (outcome == HardContinue || outcome == Transitioned)
      && Linked(k, w, MovedTo(m, target, Ready, Some(target)))
      && w.state == Moved(before, target).(payload := w.state.payload)
  }

  lemma FinalArrivalFollows<S(!new), E(!new), P>(k: Machine<S, E, P>, w: World<S, E, P>, m: Monitor<S, E, P>, event: E,
      target: S)
    requires k.c.Valid() && Linked(k, w, m) && m.open.None?
    requires if k.c.persistent then m.phase == Saved(event, target)
             else m.phase == Asked(event) && k.c.MayMove(m.current, event, target)
    requires k.c.autoTerminate && k.c.graph.IsFinal(target)
    ensures var ended := k.Terminate(k.Enter(k.Announce(w, m.current, event, target), target));
            Extends(w, ended) && Arrived(k, m, target, w.state, ended, AutoTerminate)
  {
    hide k.c.Accepts, k.c.Watch, k.c.Legal, k.c.Advance, k.Terminate, k.Enter, k.Announce, Pushed, PushAll,
      k.c.graph.Indexed, k.c.graph.Allowed;
    ArrivalFollows(k, w, m, event, target);
    var entered := k.Enter(k.Announce(w, m.current, event, target), target);
    TerminateFollows(k, entered, MovedTo(m, target, Doomed, Some(target)));
  }

  lemma ArriveFollows<S(!new), E(!new), P>(k: Machine<S, E, P>, w: World<S, E, P>, m: Monitor<S, E, P>, event: E,
      target: S, kind: EventKind)
    requires k.c.Valid() && Linked(k, w, m) && m.open.None?
    requires if k.c.persistent then m.phase == Saved(event, target)
             else m.phase == Asked(event) && k.c.MayMove(m.current, event, target)
    ensures var (arrived, outcome) := k.Arrive(w, m.current, event, target, kind);
            outcome.Ok? && Extends(w, arrived) && Arrived(k, m, target, w.state, arrived, outcome.value)
  {
    hide k.c.Accepts, k.c.Watch, k.c.Legal, k.c.Advance, k.Terminate, k.Enter, k.Announce, Pushed, PushAll,
      k.c.graph.Indexed, k.c.graph.Allowed;
    if k.c.autoTerminate && k.c.graph.IsFinal(target) {
      FinalArrivalFollows(k, w, m, event, target);
    } else {
      ArrivalFollows(k, w, m, event, target);
    }
  }

  /** A refused or failed attempt: at most the payload and the last error have changed. */
  ghost predicate Unmoved<S(!new), E(!new), P>(k: Machine<S, E, P>, w: World<S, E, P>, m: Monitor<S, E, P>,
      w': World<S, E, P>, error: ErrorStage)
    requires k.c.Valid()
  {
    && Linked(k, w', m.(phase := Ready, open := Some(m.current)))
    && w'.state == w.state.(payload := w'.state.payload, lastError := Some(error))
  }

  /** What may be stored once an instance in `m` has moved to `target`. */
  ghost predicate Kept<S(!new), E(!new), P>(k: Machine<S, E, P>, m: Monitor<S, E, P>, target: S, stored: Option<(S, P)>)
  {
    if k.c.persistent then stored.Some? && stored.value.0 == target else stored == m.stored
  }

  /** A completed transition on `event`, with what it leaves. */
  ghost predicate Advanced<S(!new), E(!new), P>(k: Machine<S, E, P>, w: World<S, E, P>, m: Monitor<S, E, P>, event: E,
      w': World<S, E, P>, outcome: Outcome)
    requires k.c.Valid()
  {
    var target := w'.state.current;
    var stored := k.c.Watch(w'.journal).stored;
    && k.c.MayMove(m.current, event, target)
    && Kept(k, m, target, stored)
    && Arrived(k, m.(stored := stored), target, w.state, w', outcome)
    && (outcome != AutoTerminate ==>
          (outcome == HardContinue <==> k.c.graph.Allowed(m.current, event).value.1 == Hard))
  }

  ghost predicate Transited<S(!new), E(!new), P>(k: Machine<S, E, P>, w: World<S, E, P>, m: Monitor<S, E, P>, event: E,
      w': World<S, E, P>, r: Result<Outcome, ErrorStage>)
    requires k.c.Valid()
  {
    && Extends(w, w')
    && match r
       case Ok(SoftSkipped) => w' == w && k.c.graph.Allowed(m.current, event).None?
       case Ok(outcome) => Advanced(k, w, m, event, w', outcome)
       case Err(error) =>
         if k.c.graph.Allowed(m.current, event).None? then w' == w && error == NotResponds
         else Unmoved(k, w, m, w', error)
  }

  lemma ExtendsTrans<S, E, P>(a: World<S, E, P>, b: World<S, E, P>, c: World<S, E, P>)
    requires Extends(a, b) && Extends(b, c)
    ensures Extends(a, c)
  {
  }

  lemma SaveFollows<S(!new), E(!new), P>(k: Machine<S, E, P>, w: World<S, E, P>, m: Monitor<S, E, P>, target: S)
    requires k.c.Valid() && Linked(k, w, m) && m.phase.Asked?
    requires k.c.persistent && k.c.MayMove(m.current, m.phase.event, target)
    ensures var x := Stored(target, w.state.payload);
            && Linked(k, k.Emit(w, x),
                      m.(phase := Saved(m.phase.event, target), stored := Some((target, w.state.payload))))
            && Extends(w, k.Emit(w, x))
  {
    hide k.c.Accepts, k.c.graph.Indexed, k.c.graph.Allowed, PushAll, Pushed, k.c.Watch;
    var x := Stored(target, w.state.payload);
    Follow(k, w, m, x, k.Emit(w, x));
  }

  /** Once the target is accepted and stored, the transition completes. */
  lemma AcceptFollows<S(!new), E(!new), P>(k: Machine<S, E, P>, w: World<S, E, P>, m: Monitor<S, E, P>, event: E,
      target: S, kind: EventKind)
    requires k.c.Valid() && Linked(k, w, m) && m.phase == Asked(event) && m.open.None?
    requires k.c.MayMove(m.current, event, target) && kind == k.c.graph.Allowed(m.current, event).value.1
    ensures var saved := if k.c.persistent then k.Emit(w, Stored(target, w.state.payload)) else w;
            var (arrived, outcome) := k.Arrive(saved, m.current, event, target, kind);
            && outcome.Ok? && Extends(w, arrived) && outcome.value != SoftSkipped
            && Advanced(k, w, m, event, arrived, outcome.value)
  {
    hide k.c.Accepts, k.c.Legal, k.c.Advance, k.Terminate, k.Enter, k.Announce, Pushed, PushAll, k.c.graph.Indexed,
      k.c.graph.Allowed, k.c.Watch;
    var saved := if k.c.persistent then k.Emit(w, Stored(target, w.state.payload)) else w;
    var m' := m;
    if k.c.persistent {
      SaveFollows(k, w, m, target);
      m' := m.(phase := Saved(event, target), stored := Some((target, w.state.payload)));
    }
    var (arrived, outcome) := k.Arrive(saved, m.current, event, target, kind);
    ArriveFollows(k, saved, m', event, target, kind);
    ExtendsTrans(w, saved, arrived);
    assert k.c.Watch(arrived.journal).stored == m'.stored;
  }

  lemma SettleFollows<S(!new), E(!new), P>(k: Machine<S, E, P>, w: World<S, E, P>, m: Monitor<S, E, P>, event: E,
      target: S)
    requires k.c.Valid() && Linked(k, w, m) && m.phase == Asked(event) && m.open.None?
    requires k.c.graph.Allowed(m.current, event).Some?
    ensures var (settled, r) := k.Settle(w, m.current, event, target, k.c.graph.Allowed(m.current, event).value);
            && Extends(w, settled)
            && match r
               case Err(error) => Unmoved(k, w, m, settled, error)
               case Ok(outcome) => outcome != SoftSkipped && Advanced(k, w, m, event, settled, outcome)
  {
    hide k.c.Accepts, k.c.Watch, k.c.Legal, k.c.Advance, k.Terminate, k.Enter, k.Announce, k.Arrive, k.Abort, Pushed,
      PushAll, k.c.graph.Indexed, k.c.graph.Allowed;
    var allowed := k.c.graph.Allowed(m.current, event).value;
    if target !in allowed.0 {
      AbortFollows(k, w, m, event, NotAllowed);
    } else if k.c.persistent && !k.env.storeSucceeds(w.journal) {
      StoreFailureFollows(k, w, m, target);
    } else {
      AcceptFollows(k, w, m, event, target, allowed.1);
    }
  }

  /** Where an attempt starts from matters only up to its payload. */
  lemma PayloadDoesNotMatter<S(!new), E(!new), P>(k: Machine<S, E, P>, w: World<S, E, P>, m: Monitor<S, E, P>,
      asked: World<S, E, P>, m': Monitor<S, E, P>, event: E, w': World<S, E, P>, r: Result<Outcome, ErrorStage>)
    requires k.c.Valid() && m' == m.(phase := m'.phase, open := m'.open)
    requires asked.state == w.state.(payload := asked.state.payload) && Extends(w, asked) && Extends(asked, w')
    requires k.c.graph.Allowed(m.current, event).Some? && r != Ok(SoftSkipped)
    requires match r
             case Err(error) => Unmoved(k, asked, m', w', error)
             case Ok(outcome) => Advanced(k, asked, m', event, w', outcome)
    ensures Transited(k, w, m, event, w', r)
  {
    hide k.c.Accepts, k.c.Watch, k.c.Legal, k.c.Advance, Pushed, PushAll, k.c.graph.Indexed, k.c.graph.Allowed;
    ExtendsTrans(w, asked, w');
  }

  /** Every attempt follows the protocol: it is skipped, fails without moving, or completes. */
  lemma TransitFollows<S(!new), E(!new), P>(k: Machine<S, E, P>, w: World<S, E, P>, m: Monitor<S, E, P>, event: E,
      eventPayload: P)
    requires k.c.Valid() && Linked(k, w, m) && m.phase.Ready?
    ensures var (w', r) := k.Transit(w, event, eventPayload);
            Transited(k, w, m, event, w', r)
  {
    hide k.c.Accepts, k.c.Watch, k.c.Legal, k.c.Advance, k.Settle, k.Abort, k.Ask, Pushed, PushAll, k.c.graph.Indexed,
      k.c.graph.Allowed;
    if k.c.graph.Allowed(m.current, event).Some? {
      var asked := k.Ask(w, event, eventPayload);
      var m' := m.(phase := Asked(event), open := None);
      AskFollows(k, w, m, event, eventPayload);
      var (w', r) := k.Transit(w, event, eventPayload);
      match k.env.decide(asked.journal) {
        case Refuse(error) =>
          AbortFollows(k, asked, m', event, error);
          PayloadDoesNotMatter(k, w, m, asked, m', event, w', r);
        case Move(target) =>
          SettleFollows(k, asked, m', event, target);
          PayloadDoesNotMatter(k, w, m, asked, m', event, w', r);
        case MoveWithPayload(target, payload) =>
          SettleFollows(k, k.WithPayload(asked, payload), m', event, target);
          PayloadDoesNotMatter(k, w, m, k.WithPayload(asked, payload), m', event, w', r);
      }
    }
  }

  // ---- Messages -----------------------------------------------------------------------------

  lemma CacheFollows<S(!new), E(!new), P>(k: Machine<S, E, P>, w: World<S, E, P>, m: Monitor<S, E, P>)
    requires k.c.Valid() && Linked(k, w, m) && (m.phase.Ready? || m.phase.Closed?)
    ensures Linked(k, k.Cache(w), m.(cached := Some(w.state), polled := false)) && Extends(w, k.Cache(w))
  {
    hide k.c.Accepts, k.c.graph.Indexed, k.c.graph.Allowed, PushAll, Pushed, k.c.Watch;
    Follow(k, w, m, Cached(w.state), k.Cache(w));
  }

  lemma HaltFollows<S(!new), E(!new), P>(k: Machine<S, E, P>, w: World<S, E, P>, m: Monitor<S, E, P>)
    requires k.c.Valid() && Linked(k, w, m) && m.phase.Closed? && !m.halted
    ensures Linked(k, k.Emit(w, Halted), m.(halted := true)) && Extends(w, k.Emit(w, Halted))
  {
    hide k.c.Accepts, k.c.graph.Indexed, k.c.graph.Allowed, PushAll, Pushed, k.c.Watch;
    Follow(k, w, m, Halted, k.Emit(w, Halted));
  }

  /** What handling leaves: a legal journal, and the same incarnation with the same ticks due. */
  ghost predicate Handled<S(!new), E(!new), P>(k: Machine<S, E, P>, w: World<S, E, P>, m: Monitor<S, E, P>,
      w': World<S, E, P>)
    requires k.c.Valid()
  {
    var m' := k.c.Watch(w'.journal);
    Linked(k, w', m') && Extends(w, w') && m'.awake == m.awake && m'.pending == m.pending
  }

  /** The cache holds a copy of the whole state. */
  ghost predicate Mirrored<S(!new), E(!new), P>(k: Machine<S, E, P>, w: World<S, E, P>) {
    var m := k.c.Watch(w.journal);
    m.cached == Some(w.state) && !m.polled
  }

  lemma AfterTransit<S(!new), E(!new), P>(k: Machine<S, E, P>, w: World<S, E, P>, m: Monitor<S, E, P>, event: E,
      w': World<S, E, P>, r: Result<Outcome, ErrorStage>)
    requires k.c.Valid() && Linked(k, w, m) && m.phase.Ready? && Transited(k, w, m, event, w', r)
    ensures Handled(k, w, m, w') && !k.c.Watch(w'.journal).halted
    ensures if r == Ok(AutoTerminate) then k.c.Watch(w'.journal).phase.Closed? else k.c.Watch(w'.journal).phase.Ready?
  {
    LinkedIsSane(k, w, m);
    hide k.c.Accepts, k.c.Watch, k.c.Legal, k.c.Advance, Pushed, PushAll, k.c.graph.Indexed, k.c.graph.Allowed;
  }

  /** Caching after a transition leaves the cache a mirror of the state. */
  lemma CachedAfterTransit<S(!new), E(!new), P>(k: Machine<S, E, P>, w: World<S, E, P>, m: Monitor<S, E, P>, event: E,
      eventPayload: P)
    requires k.c.Valid() && Linked(k, w, m) && m.phase.Ready?
    ensures var (after, r) := k.Transit(w, event, eventPayload);
            var cached := k.Cache(after);
            var m' := k.c.Watch(cached.journal);
            && Handled(k, w, m, cached) && Mirrored(k, cached) && !m'.halted
            && if r == Ok(AutoTerminate) then m'.phase.Closed? else m'.phase.Ready?
  {
    hide k.c.Accepts, k.c.Watch, k.c.Legal, k.c.Advance, k.Transit, Pushed, PushAll, k.c.graph.Indexed,
      k.c.graph.Allowed;
    var (after, r) := k.Transit(w, event, eventPayload);
    TransitFollows(k, w, m, event, eventPayload);
    AfterTransit(k, w, m, event, after, r);
    CacheFollows(k, after, k.c.Watch(after.journal));
    ExtendsTrans(w, after, k.Cache(after));
  }

  lemma HandledTrans<S(!new), E(!new), P>(k: Machine<S, E, P>, w: World<S, E, P>, m: Monitor<S, E, P>,
      w1: World<S, E, P>, w2: World<S, E, P>)
    requires k.c.Valid() && Handled(k, w, m, w1) && Handled(k, w1, k.c.Watch(w1.journal), w2)
    ensures Handled(k, w, m, w2)
  {
    hide k.c.Accepts, k.c.Watch, k.c.graph.Indexed, k.c.graph.Allowed;
    ExtendsTrans(w, w1, w2);
  }

  lemma {:induction false} DoTransitionFollows<S(!new), E(!new), P>(k: Machine<S, E, P>, w: World<S, E, P>,
      m: Monitor<S, E, P>, event: E, eventPayload: P, fuel: nat)
    requires k.c.Valid() && Linked(k, w, m) && m.phase.Ready?
    ensures var (w', ending) := k.DoTransition(w, event, eventPayload, fuel);
            var m' := k.c.Watch(w'.journal);
            && Handled(k, w, m, w')
            && (ending != OutOfFuel ==> Mirrored(k, w'))
            && if ending == Finished then m'.phase.Closed? && m'.halted else m'.phase.Ready?
    decreases fuel
  {
    hide k.c.Accepts, k.c.Watch, k.c.Legal, k.c.Advance, k.Transit, Pushed, PushAll, k.HardEvent, k.c.graph.Indexed,
      k.c.graph.Allowed;
    if fuel > 0 {
      var (after, r) := k.Transit(w, event, eventPayload);
      var cached := k.Cache(after);
      var m1 := k.c.Watch(cached.journal);
      CachedAfterTransit(k, w, m, event, eventPayload);
      if r == Ok(AutoTerminate) {
        HaltFollows(k, cached, m1);
        ExtendsTrans(w, cached, k.Emit(cached, Halted));
      } else if r == Ok(HardContinue) && k.HardEvent(cached.state.current).Some? {
        var next := k.HardEvent(cached.state.current).value;
        DoTransitionFollows(k, cached, m1, next, cached.state.payload, fuel - 1);
        HandledTrans(k, w, m, cached, k.DoTransition(cached, next, cached.state.payload, fuel - 1).0);
      }
    }
  }

  /** The cached copy differs from the state at most in a payload that on_timer has edited since. */
  ghost predicate Coherent<S, E, P>(w: World<S, E, P>, m: Monitor<S, E, P>) {
    && (m.awake ==> m.cached.Some?)
    && (m.cached.Some? ==> m.cached.value.(payload := w.state.payload) == w.state)
    && (m.cached.Some? && !m.polled ==> m.cached.value == w.state)
  }

  /** Between messages: ready or halted, mirrored in the cache, and with its timer running. */
  ghost predicate AtRest<S(!new), E(!new), P>(k: Machine<S, E, P>, w: World<S, E, P>)
    requires k.c.Valid()
  {
    var m := k.c.Watch(w.journal);
    && Linked(k, w, m) && Coherent(w, m)
    && (m.phase.Ready? || (m.phase.Closed? && m.halted))
    && (k.c.timer && m.awake && m.phase.Ready? ==> m.pending == 1)
  }

  lemma MirroredIsCoherent<S(!new), E(!new), P>(k: Machine<S, E, P>, w: World<S, E, P>)
    requires Mirrored(k, w)
    ensures Coherent(w, k.c.Watch(w.journal))
  {
  }

  lemma ScheduleFollows<S(!new), E(!new), P>(k: Machine<S, E, P>, w: World<S, E, P>, m: Monitor<S, E, P>)
    requires k.c.Valid() && Linked(k, w, m) && m.phase.Ready? && k.c.timer && m.pending == 0
    ensures Linked(k, k.Emit(w, Scheduled), m.(pending := 1)) && Extends(w, k.Emit(w, Scheduled))
  {
    hide k.c.Accepts, k.c.graph.Indexed, k.c.graph.Allowed, PushAll, Pushed, k.c.Watch;
    Follow(k, w, m, Scheduled, k.Emit(w, Scheduled));
  }

  lemma TickFollows<S(!new), E(!new), P>(k: Machine<S, E, P>, w: World<S, E, P>, m: Monitor<S, E, P>)
    requires k.c.Valid() && Linked(k, w, m) && m.phase.Ready? && m.pending > 0
    ensures var ticked := k.Emit(w, Ticked);
            var x := OnTimer(ticked.state.current, ticked.state.payload);
            var polled := k.Call(ticked, x);
            && Linked(k, polled, m.(pending := m.pending - 1, polled := true)) && Extends(w, polled)
            && polled.state == w.state.(payload := polled.state.payload)
  {
    hide k.c.Accepts, k.c.graph.Indexed, k.c.graph.Allowed, PushAll, Pushed, k.c.Watch;
    var ticked := k.Emit(w, Ticked);
    Follow(k, w, m, Ticked, ticked);
    var x := OnTimer(ticked.state.current, ticked.state.payload);
    Follow(k, ticked, m.(pending := m.pending - 1), x, k.Call(ticked, x));
  }

  lemma StartedFollows<S(!new), E(!new), P>(k: Machine<S, E, P>, w: World<S, E, P>, m: Monitor<S, E, P>, fuel: nat)
    requires k.c.Valid() && Linked(k, w, m) && m.phase.Ready? && m.pending == 0 && Coherent(w, m)
    ensures var (w', ending) := k.Started(w, fuel);
            && k.c.Accepts(w'.journal) && Extends(w, w')
            && (ending != OutOfFuel ==> AtRest(k, w'))
  {
    hide k.c.Accepts, k.c.Watch, k.c.Legal, k.c.Advance, k.Transit, k.DoTransition, Pushed, PushAll, k.HardEvent,
      k.c.graph.Indexed, k.c.graph.Allowed;
    var timed := if k.c.timer then k.Emit(w, Scheduled) else w;
    var m1 := if k.c.timer then m.(pending := 1) else m;
    if k.c.timer {
      ScheduleFollows(k, w, m);
    }
    var hard := k.HardEvent(timed.state.current);
    if hard.Some? {
      var (w', ending) := k.DoTransition(timed, hard.value, timed.state.payload, fuel);
      DoTransitionFollows(k, timed, m1, hard.value, timed.state.payload, fuel);
      ExtendsTrans(w, timed, w');
      if ending != OutOfFuel {
        MirroredIsCoherent(k, w');
      }
    }
  }

  lemma ShutdownFollows<S(!new), E(!new), P>(k: Machine<S, E, P>, w: World<S, E, P>, m: Monitor<S, E, P>)
    requires k.c.Valid() && Linked(k, w, m) && m.phase.Ready?
    ensures var ended := k.Emit(k.Cache(k.Terminate(w)), Halted);
            AtRest(k, ended) && Extends(w, ended)
  {
    LinkedIsSane(k, w, m);
    hide k.c.Accepts, k.c.Watch, k.c.Legal, k.c.Advance, k.Terminate, Pushed, PushAll, k.c.graph.Indexed,
      k.c.graph.Allowed;
    TerminateFollows(k, w, m);
    var m1 := m.(phase := Closed, life := Terminated, terminations := m.terminations + 1);
    var ended := k.Terminate(w);
    CacheFollows(k, ended, m1);
    var cached := k.Cache(ended);
    HaltFollows(k, cached, m1.(cached := Some(ended.state), polled := false));
    ExtendsTrans(w, ended, cached);
    ExtendsTrans(w, cached, k.Emit(cached, Halted));
  }

  lemma TimerTickFollows<S(!new), E(!new), P>(k: Machine<S, E, P>, w: World<S, E, P>, fuel: nat)
    requires k.c.Valid() && AtRest(k, w) && k.c.Watch(w.journal).phase.Ready? && k.c.Watch(w.journal).pending > 0
    ensures var (w', ending) := k.HandleTimerTick(k.Emit(w, Ticked), fuel);
            var m' := k.c.Watch(w'.journal);
            && Linked(k, w', m') && Extends(w, w') && m'.pending == 0 && k.c.timer
            && (ending != OutOfFuel ==>
                  Coherent(w', m') && (m'.phase.Ready? || (m'.phase.Closed? && m'.halted)))
  {
    LinkedIsSane(k, w, k.c.Watch(w.journal));
    hide k.c.Accepts, k.c.Watch, k.c.Legal, k.c.Advance, k.Transit, k.DoTransition, Pushed, PushAll, k.c.graph.Indexed,
      k.c.graph.Allowed;
    var m := k.c.Watch(w.journal);
    TickFollows(k, w, m);
    var ticked := k.Emit(w, Ticked);
    var polled := k.Call(ticked, OnTimer(ticked.state.current, ticked.state.payload));
    var answer := k.env.poll(polled.journal);
    if answer.Some? {
      var (event, payload) := answer.value;
      var (w', ending) := k.DoTransition(polled, event, payload, fuel);
      DoTransitionFollows(k, polled, m.(pending := m.pending - 1, polled := true), event, payload, fuel);
      ExtendsTrans(w, polled, w');
      if ending != OutOfFuel {
        MirroredIsCoherent(k, w');
      }
    }
  }

  lemma MessageFollows<S(!new), E(!new), P>(k: Machine<S, E, P>, w: World<S, E, P>, message: Message<E, P>, fuel: nat)
    requires k.c.Valid() && AtRest(k, w) && !k.c.Watch(w.journal).halted
    requires message.TimerTickMsg? ==> k.c.Watch(w.journal).pending > 0
    ensures var (w', ending) := k.HandleMessage(w, message, fuel);
            && k.c.Accepts(w'.journal) && Extends(w, w')
            && (ending != OutOfFuel ==> AtRest(k, w'))
  {
    hide k.c.Accepts, k.c.Watch, k.c.Legal, k.c.Advance, k.Transit, k.DoTransition, k.HandleTimerTick, k.Terminate,
      Pushed, PushAll, k.c.graph.Indexed, k.c.graph.Allowed;
    var m := k.c.Watch(w.journal);
    match message {
      case TransitionMsg(event, payload) =>
        var (w', ending) := k.DoTransition(w, event, payload, fuel);
        DoTransitionFollows(k, w, m, event, payload, fuel);
        if ending != OutOfFuel {
          MirroredIsCoherent(k, w');
        }
      case ShutdownMsg => ShutdownFollows(k, w, m);
      case TimerTickMsg =>
        TimerTickFollows(k, w, fuel);
        var (after, ending) := k.HandleTimerTick(k.Emit(w, Ticked), fuel);
        var m' := k.c.Watch(after.journal);
        if ending != OutOfFuel && after.state.lifecycle == Running {
          LinkedIsSane(k, after, m');
          ScheduleFollows(k, after, m');
          ExtendsTrans(w, after, k.Emit(after, Scheduled));
        }
        if ending != OutOfFuel && m'.phase.Ready? {
          LinkedIsSane(k, after, m');
        }
    }
  }

  /** A transition or a shutdown, unlike a tick, leaves the whole state in the cache. */
  lemma MessageMirrors<S(!new), E(!new), P>(k: Machine<S, E, P>, w: World<S, E, P>, message: Message<E, P>, fuel: nat)
    requires k.c.Valid() && AtRest(k, w) && !k.c.Watch(w.journal).halted && !message.TimerTickMsg?
    ensures var (w', ending) := k.HandleMessage(w, message, fuel);
            ending != OutOfFuel ==> Mirrored(k, w')
  {
    hide k.c.Accepts, k.c.Legal, k.c.Advance, k.DoTransition, k.Terminate, PushAll, Pushed, k.c.graph.Indexed,
      k.c.graph.Allowed;
    match message {
      case TransitionMsg(event, payload) => DoTransitionFollows(k, w, k.c.Watch(w.journal), event, payload, fuel);
      case ShutdownMsg =>
        var ended := k.Terminate(w);
        SnocWatches(k.c, ended.journal, Cached(ended.state));
        SnocWatches(k.c, k.Cache(ended).journal, Halted);
    }
  }

  lemma SnocWatches<S(!new), E(!new), P>(c: Config<S, E, P>, j: Journal<S, E, P>, x: Effect<S, E, P>)
    ensures c.Watch(j + [x]).cached ==
            if x.Cached? then Some(x.snapshot) else if x.Born? then None else c.Watch(j).cached
    ensures c.Watch(j + [x]).polled ==
            if x.Cached? || x.Born? then false else if x.OnTimer? then true else c.Watch(j).polled
  {
    assert (j + [x])[..|j|] == j;
  }
}
