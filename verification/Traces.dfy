/**
 What each action looks like from outside, effect by effect: which callbacks are called in which order
 and with which event payload, what is stored, committed, told, cached and scheduled, and when nothing
 more happens. Where the protocol says what may come next, this says what does.
 */
module Traces {
  import opened Wrappers
  import opened Graphs
  import opened History
  import opened States
  import opened Protocol
  import opened Machines
  import opened Services

  /** An effect without the payload that is passed on from effect to effect. */
  type Sketch<S, E, P> = Effect<S, E, Option<P>>

  function Faceless<S, P>(v: Snapshot<S, P>): Snapshot<S, Option<P>> {
    Snapshot(v.current, None, v.history, v.lifecycle, v.lastError)
  }

  function Bare<S, E, P>(x: Effect<S, E, P>): Sketch<S, E, P> {
    match x
    case Born(s, p, awake, life) => Born(s, Some(p), awake, life)
    case OnStart(_) => OnStart(None)
    case OnEnter(s, _) => OnEnter(s, None)
    case OnExit(s, _) => OnExit(s, None)
    case OnTransition(from, event, p, _) => OnTransition(from, event, Some(p), None)
    case OnFailure(event, error, _) => OnFailure(event, error, None)
    case OnTimer(s, _) => OnTimer(s, None)
    case OnTerminate(_) => OnTerminate(None)
    case Seeded(s, p) => Seeded(s, Some(p))
    case Stored(s, _) => Stored(s, None)
    case StoreFailed(s, _) => StoreFailed(s, None)
    case Committed(s) => Committed(s)
    case Notified(from, to, event) => Notified(from, to, event)
    case Turned(life) => Turned(life)
    case Cached(v) => Cached(Faceless(v))
    case Scheduled => Scheduled
    case Ticked => Ticked
    case Halted => Halted
  }

  function Outline<S, E, P>(j: Journal<S, E, P>): seq<Sketch<S, E, P>> {
    seq(|j|, i requires 0 <= i < |j| => Bare(j[i]))
  }

  // ---- One attempt ------------------------------------------------------------------------

  /** The question to on_transition, after the state is left. */
  function Asking<S, E, P>(from: S, event: E, eventPayload: P): seq<Sketch<S, E, P>> {
    [OnExit(from, None), OnTransition(from, event, Some(eventPayload), None)]
  }

  /** At `n` the state is left, and on_transition asked about the event with its payload. */
  predicate Asks<S(==), E(==), P(==)>(j: Journal<S, E, P>, n: nat, from: S, event: E, eventPayload: P) {
    && n + 2 <= |j| && j[n].OnExit? && j[n].state == from
    && j[n + 1].OnTransition? && j[n + 1].from == from && j[n + 1].event == event
    && j[n + 1].eventPayload == eventPayload
  }

  /** on_failure is told the error, and the state is entered again. */
  function Refusal<S, E, P>(from: S, event: E, error: ErrorStage): seq<Sketch<S, E, P>> {
    [OnFailure(event, error, None), OnEnter(from, None)]
  }

  function Farewell<S, E, P>(): seq<Sketch<S, E, P>> {
    [Turned(Terminating), OnTerminate(None), Turned(Terminated)]
  }

  /** The target is stored and moved to. */
  function Arrival<S(!new), E(!new), P>(c: Config<S, E, P>, from: S, event: E, target: S): seq<Sketch<S, E, P>> {
    if c.persistent then [Stored(target, None)] + Moving(c, from, event, target) else Moving(c, from, event, target)
  }

  /** Committed, told, entered, and terminated where the target is final. */
  function Moving<S(!new), E(!new), P>(c: Config<S, E, P>, from: S, event: E, target: S): seq<Sketch<S, E, P>> {
    [Committed(target)]
    + (if c.listening then [Notified(from, target, event)] else [])
    + [OnEnter(target, None)]
    + (if c.autoTerminate && c.graph.IsFinal(target) then Farewell() else [])
  }

  /** What an attempt adds to the journal, and what comes of it. */
  ghost function Trial<S(!new), E(!new), P>(c: Config<S, E, P>, from: S, event: E, eventPayload: P,
      decision: TransitionResult<S, P>, stores: bool): (seq<Sketch<S, E, P>>, Result<Outcome, ErrorStage>)
    requires c.Valid()
  {
    match c.graph.Allowed(from, event)
    case None =>
      ([], if exists t :: t in c.graph.transitions && t.event == event && t.kind == Soft then Ok(SoftSkipped)
           else Err(NotResponds))
    case Some((targets, kind)) =>
      var asking := Asking(from, event, eventPayload);
      if decision.Refuse? then (asking + Refusal(from, event, decision.error), Err(decision.error))
      else if decision.target !in targets then (asking + Refusal(from, event, NotAllowed), Err(NotAllowed))
      else if c.persistent && !stores then
        (asking + [StoreFailed(decision.target, None), OnEnter(from, None)], Err(AtPersistency))
      else
        (asking + Arrival(c, from, event, decision.target),
         Ok(if c.autoTerminate && c.graph.IsFinal(decision.target) then AutoTerminate
            else if kind == Hard then HardContinue else Transitioned))
  }

  /** The state after an attempt: moved and without error, or where it was with the error. */
  ghost predicate Leads<S(!new), E(!new), P>(c: Config<S, E, P>, v: Snapshot<S, P>, event: E,
      decision: TransitionResult<S, P>, r: Result<Outcome, ErrorStage>, v': Snapshot<S, P>)
    requires c.Valid()
  {
    if c.graph.Allowed(v.current, event).None? then v' == v
    else if r.Err? then v' == v.(payload := v'.payload, lastError := Some(r.error))
    else
      && !decision.Refuse?
      && v' == Snapshot(decision.target, v'.payload, Pushed(v.history, HISTORY_SIZE, decision.target),
                        if r.value == AutoTerminate then Terminated else Running, None)
  }

  /** What has happened when on_transition is asked, in an attempt that begins after `n` effects. */
  function Question<S, E, P>(j: Journal<S, E, P>, n: nat): Journal<S, E, P> {
    if n + 2 <= |j| then j[..n + 2] else j
  }

  /**
   The callback sequence of an attempt, whatever the callbacks do: exactly these effects in this order,
   on_transition given the event's own payload, on_failure and the result the same error.
   */
  ghost predicate IsAttempt<S(!new), E(!new), P>(k: Machine<S, E, P>, w: World<S, E, P>, event: E, eventPayload: P,
      after: World<S, E, P>, r: Result<Outcome, ErrorStage>)
    requires k.c.Valid()
  {
    var q := Question(after.journal, |w.journal|);
    var (trial, r') := Trial(k.c, w.state.current, event, eventPayload, k.env.decide(q), k.env.storeSucceeds(q));
    && Outline(after.journal) == Outline(w.journal) + trial && r == r'
    && Leads(k.c, w.state, event, k.env.decide(q), r, after.state)
    && w.journal <= after.journal && after.up == w.up
  }

  lemma OutlineSnoc<S, E, P>(j: Journal<S, E, P>, x: Effect<S, E, P>)
    ensures Outline(j + [x]) == Outline(j) + [Bare(x)]
  {
  }

  lemma CallShows<S(!new), E(!new), P>(k: Machine<S, E, P>, w: World<S, E, P>, x: Effect<S, E, P>)
    ensures Outline(k.Call(w, x).journal) == Outline(w.journal) + [Bare(x)]
  {
    OutlineSnoc(w.journal, x);
  }

  lemma AskShows<S(!new), E(!new), P>(k: Machine<S, E, P>, w: World<S, E, P>, event: E, eventPayload: P)
    ensures var asked := k.Ask(w, event, eventPayload);
            && Outline(asked.journal) == Outline(w.journal) + Asking(w.state.current, event, eventPayload)
            && asked.state == w.state.(payload := asked.state.payload) && asked.up == w.up
            && |asked.journal| == |w.journal| + 2 && w.journal <= asked.journal
  {
    hide Outline;
    var x := OnExit(w.state.current, w.state.payload);
    CallShows(k, w, x);
    var left := k.Call(w, x);
    CallShows(k, left, OnTransition(w.state.current, event, eventPayload, left.state.payload));
  }

  lemma AbortShows<S(!new), E(!new), P>(k: Machine<S, E, P>, w: World<S, E, P>, from: S, event: E, error: ErrorStage)
    ensures var aborted := k.Abort(w, from, event, error);
            && Outline(aborted.journal) == Outline(w.journal) + Refusal(from, event, error)
            && aborted.state == w.state.(payload := aborted.state.payload, lastError := Some(error))
            && w.journal <= aborted.journal && aborted.up == w.up
  {
    hide Outline;
    var x := OnFailure(event, error, w.state.payload);
    CallShows(k, w, x);
    var failed := k.Fail(k.Call(w, x), error);
    CallShows(k, failed, OnEnter(from, failed.state.payload));
  }

  lemma TerminateShows<S(!new), E(!new), P>(k: Machine<S, E, P>, w: World<S, E, P>)
    ensures var ended := k.Terminate(w);
            && Outline(ended.journal) == Outline(w.journal) + Farewell()
            && ended.state == w.state.(payload := ended.state.payload, lifecycle := Terminated)
            && w.journal <= ended.journal && ended.up == w.up
  {
    hide Outline;
    OutlineSnoc(w.journal, Turned(Terminating));
    var turned := k.Turn(w, Terminating);
    var x := OnTerminate(turned.state.payload);
    CallShows(k, turned, x);
    OutlineSnoc(k.Call(turned, x).journal, Turned(Terminated));
  }

  lemma ArriveShows<S(!new), E(!new), P>(k: Machine<S, E, P>, w: World<S, E, P>, from: S, event: E, target: S,
      kind: EventKind)
    ensures var (after, r) := k.Arrive(w, from, event, target, kind);
            var ends := k.c.autoTerminate && k.c.graph.IsFinal(target);
            && Outline(after.journal) == Outline(w.journal) + Moving(k.c, from, event, target)
            && after.state == Snapshot(target, after.state.payload, Pushed(w.state.history, HISTORY_SIZE, target),
                                       if ends then Terminated else Running, None)
            && r == Ok(if ends then AutoTerminate else if kind == Hard then HardContinue else Transitioned)
            && w.journal <= after.journal && after.up == w.up
  {
    hide Outline, Pushed, k.Terminate;
    OutlineSnoc(w.journal, Committed(target));
    OutlineSnoc(w.journal + [Committed(target)], Notified(from, target, event));
    var told := k.Announce(w, from, event, target);
    CallShows(k, told, OnEnter(target, told.state.payload));
    TerminateShows(k, k.Enter(told, target));
  }

  lemma SettleShows<S(!new), E(!new), P>(k: Machine<S, E, P>, w: World<S, E, P>, event: E, target: S,
      allowed: (seq<S>, EventKind))
    ensures var from := w.state.current;
            var (after, r) := k.Settle(w, from, event, target, allowed);
            var ends := k.c.autoTerminate && k.c.graph.IsFinal(target);
            && w.journal <= after.journal && after.up == w.up
            && if target !in allowed.0 then
                 && Outline(after.journal) == Outline(w.journal) + Refusal(from, event, NotAllowed)
                 && r == Err(NotAllowed)
                 && after.state == w.state.(payload := after.state.payload, lastError := Some(NotAllowed))
               else if k.c.persistent && !k.env.storeSucceeds(w.journal) then
                 && Outline(after.journal) == Outline(w.journal) + [StoreFailed(target, None), OnEnter(from, None)]
                 && r == Err(AtPersistency)
                 && after.state == w.state.(payload := after.state.payload, lastError := Some(AtPersistency))
               else
                 && Outline(after.journal) == Outline(w.journal) + Arrival(k.c, from, event, target)
                 && after.state == Snapshot(target, after.state.payload, Pushed(w.state.history, HISTORY_SIZE, target),
                                            if ends then Terminated else Running, None)
                 && r == Ok(if ends then AutoTerminate
                            else if allowed.1 == Hard then HardContinue else Transitioned)
  {
    hide Outline, Pushed, k.Abort, k.Arrive, Refusal, Moving;
    var from := w.state.current;
    if target !in allowed.0 {
      AbortShows(k, w, from, event, NotAllowed);
    } else if k.c.persistent && !k.env.storeSucceeds(w.journal) {
      var x := StoreFailed(target, w.state.payload);
      OutlineSnoc(w.journal, x);
      var failed := k.Fail(k.Emit(w, x), AtPersistency);
      CallShows(k, failed, OnEnter(from, failed.state.payload));
    } else {
      var x := Stored(target, w.state.payload);
      OutlineSnoc(w.journal, x);
      ArriveShows(k, if k.c.persistent then k.Emit(w, x) else w, from, event, target, allowed.1);
      assert Outline(w.journal) + [Bare(x)] + Moving(k.c, from, event, target) ==
             Outline(w.journal) + ([Bare(x)] + Moving(k.c, from, event, target));
    }
  }

  /** Every attempt is of this kind. */
  lemma AttemptShows<S(!new), E(!new), P>(k: Machine<S, E, P>, w: World<S, E, P>, event: E, eventPayload: P)
    requires k.c.Valid()
    ensures var (after, r) := k.Transit(w, event, eventPayload);
            IsAttempt(k, w, event, eventPayload, after, r)
  {
    hide Outline, Pushed, k.Ask, k.Abort, k.Settle, Asking, Refusal, Arrival, k.c.graph.Indexed, k.c.graph.Allowed;
    var allowed := k.c.graph.Allowed(w.state.current, event);
    if allowed.Some? {
      var asked := k.Ask(w, event, eventPayload);
      AskShows(k, w, event, eventPayload);
      var after := k.Transit(w, event, eventPayload).0;
      match k.env.decide(asked.journal) {
        case Refuse(error) => AbortShows(k, asked, w.state.current, event, error);
        case Move(target) => SettleShows(k, asked, event, target, allowed.value);
        case MoveWithPayload(target, payload) =>
          SettleShows(k, k.WithPayload(asked, payload), event, target, allowed.value);
      }
      assert Question(after.journal, |w.journal|) == asked.journal;
    }
  }

  // ---- Chains of attempts -------------------------------------------------------------------

  /** Where an attempt that began at `n` ends, and with what result. */
  ghost function AttemptEnd<S(!new), E(!new), P>(k: Machine<S, E, P>, v: Snapshot<S, P>, n: nat, event: E,
      eventPayload: P, j: Journal<S, E, P>): (nat, Result<Outcome, ErrorStage>)
    requires k.c.Valid()
  {
    var q := Question(j, n);
    var (trial, r) := Trial(k.c, v.current, event, eventPayload, k.env.decide(q), k.env.storeSucceeds(q));
    (n + |trial|, r)
  }

  /** The journal has the attempt, and its cache update. */
  ghost predicate AttemptFits<S(!new), E(!new), P>(k: Machine<S, E, P>, v: Snapshot<S, P>, n: nat, event: E,
      eventPayload: P, j: Journal<S, E, P>)
    requires k.c.Valid()
  {
    var q := Question(j, n);
    var (trial, r) := Trial(k.c, v.current, event, eventPayload, k.env.decide(q), k.env.storeSucceeds(q));
    var end := n + |trial|;
    && end < |j| && Outline(j[n..end]) == trial && j[end].Cached?
    && Leads(k.c, v, event, k.env.decide(q), r, j[end].snapshot)
  }

  /**
   From `n` on the journal is a chain of attempts by an instance in state `v`, the first one at `event`:
   each attempt is cached, and a hard one that completes is followed by one at the first hard event
   of the state entered, which gets that state's payload.
   */
  ghost predicate IsChain<S(!new), E(!new), P>(k: Machine<S, E, P>, v: Snapshot<S, P>, n: nat, j: Journal<S, E, P>,
      event: E, eventPayload: P, fuel: nat, ending: Ending)
    requires k.c.Valid()
    decreases fuel, 0
  {
    if fuel == 0 then |j| == n && ending == OutOfFuel
    else
      var (end, r) := AttemptEnd(k, v, n, event, eventPayload, j);
      AttemptFits(k, v, n, event, eventPayload, j) && GoesOn(k, j, end, r, fuel - 1, ending)
  }

  /** How a chain goes on after an attempt that was cached at `end`. */
  ghost predicate GoesOn<S(!new), E(!new), P>(k: Machine<S, E, P>, j: Journal<S, E, P>, end: nat,
      r: Result<Outcome, ErrorStage>, fuel: nat, ending: Ending)
    requires k.c.Valid() && end < |j| && j[end].Cached?
    decreases fuel, 1
  {
    var v := j[end].snapshot;
    var hard := FirstHard(k.c.graph.EventsFor(v.current));
    if r == Ok(AutoTerminate) then |j| == end + 2 && j[end + 1] == Halted && ending == Finished
    else if r == Ok(HardContinue) && hard.Some? then IsChain(k, v, end + 1, j, hard.value, v.payload, fuel, ending)
    else |j| == end + 1 && ending == if r.Err? then Failed else if r == Ok(HardContinue) then NoHardEvent else Settled
  }

  /** An attempt that the state answers begins with the question. */
  lemma TrialAsks<S(!new), E(!new), P>(k: Machine<S, E, P>, v: Snapshot<S, P>, n: nat, event: E, eventPayload: P,
      j: Journal<S, E, P>)
    requires k.c.Valid() && AttemptFits(k, v, n, event, eventPayload, j)
    requires k.c.graph.Allowed(v.current, event).Some?
    ensures var end := AttemptEnd(k, v, n, event, eventPayload, j).0;
            end >= n + 2 && Outline(j[n..end])[..2] == Asking(v.current, event, eventPayload)
  {
    hide Outline, Leads, k.c.graph.Indexed, k.c.graph.Allowed, Refusal, Arrival;
  }

  lemma SubOutline<S, E, P>(j: Journal<S, E, P>, n: nat, m: nat, i: nat)
    requires n <= i <= m <= |j|
    ensures Outline(j[n..i]) == Outline(j[n..m])[..i - n]
  {
  }

  lemma PrefixOutline<S, E, P>(j: Journal<S, E, P>, n: nat, trial: seq<Sketch<S, E, P>>, j': Journal<S, E, P>)
    requires n <= |j| && Outline(j) == Outline(j[..n]) + trial && j <= j'
    ensures |j| == n + |trial| && Outline(j'[n..n + |trial|]) == trial
  {
    assert |Outline(j)| == |j| && |Outline(j[..n])| == n;
    forall i | 0 <= i < |trial| ensures Bare(j'[n + i]) == trial[i] {
      assert Outline(j)[n + i] == trial[i];
    }
  }

  lemma QuestionOfPrefix<S, E, P>(j: Journal<S, E, P>, j': Journal<S, E, P>, n: nat)
    requires j <= j' && n + 2 <= |j|
    ensures Question(j', n) == Question(j, n)
  {
  }

  /** An attempt's part of a longer journal. */
  lemma AttemptInChain<S(!new), E(!new), P>(k: Machine<S, E, P>, w: World<S, E, P>, event: E, eventPayload: P,
      j: Journal<S, E, P>)
    requires k.c.Valid()
    requires var after := k.Transit(w, event, eventPayload).0;
             after.journal <= j
    ensures var (after, r) := k.Transit(w, event, eventPayload);
            var n, q := |w.journal|, Question(j, |w.journal|);
            var trial := Trial(k.c, w.state.current, event, eventPayload, k.env.decide(q), k.env.storeSucceeds(q));
            && r == trial.1 && |after.journal| == n + |trial.0| && Outline(j[n..n + |trial.0|]) == trial.0
            && Leads(k.c, w.state, event, k.env.decide(q), r, after.state)
            && w.journal <= after.journal && after.up == w.up
  {
    hide Outline, k.Transit, k.c.graph.Indexed, k.c.graph.Allowed, Refusal, Arrival, Leads;
    AttemptShows(k, w, event, eventPayload);
    var after := k.Transit(w, event, eventPayload).0;
    assert after.journal[..|w.journal|] == w.journal;
    var q := Question(after.journal, |w.journal|);
    var trial := Trial(k.c, w.state.current, event, eventPayload, k.env.decide(q), k.env.storeSucceeds(q)).0;
    PrefixOutline(after.journal, |w.journal|, trial, j);
    if k.c.graph.Allowed(w.state.current, event).Some? {
      QuestionOfPrefix(after.journal, j, |w.journal|);
    } else {
      UnansweredLeads(k.c, w.state, event, k.env.decide(q), k.env.decide(Question(j, |w.journal|)), after.state);
    }
  }

  lemma UnansweredLeads<S(!new), E(!new), P>(c: Config<S, E, P>, v: Snapshot<S, P>, event: E,
      decision: TransitionResult<S, P>, other: TransitionResult<S, P>, v': Snapshot<S, P>)
    requires c.Valid() && c.graph.Allowed(v.current, event).None?
    ensures forall r :: Leads(c, v, event, decision, r, v') <==> Leads(c, v, event, other, r, v')
  {
  }

  /** What the actor does with an event is such a chain, and ends in the state it cached last. */
  lemma {:induction false} ChainShows<S(!new), E(!new), P>(k: Machine<S, E, P>, w: World<S, E, P>, event: E,
      eventPayload: P, fuel: nat)
    requires k.c.Valid()
    ensures var (done, ending) := k.DoTransition(w, event, eventPayload, fuel);
            && IsChain(k, w.state, |w.journal|, done.journal, event, eventPayload, fuel, ending)
            && w.journal <= done.journal && done.up == w.up
            && (if fuel == 0 then done == w else CachedOf(done.journal) == Some(done.state))
    decreases fuel, 0
  {
    hide Outline, k.Transit, k.c.graph.Indexed, Trial, Leads, Question, GoesOn;
    if fuel > 0 {
      ChainRestShows(k, w, event, eventPayload, fuel);
      AttemptInChain(k, w, event, eventPayload, k.DoTransition(w, event, eventPayload, fuel).0.journal);
    }
  }

  lemma {:induction false} ChainRestShows<S(!new), E(!new), P>(k: Machine<S, E, P>, w: World<S, E, P>, event: E,
      eventPayload: P, fuel: nat)
    requires k.c.Valid() && fuel > 0
    ensures var (after, r) := k.Transit(w, event, eventPayload);
            var (done, ending) := k.DoTransition(w, event, eventPayload, fuel);
            && k.Cache(after).journal <= done.journal && done.up == after.up
            && GoesOn(k, done.journal, |after.journal|, r, fuel - 1, ending)
            && done.journal[|after.journal|] == Cached(after.state) && CachedOf(done.journal) == Some(done.state)
    decreases fuel - 1, 1
  {
    hide Outline, k.Transit, k.c.graph.Indexed, IsChain, CachedOf, FirstHard;
    var (after, r) := k.Transit(w, event, eventPayload);
    var cached := k.Cache(after);
    var done := k.DoTransition(w, event, eventPayload, fuel).0;
    var hard := k.HardEvent(cached.state.current);
    CachedLast(after.journal, cached.state);
    if r == Ok(HardContinue) && hard.Some? {
      ChainShows(k, cached, hard.value, cached.state.payload, fuel - 1);
    } else if r == Ok(AutoTerminate) {
      HaltedLast(cached.journal);
    }
  }

  lemma CachedLast<S, E, P>(j: Journal<S, E, P>, v: Snapshot<S, P>)
    ensures CachedOf(j + [Cached(v)]) == Some(v)
  {
  }

  lemma HaltedLast<S, E, P>(j: Journal<S, E, P>)
    ensures CachedOf(j + [Halted]) == CachedOf(j)
  {
    assert (j + [Halted])[..|j|] == j;
  }

  // ---- Actions ------------------------------------------------------------------------------

  /** A supervisor stores the initial state where nothing is stored. */
  function Seeding<S(!new), E(!new), P>(c: Config<S, E, P>, stored: Option<(S, P)>,
      stores: bool): seq<Sketch<S, E, P>> {
    if c.supervised && c.persistent && stored.None? && stores then [Seeded(c.graph.initial, Some(c.payload))] else []
  }

  function Wakening<S, E, P>(s: S, payload: P, life: Lifecycle): seq<Sketch<S, E, P>> {
    [Born(s, Some(payload), true, life), OnStart(None), OnEnter(s, None), Turned(Running),
     Cached(Snapshot(s, None, [Entry(s, 1)], Running, None))]
  }

  /** An instance resumes from what is stored, or begins awake, or is left as the supervisor made it. */
  function Birth<S(!new), E(!new), P>(c: Config<S, E, P>, stored: Option<(S, P)>, payload: P): seq<Sketch<S, E, P>> {
    if c.persistent && stored.Some? then
      Wakening(stored.value.0, stored.value.1, if c.supervised then Loaded else Running)
    else if c.supervised then [Born(c.graph.initial, Some(c.payload), false, Created)]
    else Wakening(c.graph.initial, payload, Created)
  }

  /** After its opening the instance schedules its first tick, and fires the first hard event of its state. */
  ghost predicate Opens<S(!new), E(!new), P>(k: Machine<S, E, P>, n: nat, j: Journal<S, E, P>,
      opening: seq<Sketch<S, E, P>>, fuel: nat, ending: Ending)
    requires k.c.Valid() && opening != []
  {
    var born := n + |opening|;
    var begun := if k.c.timer then born + 1 else born;
    && begun <= |j| && Outline(j[n..born]) == opening && (k.c.timer ==> j[born] == Scheduled)
    && var v := if j[born - 1].Cached? then j[born - 1].snapshot else FreshSnapshot(k.c.graph.initial, k.c.payload);
       match FirstHard(k.c.graph.EventsFor(v.current))
       case None => |j| == begun && ending == NoHardEvent
       case Some(event) => IsChain(k, v, begun, j, event, v.payload, fuel, ending)
  }

  /**
   on_timer is called. What it asks for is attempted; if it asks for nothing, nothing follows.
   */
  ghost predicate IsPoll<S(!new), E(!new), P>(k: Machine<S, E, P>, v: Snapshot<S, P>, n: nat, j: Journal<S, E, P>,
      fuel: nat, ending: Ending)
    requires k.c.Valid()
  {
    var asked := n + 1;
    && asked <= |j| && j[n] == OnTimer(v.current, v.payload)
    && match k.env.poll(j[..asked])
       case None => |j| == asked && ending == Settled
       case Some((event, payload)) =>
         IsChain(k, v.(payload := k.env.edit(j[..asked])), asked, j, event, payload, fuel, ending)
  }

  /** The instance is running after that. */
  predicate RunsAfterPoll<S(!new), E(!new), P>(k: Machine<S, E, P>, v: Snapshot<S, P>, n: nat, j: Journal<S, E, P>,
      fuel: nat)
  {
    if fuel == 0 || n >= |j| || k.env.poll(j[..n + 1]).None? then v.lifecycle == Running
    else CachedOf(j).Some? && CachedOf(j).value.lifecycle == Running
  }

  /** The journal before a tick that was scheduled last. */
  function WithoutTick<S, E, P>(j: Journal<S, E, P>): Journal<S, E, P> {
    if j != [] && j[|j| - 1] == Scheduled then j[..|j| - 1] else j
  }

  /** A tick polls, and then the next one is scheduled exactly if the instance has a timer and is running. */
  ghost predicate IsTick<S(!new), E(!new), P>(k: Machine<S, E, P>, v: Snapshot<S, P>, n: nat, j: Journal<S, E, P>,
      fuel: nat, ending: Ending)
    requires k.c.Valid()
  {
    var body := WithoutTick(j);
    && n < |body| && j[n] == Ticked && IsPoll(k, v, n + 1, body, fuel, ending)
    && (body != j <==> ending != OutOfFuel && k.c.timer && RunsAfterPoll(k, v, n + 1, body, fuel))
  }

  /** The journal is what the action makes of that of the world. */
  ghost predicate Plays<S(!new), E(!new), P>(k: Machine<S, E, P>, w: World<S, E, P>, action: Action<E, P>, fuel: nat,
      j: Journal<S, E, P>, ending: Ending)
    requires k.c.Valid()
  {
    var n, stored := |w.journal|, StoredOf(w.journal);
    && w.journal <= j
    && match action
       case Launch(payload) =>
         var seeding := Seeding(k.c, stored, k.env.storeSucceeds(w.journal));
         var found := if seeding == [] then stored else Some((k.c.graph.initial, k.c.payload));
         Opens(k, n, j, seeding + Birth(k.c, found, payload), fuel, ending)
       case Restart => Opens(k, n, j, Birth(k.c, stored, k.c.payload), fuel, ending)
       case Deliver(TransitionMsg(event, payload)) => IsChain(k, w.state, n, j, event, payload, fuel, ending)
       case Deliver(TimerTickMsg) => IsTick(k, w.state, n, j, fuel, ending)
       case Deliver(ShutdownMsg) =>
         && Outline(j[n..]) == Farewell() + [Cached(Faceless(w.state.(lifecycle := Terminated))), Halted]
         && ending == Finished
       case Stop =>
         && Outline(j[n..]) ==
            (if w.state.lifecycle != Running then []
             else [Turned(Terminated), OnTerminate(None), Cached(Faceless(w.state.(lifecycle := Terminated)))])
         && ending == Settled
  }

  lemma AwakenShows<S(!new), E(!new), P>(k: Machine<S, E, P>, w: World<S, E, P>, s: S, payload: P, life: Lifecycle)
    ensures var awake := k.Awaken(w, s, payload, life);
            && Outline(awake.journal) == Outline(w.journal) + Wakening(s, payload, life)
            && w.journal <= awake.journal && awake.up == w.up
            && awake.journal != [] && awake.journal[|awake.journal| - 1] == Cached(awake.state)
  {
    hide Outline;
    var x := Born(s, payload, true, life);
    var born := k.Emit(w.(state := FreshSnapshot(s, payload).(lifecycle := life)), x);
    OutlineSnoc(w.journal, x);
    CallShows(k, born, OnStart(payload));
    var started := k.Call(born, OnStart(payload));
    CallShows(k, started, OnEnter(s, started.state.payload));
    var greeted := k.Enter(started, s);
    OutlineSnoc(greeted.journal, Turned(Running));
    var running := k.Turn(greeted, Running);
    OutlineSnoc(running.journal, Cached(running.state));
  }

  /** The state an instance is born with. */
  ghost predicate IsBornAs<S(!new), E(!new), P>(c: Config<S, E, P>, born: World<S, E, P>) {
    && born.journal != []
    && var x := born.journal[|born.journal| - 1];
       born.state == if x.Cached? then x.snapshot else FreshSnapshot(c.graph.initial, c.payload)
  }

  lemma BirthShows<S(!new), E(!new), P>(k: Machine<S, E, P>, w: World<S, E, P>, payload: P)
    ensures var born := k.Incarnate(w, payload);
            && Outline(born.journal) == Outline(w.journal) + Birth(k.c, StoredOf(w.journal), payload)
            && w.journal <= born.journal && born.up == w.up && IsBornAs(k.c, born)
  {
    hide Outline, k.Awaken, k.c.Watch, StoredOf, Wakening;
    StoredIsWatched(k.c, w.journal);
    var stored := StoredOf(w.journal);
    if k.c.persistent && stored.Some? {
      AwakenShows(k, w, stored.value.0, stored.value.1, if k.c.supervised then Loaded else Running);
    } else if k.c.supervised {
      OutlineSnoc(w.journal, Born(k.c.graph.initial, k.c.payload, false, Created));
    } else {
      AwakenShows(k, w, k.c.graph.initial, payload, Created);
    }
  }

  lemma SeedShows<S(!new), E(!new), P>(k: Machine<S, E, P>, w: World<S, E, P>)
    requires k.c.supervised
    ensures var seeding := Seeding(k.c, StoredOf(w.journal), k.env.storeSucceeds(w.journal));
            var seeded := k.Seed(w);
            && Outline(seeded.journal) == Outline(w.journal) + seeding
            && StoredOf(seeded.journal) ==
               (if seeding == [] then StoredOf(w.journal) else Some((k.c.graph.initial, k.c.payload)))
            && w.journal <= seeded.journal && seeded.state == w.state && seeded.up == w.up
  {
    hide Outline, k.c.Watch;
    StoredIsWatched(k.c, w.journal);
    OutlineSnoc(w.journal, Seeded(k.c.graph.initial, k.c.payload));
  }

  /** The start hook after an opening. */
  lemma StartShows<S(!new), E(!new), P>(k: Machine<S, E, P>, w: World<S, E, P>, n: nat, opening: seq<Sketch<S, E, P>>,
      fuel: nat)
    requires k.c.Valid() && opening != [] && n <= |w.journal| && IsBornAs(k.c, w)
    requires Outline(w.journal) == Outline(w.journal[..n]) + opening
    ensures var (done, ending) := k.Started(w, fuel);
            Opens(k, n, done.journal, opening, fuel, ending) && w.journal <= done.journal && done.up == w.up
  {
    hide Outline, k.DoTransition, k.c.graph.Indexed, IsChain, CachedOf;
    var timed := if k.c.timer then k.Emit(w, Scheduled) else w;
    var (done, ending) := k.Started(w, fuel);
    var hard := k.HardEvent(timed.state.current);
    if hard.Some? {
      ChainShows(k, timed, hard.value, timed.state.payload, fuel);
    }
    assert w.journal <= timed.journal <= done.journal;
    PrefixOutline(w.journal, n, opening, done.journal);
    assert done.journal[|w.journal| - 1] == w.journal[|w.journal| - 1];
  }

  lemma LaunchShows<S(!new), E(!new), P>(k: Machine<S, E, P>, w: World<S, E, P>, payload: P, fuel: nat)
    requires k.c.Valid()
    ensures var (after, ending) := k.Perform(w, Launch(payload), fuel);
            Plays(k, w, Launch(payload), fuel, after.journal, ending) && after.up
  {
    hide Outline, k.Started, k.Incarnate, k.Seed, Opens, Birth, StoredOf;
    var seeding := Seeding(k.c, StoredOf(w.journal), k.env.storeSucceeds(w.journal));
    var seeded := if k.c.supervised then k.Seed(w) else w;
    if k.c.supervised {
      SeedShows(k, w);
    }
    BirthShows(k, seeded, payload);
    var born := k.Incarnate(seeded, payload).(up := true);
    var birth := Birth(k.c, StoredOf(seeded.journal), payload);
    assert born.journal[..|w.journal|] == w.journal;
    assert Outline(w.journal) + seeding + birth == Outline(w.journal) + (seeding + birth);
    BirthIsSomething(k.c, StoredOf(seeded.journal), payload);
    StartShows(k, born, |w.journal|, seeding + birth, fuel);
  }

  lemma BirthIsSomething<S(!new), E(!new), P>(c: Config<S, E, P>, stored: Option<(S, P)>, payload: P)
    ensures Birth(c, stored, payload) != []
  {
  }

  lemma RestartShows<S(!new), E(!new), P>(k: Machine<S, E, P>, w: World<S, E, P>, fuel: nat)
    requires k.c.Valid()
    ensures var (after, ending) := k.Perform(w, Restart, fuel);
            Plays(k, w, Restart, fuel, after.journal, ending) && after.up
  {
    hide Outline, k.Started, k.Incarnate, Opens, Birth, StoredOf;
    BirthShows(k, w, k.c.payload);
    var born := k.Incarnate(w, k.c.payload).(up := true);
    assert born.journal[..|w.journal|] == w.journal;
    BirthIsSomething(k.c, StoredOf(w.journal), k.c.payload);
    StartShows(k, born, |w.journal|, Birth(k.c, StoredOf(w.journal), k.c.payload), fuel);
  }

  lemma PollShows<S(!new), E(!new), P>(k: Machine<S, E, P>, w: World<S, E, P>, fuel: nat)
    requires k.c.Valid()
    ensures var (after, ending) := k.HandleTimerTick(w, fuel);
            && IsPoll(k, w.state, |w.journal|, after.journal, fuel, ending)
            && (after.state.lifecycle == Running <==> RunsAfterPoll(k, w.state, |w.journal|, after.journal, fuel))
            && |w.journal| < |after.journal| && after.journal[|after.journal| - 1] != Scheduled
            && w.journal <= after.journal && after.up == w.up
  {
    hide k.DoTransition, k.c.graph.Indexed, IsChain, CachedOf;
    var polled := k.Call(w, OnTimer(w.state.current, w.state.payload));
    var n := |w.journal|;
    var answer := k.env.poll(polled.journal);
    if answer.Some? {
      var (event, payload) := answer.value;
      var (after, ending) := k.DoTransition(polled, event, payload, fuel);
      ChainShows(k, polled, event, payload, fuel);
      assert after.journal[..n + 1] == polled.journal;
      if fuel > 0 {
        ChainIsNotScheduled(k, polled.state, n + 1, after.journal, event, payload, fuel, ending);
      }
    } else {
      assert polled.journal[..n + 1] == polled.journal;
    }
  }

  lemma TickShows<S(!new), E(!new), P>(k: Machine<S, E, P>, w: World<S, E, P>, fuel: nat)
    requires k.c.Valid()
    ensures var (after, ending) := k.HandleMessage(w, TimerTickMsg, fuel);
            && IsTick(k, w.state, |w.journal|, after.journal, fuel, ending)
            && w.journal <= after.journal && after.up == w.up
  {
    hide k.HandleTimerTick, k.c.graph.Indexed, IsPoll, RunsAfterPoll;
    PollShows(k, k.Emit(w, Ticked), fuel);
    var body := k.HandleTimerTick(k.Emit(w, Ticked), fuel).0;
    assert (body.journal + [Scheduled])[..|body.journal|] == body.journal;
  }

  /** A chain's last effect is a cache update or the wish to halt. */
  lemma {:induction false} ChainIsNotScheduled<S(!new), E(!new), P>(k: Machine<S, E, P>, v: Snapshot<S, P>, n: nat,
      j: Journal<S, E, P>, event: E, eventPayload: P, fuel: nat, ending: Ending)
    requires k.c.Valid() && fuel > 0 && IsChain(k, v, n, j, event, eventPayload, fuel, ending)
    ensures |j| > n && (j[|j| - 1].Cached? || j[|j| - 1].Halted?)
    decreases fuel
  {
    hide Outline, Trial, Leads, Question, k.c.graph.Indexed;
    var (end, r) := AttemptEnd(k, v, n, event, eventPayload, j);
    var hard := FirstHard(k.c.graph.EventsFor(j[end].snapshot.current));
    if r == Ok(HardContinue) && hard.Some? && fuel > 1 {
      ChainIsNotScheduled(k, j[end].snapshot, end + 1, j, hard.value, j[end].snapshot.payload, fuel - 1, ending);
    }
  }

  lemma ShutdownShows<S(!new), E(!new), P>(k: Machine<S, E, P>, w: World<S, E, P>, fuel: nat)
    requires k.c.Valid()
    ensures var (after, ending) := k.Perform(w, Deliver(ShutdownMsg), fuel);
            Plays(k, w, Deliver(ShutdownMsg), fuel, after.journal, ending) && after.up == w.up
  {
    hide Outline, k.Terminate, StoredOf, k.c.graph.Indexed;
    TerminateShows(k, w);
    var ended := k.Terminate(w);
    OutlineSnoc(ended.journal, Cached(ended.state));
    OutlineSnoc(k.Cache(ended).journal, Halted);
    var after := k.Emit(k.Cache(ended), Halted);
    var trial := Farewell() + [Cached(Faceless(w.state.(lifecycle := Terminated))), Halted];
    assert Outline(after.journal) == Outline(w.journal) + trial;
    assert after.journal[..|w.journal|] == w.journal;
    PrefixOutline(after.journal, |w.journal|, trial, after.journal);
    assert after.journal[|w.journal|..|w.journal| + |trial|] == after.journal[|w.journal|..];
  }

  lemma StopShows<S(!new), E(!new), P>(k: Machine<S, E, P>, w: World<S, E, P>, fuel: nat)
    requires k.c.Valid()
    ensures var (after, ending) := k.Perform(w, Stop, fuel);
            Plays(k, w, Stop, fuel, after.journal, ending) && !after.up
  {
    hide StoredOf, k.c.graph.Indexed, Outline;
    var after := k.Stopped(w);
    if w.state.lifecycle == Running {
      var turned := k.Turn(w, Terminated);
      OutlineSnoc(w.journal, Turned(Terminated));
      CallShows(k, turned, OnTerminate(turned.state.payload));
      var called := k.Call(turned, OnTerminate(turned.state.payload));
      OutlineSnoc(called.journal, Cached(called.state));
      var trial := [Turned(Terminated), OnTerminate(None), Cached(Faceless(w.state.(lifecycle := Terminated)))];
      assert Outline(after.journal) == Outline(w.journal) + trial;
      assert after.journal[..|w.journal|] == w.journal;
      PrefixOutline(after.journal, |w.journal|, trial, after.journal);
      assert after.journal[|w.journal|..|w.journal| + |trial|] == after.journal[|w.journal|..];
    } else {
      assert after.journal[|w.journal|..] == [];
      EmptyOutline<S, E, P>();
    }
  }

  lemma EmptyOutline<S, E, P>()
    ensures Outline<S, E, P>([]) == []
  {
  }

  /** Whatever the callbacks do, and whatever has happened before, every action does what it should. */
  lemma ActionShows<S(!new), E(!new), P>(k: Machine<S, E, P>, w: World<S, E, P>, action: Action<E, P>, fuel: nat)
    requires k.c.Valid()
    ensures var (after, ending) := k.Perform(w, action, fuel);
            && Plays(k, w, action, fuel, after.journal, ending)
            && after.up == match action case Launch(_) => true case Restart => true case Stop => false case _ => w.up
  {
    hide k.Started, k.Incarnate, k.Seed, k.DoTransition, Opens, IsChain, IsTick, Birth, k.HandleTimerTick, StoredOf,
      k.c.graph.Indexed;
    match action {
      case Launch(payload) => LaunchShows(k, w, payload, fuel);
      case Restart => RestartShows(k, w, fuel);
      case Deliver(TransitionMsg(event, payload)) => ChainShows(k, w, event, payload, fuel);
      case Deliver(TimerTickMsg) => TickShows(k, w, fuel);
      case Deliver(ShutdownMsg) => ShutdownShows(k, w, fuel);
      case Stop => StopShows(k, w, fuel);
    }
  }
}
