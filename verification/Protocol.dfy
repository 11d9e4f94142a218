/**
 The protocol of one FSM instance, seen from outside.

 Everything the engine and the actor do that somebody else can observe - a callback, a store, a
 notification, a cache update, a timer message - and every assignment to the instance's state and
 lifecycle is an effect, and a journal is the list of the effects so far, over all incarnations of
 the instance. A crash can happen between any two effects, so what holds of every prefix of every
 journal holds at every crash point. The protocol is an automaton over effects: it says which effect
 may come next.
 */
module Protocol {
  import opened Wrappers
  import opened Graphs
  import opened History
  import opened States

  datatype Effect<S, E, P> =
    | Born(state: S, payload: P, awake: bool, lifecycle: Lifecycle)  // a new incarnation's state is ready
    | OnStart(payload: P)
    | OnEnter(state: S, payload: P)
    | OnExit(state: S, payload: P)
    | OnTransition(from: S, event: E, eventPayload: P, payload: P)
    | OnFailure(event: E, error: ErrorStage, payload: P)
    | OnTimer(state: S, payload: P)
    | OnTerminate(payload: P)
    | Seeded(state: S, payload: P)       // the supervisor stores the initial state
    | Stored(state: S, payload: P)       // the engine stores the target of a transition
    | StoreFailed(state: S, payload: P)
    | Committed(state: S)                // current state, history, error and lifecycle are updated
    | Notified(from: S, to: S, event: E) // the listener is told
    | Turned(lifecycle: Lifecycle)       // the lifecycle is assigned
    | Cached(snapshot: Snapshot<S, P>)
    | Scheduled                          // a timer tick is sent
    | Ticked                             // a timer tick is received
    | Halted                             // the actor asks to be stopped

  type Journal<S, E, P> = seq<Effect<S, E, P>>

  /** Where an incarnation is between two effects. */
  datatype Phase<S, E> =
    | Absent
    | Waking | Started | Greeted
    | Ready
    | Left
    | Asked(event: E)
    | Refused
    | Saved(event: E, target: S)
    | Changed(from: S, event: E)
    | Told
    | Doomed | Closing | Ending | Dropping
    | Closed

  datatype Monitor<S, E, P> = Monitor(
    phase: Phase<S, E>,
    current: S,
    awake: bool,                       // the incarnation began with on_start and on_enter
    open: Option<S>,                   // the state entered and not yet left
    stored: Option<(S, P)>,
    visits: seq<S>,
    life: Lifecycle,
    pending: nat,                      // timer ticks sent and not received
    terminations: nat,
    moved: bool,                       // the incarnation has made a transition
    halted: bool,
    cached: Option<Snapshot<S, P>>,    // what the incarnation cached last
    polled: bool)                      // on_timer has been called since

  // ---- Reading a journal ----------------------------------------------------------------

  datatype Bracket<S> = In(state: S) | Out(state: S)

  /** The on_enter and on_exit calls of the latest incarnation. */
  function Brackets<S, E, P>(j: Journal<S, E, P>): seq<Bracket<S>> {
    if j == [] then []
    else
      var before, x := Brackets(j[..|j| - 1]), j[|j| - 1];
      if x.Born? then [] else if x.OnEnter? then before + [In(x.state)]
      else if x.OnExit? then before + [Out(x.state)] else before
  }

  datatype Note<S, E> = Note(from: S, event: E, to: S)

  /** What the listener has been told about the latest incarnation. */
  function LogOf<S, E, P>(j: Journal<S, E, P>): seq<Note<S, E>> {
    if j == [] then []
    else
      var before, x := LogOf(j[..|j| - 1]), j[|j| - 1];
      if x.Born? then [] else if x.Notified? then before + [Note(x.from, x.event, x.to)] else before
  }

  /** The lifecycle values the latest incarnation has gone through. */
  function LivesOf<S, E, P>(j: Journal<S, E, P>): seq<Lifecycle> {
    if j == [] then []
    else
      var before, x := LivesOf(j[..|j| - 1]), j[|j| - 1];
      if x.Born? then [x.lifecycle] else if x.Turned? then before + [x.lifecycle]
      else if x.Committed? then before + [Running] else before
  }

  /** How often the latest incarnation has called on_terminate. */
  function TerminationsOf<S, E, P>(j: Journal<S, E, P>): nat {
    if j == [] then 0
    else
      var before, x := TerminationsOf(j[..|j| - 1]), j[|j| - 1];
      if x.Born? then 0 else if x.OnTerminate? then before + 1 else before
  }

  /** Timer ticks the latest incarnation has been sent and has not received. */
  function TicksDue<S, E, P>(j: Journal<S, E, P>): int {
    if j == [] then 0
    else
      var before, x := TicksDue(j[..|j| - 1]), j[|j| - 1];
      if x.Born? then 0 else if x.Scheduled? then before + 1 else if x.Ticked? then before - 1 else before
  }

  /** Entering and leaving alternate, and what is left is what was entered last. */
  ghost predicate Alternate<S>(calls: seq<Bracket<S>>) {
    forall k :: 0 < k < |calls| ==>
      && (calls[k - 1].In? <==> calls[k].Out?)
      && (calls[k].Out? ==> calls[k].state == calls[k - 1].state)
  }

  /** Each note starts where the one before it ended, the first one at `start`. */
  ghost predicate Chained<S, E>(start: S, log: seq<Note<S, E>>) {
    && (log != [] ==> log[0].from == start)
    && (forall k :: 0 < k < |log| ==> log[k].from == log[k - 1].to)
  }

  function TargetsOf<S, E>(log: seq<Note<S, E>>): seq<S> {
    seq(|log|, k requires 0 <= k < |log| => log[k].to)
  }

  function Rank(life: Lifecycle): nat {
    match life
    case Created => 0
    case Loaded => 1
    case Running => 2
    case Terminating => 3
    case Terminated => 4
  }

  /** The graph, the services an instance is configured with, and its default payload. */
  datatype Config<S(==, !new), E(==, !new), P> = Config(
    graph: TransitionGraph<S, E>,
    payload: P,
    persistent: bool,
    listening: bool,
    autoTerminate: bool,
    timer: bool,
    supervised: bool)
  {
    ghost predicate Valid() {
      graph.Indexed()
    }

    predicate MayMove(from: S, event: E, target: S)
      requires Valid()
    {
      var allowed := graph.Allowed(from, event);
      allowed.Some? && target in allowed.value.0
    }

    function StartMonitor(): Monitor<S, E, P> {
      Monitor(Absent, graph.initial, false, None, None, [], Created, 0, 0, false, false, None, false)
    }

    /** The state a new incarnation starts from: the stored one, or else the graph's initial state. */
    function RecoveryPoint(m: Monitor<S, E, P>): S {
      if persistent && m.stored.Some? then m.stored.value.0 else graph.initial
    }

    function BirthLife(m: Monitor<S, E, P>): Lifecycle {
      if persistent && m.stored.Some? then (if supervised then Loaded else Running) else Created
    }

    /** A supervised instance with nothing to recover skips on_start and on_enter. */
    predicate BornAwake(m: Monitor<S, E, P>) {
      !supervised || (persistent && m.stored.Some?)
    }

    /** The cached copy agrees with the instance in state, history and lifecycle. */
    predicate Truthful(m: Monitor<S, E, P>, v: Snapshot<S, P>) {
      v.current == m.current && v.history == PushAll(HISTORY_SIZE, m.visits) && v.lifecycle == m.life
    }

    /** Which effect may come next. */
    ghost predicate Legal(m: Monitor<S, E, P>, x: Effect<S, E, P>)
      requires Valid()
    {
      match x
      case Born(s, p, awake, life) =>
        && s == RecoveryPoint(m) && awake == BornAwake(m) && life == BirthLife(m)
        && (persistent && m.stored.Some? ==> p == m.stored.value.1)
        && (!awake ==> p == payload)
      case Seeded(s, _) => supervised && persistent && m.stored.None? && s == graph.initial
      case OnStart(_) => m.phase.Waking?
      case OnEnter(s, _) =>
        && m.open.None? && s == m.current
        && (m.phase.Started? || m.phase.Refused? || m.phase.Told? || (m.phase.Changed? && !listening))
      case OnExit(s, _) =>
        && m.phase.Ready? && s == m.current
        && (m.open == Some(s) || (m.open.None? && !m.awake && !m.moved))
      case OnTransition(from, event, _, _) =>
        m.phase.Left? && from == m.current && graph.Allowed(from, event).Some?
      case OnFailure(event, _, _) => m.phase == Asked(event)
      case Stored(s, _) => m.phase.Asked? && persistent && MayMove(m.current, m.phase.event, s)
      case StoreFailed(s, _) => m.phase.Asked? && persistent && MayMove(m.current, m.phase.event, s)
      case Committed(s) =>
        if persistent then m.phase.Saved? && m.phase.target == s
        else m.phase.Asked? && MayMove(m.current, m.phase.event, s)
      case Notified(from, to, event) => m.phase == Changed(from, event) && listening && to == m.current
      case Turned(life) =>
        || (m.phase.Greeted? && life == Running)
        || (m.phase.Ready? && life == Terminating)
        || (m.phase.Ready? && m.life == Running && life == Terminated)
        || (m.phase.Doomed? && life == Terminating)
        || (m.phase.Ending? && life == Terminated)
      case OnTerminate(_) => m.phase.Closing? || m.phase.Dropping?
      case Cached(v) => (m.phase.Ready? || m.phase.Closed?) && Truthful(m, v)
      case Scheduled => timer && m.phase.Ready? && m.pending == 0
      case Ticked => m.phase.Ready? && m.pending > 0
      case OnTimer(s, _) => m.phase.Ready? && s == m.current
      case Halted => m.phase.Closed? && !m.halted
    }

    function Advance(m: Monitor<S, E, P>, x: Effect<S, E, P>): Monitor<S, E, P> {
      match x
      case Born(s, _, awake, life) =>
        Monitor(if awake then Waking else Ready, s, awake, None, m.stored, [s], life, 0, 0, false, false, None, false)
      case Seeded(s, p) => m.(stored := Some((s, p)))
      case OnStart(_) => m.(phase := Started)
      case OnEnter(s, _) =>
        var next :=
          if m.phase.Started? then Greeted
          else if m.phase.Refused? then Ready
          else if autoTerminate && graph.IsFinal(s) then Doomed
          else Ready;
        m.(phase := next, open := Some(s))
      case OnExit(_, _) => m.(phase := Left, open := None)
      case OnTransition(_, event, _, _) => m.(phase := Asked(event))
      case OnFailure(_, _, _) => m.(phase := Refused)
      case Stored(s, p) =>
        m.(phase := if m.phase.Asked? then Saved(m.phase.event, s) else Absent, stored := Some((s, p)))
      case StoreFailed(_, _) => m.(phase := Refused)
      case Committed(s) =>
        var next :=
          if m.phase.Asked? then Changed(m.current, m.phase.event)
          else if m.phase.Saved? then Changed(m.current, m.phase.event)
          else Absent;
        m.(phase := next, current := s, visits := m.visits + [s], life := Running, moved := true)
      case Notified(_, _, _) => m.(phase := Told)
      case Turned(life) =>
        var next :=
          if m.phase.Greeted? then Ready
          else if m.phase.Ending? then Closed
          else if life == Terminated then Dropping
          else Closing;
        m.(phase := next, life := life)
      case OnTerminate(_) =>
        m.(phase := if m.phase.Dropping? then Closed else Ending, terminations := m.terminations + 1)
      case Cached(v) => m.(cached := Some(v), polled := false)
      case Scheduled => m.(pending := m.pending + 1)
      case Ticked => m.(pending := if m.pending > 0 then m.pending - 1 else 0)
      case OnTimer(_, _) => m.(polled := true)
      case Halted => m.(halted := true)
    }

    function Watch(j: Journal<S, E, P>): Monitor<S, E, P> {
      if j == [] then StartMonitor() else Advance(Watch(j[..|j| - 1]), j[|j| - 1])
    }

    /** Every effect of the journal was legal when it came. */
    ghost predicate Accepts(j: Journal<S, E, P>)
      requires Valid()
    {
      j == [] || (Accepts(j[..|j| - 1]) && Legal(Watch(j[..|j| - 1]), j[|j| - 1]))
    }

    lemma Snoc(j: Journal<S, E, P>, x: Effect<S, E, P>)
      requires Valid()
      ensures Watch(j + [x]) == Advance(Watch(j), x)
      ensures Accepts(j + [x]) <==> Accepts(j) && Legal(Watch(j), x)
    {
      assert (j + [x])[..|j|] == j;
    }

    lemma {:induction false} AcceptsPrefix(j: Journal<S, E, P>, n: nat)
      requires Valid() && Accepts(j) && n <= |j|
      ensures Accepts(j[..n])
    {
      if n < |j| {
        assert j[..|j| - 1][..n] == j[..n];
        AcceptsPrefix(j[..|j| - 1], n);
      } else {
        assert j[..n] == j;
      }
    }

    // ---- What every reachable monitor satisfies -----------------------------------------

    ghost predicate TracksVisits(m: Monitor<S, E, P>)
      requires Valid()
    {
      && (m.phase.Absent? ==> m.visits == [] && m.current == graph.initial)
      && (!m.phase.Absent? ==> m.visits != [] && m.visits[|m.visits| - 1] == m.current)
      && (m.phase.Changed? ==>
            && |m.visits| > 1 && m.visits[|m.visits| - 2] == m.phase.from
            && MayMove(m.phase.from, m.phase.event, m.current))
    }

    ghost predicate TracksBracket(m: Monitor<S, E, P>) {
      match m.phase
      case Absent => m.open.None?
      case Waking | Started | Left | Asked(_) | Refused | Saved(_, _) | Changed(_, _) | Told => m.open.None?
      case Greeted | Doomed => m.open == Some(m.current)
      case Ready | Closing | Ending | Dropping | Closed =>
        m.open == Some(m.current) || (m.open.None? && !m.awake && !m.moved)
    }

    /** What is stored is where the instance is, except between a store and its commit. */
    ghost predicate TracksStore(m: Monitor<S, E, P>)
      requires Valid()
    {
      persistent ==>
        if m.phase.Saved? then
          && m.stored.Some? && m.stored.value.0 == m.phase.target
          && MayMove(m.current, m.phase.event, m.phase.target)
        else RecoveryPoint(m) == m.current
    }

    ghost predicate TracksLife(m: Monitor<S, E, P>) {
      && (m.halted ==> m.phase.Closed?)
      && m.terminations == (if m.phase.Ending? || m.phase.Closed? then 1 else 0)
      && (m.moved ==> m.life != Created && m.life != Loaded)
      && match m.phase
         case Closing | Ending => m.life == Terminating
         case Dropping | Closed => m.life == Terminated
         case Changed(_, _) | Told | Doomed => m.life == Running
         case Ready | Left | Asked(_) | Refused | Saved(_, _) => m.life == Running || (m.life == Created && !m.awake)
         case _ => !m.moved && (m.life == Created || m.life == Loaded || m.life == Running)
    }

    /** With auto-termination, an instance that has moved and may move again is not in a final state. */
    ghost predicate TracksFinals(m: Monitor<S, E, P>) {
      autoTerminate && m.moved
          && (m.phase.Ready? || m.phase.Left? || m.phase.Asked? || m.phase.Refused? || m.phase.Saved?) ==>
        !graph.IsFinal(m.current)
    }

    ghost predicate TracksTicks(m: Monitor<S, E, P>) {
      m.pending <= (if timer then 1 else 0)
    }

    ghost predicate Sane(m: Monitor<S, E, P>)
      requires Valid()
    {
      && TracksTicks(m) && TracksVisits(m) && TracksBracket(m) && TracksStore(m) && TracksLife(m) && TracksFinals(m)
    }

    lemma StepTracksVisits(m: Monitor<S, E, P>, x: Effect<S, E, P>)
      requires Valid() && TracksVisits(m) && TracksStore(m) && Legal(m, x)
      ensures TracksVisits(Advance(m, x))
    {
      hide graph.Indexed, graph.Allowed, PushAll;
    }

    lemma StepTracksBracket(m: Monitor<S, E, P>, x: Effect<S, E, P>)
      requires Valid() && TracksBracket(m) && Legal(m, x)
      ensures TracksBracket(Advance(m, x))
    {
      hide graph.Indexed, graph.Allowed, PushAll;
    }

    lemma StepTracksStore(m: Monitor<S, E, P>, x: Effect<S, E, P>)
      requires Valid() && TracksStore(m) && Legal(m, x)
      ensures TracksStore(Advance(m, x))
    {
      hide graph.Indexed, graph.Allowed, PushAll;
    }

    lemma StepTracksLife(m: Monitor<S, E, P>, x: Effect<S, E, P>)
      requires Valid() && TracksLife(m) && Legal(m, x)
      ensures TracksLife(Advance(m, x))
      ensures TracksFinals(m) ==> TracksFinals(Advance(m, x))
    {
      hide graph.Indexed, graph.Allowed, PushAll;
    }

    lemma StepTracksTicks(m: Monitor<S, E, P>, x: Effect<S, E, P>)
      requires Valid() && TracksTicks(m) && Legal(m, x)
      ensures TracksTicks(Advance(m, x))
    {
      hide graph.Indexed, graph.Allowed, PushAll;
    }

    lemma StepIsSane(m: Monitor<S, E, P>, x: Effect<S, E, P>)
      requires Valid() && Sane(m) && Legal(m, x)
      ensures Sane(Advance(m, x))
    {
      hide Legal, Advance, TracksTicks, TracksVisits, TracksBracket, TracksStore, TracksLife, TracksFinals;
      StepTracksTicks(m, x);
      StepTracksVisits(m, x);
      StepTracksBracket(m, x);
      StepTracksStore(m, x);
      StepTracksLife(m, x);
    }

    lemma {:induction false} AcceptedIsSane(j: Journal<S, E, P>)
      requires Valid() && Accepts(j)
      ensures Sane(Watch(j))
    {
      if j != [] {
        hide Sane, Legal, Advance;
        AcceptedIsSane(j[..|j| - 1]);
        StepIsSane(Watch(j[..|j| - 1]), j[|j| - 1]);
      }
    }

    // ---- Safety of every journal --------------------------------------------------------

    ghost predicate BracketsMatch(calls: seq<Bracket<S>>, m: Monitor<S, E, P>) {
      && Alternate(calls)
      && (calls != [] ==> (calls[0].In? <==> m.awake))
      && m.open == (if calls != [] && calls[|calls| - 1].In? then Some(calls[|calls| - 1].state) else None)
      && match m.phase
         case Absent => calls == []
         case Waking | Started => calls == [] && m.awake
         case Left | Asked(_) | Refused | Saved(_, _) | Changed(_, _) | Told => calls != []
         case _ => m.open.None? ==> calls == []
    }

    lemma EntryMatches(calls: seq<Bracket<S>>, m: Monitor<S, E, P>, x: Effect<S, E, P>)
      requires Valid() && TracksBracket(m) && Legal(m, x) && BracketsMatch(calls, m) && x.OnEnter?
      ensures BracketsMatch(calls + [In(x.state)], Advance(m, x))
    {
      hide graph.Indexed, graph.Allowed, PushAll;
    }

    lemma ExitMatches(calls: seq<Bracket<S>>, m: Monitor<S, E, P>, x: Effect<S, E, P>)
      requires Valid() && TracksBracket(m) && Legal(m, x) && BracketsMatch(calls, m) && x.OnExit?
      ensures BracketsMatch(calls + [Out(x.state)], Advance(m, x))
    {
      hide graph.Indexed, graph.Allowed, PushAll;
    }

    lemma OtherMatches(calls: seq<Bracket<S>>, m: Monitor<S, E, P>, x: Effect<S, E, P>)
      requires Valid() && TracksBracket(m) && Legal(m, x) && BracketsMatch(calls, m) && !x.OnEnter? && !x.OnExit?
      ensures BracketsMatch(if x.Born? then [] else calls, Advance(m, x))
    {
      hide graph.Indexed, graph.Allowed, PushAll, Truthful;
    }

    lemma StepBracketsMatch(calls: seq<Bracket<S>>, m: Monitor<S, E, P>, x: Effect<S, E, P>)
      requires Valid() && TracksBracket(m) && Legal(m, x) && BracketsMatch(calls, m)
      ensures var after := if x.Born? then [] else if x.OnEnter? then calls + [In(x.state)]
                           else if x.OnExit? then calls + [Out(x.state)] else calls;
              BracketsMatch(after, Advance(m, x))
    {
      hide Legal, Advance, BracketsMatch, TracksBracket;
      if x.OnEnter? {
        EntryMatches(calls, m, x);
      } else if x.OnExit? {
        ExitMatches(calls, m, x);
      } else {
        OtherMatches(calls, m, x);
      }
    }

    /** In every incarnation, entering and leaving alternate and name the same states. */
    lemma {:induction false} BracketsAlternate(j: Journal<S, E, P>)
      requires Valid() && Accepts(j)
      ensures BracketsMatch(Brackets(j), Watch(j))
    {
      if j != [] {
        var n := |j| - 1;
        BracketsAlternate(j[..n]);
        AcceptedIsSane(j[..n]);
        StepBracketsMatch(Brackets(j[..n]), Watch(j[..n]), j[n]);
      }
    }

    ghost predicate LogMatches(log: seq<Note<S, E>>, m: Monitor<S, E, P>)
      requires Valid()
    {
      && (m.visits == [] ==> log == [])
      && (m.visits != [] ==> Chained(m.visits[0], log))
      && (forall k :: 0 <= k < |log| ==> MayMove(log[k].from, log[k].event, log[k].to))
      && (!listening ==> log == [])
      && (listening && m.visits != [] ==>
            m.visits == [m.visits[0]] + TargetsOf(log) + (if m.phase.Changed? then [m.current] else []))
    }

    lemma ChainGrows(visits: seq<S>, log: seq<Note<S, E>>, from: S, to: S, event: E)
      requires |visits| > 1 && visits[|visits| - 2] == from
      requires Chained(visits[0], log) && visits == [visits[0]] + TargetsOf(log) + [to]
      ensures Chained(visits[0], log + [Note(from, event, to)])
      ensures visits == [visits[0]] + TargetsOf(log + [Note(from, event, to)])
    {
      assert TargetsOf(log + [Note(from, event, to)]) == TargetsOf(log) + [to];
      var n, front := |log|, [visits[0]] + TargetsOf(log);
      assert visits == front + [to] && |front| == n + 1;
      assert visits[n] == front[n] == if n == 0 then visits[0] else TargetsOf(log)[n - 1];
    }

    lemma NoteMatchesLog(log: seq<Note<S, E>>, m: Monitor<S, E, P>, x: Effect<S, E, P>)
      requires Valid() && TracksVisits(m) && Legal(m, x) && LogMatches(log, m) && x.Notified?
      ensures LogMatches(log + [Note(x.from, x.event, x.to)], Advance(m, x))
    {
      ChainGrows(m.visits, log, x.from, x.to, x.event);
      hide Chained, TargetsOf, graph.Indexed, graph.Allowed;
    }

    lemma CommitMatchesLog(log: seq<Note<S, E>>, m: Monitor<S, E, P>, x: Effect<S, E, P>)
      requires Valid() && TracksVisits(m) && Legal(m, x) && LogMatches(log, m) && x.Committed?
      ensures LogMatches(log, Advance(m, x))
    {
      hide Chained, TargetsOf, graph.Indexed, graph.Allowed;
      if listening {
        var v := m.visits;
        assert v == [v[0]] + TargetsOf(log);
        assert v + [x.state] == [v[0]] + TargetsOf(log) + [x.state];
      }
    }

    lemma StepLogMatches(log: seq<Note<S, E>>, m: Monitor<S, E, P>, x: Effect<S, E, P>)
      requires Valid() && TracksVisits(m) && Legal(m, x) && LogMatches(log, m) && !x.Notified? && !x.Committed?
      ensures LogMatches(if x.Born? then [] else log, Advance(m, x))
    {
      hide graph.Indexed, graph.Allowed, PushAll;
    }

    /** The listener's log is a chain of allowed moves that replays the instance's visits. */
    lemma {:induction false} LogReplaysVisits(j: Journal<S, E, P>)
      requires Valid() && Accepts(j)
      ensures LogMatches(LogOf(j), Watch(j))
    {
      if j != [] {
        var n := |j| - 1;
        LogReplaysVisits(j[..n]);
        AcceptedIsSane(j[..n]);
        if j[n].Notified? {
          NoteMatchesLog(LogOf(j[..n]), Watch(j[..n]), j[n]);
        } else if j[n].Committed? {
          CommitMatchesLog(LogOf(j[..n]), Watch(j[..n]), j[n]);
        } else {
          StepLogMatches(LogOf(j[..n]), Watch(j[..n]), j[n]);
        }
      }
    }

    ghost predicate LivesMatch(lives: seq<Lifecycle>, m: Monitor<S, E, P>) {
      && (forall i, k :: 0 <= i < k < |lives| ==> Rank(lives[i]) <= Rank(lives[k]))
      && (m.phase.Absent? <==> lives == [])
      && (lives != [] ==> lives[|lives| - 1] == m.life)
    }

    lemma StepLivesMatch(lives: seq<Lifecycle>, m: Monitor<S, E, P>, x: Effect<S, E, P>, after: seq<Lifecycle>)
      requires Valid() && Sane(m) && Legal(m, x) && LivesMatch(lives, m)
      requires after == if x.Born? then [x.lifecycle] else if x.Turned? then lives + [x.lifecycle]
                        else if x.Committed? then lives + [Running] else lives
      ensures LivesMatch(after, Advance(m, x))
    {
      hide graph.Indexed, graph.Allowed, PushAll;
    }

    /** An incarnation's lifecycle only moves forward. */
    lemma {:induction false} LifecycleMovesForward(j: Journal<S, E, P>)
      requires Valid() && Accepts(j)
      ensures LivesMatch(LivesOf(j), Watch(j))
    {
      if j != [] {
        var n := |j| - 1;
        LifecycleMovesForward(j[..n]);
        AcceptedIsSane(j[..n]);
        StepLivesMatch(LivesOf(j[..n]), Watch(j[..n]), j[n], LivesOf(j));
      }
    }

    lemma StepCounts(m: Monitor<S, E, P>, x: Effect<S, E, P>)
      requires Valid() && Legal(m, x)
      ensures Advance(m, x).terminations ==
              if x.Born? then 0 else if x.OnTerminate? then m.terminations + 1 else m.terminations
      ensures Advance(m, x).pending ==
              if x.Born? then 0 else if x.Scheduled? then m.pending + 1
              else if x.Ticked? then m.pending - 1 else m.pending
    {
      hide graph.Indexed, graph.Allowed, PushAll;
    }

    lemma {:induction false} MonitorCounts(j: Journal<S, E, P>)
      requires Valid() && Accepts(j)
      ensures TerminationsOf(j) == Watch(j).terminations
      ensures TicksDue(j) == Watch(j).pending
    {
      if j != [] {
        MonitorCounts(j[..|j| - 1]);
        StepCounts(Watch(j[..|j| - 1]), j[|j| - 1]);
      }
    }

    /** An incarnation calls on_terminate at most once, and never has two timer ticks on their way. */
    lemma CountsStayLow(j: Journal<S, E, P>)
      requires Valid() && Accepts(j)
      ensures TerminationsOf(j) <= 1
      ensures 0 <= TicksDue(j) <= 1
    {
      MonitorCounts(j);
      AcceptedIsSane(j);
    }

    /** One state may follow another by some event. */
    ghost predicate Follows(a: S, b: S)
      requires Valid()
    {
      exists event :: MayMove(a, event, b)
    }

    ghost predicate VisitsWalk(m: Monitor<S, E, P>)
      requires Valid()
    {
      forall k :: 0 < k < |m.visits| ==> Follows(m.visits[k - 1], m.visits[k])
    }

    lemma StepVisitsWalk(m: Monitor<S, E, P>, x: Effect<S, E, P>)
      requires Valid() && TracksVisits(m) && TracksStore(m) && Legal(m, x) && VisitsWalk(m)
      ensures VisitsWalk(Advance(m, x))
    {
      hide graph.Indexed, MayMove;
      if x.Committed? {
        assert MayMove(m.current, m.phase.event, x.state);
        assert Follows(m.current, x.state);
      }
    }

    lemma {:induction false} VisitsAreAWalk(j: Journal<S, E, P>)
      requires Valid() && Accepts(j)
      ensures VisitsWalk(Watch(j))
    {
      if j != [] {
        VisitsAreAWalk(j[..|j| - 1]);
        AcceptedIsSane(j[..|j| - 1]);
        StepVisitsWalk(Watch(j[..|j| - 1]), j[|j| - 1]);
      }
    }

    ghost predicate StandsReachable(m: Monitor<S, E, P>) {
      && graph.Reachable(graph.initial, m.current)
      && (m.stored.Some? ==> graph.Reachable(graph.initial, m.stored.value.0))
    }

    lemma StepStandsReachable(m: Monitor<S, E, P>, x: Effect<S, E, P>)
      requires Valid() && TracksStore(m) && Legal(m, x) && StandsReachable(m)
      ensures StandsReachable(Advance(m, x))
    {
      hide graph.Reachable, graph.Indexed, graph.Allowed, graph.Edge, PushAll;
      if x.Committed? || x.Stored? {
        graph.AllowedIsEdge(m.current, m.phase.event, x.state);
        graph.ReachableStep(graph.initial, m.current, m.phase.event, x.state);
      } else if x.Born? || x.Seeded? {
        graph.ReachableSelf(graph.initial);
      }
    }

    /** Wherever an incarnation is, and whatever is stored, can be reached from the initial state. */
    lemma {:induction false} StaysReachable(j: Journal<S, E, P>)
      requires Valid() && Accepts(j)
      ensures StandsReachable(Watch(j))
    {
      graph.ReachableSelf(graph.initial);
      if j != [] {
        StaysReachable(j[..|j| - 1]);
        AcceptedIsSane(j[..|j| - 1]);
        StepStandsReachable(Watch(j[..|j| - 1]), j[|j| - 1]);
      }
    }

    lemma StepSaves(m: Monitor<S, E, P>, x: Effect<S, E, P>)
      requires Valid() && TracksStore(m) && Legal(m, x)
      ensures Advance(m, x).phase.Saved? <==> x.Stored?
      ensures x.Stored? ==> Advance(m, x).phase.target == x.state
    {
      hide graph.Indexed, graph.Allowed, PushAll;
    }

    lemma SavedIsLastEffect(j: Journal<S, E, P>)
      requires Valid() && Accepts(j)
      ensures Watch(j).phase.Saved? <==> j != [] && j[|j| - 1].Stored?
      ensures Watch(j).phase.Saved? ==> Watch(j).phase.target == j[|j| - 1].state
    {
      if j != [] {
        AcceptedIsSane(j[..|j| - 1]);
        StepSaves(Watch(j[..|j| - 1]), j[|j| - 1]);
      }
    }

    /**
     Crash atomicity. Whatever prefix of the journal a crash leaves, the next incarnation starts from
     the state the lost one was in, unless the very last thing that happened was that the engine
     stored the target of the transition under way: then it starts from that target.
     */
    lemma CrashIsAtomic(j: Journal<S, E, P>, n: nat)
      requires Valid() && persistent && Accepts(j) && n <= |j|
      ensures var m := Watch(j[..n]);
              if n > 0 && j[n - 1].Stored?
              then m.phase.Saved? && RecoveryPoint(m) == j[n - 1].state
                   && MayMove(m.current, m.phase.event, j[n - 1].state)
              else RecoveryPoint(m) == m.current
    {
      AcceptsPrefix(j, n);
      AcceptedIsSane(j[..n]);
      SavedIsLastEffect(j[..n]);
    }
  }
}
