/** What every run of an instance guarantees, whatever the callbacks do and wherever crashes strike. */
module Guarantees {
  import opened History
  import opened States
  import opened Protocol
  import opened Machines
  import opened Conformance
  import opened Runs
  import opened Services

  /** The monitor of the journal's first `n` effects. */
  ghost function Seen<S(!new), E(!new), P>(k: Machine<S, E, P>, w: World<S, E, P>, n: nat): Monitor<S, E, P>
    requires n <= |w.journal|
  {
    k.c.Watch(w.journal[..n])
  }

  /**
   At every point of every run the callbacks of the current incarnation alternate between entering
   and leaving, each leave naming the state entered last; they begin with an entry exactly when the
   incarnation began awake; and between messages it is the current state that has been entered - by
   every incarnation but one that began without on_start and has attempted no transition yet.
   */
  lemma EnterAndExitBracket<S(!new), E(!new), P>(k: Machine<S, E, P>, steps: seq<Step<E, P>>, n: nat)
    requires k.c.Valid() && n <= |k.Run(steps).journal|
    ensures var w := k.Run(steps);
            var calls := Brackets(w.journal[..n]);
            && Alternate(calls)
            && (calls != [] ==> (calls[0].In? <==> Seen(k, w, n).awake))
            && (n == |w.journal| && w.up ==>
                  && (calls == [] || calls[|calls| - 1] == In(w.state.current))
                  && (Seen(k, w, n).awake || Seen(k, w, n).moved ==> calls != []))
  {
    EveryRunIsSafe(k, steps);
    var w := k.Run(steps);
    hide k.c.Accepts, k.c.Watch, k.Run, Brackets, PushAll, Pushed;
    k.c.AcceptsPrefix(w.journal, n);
    k.c.BracketsAlternate(w.journal[..n]);
    if n == |w.journal| && w.up {
      assert w.journal[..n] == w.journal;
      k.c.AcceptedIsSane(w.journal);
    }
  }

  /**
   Crash atomicity over runs: an instance with persistence is started again, after a crash at any
   effect of any action, in the state the lost incarnation was in - or, exactly when the last effect
   was the store of a transition, in that transition's target, which the graph allows.
   */
  lemma CrashRecovery<S(!new), E(!new), P>(k: Machine<S, E, P>, steps: seq<Step<E, P>>, action: Action<E, P>, fuel: nat,
      cut: nat, payload: P)
    requires k.c.Valid() && k.c.persistent
    requires k.Enabled(k.Run(steps), action)
    requires |k.Run(steps).journal| <= cut <= |k.Perform(k.Run(steps), action, fuel).0.journal|
    ensures var crashed := k.Next(k.Run(steps), Crash(action, fuel, cut));
            var lost := k.c.Watch(crashed.journal);
            var reborn := k.Incarnate(crashed, payload).state.current;
            if crashed.journal != [] && crashed.journal[cut - 1].Stored?
            then reborn == crashed.journal[cut - 1].state
                 && lost.phase.Saved? && k.c.MayMove(lost.current, lost.phase.event, reborn)
            else reborn == lost.current
  {
    EveryRunIsSafe(k, steps);
    var w := k.Run(steps);
    PerformFollows(k, w, action, fuel);
    hide k.c.Accepts, k.c.Watch, k.Run, k.Perform, k.Incarnate, PushAll, Pushed;
    var j := k.Perform(w, action, fuel).0.journal;
    k.c.CrashIsAtomic(j, cut);
    k.c.AcceptsPrefix(j, cut);
    IncarnateFollows(k, k.Next(w, Crash(action, fuel, cut)), payload);
  }

  /** Between messages, what would be recovered is the current state. */
  lemma StoreIsCurrentAtRest<S(!new), E(!new), P>(k: Machine<S, E, P>, steps: seq<Step<E, P>>)
    requires k.c.Valid() && k.c.persistent && k.Run(steps).up
    ensures k.c.RecoveryPoint(k.c.Watch(k.Run(steps).journal)) == k.Run(steps).state.current
  {
    EveryRunIsSafe(k, steps);
    var w := k.Run(steps);
    hide k.c.Accepts, k.c.Watch, k.Run, PushAll, Pushed;
    k.c.AcceptedIsSane(w.journal);
  }

  /**
   At every point of every run the listener's log of the current incarnation is a chain of moves the
   graph allows, starting where the incarnation started, and between messages replaying it gives the
   current state. Where the instance is can always be reached from the graph's initial state.
   */
  lemma ListenerReplaysRun<S(!new), E(!new), P>(k: Machine<S, E, P>, steps: seq<Step<E, P>>, n: nat)
    requires k.c.Valid() && n <= |k.Run(steps).journal|
    ensures var w := k.Run(steps);
            var m, log := Seen(k, w, n), LogOf(w.journal[..n]);
            && (m.visits != [] ==> Chained(m.visits[0], log))
            && (forall i :: 0 <= i < |log| ==> k.c.MayMove(log[i].from, log[i].event, log[i].to))
            && k.c.graph.Reachable(k.c.graph.initial, m.current)
            && (n == |w.journal| && w.up && k.c.listening ==>
                  && m.visits != [] && m.visits == [m.visits[0]] + TargetsOf(log)
                  && w.state.current == m.visits[|m.visits| - 1])
  {
    EveryRunIsSafe(k, steps);
    var w := k.Run(steps);
    hide k.c.Accepts, k.c.Watch, k.Run, LogOf, PushAll, Pushed, k.c.graph.Reachable;
    k.c.AcceptsPrefix(w.journal, n);
    k.c.LogReplaysVisits(w.journal[..n]);
    k.c.StaysReachable(w.journal[..n]);
    if n == |w.journal| && w.up {
      assert w.journal[..n] == w.journal;
      k.c.AcceptedIsSane(w.journal);
    }
  }

  /** Each note of the listener's log, at any point of any run, is a move the graph allows. */
  lemma NoteIsAllowed<S(!new), E(!new), P>(k: Machine<S, E, P>, steps: seq<Step<E, P>>, n: nat, i: nat)
    requires k.c.Valid() && n <= |k.Run(steps).journal| && i < |LogOf(k.Run(steps).journal[..n])|
    ensures var note := LogOf(k.Run(steps).journal[..n])[i];
            k.c.MayMove(note.from, note.event, note.to)
  {
    hide k.c.Watch, k.Run, LogOf, k.c.MayMove;
    ListenerReplaysRun(k, steps, n);
  }

  /**
   Between messages the cache agrees with the instance, except that on_timer may have edited the
   payload since. Only an instance that began without on_enter may not have been cached yet: then the
   cache holds what it held before that instance was born, a lost incarnation's state perhaps.
   */
  lemma CacheIsCoherent<S(!new), E(!new), P>(k: Machine<S, E, P>, steps: seq<Step<E, P>>)
    requires k.c.Valid() && k.Run(steps).up
    ensures var w := k.Run(steps);
            var m, entry := k.c.Watch(w.journal), CachedOf(w.journal);
            if m.cached.Some? then
              && entry.Some? && entry.value.(payload := w.state.payload) == w.state
              && (!m.polled ==> entry.value == w.state)
            else
              !m.awake && entry == CachedOf(BeforeBirth(w.journal))
  {
    hide k.Run, k.c.Watch, k.c.Accepts;
    EveryRunIsSafe(k, steps);
    CachedIsWatched(k.c, k.Run(steps).journal);
  }

  /** At no point of any run are two timer ticks of one incarnation on their way. */
  lemma TimerNeverDoubles<S(!new), E(!new), P>(k: Machine<S, E, P>, steps: seq<Step<E, P>>, n: nat)
    requires k.c.Valid() && n <= |k.Run(steps).journal|
    ensures 0 <= TicksDue(k.Run(steps).journal[..n]) <= (if k.c.timer then 1 else 0)
  {
    EveryRunIsSafe(k, steps);
    var j := k.Run(steps).journal;
    hide k.c.Accepts, k.c.Watch, k.Run, TicksDue;
    k.c.AcceptsPrefix(j, n);
    k.c.MonitorCounts(j[..n]);
    k.c.AcceptedIsSane(j[..n]);
  }

  /** Between messages a running instance that began awake has exactly one timer tick on its way. */
  lemma TimerKeepsTicking<S(!new), E(!new), P>(k: Machine<S, E, P>, steps: seq<Step<E, P>>)
    requires k.c.Valid() && k.c.timer && k.Run(steps).up
    requires k.c.Watch(k.Run(steps).journal).awake && k.Run(steps).state.lifecycle == Running
    ensures TicksDue(k.Run(steps).journal) == 1
  {
    hide k.c.Accepts, k.c.Watch, k.c.Sane, k.Run, TicksDue, Coherent;
    EveryRunIsSafe(k, steps);
    RestingLife(k, k.Run(steps));
    k.c.MonitorCounts(k.Run(steps).journal);
  }

  /** An incarnation's lifecycle only moves forward, and it calls on_terminate at most once. */
  lemma LifecycleOnlyMovesForward<S(!new), E(!new), P>(k: Machine<S, E, P>, steps: seq<Step<E, P>>, n: nat)
    requires k.c.Valid() && n <= |k.Run(steps).journal|
    ensures var j := k.Run(steps).journal[..n];
            && (forall i, l :: 0 <= i < l < |LivesOf(j)| ==> Rank(LivesOf(j)[i]) <= Rank(LivesOf(j)[l]))
            && TerminationsOf(j) <= 1
  {
    hide k.c.Accepts, k.c.Watch, k.c.Sane, k.Run, LivesOf, TerminationsOf;
    EveryRunIsSafe(k, steps);
    var j := k.Run(steps).journal;
    k.c.AcceptsPrefix(j, n);
    k.c.LifecycleMovesForward(j[..n]);
    k.c.CountsStayLow(j[..n]);
  }

  /**
   Between messages: with auto-termination, an instance that has moved and still takes messages is
   not in a final state; on_terminate has been called, once, exactly if the lifecycle is `Terminated`.
   */
  lemma TerminationIsSafe<S(!new), E(!new), P>(k: Machine<S, E, P>, steps: seq<Step<E, P>>)
    requires k.c.Valid() && k.Run(steps).up
    ensures var w := k.Run(steps);
            var m := k.c.Watch(w.journal);
            && (k.c.autoTerminate && m.moved && !m.halted ==> !k.c.graph.IsFinal(w.state.current))
            && (m.halted <==> w.state.lifecycle == Terminated)
            && TerminationsOf(w.journal) == (if w.state.lifecycle == Terminated then 1 else 0)
  {
    hide k.c.Accepts, k.c.Watch, k.c.Sane, k.Run, TerminationsOf, Coherent;
    EveryRunIsSafe(k, steps);
    RestingLife(k, k.Run(steps));
    k.c.MonitorCounts(k.Run(steps).journal);
  }

  /** Stopping an instance that is running, or that has halted, leaves on_terminate called once. */
  lemma StopTerminatesOnce<S(!new), E(!new), P>(k: Machine<S, E, P>, steps: seq<Step<E, P>>)
    requires k.c.Valid() && k.Run(steps).up
    ensures var w := k.Run(steps);
            var stopped := k.Next(w, Act(Stop, 0));
            TerminationsOf(stopped.journal) == (if w.state.lifecycle == Created then 0 else 1)
  {
    hide k.c.Accepts, k.c.Watch, k.c.Sane, k.Run, TerminationsOf, Coherent;
    EveryRunIsSafe(k, steps);
    var w := k.Run(steps);
    StoppedFollows(k, w);
    RestingLife(k, w);
    k.c.MonitorCounts(w.journal);
    k.c.MonitorCounts(k.Stopped(w).journal);
  }

  /**
   Between messages the history is the last entries, at most 32, of the run-length encoding of all
   visits: neighbours are moves the graph allows, a count above one is a self-loop, and the last
   entry is the current state.
   */
  lemma HistoryTellsRun<S(!new), E(!new), P>(k: Machine<S, E, P>, steps: seq<Step<E, P>>)
    requires k.c.Valid() && k.Run(steps).up
    ensures var w := k.Run(steps);
            var m, h := k.c.Watch(w.journal), w.state.history;
            && h == LastOf(History.Runs(m.visits), HISTORY_SIZE)
            && h != [] && h[|h| - 1].state == w.state.current
            && (forall i :: 0 < i < |h| ==> k.c.Follows(h[i - 1].state, h[i].state))
            && (forall i :: 0 <= i < |h| && h[i].count > 1 ==> k.c.Follows(h[i].state, h[i].state))
  {
    EveryRunIsSafe(k, steps);
    var w := k.Run(steps);
    hide k.c.Accepts, k.c.Watch, k.Run, PushAll, Pushed, LastOf, History.Runs;
    var m := k.c.Watch(w.journal);
    k.c.AcceptedIsSane(w.journal);
    k.c.VisitsAreAWalk(w.journal);
    HistoryIsRecentRuns(HISTORY_SIZE, m.visits);
    LastEntryIsLastVisit(HISTORY_SIZE, m.visits);
    var follows := (a: S, b: S) => k.c.Follows(a, b);
    HistoryOfWalk(HISTORY_SIZE, m.visits, follows);
  }
}
