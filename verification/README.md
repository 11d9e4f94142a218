# Finitomata, verified

A Dafny model of `finitomata`, a Rust library for finite state machines, and of its procedural macro:
from the text of a definition, over the parsed and validated definition and the indexed transition
graph, to the transition engine and the actor that owns one instance and survives crashes.

## How the model is built

| file | models |
|---|---|
| `Graphs.dfy`, `Orders.dfy` | the transition graph: index, lookups, reachability, breadth-first search, validation; sets listed in order |
| `History.dfy`, `States.dfy` | the bounded history and the runtime state of one instance |
| `Protocol.dfy` | the protocol of one instance, as an automaton over the effects it has |
| `Machines.dfy` | what the engine and the actor do, as functions from worlds to worlds; runs with crashes |
| `Services.dfy`, `Engine.dfy`, `Actors.dfy` | the same as classes and methods that change state in place, each method proved equal to its function in `Machines.dfy` |
| `Conformance.dfy`, `Runs.dfy` | the engine and the actor follow the protocol, in every run |
| `Guarantees.dfy`, `Payloads.dfy` | what follows from that: the properties of all runs |
| `Traces.dfy`, `Determinacy.dfy` | what each action does, effect by effect, and that this leaves only one journal possible |
| `Requests.dfy` | requests are carried out, and nothing is attempted that was not requested |
| `Refusals.dfy`, `Erasure.dfy` | attempts that fail: what they may change, and the run that is left without them |
| `Chains.dfy`, `Cycles.dfy` | hard events that fire one another, and exactly when that comes to an end; paths fired on purpose |
| `Dormancy.dfy` | instances that begin without recovery: exactly when others may rely on their timer, cache entry and end |
| `Definitions.dfy`, `Codegen.dfy` | the macro's validation and the graph it generates |
| `Text.dfy`, `Parsers.dfy`, `Rendering.dfy` | the four parsers, and reading back what is written in their grammar |
| `Layout.dfy`, `Spacing.dfy` | headers, comments, declarations, errors, and white space between and within lines |
| `Pipeline.dfy` | the macro as a whole, and definitions as a promise about runs |

**Callbacks** are an arbitrary environment. What a callback leaves in the payload, what `on_transition`
decides, what `on_timer` returns and whether a store succeeds are arbitrary functions of everything
that has happened to the instance so far, so every theorem holds for all user code.

**Crashes.** A *journal* lists, in order, every observable effect of all incarnations of an instance:
each callback with its arguments, each store, commit, notification, cache update, timer message and
lifecycle assignment. A crash leaves an arbitrary prefix of the journal. A statement about every
prefix of every journal is therefore a statement about every crash point, in the middle of a
transition or of a chain of hard events.

**The proof** goes through an automaton (`Protocol.Config.Legal`) that says which effect may come
next. It is written independently of the engine. `Conformance` and `Runs` show that the engine and
actor only ever do what it allows, for every environment, every sequence of actions and every crash;
`Protocol` and `Guarantees` derive the safety properties from the automaton alone. The methods of
`Engine` and `Actors` work on mutable objects in the order of the source and are proved to do exactly
what the functions of `Machines` do. Because hard events can keep an actor busy for ever, those
methods are given the number of transitions to make, and are exact for every number.
`Cycles.ActionsEndExactlyWhen` decides when an actor may be kept busy for ever from its graph and
configuration alone.

**What must happen.** The automaton says what may happen. What does happen is said a second time by
`Traces`: the callback sequence of an attempt, chains of attempts, ticks, births, stops. It speaks of
nothing but the journal, the configuration and the callbacks' answers, and every action is proved to
play what it says, from every world. `Determinacy` shows that nothing else does: a journal fits the
description and threads the payload if and only if it is the one the action makes.

**Erasing refused attempts.** `Erasure` runs two machines in tandem: the original, and one whose
callbacks answer at each point of the shorter run as the original's did at the corresponding point of
the whole one. It follows both through every function of the machine, up to any crash point.

## Where the code and its documentation differ

The model follows the code.

- The README of the library says that a hard event fires whenever its source state is entered. It
  fires at the start of an actor and after another hard transition only:
  `Chains.HardEventFiresAfterHard` gives the exact condition, and `Cycles.UnfiredExample` an instance
  that enters such a state by an ordinary transition and rests there.
- Hard events that lead back to where they came from may never end: on the graph of
  `Cycles.LaunchNeverEnds` not even the launch does. Not every cycle of hard events does that
  (`Cycles.UnfiredCycle`); `Cycles.ActionsEndExactlyWhen` gives the exact condition.
- "No state change" on failure does not cover the payload: edits made by `on_exit` and
  `on_transition` stay, as in `Refusals.RefusedEditStays`. A failed or skipped attempt is sure to leave
  the whole state alone exactly when the state does not respond to the event
  (`Refusals.StateSurvivesExactlyWhen`); otherwise payload and last error may change and nothing else
  (`Refusals.FailureKeepsState`).
- A history of maximum size 0 holds one entry (`History.HistoryIsRecentRuns`).
- With two transitions for one state and event, the later one is shadowed: `shortest_path` may return
  a path that cannot be fired (`Chains.ShadowedEdge`; `Chains.PathFiresExactlyWhen` gives the exact condition).
- `[*] --> idle : init` names the initial state `idle : init` in the run-time Mermaid parser and
  `idle` in the other three (`Rendering.LabelledInitialArrow`).
- A colon with no event after it is an empty event to the macro's parsers, which validation then rejects,
  and a syntax error at run time, but for PlantUML lines to the mark (`Spacing.NoEventIsRead`).
- The run-time PlantUML parser takes an unreadable line that begins with `state` and a blank for a
  declaration: `state --> b` declares a state named `-->` (`Spacing.BareArrowIsInvalid`).
- Lines whose source begins with a header keyword are skipped, so parsing undoes rendering exactly
  when there are none (`Rendering.ParsingUndoesRendering`).
- `__terminal__` can be a state's name only as the initial state (`Codegen.TerminalIsNoState`). Then a
  line back to it may lose its meaning (`Codegen.CollidingDefinition`).
- A name such as `_` or `_1` passes validation, and breaks code generation: nothing, or a digit, is left
  of it for a variant (`Codegen.NamelessState`, `Codegen.VariantExactlyWhen`).
- The documentation says that the macro rejects an empty definition. Only the run-time parsers do:
  the text of `Pipeline.EmptyIsTaken`, without a transition, passes its parser, validation and generator.
- A supervised instance with nothing to recover skips `on_start`, `on_enter` and the cache. It is
  `Created` until its first transition completes, whatever attempts fail before. Four things follow:
  - Stopped in that time without a shutdown message, it never gets `on_terminate` (`Dormancy.NeverTerminated`). A stop is sure to
    leave `on_terminate` called exactly when the instance is not supervised
    (`Dormancy.StopTerminatesExactlyWhen`).
  - The README says that the timer of a supervised instance reschedules itself on each tick. A tick
    received in that time is the last one: the instance may go on to run with no tick due
    (`Dormancy.TimerExample`; `Dormancy.TimerTicksExactlyWhen` gives the exact condition).
  - Until it first caches, by an attempt or a shutdown, the cache shows nothing, or goes on showing the
    incarnation that was lost (`Dormancy.StaleExample`; `Dormancy.ShownExactlyWhen` gives the exact
    condition).
  - So `alive`, which is to tell whether an instance is running, may say that one is which is not
    (`Actors.AliveIsWrong`; `Dormancy.AliveIsRightExactlyWhen` gives the exact condition).

## Model

| member | source | states |
|---|---|---|
| `Graphs.TransitionGraph.New` | finitomata/src/transition.rs:50-61 | the index built by the loop lists for each source the positions of its transitions |
| `Graphs.PositionsAreExact` | finitomata/src/transition.rs:50-55 | those positions are strictly increasing and are exactly the ones whose transition leaves the state |
| `Graphs.TransitionGraph.AllowedIsScan` | finitomata/src/transition.rs:85-96 | the indexed lookup answers what a linear scan for the first match answers, for any transition list |
| `Graphs.ScanFindsATransition` | finitomata/src/transition.rs:83-96 | that scan finds a transition for the state and event, or there is none |
| `Graphs.TransitionGraph.UniqueEventsAreAllowed` | finitomata/src/transition.rs:85-96 | with unique (from, event) pairs no transition is shadowed |
| `Graphs.TransitionGraph.EventsForIsFilter` | finitomata/src/transition.rs:104-114 | the events of a state are the in-order filter of the whole list |
| `Graphs.TransitionGraph.AllStates` | finitomata/src/transition.rs:117-130 | exactly the initial state, the finals, all sources and all targets |
| `Graphs.TransitionGraph.ShortestPath` | finitomata/src/transition.rs:139-170 | a returned path is a walk to the target, no walk is shorter, and none is returned exactly if the target is unreachable |
| `Graphs.TransitionGraph.ReachableFrom` | finitomata/src/transition.rs:196-217 | the worklist ends with exactly the states some walk leads to, a set closed under transitions |
| `Graphs.TransitionGraph.Validate` | finitomata/src/transition.rs:174-194 | accepts exactly graphs with a final state and all states reachable; reports the lack of finals and then each unreachable state, in ascending order |
| `History.BoundedHistory.Push` | finitomata/src/state.rs:50-61 | one more visit counts a repeat or appends an entry, evicting the oldest when full |
| `History.RunsExpand` | finitomata/src/state.rs:28-32 | the run-length encoding loses nothing and has different neighbours |
| `History.RunsAreUnique` | finitomata/src/state.rs:28-32 | it is the only such entry list for its visits |
| `History.HistoryIsRecentRuns` | finitomata/src/state.rs:50-61 | a bounded history is the last max(size, 1) entries of the run-length encoding of all visits |
| `History.VisitsAreKeptOrEvicted` | finitomata/src/state.rs:50-61 | kept and evicted entries together expand to all visits in order, so no visit is lost or counted twice |
| `History.HistoryOfWalk` | finitomata/src/state.rs:50-61 | if visits follow a relation, so do neighbouring entries, and a count above one is a self-loop |
| `States.FsmState.constructor` | finitomata/src/state.rs:106-118 | a new instance is created, without error, with a history of 32 that has its first state |
| `States.FsmState.TransitionTo` | finitomata/src/state.rs:121-124 | the current state and the history move together, nothing else changes |
| `States.FsmState.SetError` | finitomata/src/state.rs:132-134 | only the last error changes |
| `States.FsmState.ClearError` | finitomata/src/state.rs:137-139 | only the last error changes |
| `Services.InMemoryPersistency.Store` | finitomata/src/persistency/memory.rs:68-79 | the entry becomes (Running, state, payload), no other entry changes |
| `Services.InMemoryPersistency.Load` | finitomata/src/persistency/memory.rs:61-66 | the entry under the name, or none |
| `Services.StateCache.Update` | finitomata/src/cache.rs:46-48 | the entry becomes the snapshot, no other entry changes |
| `Services.StateCache.Get` | finitomata/src/cache.rs:27-29 | the entry under the name, or none |
| `Services.StoredIsWatched` | finitomata/src/persistency/memory.rs:68-79 | the protocol's notion of what is stored is the last entry written |
| `Services.CachedIsWatched` | finitomata/src/cache.rs:46-48 | the cache holds what the incarnation has cached last, or else what there was before its birth |
| `Engine.Transit` | finitomata/src/engine.rs:46-146 | the attempt on mutable state has the documented callback sequence, result and state, and is the machine's; the store reflects it and other entries stay |
| `Engine.Ask` | finitomata/src/engine.rs:71-78 | on_exit of the current state and then on_transition with the event and its payload |
| `Engine.Settle` | finitomata/src/engine.rs:94-146 | the second half of the attempt: the target check, the store, and what follows, as the machine does them |
| `Engine.Abort` | finitomata/src/engine.rs:99-104 | on_failure, the error, and on_enter of the original state, in this order |
| `Engine.Persist` | finitomata/src/engine.rs:107-115 | the target and payload are stored under the name; a refused store leaves the entry |
| `Engine.Complete` | finitomata/src/engine.rs:117-145 | update, notification, on_enter and auto-termination as the machine does them |
| `Engine.Terminate` | finitomata/src/engine.rs:134-136 | Terminating, on_terminate, Terminated |
| `Engine.IsSoft` | finitomata/src/engine.rs:57-60 | whether the event is soft in any transition of the graph |
| `Conformance.TransitFollows` | finitomata/src/engine.rs:31-45 | every attempt keeps to the protocol and is skipped without a trace, fails without moving, or completes into an allowed target |
| `Conformance.DoTransitionFollows` | finitomata/src/supervisor.rs:149-196 | a whole chain keeps to the protocol, leaves the cache equal to the state, and halts exactly on auto-termination |
| `Conformance.MessageFollows` | finitomata/src/supervisor.rs:109-132 | every message keeps to the protocol and leaves the instance at rest: coherent cache, timer pending, ready or halted |
| `Runs.IncarnateFollows` | finitomata/src/supervisor.rs:60-80 | a new incarnation starts in the stored state, or else the initial one, and keeps to the protocol |
| `Runs.StoppedFollows` | finitomata/src/supervisor.rs:134-140 | the stop hook of a running instance calls on_terminate once and caches the end |
| `Runs.EveryRunIsSafe` | finitomata/src/supervisor.rs:54-141 | every journal of every run, with crashes between any two effects, is one the protocol accepts |
| `Protocol.Config.AcceptedIsSane` | finitomata/src/engine.rs:31-45 | what every accepted journal leaves: matching current state, bracket, store, lifecycle, timer and final-state facts |
| `Protocol.Config.BracketsAlternate` | finitomata/src/engine.rs:71-130 | entering and leaving alternate, each leave naming the state entered last |
| `Protocol.Config.LogReplaysVisits` | finitomata/src/engine.rs:122-127 | the listener's log is a chain of allowed moves that replays the visits |
| `Protocol.Config.CrashIsAtomic` | finitomata/src/engine.rs:107-120 | after any prefix the recovered state is the current one, or the target exactly if the store was the last effect |
| `Guarantees.EnterAndExitBracket` | finitomata/src/engine.rs:71-130 | in every run, at every point, on_enter and on_exit bracket each other; at rest the open bracket is the current state, for every incarnation that began awake or has moved |
| `Guarantees.CrashRecovery` | finitomata/src/supervisor.rs:60-80 | after a crash at any effect of any action the next incarnation is in the lost one's state, or in the allowed target exactly if its store had just completed |
| `Guarantees.StoreIsCurrentAtRest` | finitomata/src/supervisor.rs:316-332 | between messages, what would be recovered is the current state |
| `Guarantees.ListenerReplaysRun` | finitomata/src/listener.rs:14-14 | replaying the log from the start state gives the current state; every note is allowed; the current state stays reachable from the initial one across restarts |
| `Guarantees.CacheIsCoherent` | finitomata/src/cache.rs:46-48 | between messages the entry equals the state, but for payload edits of on_timer since the last update; or nothing was cached, the instance began without on_enter, and the entry is the one from before its birth |
| `Guarantees.TimerNeverDoubles` | finitomata/src/supervisor.rs:88-94 | never two timer ticks pending, none without an interval |
| `Guarantees.LifecycleOnlyMovesForward` | finitomata/src/state.rs:8-19 | an incarnation's lifecycle never moves back, and on_terminate is called at most once |
| `Guarantees.TerminationIsSafe` | finitomata/src/engine.rs:132-138 | with auto-termination an instance that has moved and takes messages is in no final state; on_terminate was called exactly if it is terminated |
| `Guarantees.StopTerminatesOnce` | finitomata/src/supervisor.rs:134-140 | a stop leaves on_terminate called once, unless the instance never began to run |
| `Guarantees.HistoryTellsRun` | finitomata/src/state.rs:121-124 | the history is the last 32 runs of all visits, its neighbours are allowed moves, its last entry is the current state |
| `Dormancy.StopTerminatesExactlyWhen` | finitomata/src/supervisor.rs:134-140 | whatever the callbacks do, in every run a stop leaves on_terminate called once, if and only if the instance is not supervised |
| `Dormancy.NeverTerminated` | finitomata/src/supervisor.rs:134-140 | launched, refused a transition, cached and stopped, an instance has never called on_terminate |
| `Dormancy.TimerTicksExactlyWhen` | finitomata/src/supervisor.rs:110-120 | whatever the callbacks do, in every run a running instance at rest has one tick due, if and only if it is not supervised or no transition from the initial state leads to where it lives on |
| `Dormancy.TimerStops` | finitomata/src/supervisor.rs:110-120 | launched, ticked and then moved, a supervised instance runs with no tick due, on any graph where it can |
| `Dormancy.TimerExample` | finitomata/src/supervisor.rs:110-120 | such a run on a graph of one transition |
| `Dormancy.ShownExactlyWhen` | finitomata/src/supervisor.rs:60-106 | whatever the callbacks do, in every run the cache shows the instance at rest as it is, but for payload edits of on_timer, if and only if it is not supervised or a hard event leaves the initial state |
| `Dormancy.StaleEntry` | finitomata/src/supervisor.rs:60-80 | restarted without recovery, an instance is in the initial state and the cache shows the lost one in the state it had moved to |
| `Dormancy.StaleExample` | finitomata/src/supervisor.rs:60-80 | such a run on a graph of one transition |
| `Dormancy.AliveIsRightExactlyWhen` | finitomata/src/supervisor.rs:488-493 | whatever the callbacks do, in every run the entry says running exactly when the instance is, if and only if instances cache at once, have a store, or never live on after a first transition |
| `Traces.AttemptShows` | finitomata/src/engine.rs:46-146 | every attempt has exactly the documented effects in order, by the decision and the store's answer; on_transition gets the event's payload, on_failure and the result the same error; a skipped event is soft somewhere and any other unanswered one an error; completing clears the last error |
| `Traces.ChainShows` | finitomata/src/supervisor.rs:149-196 | each attempt is cached; a hard one that completes is followed by one at the first hard event of the state entered, with that state's payload; any other ends the chain |
| `Traces.ActionShows` | finitomata/src/supervisor.rs:54-141 | whatever has happened before, launch, restart, delivery, tick, shutdown and stop have exactly the effects described, and the instance is up afterwards as it should be |
| `Determinacy.OneJournalFits` | finitomata/src/supervisor.rs:54-141 | given the callbacks, at most one journal fits the description of an action and threads the payload |
| `Determinacy.StepsPlayExactly` | finitomata/src/supervisor.rs:54-141 | so in every run a journal is the one an action makes if and only if it fits and is threaded |
| `Requests.DeliveredIsAsked` | finitomata/src/engine.rs:71-78 | a delivered event that the state answers is put to on_transition, right after on_exit, with the payload it was sent with; an allowed choice is stored and committed |
| `Requests.PolledIsAsked` | finitomata/src/supervisor.rs:198-206 | a tick calls on_timer; what it asks for, if the state answers it, is put to on_transition with its payload and an allowed choice committed; if it asks for nothing no callback follows |
| `Requests.SpawnedIsAwake` | finitomata/src/supervisor.rs:399-414 | with nothing stored, a supervised launch stores the initial state and payload and begins awake in it, or, if the store refuses, dormant |
| `Requests.StoredIsResumed` | finitomata/src/supervisor.rs:60-80 | with something stored, a launch or restart is born with it, told that it starts and what it enters, runs and is cached |
| `Requests.EveryAttemptIsRequested` | finitomata/src/supervisor.rs:96-206 | in every run, wherever on_transition is called, its event and payload were delivered by the step, or just asked for by on_timer, or are the state's first hard event and the payload left there |
| `Refusals.CompletesExactlyWhen` | finitomata/src/engine.rs:54-120 | an attempt completes if and only if the state answers, the chosen target is allowed and the store succeeds |
| `Refusals.FailureAddsNothing` | finitomata/src/engine.rs:44-45 | a skipped or failed attempt stores, commits and notifies nothing |
| `Refusals.FailureKeepsState` | finitomata/src/engine.rs:86-115 | it changes at most payload and last error, in every run |
| `Refusals.StateSurvivesExactlyWhen` | finitomata/src/engine.rs:44-45 | a skipped or failed attempt leaves the whole state as it was, for all callbacks, if and only if the state does not respond to the event |
| `Refusals.PayloadSurvivesExactlyWhen` | finitomata/src/engine.rs:71-105 | so it is with the payload alone, if there is another payload |
| `Refusals.RefusedEditStays` | finitomata/src/engine.rs:86-91 | an instance whose refused attempt changes its payload |
| `Refusals.SiftedIsAccepted` | finitomata/src/engine.rs:31-45 | a journal of the protocol without its failed attempts and their cache updates is one the protocol accepts, and leads to the same state, visits, store, lifecycle and log |
| `Erasure.RefusalsAreHarmless` | finitomata/src/engine.rs:44-45 | any run without the delivered or polled events that were skipped, not answered or refused is again a run, with the same births, stores, moves and notes, and ends with the same state, history, lifecycle, stored entry and log |
| `Erasure.SurvivorsAgree` | finitomata/src/engine.rs:80-115 | each delivered event that remains has the result and the target in the remaining run that it had in the whole one |
| `Erasure.Tandem.PerformTogether` | finitomata/src/supervisor.rs:54-141 | machines whose callbacks answer alike perform any action alike, as far as any crash point, whatever their payloads were before |
| `Payloads.PayloadIsThreaded` | finitomata/src/engine.rs:71-130 | each callback gets the payload left last, or brought by the decision; exactly that payload is stored and cached |
| `Payloads.AskCarries` | finitomata/src/engine.rs:80-86 | a decision with a payload replaces it, any other keeps the edited one |
| `Payloads.RebornFromStore` | finitomata/src/supervisor.rs:62-72 | a recovering instance is born with the state and payload stored last |
| `Chains.ChainEnds` | finitomata/src/supervisor.rs:175-188 | where the steps a chain makes never return, the fuel for the states not yet visited suffices |
| `Chains.HardChainsEnd` | finitomata/src/supervisor.rs:149-196 | without a cycle of hard events one event makes at most as many transitions as the graph has states |
| `Chains.MoreFuelIsHarmless` | finitomata/src/supervisor.rs:149-196 | the bound on transitions does not affect a chain that ends |
| `Cycles.ActionsEndExactlyWhen` | finitomata/src/supervisor.rs:96-106 | whatever the callbacks do every action of every run ends, if and only if no loop of firing hard events can be entered from a state the instance can live in |
| `Cycles.EveryActionEnds` | finitomata/src/supervisor.rs:60-132 | without such a loop every action ends after at most one transition more than the graph has states |
| `Cycles.LoopNeverEnds` | finitomata/src/supervisor.rs:175-188 | on such a loop, with callbacks that follow it, no number of transitions is enough |
| `Cycles.LaunchNeverEnds` | finitomata/src/supervisor.rs:96-106 | a valid graph and callbacks with which not even the launch of an instance ends |
| `Cycles.UnfiredCycle` | finitomata/src/supervisor.rs:177-183 | a graph with a cycle of hard events on which every action ends, as another event is listed first |
| `Cycles.UnfiredEntry` | finitomata/src/supervisor.rs:175-191 | on any graph where an ordinary transition leads from the initial state to one with a hard event, an instance makes that transition and rests there, the hard event unfired |
| `Cycles.UnfiredExample` | finitomata/src/supervisor.rs:175-191 | such a run on a graph of two transitions |
| `Chains.HardChainEnding` | finitomata/src/supervisor.rs:171-195 | a chain begun by a hard event ends in an error, in auto-termination in a final state, or where no hard event leaves |
| `Chains.FirstHardIsFirst` | finitomata/src/supervisor.rs:96-101 | the hard event fired is the first one listed |
| `Chains.HardEventFiresAfterHard` | finitomata/src/supervisor.rs:175-191 | after a completed transition another is attempted if and only if it was hard and the new state has a hard event |
| `Chains.FiringFollowsPath` | finitomata/src/engine.rs:46-146 | with callbacks that choose its states a path can be fired if and only if no hop is shadowed, and then ends in its last state |
| `Chains.PathFiresExactlyWhen` | finitomata/src/engine.rs:46-146 | there are callbacks that fire a path from an instance between attempts, each hop to its state, if and only if no hop is shadowed |
| `Chains.WalksCanBeFired` | finitomata/src/transition.rs:139-170 | on a graph with unique events there are callbacks that fire any walk, a shortest path included, to its end |
| `Chains.ShadowedEdge` | finitomata/src/transition.rs:85-96 | without unique events it may not: a graph whose only shortest path, the one the search returns, cannot be fired by any callbacks |
| `Actors.FsmActor.DoTransition` | finitomata/src/supervisor.rs:149-196 | the recursive method does exactly what the machine's chain does, caching after every attempt, for any number of transitions |
| `Actors.FsmActor.FireHard` | finitomata/src/supervisor.rs:177-188 | the first hard event of the current state is fired, if there is one |
| `Actors.FsmActor.Attempt` | finitomata/src/supervisor.rs:155-176 | one attempt followed by a cache update, whatever its result |
| `Actors.FsmActor.HandleTimerTick` | finitomata/src/supervisor.rs:198-206 | on_timer, and then a chain of attempts that begins with what it asks for, or nothing if it asks for nothing |
| `Actors.FsmActor.HandleMessage` | finitomata/src/supervisor.rs:109-132 | each message has the effects described for it and is handled as the machine handles it, touching no other instance's entries |
| `Actors.FsmActor.Stopped` | finitomata/src/supervisor.rs:134-140 | a running actor turns terminated, calls on_terminate and caches; another one does nothing |
| `Actors.FsmActor.Recover` | finitomata/src/supervisor.rs:61-80 | a supervised actor resumes from the store or is left as made |
| `Actors.FsmActor.Started` | finitomata/src/supervisor.rs:60-107 | recovery, first tick and first hard event as the machine does them |
| `Actors.FsmActor.StartFsm` | finitomata/src/supervisor.rs:308-356 | an unsupervised instance is awake, cached and in the recovered or initial state before its actor begins |
| `Actors.FsmActor.SpawnSupervised` | finitomata/src/supervisor.rs:399-442 | the name's entry becomes (Running, initial, payload) if there was none and the store accepts it, else the store is unchanged; the actor is made to recover |
| `Actors.FsmActor.Manufacture` | finitomata/src/supervisor.rs:426-442 | the factory makes a fresh instance in the initial state with the default payload |
| `Actors.FsmActor.CacheShowsState` | finitomata/src/cache.rs:27-29 | between messages the entry under the actor's name is its state, but for payload edits of on_timer since; or nothing was cached and the entry is the one from before its birth |
| `Actors.FsmActor.HandledIsCached` | finitomata/src/supervisor.rs:121-131 | after a transition message or a shutdown the entry is the whole state |
| `Actors.FsmActor.AliveIsRunning` | finitomata/src/supervisor.rs:488-493 | after any run, alive answers whether the actor is running, once its incarnation was cached or where no entry outlives what it shows |
| `Actors.AliveIsWrong` | finitomata/src/supervisor.rs:488-493 | a run after which every actor is taken for alive and is not running |
| `Actors.Alive` | finitomata/src/supervisor.rs:488-493 | decides whether the instance is alive in the sense of those two |
| `Definitions.ReachableFrom` | finitomata_macro/src/validation.rs:64-83 | exactly the states linked to the initial one, not counting the end marker |
| `Definitions.FindDuplicates` | finitomata_macro/src/validation.rs:29-38 | reports, in order, exactly the transitions that repeat an earlier source and event |
| `Definitions.Validate` | finitomata_macro/src/validation.rs:5-62 | accepts exactly the acceptable definitions and reports exactly the faults of the others, in the order and number the source lists them |
| `Codegen.Generate` | finitomata_macro/src/codegen.rs:58-94 | generation succeeds exactly if every name has a variant, and the graph has the definition's variants, transitions and finals |
| `Codegen.PascalByWords` | finitomata_macro/src/codegen.rs:190-200 | a name's variant is that of its words put together, a word's being the word with its first letter capitalised |
| `Codegen.UpperIsCapital` | finitomata_macro/src/codegen.rs:190-200 | capitalising maps the small letters to the capitals in the order of the alphabet and nothing else |
| `Codegen.VariantExactlyWhen` | finitomata_macro/src/codegen.rs:190-200 | a valid name has a variant if and only if the first thing in it that is no underscore is a letter |
| `Codegen.NamelessState` | finitomata_macro/src/codegen.rs:20-24 | a definition that validation accepts and no code can be generated from |
| `Codegen.TerminalIsNoState` | finitomata_macro/src/validation.rs:18-27 | an accepted definition has a state named like the end marker if and only if it is the initial one |
| `Codegen.LineIsAllowed` | finitomata_macro/src/codegen.rs:58-83 | the graph answers each line's source and event with that line's target and kind; to the mark means a self-loop on a final state |
| `Codegen.AllowedIsALine` | finitomata_macro/src/codegen.rs:58-83 | the graph answers nothing that is not a line |
| `Codegen.AcceptedIsWellFormed` | finitomata/src/transition.rs:174-194 | what the macro accepts passes the runtime's validation |
| `Codegen.CompilationPreservesMeaning` | finitomata_macro/src/codegen.rs:58-94 | for every accepted definition whose names stay distinct: the graph answers exactly its lines and is well-formed, if and only if every line to the end marker's name has a final source, as it has unless the initial state bears that name |
| `Codegen.CollidingDefinition` | finitomata_macro/src/codegen.rs:64-69 | an accepted definition whose graph does not mean the same |
| `Parsers.Parse` | finitomata_macro/src/parser.rs:26-144 | the loop computes the fold over the lines, and a successful parse mentions only its states and the end marker |
| `Parsers.ParsedIsCoherent` | finitomata/src/parser/mermaid.rs:8-127 | initial and finals are states, each endpoint is a state or the end marker of a final state, for all four parsers |
| `Rendering.TransitionIsRead` | finitomata_macro/src/parser.rs:47-118 | each parser reads a written transition back, in each style it knows, unless the source is reserved |
| `Rendering.HeaderIsReserved` | finitomata/src/parser/plantuml.rs:16-24 | exactly the lines with a reserved source are taken for headers |
| `Rendering.LabelsArePlain` | finitomata/src/parser/mod.rs:36-44 | classifying a written event gives back its name and kind |
| `Rendering.RenderableExactlyWhen` | finitomata_macro/src/parser.rs:47-118 | a definition can be written if and only if it is coherent, its names are identifiers and its lines to the end marker come from final states |
| `Rendering.ParsingUndoesRendering` | finitomata_macro/src/parser.rs:26-235 | parsing a rendered definition gives it back if and only if no source is reserved, and for run-time parsers it is not empty |
| `Rendering.AgreeExactlyWhen` | finitomata/src/parser/plantuml.rs:8-175 | two of the four parsers agree on a rendered text if and only if both refuse it as empty, or neither does and they take the same lines for headers |
| `Rendering.ParsersAgree` | finitomata/src/parser/plantuml.rs:8-175 | so all four agree on rendered state diagrams with a transition and no reserved source |
| `Rendering.LabelledInitialArrow` | finitomata/src/parser/mermaid.rs:172-182 | they disagree on an initial arrow with a label, and how |
| `Text.FindTextIsFirst` | finitomata/src/parser/plantuml.rs:116-127 | text is found where it occurs first, or does not occur |
| `Layout.SyntaxErrorExactlyWhen` | finitomata/src/parser/mermaid.rs:14-112 | the parse fails with line n if and only if line n is the first that cannot be read |
| `Layout.NoInitialExactlyWhen` | finitomata_macro/src/parser.rs:135-136 | it fails for want of an initial state if and only if all lines can be read and none comes from the mark |
| `Layout.SkippedExactlyWhen` | finitomata_macro/src/parser.rs:34-41 | a trimmed line is skipped if and only if it is empty or begins with one of the dialect's keywords |
| `Layout.NoiseAnywhere` | finitomata_macro/src/parser.rs:152-163 | blank lines, comments and headers, indented or not, put anywhere into a text leave its parse as it was, but for the numbers of later lines |
| `Layout.PaddingIsIgnored` | finitomata/src/parser/plantuml.rs:15-15 | white space around a line makes no difference |
| `Layout.LastBreak` | finitomata/src/parser/plantuml.rs:14-14 | nor does the line break at the end |
| `Layout.FramedPlantUml` | finitomata_macro/src/parser.rs:152-163 | a PlantUML text may be framed by its start and end lines |
| `Layout.HeadedMermaid` | finitomata_macro/src/parser.rs:34-41 | a Mermaid text may begin with a flowchart or state diagram header |
| `Layout.ShortArrowAnywhere` | finitomata_macro/src/parser.rs:165-179 | in PlantUML the short arrow can stand for the long one |
| `Layout.DeclarationIsRead` | finitomata/src/parser/plantuml.rs:67-75 | at run time a declaration names its first word, with or without quotes; the macro skips it |
| `Layout.DeclaredIsAdded` | finitomata/src/parser/plantuml.rs:67-75 | a declaration anywhere in a text that parses adds that state and changes nothing else |
| `Spacing.SpacedArrow` | finitomata_macro/src/parser.rs:47-49 | white space around an arrow makes no difference |
| `Spacing.SpacedColon` | finitomata/src/parser/plantuml.rs:132-135 | nor around the colon |
| `Spacing.SpacedPipes` | finitomata/src/parser/mermaid.rs:155-169 | nor around and within the pipes, whatever the arrow comes from or goes to |
| `Spacing.BareArrowIsInvalid` | finitomata_macro/src/parser.rs:120-132 | an arrow without an event between two states cannot be read |
| `Spacing.NoEventIsRead` | finitomata/src/parser/plantuml.rs:132-160 | what each dialect makes of a colon with nothing after it |
| `Pipeline.Expand` | finitomata_macro/src/lib.rs:46-83 | the macro succeeds exactly on texts that parse, are acceptable and whose names have variants, and its graph is well-formed |
| `Pipeline.EmptyIsTaken` | finitomata_macro/src/parser.rs:26-144 | a text of one state and no transition, which passes the parsers and the validation of the macro and has its names generated, and which the run-time parsers refuse |
| `Pipeline.RunsFollowTheDefinition` | finitomata_macro/src/codegen.rs:169-181 | in every run on a generated graph, everything the listener is told is a line of the text's definition and the state is one of its states |

## Left out

- The actor library underneath (mailboxes, supervision strategies, restart intensity, registry): messages are handled one at a time, a stop ends delivery, a crash drops the actor, a restart is the factory followed by the start hook.
- Real time and the standalone timer: a pending tick is an effect that may be received at any later moment.
- Concurrency of the cache and the store beyond atomic map operations, and two live instances that share a name.
- Error messages: of an error only its stage is kept; tracing and the built-in listeners are not modelled.
- Persistence backends other than the in-memory one, except that a store may fail, leaving its entry; loading never fails.
- The error-storing hook of a backend, which the engine never calls.
- `kind()` of generated events, display names, snake-case names, and the parsing of the macro's attributes.
- Words beyond ASCII: letters, digits, upper case and white space are the ASCII ones.
- Definitions.Validate: the sorted, duplicate-free lists of states and finals are modelled as sets, listed in ascending order where they are gone through.
- Rendering.ParsingUndoesRendering: PlantUML declarations and labels on initial arrows are read by the model but not written.
- Actors.FsmActor.DoTransition: given the number of transitions to make, since the original need not return; all numbers together say all that happens, also where it never ends.
- Erasure.RefusalsAreHarmless: attempts that the engine makes by itself - a hard event at the start or within a chain - and those of an action that crashed stay in the remaining run, and fail there again, since no run is without them; `Refusals.SiftedIsAccepted` takes them out of the journal too.
- Names whose variant is a keyword of Rust: the macro's output is then rejected by the compiler, as it is where two names get the same variant, and where there is no transition and so no event to match on.
- Crash points inside a callback are not told apart from those before and after it: a callback that does not return is a crash right after its call was made.
