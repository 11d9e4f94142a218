/** Requests are carried out, and nothing is attempted that was not requested. */
module Requests {
  import opened Wrappers
  import opened States
  import opened Protocol
  import opened Machines
  import opened Services
  import opened Payloads
  import opened Traces

  // ---- What is asked of the callbacks ---------------------------------------------------------

  lemma OutlineAsks<S, E, P>(j: Journal<S, E, P>, n: nat, end: nat, from: S, event: E, eventPayload: P)
    requires n + 2 <= end <= |j| && Outline(j[n..end])[..2] == Asking(from, event, eventPayload)
    ensures Asks(j, n, from, event, eventPayload)
  {
    var asking: seq<Sketch<S, E, P>> := Asking(from, event, eventPayload);
    assert Bare(j[n]) == Outline(j[n..end])[..2][0] == asking[0];
    assert Bare(j[n + 1]) == Outline(j[n..end])[..2][1] == asking[1];
  }

  /** A chain asks about its event first, if the state answers it. */
  lemma ChainAsks<S(!new), E(!new), P>(k: Machine<S, E, P>, v: Snapshot<S, P>, n: nat, j: Journal<S, E, P>, event: E,
      eventPayload: P, fuel: nat, ending: Ending)
    requires k.c.Valid() && fuel > 0 && IsChain(k, v, n, j, event, eventPayload, fuel, ending)
    requires k.c.graph.Allowed(v.current, event).Some?
    ensures Asks(j, n, v.current, event, eventPayload)
  {
    hide Outline, Trial, GoesOn, k.c.graph.Indexed, k.c.graph.Allowed, Asks;
    TrialAsks(k, v, n, event, eventPayload, j);
    OutlineAsks(j, n, AttemptEnd(k, v, n, event, eventPayload, j).0, v.current, event, eventPayload);
  }

  /** An allowed choice whose store succeeds is committed, and before that stored. */
  lemma ChainCommits<S(!new), E(!new), P>(k: Machine<S, E, P>, v: Snapshot<S, P>, n: nat, j: Journal<S, E, P>, event: E,
      eventPayload: P, fuel: nat, ending: Ending)
    requires k.c.Valid() && fuel > 0 && IsChain(k, v, n, j, event, eventPayload, fuel, ending)
    requires Accepted(k, v.current, event, j, n)
    ensures var q := Question(j, n);
            Commits(k.c, j, n + 2, k.env.decide(q).target)
  {
    hide GoesOn, k.c.graph.Indexed, k.c.graph.Allowed;
    var (end, _) := AttemptEnd(k, v, n, event, eventPayload, j);
    var q := Question(j, n);
    var target := k.env.decide(q).target;
    var asking: seq<Sketch<S, E, P>> := Asking(v.current, event, eventPayload);
    var trial := asking + Arrival(k.c, v.current, event, target);
    assert Outline(j[n..end]) == trial;
    assert forall i :: 0 <= i < |trial| ==> Bare(j[n + i]) == trial[i];
    assert trial[2] == if k.c.persistent then Stored(target, None) else Committed(target);
    assert k.c.persistent ==> trial[3] == Committed(target);
  }

  /** Asked after `n` effects, on_transition chooses a target that is allowed, and a store succeeds. */
  ghost predicate Accepted<S(!new), E(!new), P>(k: Machine<S, E, P>, from: S, event: E, j: Journal<S, E, P>, n: nat)
    requires k.c.Valid()
  {
    var q := Question(j, n);
    && !k.env.decide(q).Refuse? && k.c.MayMove(from, event, k.env.decide(q).target) && k.env.storeSucceeds(q)
  }

  predicate Commits<S(!new), E(!new), P>(c: Config<S, E, P>, j: Journal<S, E, P>, n: nat, target: S) {
    if c.persistent then n + 2 <= |j| && j[n].Stored? && j[n].state == target && j[n + 1] == Committed(target)
    else n < |j| && j[n] == Committed(target)
  }

  /** A delivered event that the state answers is put to on_transition, with the payload it was sent with. */
  lemma DeliveredIsAsked<S(!new), E(!new), P>(k: Machine<S, E, P>, w: World<S, E, P>, event: E, eventPayload: P,
      fuel: nat)
    requires k.c.Valid() && fuel > 0 && k.c.graph.Allowed(w.state.current, event).Some?
    ensures var j := k.Perform(w, Deliver(TransitionMsg(event, eventPayload)), fuel).0.journal;
            && Asks(j, |w.journal|, w.state.current, event, eventPayload)
            && (Accepted(k, w.state.current, event, j, |w.journal|) ==>
                  Commits(k.c, j, |w.journal| + 2, k.env.decide(j[..|w.journal| + 2]).target))
  {
    hide k.DoTransition, IsChain, k.c.graph.Indexed, k.c.graph.Allowed, StoredOf, Accepted, Commits;
    var (after, ending) := k.Perform(w, Deliver(TransitionMsg(event, eventPayload)), fuel);
    ActionShows(k, w, Deliver(TransitionMsg(event, eventPayload)), fuel);
    ChainAsks(k, w.state, |w.journal|, after.journal, event, eventPayload, fuel, ending);
    if Accepted(k, w.state.current, event, after.journal, |w.journal|) {
      ChainCommits(k, w.state, |w.journal|, after.journal, event, eventPayload, fuel, ending);
    }
  }

  /** A tick calls on_timer, and what it asks for is put to on_transition if the state answers it. */
  lemma PolledIsAsked<S(!new), E(!new), P>(k: Machine<S, E, P>, w: World<S, E, P>, fuel: nat)
    requires k.c.Valid() && fuel > 0
    ensures var j := k.Perform(w, Deliver(TimerTickMsg), fuel).0.journal;
            var n := |w.journal|;
            && n + 2 <= |j| && j[..n + 2] == w.journal + [Ticked, OnTimer(w.state.current, w.state.payload)]
            && match k.env.poll(j[..n + 2])
               case None => forall i :: n + 2 <= i < |j| ==> j[i] == Scheduled
               case Some((event, eventPayload)) =>
                 k.c.graph.Allowed(w.state.current, event).Some? ==>
                   && Asks(j, n + 2, w.state.current, event, eventPayload)
                   && (Accepted(k, w.state.current, event, j, n + 2) ==>
                         Commits(k.c, j, n + 4, k.env.decide(j[..n + 4]).target))
  {
    hide k.HandleMessage, IsChain, k.c.graph.Indexed, k.c.graph.Allowed, StoredOf, Commits, RunsAfterPoll;
    var n := |w.journal|;
    var (after, ending) := k.Perform(w, Deliver(TimerTickMsg), fuel);
    ActionShows(k, w, Deliver(TimerTickMsg), fuel);
    var j, body := after.journal, WithoutTick(after.journal);
    assert body[..n + 2] == j[..n + 2] == j[..n] + [j[n], j[n + 1]];
    match k.env.poll(j[..n + 2]) {
      case None =>
      case Some((event, eventPayload)) =>
        var left := w.state.(payload := k.env.edit(j[..n + 2]));
        if k.c.graph.Allowed(w.state.current, event).Some? {
          ChainAsks(k, left, n + 2, body, event, eventPayload, fuel, ending);
          assert Question(body, n + 2) == Question(j, n + 2);
          if Accepted(k, w.state.current, event, j, n + 2) {
            ChainCommits(k, left, n + 2, body, event, eventPayload, fuel, ending);
            ShorterCommits(k.c, j, n + 4, k.env.decide(j[..n + 4]).target);
          }
        }
    }
  }

  lemma ShorterCommits<S(!new), E(!new), P>(c: Config<S, E, P>, j: Journal<S, E, P>, n: nat, target: S)
    requires Commits(c, WithoutTick(j), n, target)
    ensures Commits(c, j, n, target)
  {
  }

  // ---- Births -----------------------------------------------------------------------------

  /** From `n` on an instance is born, told that it starts and what it enters, running and cached. */
  predicate WakesAt<S(==), E(==), P(==)>(j: Journal<S, E, P>, n: nat, s: S, payload: P, life: Lifecycle) {
    && n + 5 <= |j| && j[n] == Born(s, payload, true, life) && j[n + 1].OnStart?
    && j[n + 2].OnEnter? && j[n + 2].state == s && j[n + 3] == Turned(Running)
    && j[n + 4].Cached? && j[n + 4].snapshot.current == s && j[n + 4].snapshot.lifecycle == Running
  }

  lemma OutlineWakes<S, E, P>(j: Journal<S, E, P>, n: nat, end: nat, seeding: seq<Sketch<S, E, P>>, s: S, payload: P,
      life: Lifecycle)
    requires n <= end <= |j| && Outline(j[n..end]) == seeding + Wakening(s, payload, life)
    ensures WakesAt(j, n + |seeding|, s, payload, life)
    ensures |seeding| == 1 ==> Bare(j[n]) == seeding[0]
  {
    var opening := seeding + Wakening(s, payload, life);
    var waking: seq<Sketch<S, E, P>> := Wakening(s, payload, life);
    var m := |seeding|;
    assert |Outline(j[n..end])| == end - n == m + 5;
    hide Outline, Bare;
    forall i | 0 <= i < 5 ensures Bare(j[n + m + i]) == waking[i] {
      OutlineAt(j, n, end, m + i);
      assert opening[m + i] == waking[i];
    }
    if m == 1 {
      OutlineAt(j, n, end, 0);
    }
    BareWakes(j, n + m, s, payload, life);
  }

  lemma OutlineAt<S, E, P>(j: Journal<S, E, P>, n: nat, end: nat, i: nat)
    requires n + i < end <= |j|
    ensures |Outline(j[n..end])| == end - n && Bare(j[n + i]) == Outline(j[n..end])[i]
  {
  }

  lemma BareWakes<S, E, P>(j: Journal<S, E, P>, n: nat, s: S, payload: P, life: Lifecycle)
    requires n + 5 <= |j| && forall i :: 0 <= i < 5 ==> Bare(j[n + i]) == Wakening<S, E, P>(s, payload, life)[i]
    ensures WakesAt(j, n, s, payload, life)
  {
    var waking: seq<Sketch<S, E, P>> := Wakening(s, payload, life);
    assert Bare(j[n + 0]) == waking[0] && Bare(j[n + 1]) == waking[1] && Bare(j[n + 2]) == waking[2];
    assert Bare(j[n + 3]) == waking[3] && Bare(j[n + 4]) == waking[4];
  }

  /**
   A supervised instance with a store in which nothing is stored: if the store accepts it, the initial
   state is stored and the instance begins awake in it with the payload it was spawned with; if not,
   it begins dormant.
   */
  lemma SpawnedIsAwake<S(!new), E(!new), P>(k: Machine<S, E, P>, w: World<S, E, P>, payload: P, fuel: nat)
    requires k.c.Valid() && k.c.supervised && k.c.persistent && StoredOf(w.journal).None?
    ensures var j := k.Perform(w, Launch(payload), fuel).0.journal;
            var n := |w.journal|;
            && w.journal <= j && n < |j|
            && if k.env.storeSucceeds(w.journal) then
                 && j[n] == Seeded(k.c.graph.initial, k.c.payload)
                 && WakesAt(j, n + 1, k.c.graph.initial, k.c.payload, Loaded)
               else j[n] == Born(k.c.graph.initial, k.c.payload, false, Created)
  {
    hide k.Perform, IsChain, k.c.graph.Indexed, StoredOf, FirstHard, WakesAt;
    var (after, ending) := k.Perform(w, Launch(payload), fuel);
    ActionShows(k, w, Launch(payload), fuel);
    var j, n := after.journal, |w.journal|;
    if k.env.storeSucceeds(w.journal) {
      OutlineWakes(j, n, n + 6, [Seeded(k.c.graph.initial, Some(k.c.payload))], k.c.graph.initial, k.c.payload, Loaded);
    } else {
      assert Bare(j[n]) == Outline(j[n..n + 1])[0];
    }
  }

  /** Whatever is stored, a launch or restart resumes from it. */
  lemma StoredIsResumed<S(!new), E(!new), P>(k: Machine<S, E, P>, w: World<S, E, P>, action: Action<E, P>, fuel: nat)
    requires k.c.Valid() && k.c.persistent && StoredOf(w.journal).Some? && (action.Launch? || action.Restart?)
    ensures var j := k.Perform(w, action, fuel).0.journal;
            var (s, payload) := StoredOf(w.journal).value;
            WakesAt(j, |w.journal|, s, payload, if k.c.supervised then Loaded else Running)
  {
    hide k.Perform, IsChain, k.c.graph.Indexed, StoredOf, FirstHard, WakesAt;
    var (after, ending) := k.Perform(w, action, fuel);
    ActionShows(k, w, action, fuel);
    var n := |w.journal|;
    var (s, payload) := StoredOf(w.journal).value;
    var life := if k.c.supervised then Loaded else Running;
    var waking: seq<Sketch<S, E, P>> := Wakening(s, payload, life);
    assert [] + waking == waking;
    OutlineWakes(after.journal, n, n + 5, [], s, payload, life);
  }

  // ---- Where attempts come from -----------------------------------------------------------------

  /** The attempt is at the first hard event of its state, with the payload that is left there. */
  ghost predicate IsHardRequest<S(!new), E(!new), P>(k: Machine<S, E, P>, j: Journal<S, E, P>, i: nat)
    requires k.c.Valid() && 0 < i < |j| && j[i].OnTransition? && j[i - 1].OnExit?
  {
    k.HardEvent(j[i].from) == Some(j[i].event) && j[i - 1].payload == j[i].eventPayload
  }

  /** The attempt is at what on_timer has just asked for. */
  ghost predicate IsPolled<S(!new), E(!new), P>(k: Machine<S, E, P>, j: Journal<S, E, P>, i: nat)
    requires 0 < i < |j| && j[i].OnTransition?
  {
    i >= 2 && j[i - 2].OnTimer? && k.env.poll(j[..i - 1]) == Some((j[i].event, j[i].eventPayload))
  }

  /** The attempt is the first of the action, which delivers its event with its payload. */
  predicate IsDelivered<S, E(==), P(==)>(action: Action<E, P>, n: nat, j: Journal<S, E, P>, i: nat)
    requires i < |j| && j[i].OnTransition?
  {
    i == n + 1 && action == Deliver(TransitionMsg(j[i].event, j[i].eventPayload))
  }

  /** on_transition is called right after on_exit, in an attempt of one of these kinds. */
  ghost predicate HasOrigin<S(!new), E(!new), P>(k: Machine<S, E, P>, action: Action<E, P>, n: nat, j: Journal<S, E, P>,
      i: nat)
    requires k.c.Valid() && i < |j| && j[i].OnTransition?
  {
    && i > 0 && j[i - 1].OnExit? && j[i - 1].state == j[i].from
    && (IsDelivered(action, n, j, i) || IsPolled(k, j, i) || IsHardRequest(k, j, i))
  }

  /** Within an attempt on_transition is called once, after on_exit. */
  lemma AttemptAsksOnce<S(!new), E(!new), P>(k: Machine<S, E, P>, v: Snapshot<S, P>, n: nat, event: E, eventPayload: P,
      j: Journal<S, E, P>, i: nat)
    requires k.c.Valid() && AttemptFits(k, v, n, event, eventPayload, j)
    requires n <= i <= AttemptEnd(k, v, n, event, eventPayload, j).0 && j[i].OnTransition?
    ensures i == n + 1 && Asks(j, n, v.current, event, eventPayload)
  {
    hide Outline, Leads, k.c.graph.Indexed, k.c.graph.Allowed, Asks, Bare;
    var (end, _) := AttemptEnd(k, v, n, event, eventPayload, j);
    assert i < end;
    OutlineAt(j, n, end, i - n);
    var q := Question(j, n);
    OnlyQuestion(k.c, v.current, event, eventPayload, k.env.decide(q), k.env.storeSucceeds(q), i - n);
    BareQuestion(j[i]);
    TrialAsks(k, v, n, event, eventPayload, j);
    OutlineAsks(j, n, end, v.current, event, eventPayload);
  }

  lemma BareQuestion<S, E, P>(x: Effect<S, E, P>)
    ensures x.OnTransition? <==> Bare(x).OnTransition?
  {
  }

  lemma OnlyQuestion<S(!new), E(!new), P>(c: Config<S, E, P>, from: S, event: E, eventPayload: P,
      decision: TransitionResult<S, P>, stores: bool, i: nat)
    requires c.Valid()
    ensures var trial := Trial(c, from, event, eventPayload, decision, stores).0;
            i < |trial| && trial[i].OnTransition? ==>
              i == 1 && c.graph.Allowed(from, event).Some?
  {
    hide c.graph.Indexed, c.graph.Allowed;
  }

  /** The payload that is passed on after `n` effects. */
  ghost predicate PassesOn<S(!new), E(!new), P>(k: Machine<S, E, P>, j: Journal<S, E, P>, n: nat, payload: P)
    requires n <= |j|
  {
    Payloads.Left(k, j[..n]) == Some(payload)
  }

  lemma CachedPassesOn<S(!new), E(!new), P>(k: Machine<S, E, P>, j: Journal<S, E, P>, n: nat)
    requires Threaded(k, j) && n < |j| && j[n].Cached?
    ensures PassesOn(k, j, n + 1, j[n].snapshot.payload)
  {
    assert j[..n + 1] == j[..n] + [j[n]];
    LeftSnoc(k, j[..n], j[n]);
    hide Payloads.Left;
    assert Given(j[n]) == Payloads.Left(k, j[..n]);
  }

  lemma ScheduledPassesOn<S(!new), E(!new), P>(k: Machine<S, E, P>, j: Journal<S, E, P>, n: nat, payload: P)
    requires n < |j| && j[n] == Scheduled && PassesOn(k, j, n, payload)
    ensures PassesOn(k, j, n + 1, payload)
  {
    assert j[..n + 1] == j[..n] + [j[n]];
    LeftSnoc(k, j[..n], j[n]);
  }

  /** The attempt is the one a chain begins with. */
  predicate IsFirst<S(==), E(==), P(==)>(s: S, event: E, eventPayload: P, n: nat, j: Journal<S, E, P>, i: nat)
    requires i < |j| && j[i].OnTransition?
  {
    i == n + 1 && j[i].from == s && j[i].event == event && j[i].eventPayload == eventPayload
  }

  /** A chain's first attempt is at its event, and each other one is a hard request. */
  lemma {:induction false} ChainOrigin<S(!new), E(!new), P>(k: Machine<S, E, P>, v: Snapshot<S, P>, n: nat,
      j: Journal<S, E, P>, event: E, eventPayload: P, fuel: nat, ending: Ending, i: nat)
    requires k.c.Valid() && Threaded(k, j) && IsChain(k, v, n, j, event, eventPayload, fuel, ending)
    requires n <= i < |j| && j[i].OnTransition?
    ensures i > 0 && j[i - 1].OnExit? && j[i - 1].state == j[i].from
    ensures IsFirst(v.current, event, eventPayload, n, j, i) || IsHardRequest(k, j, i)
    decreases fuel
  {
    hide AttemptFits, AttemptEnd, k.c.graph.Indexed, Threaded, FirstHard;
    var (end, r) := AttemptEnd(k, v, n, event, eventPayload, j);
    assert fuel > 0;
    if i <= end {
      AttemptAsksOnce(k, v, n, event, eventPayload, j, i);
    } else {
      FitsCached(k, v, n, event, eventPayload, j);
      var v' := j[end].snapshot;
      var next := FirstHard(k.c.graph.EventsFor(v'.current)).value;
      ChainOrigin(k, v', end + 1, j, next, v'.payload, fuel - 1, ending, i);
      if IsFirst(v'.current, next, v'.payload, end + 1, j, i) {
        CachedPassesOn(k, j, end);
        FirstIsHard(k, v'.current, next, v'.payload, end + 1, j, i);
      }
    }
  }

  lemma FitsCached<S(!new), E(!new), P>(k: Machine<S, E, P>, v: Snapshot<S, P>, n: nat, event: E, eventPayload: P,
      j: Journal<S, E, P>)
    requires k.c.Valid() && AttemptFits(k, v, n, event, eventPayload, j)
    ensures var (end, _) := AttemptEnd(k, v, n, event, eventPayload, j);
            n <= end < |j| && j[end].Cached?
  {
  }

  lemma FirstIsHard<S(!new), E(!new), P>(k: Machine<S, E, P>, s: S, event: E, payload: P, n: nat, j: Journal<S, E, P>,
      i: nat)
    requires k.c.Valid() && Threaded(k, j) && i < |j| && j[i].OnTransition? && IsFirst(s, event, payload, n, j, i)
    requires j[n].OnExit? && k.HardEvent(s) == Some(event) && PassesOn(k, j, n, payload)
    ensures IsHardRequest(k, j, i)
  {
    hide Payloads.Left, FirstHard;
    assert Given(j[n]) == Payloads.Left(k, j[..n]);
  }

  lemma OpeningOrigin<S(!new), E(!new), P>(k: Machine<S, E, P>, n: nat, j: Journal<S, E, P>,
      opening: seq<Sketch<S, E, P>>, fuel: nat, ending: Ending, i: nat)
    requires k.c.Valid() && Threaded(k, j) && opening != [] && Opens(k, n, j, opening, fuel, ending)
    requires forall x :: x in opening ==> !x.OnTransition?
    requires var x := opening[|opening| - 1];
             x.Cached? || x == Born(k.c.graph.initial, Some(k.c.payload), false, Created)
    requires n <= i < |j| && j[i].OnTransition?
    ensures i > 0 && j[i - 1].OnExit? && j[i - 1].state == j[i].from && IsHardRequest(k, j, i)
  {
    hide IsChain, Outline, k.c.graph.Indexed, Threaded, FirstHard, Bare, IsHardRequest;
    var born := n + |opening|;
    var begun := if k.c.timer then born + 1 else born;
    var v := if j[born - 1].Cached? then j[born - 1].snapshot else FreshSnapshot(k.c.graph.initial, k.c.payload);
    if i < born {
      OutlineAt(j, n, born, i - n);
      BareQuestion(j[i]);
      assert false;
    }
    BirthPassesOn(k, n, j, opening);
    if k.c.timer {
      ScheduledPassesOn(k, j, born, v.payload);
    }
    var event := FirstHard(k.c.graph.EventsFor(v.current)).value;
    ChainOrigin(k, v, begun, j, event, v.payload, fuel, ending, i);
    if IsFirst(v.current, event, v.payload, begun, j, i) {
      FirstIsHard(k, v.current, event, v.payload, begun, j, i);
    }
  }

  lemma BirthPassesOn<S(!new), E(!new), P>(k: Machine<S, E, P>, n: nat, j: Journal<S, E, P>,
      opening: seq<Sketch<S, E, P>>)
    requires opening != [] && Threaded(k, j) && n + |opening| <= |j| && Outline(j[n..n + |opening|]) == opening
    requires var x := opening[|opening| - 1];
             x.Cached? || x == Born(k.c.graph.initial, Some(k.c.payload), false, Created)
    ensures var x := j[n + |opening| - 1];
            PassesOn(k, j, n + |opening|, if x.Cached? then x.snapshot.payload else k.c.payload)
  {
    hide Outline, Threaded;
    var born := n + |opening|;
    OutlineAt(j, n, born, |opening| - 1);
    if j[born - 1].Cached? {
      CachedPassesOn(k, j, born - 1);
    } else {
      assert j[..born] == j[..born - 1] + [j[born - 1]];
      LeftSnoc(k, j[..born - 1], j[born - 1]);
    }
  }

  lemma BirthIsSilent<S(!new), E(!new), P>(c: Config<S, E, P>, stored: Option<(S, P)>, payload: P)
    ensures var birth := Birth(c, stored, payload);
            && birth != [] && (forall x :: x in birth ==> !x.OnTransition?)
            && var x := birth[|birth| - 1];
               x.Cached? || x == Born(c.graph.initial, Some(c.payload), false, Created)
  {
  }

  /** What an action attempts was delivered by it, asked for by on_timer, or is a hard request. */
  lemma ActionOrigin<S(!new), E(!new), P>(k: Machine<S, E, P>, w: World<S, E, P>, action: Action<E, P>, fuel: nat,
      j: Journal<S, E, P>, ending: Ending, i: nat)
    requires k.c.Valid() && Threaded(k, j) && Plays(k, w, action, fuel, j, ending)
    requires |w.journal| <= i < |j| && j[i].OnTransition?
    ensures HasOrigin(k, action, |w.journal|, j, i)
  {
    hide IsChain, Opens, IsPoll, RunsAfterPoll, Outline, k.c.graph.Indexed, Threaded, FirstHard, Birth, StoredOf,
      IsHardRequest;
    var n, stored := |w.journal|, StoredOf(w.journal);
    match action {
      case Launch(payload) =>
        var seeding := Seeding(k.c, stored, k.env.storeSucceeds(w.journal));
        var found := if seeding == [] then stored else Some((k.c.graph.initial, k.c.payload));
        BirthIsSilent(k.c, found, payload);
        OpeningOrigin(k, n, j, seeding + Birth(k.c, found, payload), fuel, ending, i);
      case Restart =>
        BirthIsSilent(k.c, stored, k.c.payload);
        OpeningOrigin(k, n, j, Birth(k.c, stored, k.c.payload), fuel, ending, i);
      case Deliver(TransitionMsg(event, payload)) =>
        ChainOrigin(k, w.state, n, j, event, payload, fuel, ending, i);
      case Deliver(TimerTickMsg) => TickOrigin(k, w.state, n, j, fuel, ending, i);
      case Deliver(ShutdownMsg) => FarewellIsSilent(j, n, w.state, i);
      case Stop => StopIsSilent(j, n, w.state, i);
    }
  }

  lemma FarewellIsSilent<S, E, P>(j: Journal<S, E, P>, n: nat, v: Snapshot<S, P>, i: nat)
    requires n <= i < |j|
    requires Outline(j[n..]) == Farewell() + [Cached(Faceless(v.(lifecycle := Terminated))), Halted]
    ensures !j[i].OnTransition?
  {
    assert j[n..|j|] == j[n..];
    OutlineAt(j, n, |j|, i - n);
  }

  lemma StopIsSilent<S, E, P>(j: Journal<S, E, P>, n: nat, v: Snapshot<S, P>, i: nat)
    requires n <= i < |j|
    requires Outline(j[n..]) ==
             if v.lifecycle != Running then []
             else [Turned(Terminated), OnTerminate(None), Cached(Faceless(v.(lifecycle := Terminated)))]
    ensures !j[i].OnTransition?
  {
    assert j[n..|j|] == j[n..];
    OutlineAt(j, n, |j|, i - n);
  }

  lemma TickOrigin<S(!new), E(!new), P>(k: Machine<S, E, P>, v: Snapshot<S, P>, n: nat, j: Journal<S, E, P>, fuel: nat,
      ending: Ending, i: nat)
    requires k.c.Valid() && Threaded(k, j) && IsTick(k, v, n, j, fuel, ending)
    requires n <= i < |j| && j[i].OnTransition?
    ensures i > 0 && j[i - 1].OnExit? && j[i - 1].state == j[i].from && (IsPolled(k, j, i) || IsHardRequest(k, j, i))
  {
    hide IsChain, RunsAfterPoll, k.c.graph.Indexed, Threaded, FirstHard;
    var body := WithoutTick(j);
    PrefixThreads(k, j, |body|);
    assert j[..|body|] == body;
    assert i < |body| && body[i] == j[i] && i >= n + 2;
    assert body[..n + 2] == j[..n + 2];
    var (event, payload) := k.env.poll(j[..n + 2]).value;
    ChainOrigin(k, v.(payload := k.env.edit(j[..n + 2])), n + 2, body, event, payload, fuel, ending, i);
    assert body[i - 1] == j[i - 1];
  }

  lemma OriginInPrefix<S(!new), E(!new), P>(k: Machine<S, E, P>, action: Action<E, P>, n: nat, j: Journal<S, E, P>,
      j': Journal<S, E, P>, i: nat)
    requires k.c.Valid() && i < |j| && i < |j'| && (j <= j' || j' <= j) && j[i].OnTransition?
    ensures j'[i].OnTransition? && (HasOrigin(k, action, n, j, i) <==> HasOrigin(k, action, n, j', i))
  {
    hide FirstHard, k.c.graph.Indexed;
    assert j[i] == j'[i] && (i > 0 ==> j[i - 1] == j'[i - 1]) && (i > 1 ==> j[i - 2] == j'[i - 2]);
    assert i > 0 ==> j[..i - 1] == j'[..i - 1];
  }

  /**
   In every run, crashes included: wherever on_transition is called, the event and its payload are the
   ones the step delivers, the ones on_timer has just asked for, or the state's first hard event with
   the payload that was left there.
   */
  lemma {:induction false} EveryAttemptIsRequested<S(!new), E(!new), P>(k: Machine<S, E, P>, steps: seq<Step<E, P>>,
      i: nat)
    requires k.c.Valid() && i < |k.Run(steps).journal| && k.Run(steps).journal[i].OnTransition?
    ensures exists t :: && 0 <= t < |steps|
                        && HasOrigin(k, steps[t].action, |k.Run(steps[..t]).journal|, k.Run(steps).journal, i)
  {
    hide k.Perform, k.Enabled, k.c.graph.Indexed, HasOrigin, Plays, Threaded;
    var last := |steps| - 1;
    var w, w' := k.Run(steps[..last]), k.Run(steps);
    var (after, ending) := k.Perform(w, steps[last].action, steps[last].fuel);
    PayloadIsThreaded(k, steps[..last]);
    StepExtends(k, w, steps[last]);
    if i < |w.journal| {
      EveryAttemptIsRequested(k, steps[..last], i);
      var t :| && 0 <= t < last
               && HasOrigin(k, steps[..last][t].action, |k.Run(steps[..last][..t]).journal|, w.journal, i);
      assert steps[..last][..t] == steps[..t] && steps[..last][t] == steps[t];
      OriginInPrefix(k, steps[t].action, |k.Run(steps[..t]).journal|, w.journal, w'.journal, i);
    } else {
      PerformCarries(k, w, steps[last].action, steps[last].fuel);
      ActionShows(k, w, steps[last].action, steps[last].fuel);
      OriginInPrefix(k, steps[last].action, |w.journal|, w'.journal, after.journal, i);
      ActionOrigin(k, w, steps[last].action, steps[last].fuel, after.journal, ending, i);
    }
  }

  lemma StepExtends<S(!new), E(!new), P>(k: Machine<S, E, P>, w: World<S, E, P>, step: Step<E, P>)
    requires k.c.Valid()
    ensures var (after, w') := (k.Perform(w, step.action, step.fuel).0, k.Next(w, step));
            && w.journal <= w'.journal
            && (|w'.journal| > |w.journal| ==> k.Enabled(w, step.action) && w'.journal <= after.journal)
  {
    ActionShows(k, w, step.action, step.fuel);
    hide k.Perform, k.Enabled, k.c.graph.Indexed;
  }
}
