/** Runs without their refused attempts: what is left is a run, and ends where the whole one ends. */
module Erasure {
  import opened Wrappers
  import opened Graphs
  import opened History
  import opened States
  import opened Protocol
  import opened Machines
  import opened Conformance
  import opened Runs
  import opened Refusals

  // ---- Journals only grow -------------------------------------------------------------------

  lemma AbortGrows<S(!new), E(!new), P>(k: Machine<S, E, P>, w: World<S, E, P>, from: S, event: E, error: ErrorStage)
    ensures Extends(w, k.Abort(w, from, event, error)) && w.journal != k.Abort(w, from, event, error).journal
  {
  }

  lemma ArriveGrows<S(!new), E(!new), P>(k: Machine<S, E, P>, w: World<S, E, P>, from: S, event: E, target: S,
      kind: EventKind)
    ensures Extends(w, k.Arrive(w, from, event, target, kind).0)
    ensures w.journal != k.Arrive(w, from, event, target, kind).0.journal
  {
  }

  lemma SettleGrows<S(!new), E(!new), P>(k: Machine<S, E, P>, w: World<S, E, P>, from: S, event: E, target: S,
      allowed: (seq<S>, EventKind))
    ensures Extends(w, k.Settle(w, from, event, target, allowed).0)
    ensures w.journal != k.Settle(w, from, event, target, allowed).0.journal
  {
    hide k.Arrive, k.Abort;
    AbortGrows(k, w, from, event, NotAllowed);
    var saved := if k.c.persistent then k.Emit(w, Stored(target, w.state.payload)) else w;
    ArriveGrows(k, saved, from, event, target, allowed.1);
  }

  lemma TransitGrows<S(!new), E(!new), P>(k: Machine<S, E, P>, w: World<S, E, P>, event: E, eventPayload: P)
    requires k.c.Valid()
    ensures Extends(w, k.Transit(w, event, eventPayload).0)
    ensures k.c.graph.Allowed(w.state.current, event).Some? ==>
              Extends(k.Ask(w, event, eventPayload), k.Transit(w, event, eventPayload).0)
  {
    hide k.Settle, k.Abort, k.c.graph.Allowed;
    var allowed := k.c.graph.Allowed(w.state.current, event);
    if allowed.Some? {
      var asked := k.Ask(w, event, eventPayload);
      match k.env.decide(asked.journal) {
        case Refuse(error) => AbortGrows(k, asked, w.state.current, event, error);
        case Move(target) => SettleGrows(k, asked, w.state.current, event, target, allowed.value);
        case MoveWithPayload(target, payload) =>
          SettleGrows(k, k.WithPayload(asked, payload), w.state.current, event, target, allowed.value);
      }
    }
  }

  lemma {:induction false} DoTransitionGrows<S(!new), E(!new), P>(k: Machine<S, E, P>, w: World<S, E, P>, event: E,
      eventPayload: P, fuel: nat)
    requires k.c.Valid()
    ensures Extends(w, k.DoTransition(w, event, eventPayload, fuel).0)
    ensures fuel > 0 ==>
              Extends(k.Cache(k.Transit(w, event, eventPayload).0), k.DoTransition(w, event, eventPayload, fuel).0)
    decreases fuel
  {
    hide k.Transit, k.HardEvent, k.c.graph.Indexed;
    if fuel > 0 {
      var (after, r) := k.Transit(w, event, eventPayload);
      TransitGrows(k, w, event, eventPayload);
      var cached := k.Cache(after);
      if r == Ok(HardContinue) && k.HardEvent(cached.state.current).Some? {
        DoTransitionGrows(k, cached, k.HardEvent(cached.state.current).value, cached.state.payload, fuel - 1);
      }
    }
  }

  lemma TickGrows<S(!new), E(!new), P>(k: Machine<S, E, P>, w: World<S, E, P>, fuel: nat)
    requires k.c.Valid()
    ensures Extends(w, k.HandleTimerTick(w, fuel).0)
    ensures Extends(k.Call(w, OnTimer(w.state.current, w.state.payload)), k.HandleTimerTick(w, fuel).0)
  {
    hide k.DoTransition, k.c.graph.Indexed;
    var polled := k.Call(w, OnTimer(w.state.current, w.state.payload));
    var answer := k.env.poll(polled.journal);
    if answer.Some? {
      DoTransitionGrows(k, polled, answer.value.0, answer.value.1, fuel);
    }
  }

  lemma StartedGrows<S(!new), E(!new), P>(k: Machine<S, E, P>, w: World<S, E, P>, fuel: nat)
    requires k.c.Valid()
    ensures Extends(w, k.Started(w, fuel).0)
    ensures Extends(if k.c.timer then k.Emit(w, Scheduled) else w, k.Started(w, fuel).0)
  {
    hide k.DoTransition, k.HardEvent, k.c.graph.Indexed;
    var timed := if k.c.timer then k.Emit(w, Scheduled) else w;
    var hard := k.HardEvent(timed.state.current);
    if hard.Some? {
      DoTransitionGrows(k, timed, hard.value, timed.state.payload, fuel);
    }
  }

  lemma IncarnateGrows<S(!new), E(!new), P>(k: Machine<S, E, P>, w: World<S, E, P>, payload: P)
    ensures Extends(w, k.Incarnate(w, payload)) && w.journal != k.Incarnate(w, payload).journal
  {
    hide k.c.Watch;
  }

  lemma PrefixesCompare<T>(a: seq<T>, b: seq<T>, whole: seq<T>)
    requires a <= whole && b <= whole
    ensures a <= b || b <= a
  {
    if |a| <= |b| {
      assert a == whole[..|a|] == b[..|a|];
    } else {
      assert b == whole[..|b|] == a[..|b|];
    }
  }

  // ---- Two runs side by side ----------------------------------------------------------------

  ghost predicate SameCounts<S, E, P>(m: Monitor<S, E, P>, m': Monitor<S, E, P>) {
    m.pending == m'.pending && m.halted == m'.halted
  }

  /** The journals have the same births, stores, moves and notes, and the same ticks are due. */
  ghost predicate JournalTwins<S(!new), E(!new), P>(c: Config<S, E, P>, j: Journal<S, E, P>, j': Journal<S, E, P>) {
    Essence(j) == Essence(j') && SameCounts(c.Watch(j), c.Watch(j'))
  }

  /** The states are the same but for the payload and the last error. */
  ghost predicate StateTwins<S, P>(s: Snapshot<S, P>, s': Snapshot<S, P>) {
    s' == s.(payload := s'.payload, lastError := s'.lastError)
  }

  predicate Ticking<S, E, P>(x: Effect<S, E, P>) {
    x.Scheduled? || x.Ticked? || x.Halted?
  }

  ghost predicate Alike<S, E, P>(x: Effect<S, E, P>, x': Effect<S, E, P>) {
    if Essential(x) || Essential(x') || Ticking(x) || Ticking(x') then x == x' else true
  }

  lemma StepKeepsCounts<S(!new), E(!new), P>(c: Config<S, E, P>, m: Monitor<S, E, P>, m': Monitor<S, E, P>,
      x: Effect<S, E, P>, x': Effect<S, E, P>)
    requires SameCounts(m, m') && Alike(x, x')
    ensures SameCounts(c.Advance(m, x), c.Advance(m', x'))
  {
  }

  lemma TwinsSnoc<S(!new), E(!new), P>(c: Config<S, E, P>, j: Journal<S, E, P>, j': Journal<S, E, P>,
      x: Effect<S, E, P>, x': Effect<S, E, P>)
    requires JournalTwins(c, j, j') && Alike(x, x')
    ensures JournalTwins(c, j + [x], j' + [x'])
  {
    EssenceSnoc(j, x);
    EssenceSnoc(j', x');
    StepKeepsCounts(c, c.Watch(j), c.Watch(j'), x, x');
    assert (j + [x])[..|j|] == j && (j' + [x'])[..|j'|] == j';
    hide c.Advance, Essence;
  }

  /**
   Two machines in tandem: until the first one's journal has grown to `goal`, the second one's
   callbacks answer as the first one's do, at journals that are shorter by `lag`.
   */
  datatype Tandem<!S(==, !new), !E(==, !new), !P(!new)> = Tandem(
    k: Machine<S, E, P>,
    k': Machine<S, E, P>,
    goal: Journal<S, E, P>,
    lag: nat,
    start: nat)
  {
    ghost predicate Valid() {
      && k.c.Valid() && k'.c == k.c && lag <= |goal|
      && forall j': Journal<S, E, P> :: start < |j'| && |j'| + lag <= |goal| ==> Echoes(j')
    }

    /** What the first machine's callbacks answer is what the second one's answer at the shorter journal. */
    ghost predicate Echoes(j': Journal<S, E, P>)
      requires |j'| + lag <= |goal|
    {
      var j := goal[..|j'| + lag];
      && k'.env.edit(j') == k.env.edit(j) && k'.env.decide(j') == k.env.decide(j)
      && k'.env.poll(j') == k.env.poll(j)
      && (|j| < |goal| ==> k'.env.storeSucceeds(j') == k.env.storeSucceeds(j))
    }

    /** Up to the goal the worlds are in step; beyond it, they were when the goal was reached. */
    ghost predicate Together(w: World<S, E, P>, w': World<S, E, P>) {
      && start <= |w'.journal|
      && if w.journal <= goal then
           && |w.journal| == |w'.journal| + lag && w'.up == w.up
           && StateTwins(w.state, w'.state) && JournalTwins(k.c, w.journal, w'.journal)
         else
           goal <= w.journal ==>
             lag <= |goal| <= |w'.journal| + lag && JournalTwins(k.c, goal, w'.journal[..|goal| - lag])
    }

    ghost predicate SamePayload(w: World<S, E, P>, w': World<S, E, P>) {
      w.journal <= goal ==> w.state.payload == w'.state.payload
    }

    /** Once the goal is reached, or missed, nothing that comes later matters. */
    lemma Beyond(w: World<S, E, P>, w': World<S, E, P>, v: World<S, E, P>, v': World<S, E, P>)
      requires Valid() && Together(w, w') && w.journal <= v.journal && w'.journal <= v'.journal
      requires w.journal <= goal ==> w.journal == goal != v.journal
      ensures Together(v, v') && !(v.journal <= goal)
    {
      hide JournalTwins;
      if goal <= v.journal {
        if w.journal <= goal {
          assert w'.journal == v'.journal[..|goal| - lag];
        } else {
          PrefixesCompare(w.journal, goal, v.journal);
          assert w'.journal[..|goal| - lag] == v'.journal[..|goal| - lag];
        }
      }
    }

    lemma Emitted(w: World<S, E, P>, w': World<S, E, P>, x: Effect<S, E, P>, x': Effect<S, E, P>, v: World<S, E, P>,
        v': World<S, E, P>)
      requires Valid() && Together(w, w') && Alike(x, x')
      requires v.journal == w.journal + [x] && v'.journal == w'.journal + [x']
      requires w.journal <= goal ==> v.up == v'.up && StateTwins(v.state, v'.state)
      ensures Together(v, v')
    {
      hide Alike;
      if w.journal < goal {
        if goal[|w.journal|] == x {
          TwinsSnoc(k.c, w.journal, w'.journal, x, x');
        }
      } else {
        Beyond(w, w', v, v');
      }
    }

    lemma Called(w: World<S, E, P>, w': World<S, E, P>, x: Effect<S, E, P>, x': Effect<S, E, P>)
      requires Valid() && Together(w, w')
      requires !Essential(x) && !Essential(x') && !Ticking(x) && !Ticking(x')
      ensures Together(k.Call(w, x), k'.Call(w', x')) && SamePayload(k.Call(w, x), k'.Call(w', x'))
    {
      hide JournalTwins;
      Emitted(w, w', x, x', k.Call(w, x), k'.Call(w', x'));
      var j, j' := w.journal + [x], w'.journal + [x'];
      if j <= goal {
        assert goal[..|j'| + lag] == j && (w.journal <= goal ==> Echoes(j'));
      }
    }

    /** In step, the callbacks and the store answer alike. */
    lemma Answers(w: World<S, E, P>, w': World<S, E, P>)
      requires Valid() && Together(w, w') && w.journal <= goal && start < |w'.journal|
      ensures k'.env.decide(w'.journal) == k.env.decide(w.journal)
      ensures k'.env.poll(w'.journal) == k.env.poll(w.journal)
      ensures w.journal != goal ==> k'.env.storeSucceeds(w'.journal) == k.env.storeSucceeds(w.journal)
    {
      hide JournalTwins;
      assert goal[..|w'.journal| + lag] == w.journal && Echoes(w'.journal);
    }

    lemma TurnTogether(w: World<S, E, P>, w': World<S, E, P>, life: Lifecycle)
      requires Valid() && Together(w, w')
      ensures Together(k.Turn(w, life), k'.Turn(w', life))
    {
      hide JournalTwins;
      Emitted(w, w', Turned(life), Turned(life), k.Turn(w, life), k'.Turn(w', life));
    }

    lemma CacheTogether(w: World<S, E, P>, w': World<S, E, P>)
      requires Valid() && Together(w, w')
      ensures Together(k.Cache(w), k'.Cache(w'))
    {
      hide JournalTwins;
      Emitted(w, w', Cached(w.state), Cached(w'.state), k.Cache(w), k'.Cache(w'));
    }

    lemma AskTogether(w: World<S, E, P>, w': World<S, E, P>, event: E, eventPayload: P, eventPayload': P)
      requires Valid() && Together(w, w') && w.journal <= goal
      ensures var asked, asked' := k.Ask(w, event, eventPayload), k'.Ask(w', event, eventPayload');
              Together(asked, asked') && SamePayload(asked, asked') && start < |asked'.journal|
    {
      hide Together, SamePayload, JournalTwins;
      var x, x' := OnExit(w.state.current, w.state.payload), OnExit(w'.state.current, w'.state.payload);
      Called(w, w', x, x');
      var left, left' := k.Call(w, x), k'.Call(w', x');
      Called(left, left', OnTransition(w.state.current, event, eventPayload, left.state.payload),
          OnTransition(w'.state.current, event, eventPayload', left'.state.payload));
      StartGrows(w, w');
    }

    lemma StartGrows(w: World<S, E, P>, w': World<S, E, P>)
      requires Together(w, w')
      ensures start <= |w'.journal|
    {
    }

    lemma AbortTogether(w: World<S, E, P>, w': World<S, E, P>, from: S, event: E, error: ErrorStage)
      requires Valid() && Together(w, w')
      ensures Together(k.Abort(w, from, event, error), k'.Abort(w', from, event, error))
    {
      hide JournalTwins;
      var x, x' := OnFailure(event, error, w.state.payload), OnFailure(event, error, w'.state.payload);
      Called(w, w', x, x');
      var failed, failed' := k.Fail(k.Call(w, x), error), k'.Fail(k'.Call(w', x'), error);
      Called(failed, failed', OnEnter(from, failed.state.payload), OnEnter(from, failed'.state.payload));
    }

    lemma TerminateTogether(w: World<S, E, P>, w': World<S, E, P>)
      requires Valid() && Together(w, w')
      ensures Together(k.Terminate(w), k'.Terminate(w'))
    {
      hide Together, SamePayload, k.Turn;
      TurnTogether(w, w', Terminating);
      var turned, turned' := k.Turn(w, Terminating), k'.Turn(w', Terminating);
      var x, x' := OnTerminate(turned.state.payload), OnTerminate(turned'.state.payload);
      Called(turned, turned', x, x');
      TurnTogether(k.Call(turned, x), k'.Call(turned', x'), Terminated);
    }

    lemma AnnounceTogether(w: World<S, E, P>, w': World<S, E, P>, from: S, event: E, target: S)
      requires Valid() && Together(w, w')
      ensures Together(k.Announce(w, from, event, target), k'.Announce(w', from, event, target))
    {
      hide JournalTwins, Pushed;
      var x := Committed(target);
      var v, v' := k.Emit(w.(state := Moved(w.state, target)), x), k'.Emit(w'.(state := Moved(w'.state, target)), x);
      Emitted(w, w', x, x, v, v');
      if k.c.listening {
        var y := Notified(from, target, event);
        Emitted(v, v', y, y, k.Emit(v, y), k'.Emit(v', y));
      }
    }

    lemma ArriveTogether(w: World<S, E, P>, w': World<S, E, P>, from: S, event: E, target: S, kind: EventKind)
      requires Valid() && Together(w, w')
      ensures var (v, r), (v', r') := k.Arrive(w, from, event, target, kind), k'.Arrive(w', from, event, target, kind);
              Together(v, v') && r == r'
    {
      hide Together, SamePayload, k.Announce, k.Terminate;
      AnnounceTogether(w, w', from, event, target);
      var told, told' := k.Announce(w, from, event, target), k'.Announce(w', from, event, target);
      Called(told, told', OnEnter(target, told.state.payload), OnEnter(target, told'.state.payload));
      TerminateTogether(k.Enter(told, target), k'.Enter(told', target));
    }

    lemma StoreFailureTogether(w: World<S, E, P>, w': World<S, E, P>, from: S, target: S)
      requires Valid() && Together(w, w')
      ensures var x, x' := StoreFailed(target, w.state.payload), StoreFailed(target, w'.state.payload);
              Together(k.Enter(k.Fail(k.Emit(w, x), AtPersistency), from),
                       k'.Enter(k'.Fail(k'.Emit(w', x'), AtPersistency), from))
    {
      hide JournalTwins;
      var x, x' := StoreFailed(target, w.state.payload), StoreFailed(target, w'.state.payload);
      var failed, failed' := k.Fail(k.Emit(w, x), AtPersistency), k'.Fail(k'.Emit(w', x'), AtPersistency);
      Emitted(w, w', x, x', failed, failed');
      Called(failed, failed', OnEnter(from, failed.state.payload), OnEnter(from, failed'.state.payload));
    }

    lemma SaveTogether(w: World<S, E, P>, w': World<S, E, P>, target: S)
      requires Valid() && Together(w, w') && SamePayload(w, w') && w.journal <= goal
      ensures Together(k.Emit(w, Stored(target, w.state.payload)), k'.Emit(w', Stored(target, w'.state.payload)))
    {
      hide JournalTwins;
      var x, x' := Stored(target, w.state.payload), Stored(target, w'.state.payload);
      Emitted(w, w', x, x', k.Emit(w, x), k'.Emit(w', x'));
    }

    lemma SettleTogether(w: World<S, E, P>, w': World<S, E, P>, from: S, event: E, target: S,
        allowed: (seq<S>, EventKind))
      requires Valid() && Together(w, w') && SamePayload(w, w') && w.journal <= goal && start < |w'.journal|
      ensures var (v, r), (v', r') :=
                k.Settle(w, from, event, target, allowed), k'.Settle(w', from, event, target, allowed);
              Together(v, v') && (v.journal <= goal ==> r == r')
    {
      hide k.Arrive, k.Abort, k.Enter, JournalTwins;
      SettleGrows(k, w, from, event, target, allowed);
      SettleGrows(k', w', from, event, target, allowed);
      if w.journal == goal {
        Beyond(w, w', k.Settle(w, from, event, target, allowed).0, k'.Settle(w', from, event, target, allowed).0);
      } else if target !in allowed.0 {
        AbortTogether(w, w', from, event, NotAllowed);
      } else {
        Answers(w, w');
        hide Together, SamePayload;
        if k.c.persistent {
          StoreFailureTogether(w, w', from, target);
          SaveTogether(w, w', target);
          ArriveTogether(k.Emit(w, Stored(target, w.state.payload)), k'.Emit(w', Stored(target, w'.state.payload)),
              from, event, target, allowed.1);
        } else {
          ArriveTogether(w, w', from, event, target, allowed.1);
        }
      }
    }

    lemma SameCurrent(w: World<S, E, P>, w': World<S, E, P>)
      requires Together(w, w') && w.journal <= goal
      ensures w'.state.current == w.state.current
    {
    }

    lemma SetPayload(w: World<S, E, P>, w': World<S, E, P>, payload: P)
      requires Together(w, w')
      ensures var v, v' := k.WithPayload(w, payload), k'.WithPayload(w', payload);
              Together(v, v') && SamePayload(v, v')
    {
    }

    lemma TransitTogether(w: World<S, E, P>, w': World<S, E, P>, event: E, eventPayload: P, eventPayload': P)
      requires Valid() && Together(w, w') && w.journal <= goal
      ensures var (v, r), (v', r') := k.Transit(w, event, eventPayload), k'.Transit(w', event, eventPayload');
              Together(v, v') && (v.journal <= goal ==> r == r')
    {
      hide k.Settle, k.Abort, k.Ask, k.c.graph.Allowed, k.c.graph.Indexed, JournalTwins, Extends;
      SameCurrent(w, w');
      hide Together, Echoes;
      var allowed := k.c.graph.Allowed(w.state.current, event);
      if allowed.Some? {
        AskTogether(w, w', event, eventPayload, eventPayload');
        TransitGrows(k, w, event, eventPayload);
        TransitGrows(k', w', event, eventPayload');
        var asked, asked' := k.Ask(w, event, eventPayload), k'.Ask(w', event, eventPayload');
        var from := w.state.current;
        if !(asked.journal <= goal) {
          Further(asked, asked', k.Transit(w, event, eventPayload).0, k'.Transit(w', event, eventPayload').0);
        } else {
          Answers(asked, asked');
          match k.env.decide(asked.journal) {
            case Refuse(error) => AbortTogether(asked, asked', from, event, error);
            case Move(target) => SettleTogether(asked, asked', from, event, target, allowed.value);
            case MoveWithPayload(target, payload) =>
              SetPayload(asked, asked', payload);
              SettleTogether(k.WithPayload(asked, payload), k'.WithPayload(asked', payload), from, event, target,
                  allowed.value);
          }
        }
      }
    }

    lemma AttemptTogether(w: World<S, E, P>, w': World<S, E, P>, event: E, eventPayload: P, eventPayload': P)
      requires Valid() && Together(w, w') && w.journal <= goal
      ensures var (after, r), (after', r') := k.Transit(w, event, eventPayload), k'.Transit(w', event, eventPayload');
              Together(k.Cache(after), k'.Cache(after')) && (k.Cache(after).journal <= goal ==> r == r')
    {
      hide k.Transit, k.c.graph.Indexed, Together;
      TransitTogether(w, w', event, eventPayload, eventPayload');
      var after := k.Transit(w, event, eventPayload).0;
      CacheTogether(after, k'.Transit(w', event, eventPayload').0);
      assert after.journal <= k.Cache(after).journal;
    }

    lemma HaltTogether(w: World<S, E, P>, w': World<S, E, P>)
      requires Valid() && Together(w, w')
      ensures Together(k.Emit(w, Halted), k'.Emit(w', Halted))
    {
      hide JournalTwins;
      Emitted(w, w', Halted, Halted, k.Emit(w, Halted), k'.Emit(w', Halted));
    }

    lemma SameHardEvent(w: World<S, E, P>, w': World<S, E, P>)
      requires Valid() && Together(w, w') && w.journal <= goal
      ensures k.HardEvent(w.state.current) == k'.HardEvent(w'.state.current)
    {
      hide JournalTwins;
    }

    lemma {:induction false} DoTransitionTogether(w: World<S, E, P>, w': World<S, E, P>, event: E, eventPayload: P,
        eventPayload': P, fuel: nat)
      requires Valid() && Together(w, w') && w.journal <= goal
      ensures var (v, r), (v', r') :=
                k.DoTransition(w, event, eventPayload, fuel), k'.DoTransition(w', event, eventPayload', fuel);
              Together(v, v') && (v.journal <= goal ==> r == r')
      decreases fuel
    {
      hide k.Transit, k.HardEvent, k.c.graph.Indexed, Together, Extends;
      if fuel > 0 {
        var (after, r) := k.Transit(w, event, eventPayload);
        var after' := k'.Transit(w', event, eventPayload').0;
        var cached, cached' := k.Cache(after), k'.Cache(after');
        AttemptTogether(w, w', event, eventPayload, eventPayload');
        if !(cached.journal <= goal) {
          DoTransitionGrows(k, w, event, eventPayload, fuel);
          DoTransitionGrows(k', w', event, eventPayload', fuel);
          Further(cached, cached', k.DoTransition(w, event, eventPayload, fuel).0,
              k'.DoTransition(w', event, eventPayload', fuel).0);
        } else {
          HaltTogether(cached, cached');
          SameHardEvent(cached, cached');
          var next := k.HardEvent(cached.state.current);
          if r == Ok(HardContinue) && next.Some? {
            DoTransitionTogether(cached, cached', next.value, cached.state.payload, cached'.state.payload, fuel - 1);
          }
        }
      }
    }

    lemma StartedTogether(w: World<S, E, P>, w': World<S, E, P>, fuel: nat)
      requires Valid() && Together(w, w')
      ensures var (v, r), (v', r') := k.Started(w, fuel), k'.Started(w', fuel);
              Together(v, v') && (v.journal <= goal ==> r == r')
    {
      hide k.DoTransition, k.HardEvent, k.c.graph.Indexed, JournalTwins;
      var timed := if k.c.timer then k.Emit(w, Scheduled) else w;
      var timed' := if k.c.timer then k'.Emit(w', Scheduled) else w';
      if k.c.timer {
        Emitted(w, w', Scheduled, Scheduled, timed, timed');
      }
      if !(timed.journal <= goal) {
        StartedGrows(k, w, fuel);
        StartedGrows(k', w', fuel);
        Further(timed, timed', k.Started(w, fuel).0, k'.Started(w', fuel).0);
      } else {
        SameHardEvent(timed, timed');
        var hard := k.HardEvent(timed.state.current);
        if hard.Some? {
          DoTransitionTogether(timed, timed', hard.value, timed.state.payload, timed'.state.payload, fuel);
        }
      }
    }

    lemma AwakenTogether(w: World<S, E, P>, w': World<S, E, P>, s: S, payload: P, life: Lifecycle)
      requires Valid() && Together(w, w')
      ensures Together(k.Awaken(w, s, payload, life), k'.Awaken(w', s, payload, life))
    {
      hide k.Turn, k.Cache, JournalTwins;
      var x := Born(s, payload, true, life);
      var state := FreshSnapshot(s, payload).(lifecycle := life);
      var born, born' := k.Emit(w.(state := state), x), k'.Emit(w'.(state := state), x);
      Emitted(w, w', x, x, born, born');
      Called(born, born', OnStart(payload), OnStart(payload));
      var started, started' := k.Call(born, OnStart(payload)), k'.Call(born', OnStart(payload));
      hide Together, SamePayload;
      Called(started, started', OnEnter(s, started.state.payload), OnEnter(s, started'.state.payload));
      TurnTogether(k.Enter(started, s), k'.Enter(started', s), Running);
      CacheTogether(k.Turn(k.Enter(started, s), Running), k'.Turn(k'.Enter(started', s), Running));
    }

    lemma IncarnateTogether(w: World<S, E, P>, w': World<S, E, P>, payload: P)
      requires Valid() && Together(w, w')
      ensures Together(k.Incarnate(w, payload), k'.Incarnate(w', payload))
    {
      hide k.Awaken, k.c.Watch, Essence;
      if w.journal <= goal {
        var m := k.c.Watch(w.journal);
        EssenceDecides(k.c, w.journal);
        EssenceDecides(k.c, w'.journal);
        if k.c.persistent && m.stored.Some? {
          AwakenTogether(w, w', m.stored.value.0, m.stored.value.1, k.c.BirthLife(m));
        } else if k.c.supervised {
          var x := Born(k.c.graph.initial, k.c.payload, false, Created);
          Emitted(w, w', x, x, k.Dormant(w), k'.Dormant(w'));
        } else {
          AwakenTogether(w, w', k.c.graph.initial, payload, Created);
        }
      } else {
        IncarnateGrows(k, w, payload);
        IncarnateGrows(k', w', payload);
        Further(w, w', k.Incarnate(w, payload), k'.Incarnate(w', payload));
      }
    }

    /** As `Beyond`, where the goal has been passed already. */
    lemma Further(w: World<S, E, P>, w': World<S, E, P>, v: World<S, E, P>, v': World<S, E, P>)
      requires Valid() && Together(w, w') && Extends(w, v) && Extends(w', v') && !(w.journal <= goal)
      ensures Together(v, v') && !(v.journal <= goal)
    {
      Beyond(w, w', v, v');
    }

    lemma SeedTogether(w: World<S, E, P>, w': World<S, E, P>)
      requires Valid() && Together(w, w') && w.journal <= goal
      requires k'.env.storeSucceeds(w'.journal) == k.env.storeSucceeds(w.journal)
      ensures Together(k.Seed(w), k'.Seed(w'))
    {
      hide k.c.Watch, Essence;
      EssenceDecides(k.c, w.journal);
      EssenceDecides(k.c, w'.journal);
      var x := Seeded(k.c.graph.initial, k.c.payload);
      Emitted(w, w', x, x, k.Emit(w, x), k'.Emit(w', x));
    }

    lemma TickTogether(w: World<S, E, P>, w': World<S, E, P>, fuel: nat)
      requires Valid() && Together(w, w')
      ensures var (v, r), (v', r') := k.HandleTimerTick(w, fuel), k'.HandleTimerTick(w', fuel);
              Together(v, v') && (v.journal <= goal ==> r == r')
    {
      hide k.DoTransition, k.c.graph.Indexed, JournalTwins;
      var x, x' := OnTimer(w.state.current, w.state.payload), OnTimer(w'.state.current, w'.state.payload);
      Called(w, w', x, x');
      var polled, polled' := k.Call(w, x), k'.Call(w', x');
      if !(polled.journal <= goal) {
        TickGrows(k, w, fuel);
        TickGrows(k', w', fuel);
        Further(polled, polled', k.HandleTimerTick(w, fuel).0, k'.HandleTimerTick(w', fuel).0);
      } else {
        Answers(polled, polled');
        var answer := k.env.poll(polled.journal);
        if answer.Some? {
          DoTransitionTogether(polled, polled', answer.value.0, answer.value.1, answer.value.1, fuel);
        }
      }
    }

    lemma ShutdownTogether(w: World<S, E, P>, w': World<S, E, P>)
      requires Valid() && Together(w, w')
      ensures Together(k.Emit(k.Cache(k.Terminate(w)), Halted), k'.Emit(k'.Cache(k'.Terminate(w')), Halted))
    {
      hide Together, k.Terminate;
      TerminateTogether(w, w');
      CacheTogether(k.Terminate(w), k'.Terminate(w'));
      HaltTogether(k.Cache(k.Terminate(w)), k'.Cache(k'.Terminate(w')));
    }

    lemma TimerTickTogether(w: World<S, E, P>, w': World<S, E, P>, fuel: nat)
      requires Valid() && Together(w, w')
      ensures var (v, r), (v', r') := k.HandleMessage(w, TimerTickMsg, fuel), k'.HandleMessage(w', TimerTickMsg, fuel);
              Together(v, v') && (v.journal <= goal ==> r == r')
    {
      hide k.HandleTimerTick, k.c.graph.Indexed, JournalTwins;
      var ticked, ticked' := k.Emit(w, Ticked), k'.Emit(w', Ticked);
      Emitted(w, w', Ticked, Ticked, ticked, ticked');
      TickTogether(ticked, ticked', fuel);
      var after, after' := k.HandleTimerTick(ticked, fuel).0, k'.HandleTimerTick(ticked', fuel).0;
      if !(after.journal <= goal) {
        Further(after, after', k.HandleMessage(w, TimerTickMsg, fuel).0, k'.HandleMessage(w', TimerTickMsg, fuel).0);
      } else {
        Emitted(after, after', Scheduled, Scheduled, k.Emit(after, Scheduled), k'.Emit(after', Scheduled));
      }
    }

    lemma StoppedTogether(w: World<S, E, P>, w': World<S, E, P>)
      requires Valid() && Together(w, w') && w.journal <= goal
      ensures Together(k.Stopped(w), k'.Stopped(w'))
    {
      hide k.Turn, JournalTwins;
      TurnTogether(w, w', Terminated);
      var turned, turned' := k.Turn(w, Terminated), k'.Turn(w', Terminated);
      var x, x' := OnTerminate(turned.state.payload), OnTerminate(turned'.state.payload);
      Called(turned, turned', x, x');
      CacheTogether(k.Call(turned, x), k'.Call(turned', x'));
    }

    lemma SetUp(w: World<S, E, P>, w': World<S, E, P>, up: bool)
      requires Together(w, w')
      ensures Together(w.(up := up), w'.(up := up))
    {
    }

    lemma BeginningTogether(w: World<S, E, P>, w': World<S, E, P>, payload: P, fuel: nat)
      requires Valid() && Together(w, w')
      ensures var (v, r), (v', r') := k.Started(k.Incarnate(w, payload).(up := true), fuel),
                                      k'.Started(k'.Incarnate(w', payload).(up := true), fuel);
              Together(v, v') && (v.journal <= goal ==> r == r')
    {
      hide k.Started, k.Incarnate, Together;
      IncarnateTogether(w, w', payload);
      var born, born' := k.Incarnate(w, payload), k'.Incarnate(w', payload);
      SetUp(born, born', true);
      StartedTogether(born.(up := true), born'.(up := true), fuel);
    }

    /** Both machines perform the action alike, as far as the goal. */
    lemma PerformTogether(w: World<S, E, P>, w': World<S, E, P>, action: Action<E, P>, fuel: nat)
      requires Valid() && Together(w, w') && w.journal <= goal
      requires action.Launch? ==> k'.env.storeSucceeds(w'.journal) == k.env.storeSucceeds(w.journal)
      ensures var (v, r), (v', r') := k.Perform(w, action, fuel), k'.Perform(w', action, fuel);
              Together(v, v') && (v.journal <= goal ==> r == r')
    {
      hide k.Started, k.Incarnate, k.Seed, k.DoTransition, k.HandleTimerTick, k.Terminate, k.Stopped, Together,
        k.c.graph.Indexed;
      match action {
        case Launch(payload) =>
          SeedTogether(w, w');
          BeginningTogether(if k.c.supervised then k.Seed(w) else w, if k.c.supervised then k'.Seed(w') else w',
              payload, fuel);
        case Restart => BeginningTogether(w, w', k.c.payload, fuel);
        case Deliver(TransitionMsg(event, payload)) => DoTransitionTogether(w, w', event, payload, payload, fuel);
        case Deliver(ShutdownMsg) => ShutdownTogether(w, w');
        case Deliver(TimerTickMsg) => TimerTickTogether(w, w', fuel);
        case Stop =>
          StoppedTogether(w, w');
          SetUp(k.Stopped(w), k'.Stopped(w'), false);
      }
    }
  }

  // ---- What is erased -----------------------------------------------------------------------

  /** The step changes nothing, or delivers an event that is refused. */
  ghost predicate IsIdle<S(!new), E(!new), P(!new)>(k: Machine<S, E, P>, w: World<S, E, P>, step: Step<E, P>)
    requires k.c.Valid()
  {
    || k.Next(w, step) == w
    || match step
       case Act(Deliver(TransitionMsg(event, payload)), _) =>
         k.Enabled(w, step.action) && IsRefused(k, w, event, payload)
       case _ => false
  }

  /** The instance once it has received a tick and called on_timer. */
  function Polled<S(==, !new), E(==, !new), P>(k: Machine<S, E, P>, w: World<S, E, P>): World<S, E, P> {
    k.Call(k.Emit(w, Ticked), OnTimer(w.state.current, w.state.payload))
  }

  /** The step is a tick on which on_timer asks for an event that is refused. */
  ghost predicate IsMuted<S(!new), E(!new), P>(k: Machine<S, E, P>, w: World<S, E, P>, step: Step<E, P>)
    requires k.c.Valid()
  {
    match step
    case Act(Deliver(TimerTickMsg), fuel) =>
      var answer := k.env.poll(Polled(k, w).journal);
      && k.Enabled(w, step.action) && fuel > 0 && answer.Some?
      && IsRefused(k, Polled(k, w), answer.value.0, answer.value.1)
    case _ => false
  }

  /**
   The steps that remain; for each length of the remaining journal the first and the last length the
   whole journal had meanwhile; and the lengths at which on_timer is to ask for nothing.
   */
  datatype Remains<E, P> = Remains(steps: seq<Step<E, P>>, first: seq<nat>, last: seq<nat>, muted: set<nat>)
  {
    /** It is the remainder of a run whose journal has `n` effects. */
    ghost predicate Fits(n: nat) {
      && |first| == |last| > 0 && last[|last| - 1] == n
      && forall i :: i in muted ==> i < |first|
    }

    /** After an idle step. */
    ghost function Without(after: nat): (r: Remains<E, P>)
      requires |first| == |last| > 0 && forall i :: i in muted ==> i < |first|
      ensures r.Fits(after)
    {
      this.(last := last[..|last| - 1] + [after])
    }

    /** After a step that remains as it is, on a shorter journal. */
    ghost function With(step: Step<E, P>, long: nat, after: nat): (r: Remains<E, P>)
      requires Fits(long) && long <= after
      ensures r.Fits(after)
    {
      Remains(steps + [Earlier(step, long, |first| - 1)], first + UpTo(long, after), last + UpTo(long, after), muted)
    }

    /** After a tick: what on_timer asked for has been refused when the journal had `attempted` effects. */
    ghost function WithMuted(step: Step<E, P>, long: nat, attempted: nat, after: nat): (r: Remains<E, P>)
      requires Fits(long) && attempted <= after
      ensures r.Fits(after)
    {
      var rest := if after > attempted then [after] else [];
      Remains(steps + [step], first + [long + 1, long + 2] + rest, last + [long + 1, attempted] + rest,
              muted + {|first| + 1})
    }
  }

  /** The same step on a journal that is shorter. */
  function Earlier<E, P>(step: Step<E, P>, long: nat, short: nat): Step<E, P> {
    match step
    case Act(_, _) => step
    case Crash(action, fuel, cut) => Crash(action, fuel, if cut + short >= long then cut + short - long else 0)
  }

  function UpTo(n: nat, m: nat): (r: seq<nat>)
    requires n <= m
    ensures |r| == m - n && forall i :: 0 <= i < |r| ==> r[i] == n + 1 + i
  {
    seq(m - n, i => n + 1 + i)
  }

  /** The run without the events that are refused, be they delivered or asked for by on_timer. */
  ghost function Remaining<S(!new), E(!new), P(!new)>(k: Machine<S, E, P>, steps: seq<Step<E, P>>): (r: Remains<E, P>)
    requires k.c.Valid()
    ensures r.Fits(|k.Run(steps).journal|)
  {
    if steps == [] then Remains([], [0], [0], {})
    else
      var w, step := k.Run(steps[..|steps| - 1]), steps[|steps| - 1];
      EveryRunIsSafe(k, steps[..|steps| - 1]);
      NextGrows(k, w, step);
      Extended(k, Remaining(k, steps[..|steps| - 1]), w, step)
  }

  ghost function Extended<S(!new), E(!new), P(!new)>(k: Machine<S, E, P>, before: Remains<E, P>, w: World<S, E, P>,
      step: Step<E, P>): (r: Remains<E, P>)
    requires k.c.Valid() && w.journal <= k.Next(w, step).journal && before.Fits(|w.journal|)
    ensures r.Fits(|k.Next(w, step).journal|)
  {
    var long, after := |w.journal|, |k.Next(w, step).journal|;
    if IsIdle(k, w, step) then before.Without(after)
    else if IsMuted(k, w, step) then
      var attempted := |k.HandleTimerTick(k.Emit(w, Ticked), step.fuel).0.journal|;
      before.WithMuted(step, long, if attempted <= after then attempted else after, after)
    else before.With(step, long, after)
  }

  lemma NextGrows<S(!new), E(!new), P>(k: Machine<S, E, P>, w: World<S, E, P>, step: Step<E, P>)
    requires k.c.Valid() && Safe(k, w)
    ensures w.journal <= k.Next(w, step).journal
  {
    hide k.Perform, k.c.Accepts, k.c.Watch;
    if k.Enabled(w, step.action) {
      PerformFollows(k, w, step.action, step.fuel);
    }
  }

  lemma {:induction false} RunGrows<S(!new), E(!new), P>(k: Machine<S, E, P>, steps: seq<Step<E, P>>, n: nat)
    requires k.c.Valid() && n <= |steps|
    ensures k.Run(steps[..n]).journal <= k.Run(steps).journal
  {
    hide k.Next;
    if n == |steps| {
      assert steps[..n] == steps;
    } else {
      var init := steps[..|steps| - 1];
      assert init[..n] == steps[..n];
      RunGrows(k, init, n);
      EveryRunIsSafe(k, init);
      NextGrows(k, k.Run(init), steps[|steps| - 1]);
    }
  }

  // ---- What remains is a run ----------------------------------------------------------------

  /** Two worlds of runs side by side, the second one's journal being of the given length. */
  ghost predicate Matched<S(!new), E(!new), P(!new)>(c: Config<S, E, P>, w: World<S, E, P>, w': World<S, E, P>,
      short: int)
  {
    && |w'.journal| == short <= |w.journal| && w'.up == w.up
    && StateTwins(w.state, w'.state) && JournalTwins(c, w.journal, w'.journal)
  }

  lemma MatchedIsTogether<S(!new), E(!new), P(!new)>(t: Tandem<S, E, P>, w: World<S, E, P>, w': World<S, E, P>)
    requires Matched(t.k.c, w, w', t.start) && t.lag == |w.journal| - t.start && w.journal <= t.goal
    ensures t.Together(w, w')
  {
    hide JournalTwins;
  }

  lemma MatchedIsEnabled<S(!new), E(!new), P(!new)>(k: Machine<S, E, P>, k': Machine<S, E, P>, w: World<S, E, P>,
      w': World<S, E, P>, action: Action<E, P>)
    requires k'.c == k.c && Matched(k.c, w, w', |w'.journal|)
    ensures k.Enabled(w, action) == k'.Enabled(w', action)
  {
    hide k.c.Watch, Essence;
  }

  /** A refused attempt leaves a match of what was there before. */
  lemma RefusedMatches<S(!new), E(!new), P(!new)>(k: Machine<S, E, P>, w: World<S, E, P>, event: E, eventPayload: P)
    requires k.c.Valid() && Linked(k, w, k.c.Watch(w.journal)) && k.c.Watch(w.journal).phase.Ready?
    requires IsRefused(k, w, event, eventPayload)
    ensures Matched(k.c, k.Cache(k.Transit(w, event, eventPayload).0), w, |w.journal|)
  {
    hide k.c.Accepts, k.c.Watch, k.Transit, Essence, PushAll, Pushed, k.c.graph.Indexed, k.c.graph.Allowed;
    var m := k.c.Watch(w.journal);
    var after := k.Transit(w, event, eventPayload).0;
    LinkedIsSane(k, w, m);
    TransitFollows(k, w, m, event, eventPayload);
    CachedAfterTransit(k, w, m, event, eventPayload);
    FailureAddsNothing(k, w, event, eventPayload);
    EssenceSnoc(after.journal, Cached(after.state));
  }

  lemma MatchedTrans<S(!new), E(!new), P(!new)>(c: Config<S, E, P>, v: World<S, E, P>, w: World<S, E, P>,
      w': World<S, E, P>)
    requires Matched(c, v, w, |w.journal|) && Matched(c, w, w', |w'.journal|)
    ensures Matched(c, v, w', |w'.journal|)
  {
    hide c.Watch, Essence;
  }

  lemma IdleMatches<S(!new), E(!new), P(!new)>(k: Machine<S, E, P>, w: World<S, E, P>, step: Step<E, P>)
    requires k.c.Valid() && Safe(k, w) && IsIdle(k, w, step)
    ensures Matched(k.c, k.Next(w, step), w, |w.journal|)
  {
    hide k.c.Accepts, k.c.Watch, k.Transit, Essence, PushAll, Pushed, k.c.graph.Indexed;
    if k.Next(w, step) != w {
      var (event, payload) := (step.action.message.event, step.action.message.payload);
      RefusedMatches(k, w, event, payload);
    }
  }

  /** A step that remains is taken alike, on the shorter journal. */
  lemma ActMatches<S(!new), E(!new), P(!new)>(t: Tandem<S, E, P>, w: World<S, E, P>, w': World<S, E, P>,
      action: Action<E, P>, fuel: nat)
    requires t.Valid() && Matched(t.k.c, w, w', t.start) && t.lag == |w.journal| - t.start && w.journal <= t.goal
    requires t.k.Enabled(w, action) && t.k.Perform(w, action, fuel).1 != OutOfFuel
    requires t.goal == t.k.Perform(w, action, fuel).0.journal
    requires action.Launch? ==> t.k'.env.storeSucceeds(w'.journal) == t.k.env.storeSucceeds(w.journal)
    ensures Matched(t.k.c, t.k.Next(w, Act(action, fuel)), t.k'.Next(w', Act(action, fuel)), |t.goal| - t.lag)
  {
    hide t.k.Perform, t.k.Enabled, JournalTwins;
    MatchedIsTogether(t, w, w');
    t.PerformTogether(w, w', action, fuel);
    MatchedIsEnabled(t.k, t.k', w, w', action);
  }

  lemma CrashMatches<S(!new), E(!new), P(!new)>(t: Tandem<S, E, P>, w: World<S, E, P>, w': World<S, E, P>,
      action: Action<E, P>, fuel: nat, cut: nat)
    requires t.Valid() && Matched(t.k.c, w, w', t.start) && t.lag == |w.journal| - t.start && w.journal <= t.goal
    requires t.k.Enabled(w, action) && |w.journal| <= cut <= |t.k.Perform(w, action, fuel).0.journal|
    requires t.goal == t.k.Perform(w, action, fuel).0.journal[..cut]
    requires action.Launch? ==> t.k'.env.storeSucceeds(w'.journal) == t.k.env.storeSucceeds(w.journal)
    ensures Matched(t.k.c, t.k.Next(w, Crash(action, fuel, cut)), t.k'.Next(w', Crash(action, fuel, cut - t.lag)),
                    |t.goal| - t.lag)
  {
    hide t.k.Perform, t.k.Enabled, JournalTwins, t.Together, t.Echoes;
    MatchedIsTogether(t, w, w');
    t.PerformTogether(w, w', action, fuel);
    MatchedIsEnabled(t.k, t.k', w, w', action);
    CutTogether(t, t.k.Perform(w, action, fuel).0, t.k'.Perform(w', action, fuel).0);
  }

  lemma CutTogether<S(!new), E(!new), P(!new)>(t: Tandem<S, E, P>, after: World<S, E, P>, after': World<S, E, P>)
    requires t.Valid() && t.Together(after, after') && t.goal <= after.journal
    ensures |t.goal| - t.lag <= |after'.journal|
    ensures JournalTwins(t.k.c, t.goal, after'.journal[..|t.goal| - t.lag])
  {
    hide JournalTwins;
    if after.journal <= t.goal {
      assert after.journal == t.goal;
      assert after'.journal[..|t.goal| - t.lag] == after'.journal;
    }
  }

  lemma MutedMatches<S(!new), E(!new), P(!new)>(k: Machine<S, E, P>, k': Machine<S, E, P>, w: World<S, E, P>,
      w': World<S, E, P>, step: Step<E, P>)
    requires k.c.Valid() && k'.c == k.c && Safe(k, w) && Matched(k.c, w, w', |w'.journal|) && IsMuted(k, w, step)
    requires k'.env.poll(Polled(k', w').journal).None?
    ensures var v, v' := k.Next(w, step), k'.Next(w', step);
            var attempted := |k.HandleTimerTick(k.Emit(w, Ticked), step.fuel).0.journal|;
            && attempted <= |v.journal|
            && Matched(k.c, v, v', |w'.journal| + 2 + if |v.journal| > attempted then 1 else 0)
  {
    hide k.c.Accepts, k.c.Watch, k.Transit, Essence, PushAll, Pushed, k.c.graph.Indexed, SameCounts;
    MatchedIsEnabled(k, k', w, w', step.action);
    var polled, polled' := Polled(k, w), Polled(k', w');
    PolledMatches(k, k', w, w');
    TickFollows(k, w, k.c.Watch(w.journal));
    var (event, payload) := k.env.poll(polled.journal).value;
    RefusedMatches(k, polled, event, payload);
    var attempted := k.Cache(k.Transit(polled, event, payload).0);
    MatchedTrans(k.c, attempted, polled, polled');
    TwinsSnoc(k.c, attempted.journal, polled'.journal, Scheduled, Scheduled);
  }

  lemma PolledMatches<S(!new), E(!new), P(!new)>(k: Machine<S, E, P>, k': Machine<S, E, P>, w: World<S, E, P>,
      w': World<S, E, P>)
    requires k'.c == k.c && Matched(k.c, w, w', |w'.journal|)
    ensures Matched(k.c, Polled(k, w), Polled(k', w'), |w'.journal| + 2)
  {
    hide k.c.Watch, Essence, SameCounts;
    var x, x' := OnTimer(w.state.current, w.state.payload), OnTimer(w'.state.current, w'.state.payload);
    TwinsSnoc(k.c, w.journal, w'.journal, Ticked, Ticked);
    TwinsSnoc(k.c, w.journal + [Ticked], w'.journal + [Ticked], x, x');
  }

  function At(positions: seq<nat>, n: nat, limit: nat): (i: nat)
    ensures i <= limit
  {
    if n < |positions| && positions[n] <= limit then positions[n] else limit
  }

  /** The same callbacks, answering at each point of the remaining run as they do in the whole one. */
  ghost function Mirror<S(!new), E(!new), P(!new)>(k: Machine<S, E, P>, steps: seq<Step<E, P>>): Machine<S, E, P>
    requires k.c.Valid()
  {
    var whole, r := k.Run(steps).journal, Remaining(k, steps);
    Machine(k.c, Environment(
      j => k.env.edit(whole[..At(r.first, |j|, |whole|)]),
      j => k.env.decide(whole[..At(r.first, |j|, |whole|)]),
      j => if |j| in r.muted then None else k.env.poll(whole[..At(r.first, |j|, |whole|)]),
      j => k.env.storeSucceeds(whole[..At(r.last, |j|, |whole|)])))
  }

  /** What is known of a shorter run's remainder stays true, but for what may still follow its end. */
  ghost predicate Continues<E, P>(r: Remains<E, P>, longer: Remains<E, P>) {
    && |r.first| == |r.last| > 0 && |longer.first| == |longer.last|
    && r.first <= longer.first && r.last[..|r.last| - 1] <= longer.last
    && forall i :: i < |r.first| ==> (i in r.muted <==> i in longer.muted)
  }

  lemma ContinuesTrans<E, P>(a: Remains<E, P>, b: Remains<E, P>, c: Remains<E, P>)
    requires Continues(a, b) && Continues(b, c)
    ensures Continues(a, c)
  {
    assert a.last[..|a.last| - 1] <= b.last[..|b.last| - 1];
  }

  lemma {:induction false} RemainingContinues<S(!new), E(!new), P(!new)>(k: Machine<S, E, P>, steps: seq<Step<E, P>>,
      n: nat)
    requires k.c.Valid() && n <= |steps|
    ensures Continues(Remaining(k, steps[..n]), Remaining(k, steps))
  {
    hide k.Run, k.Next, Remaining, k.c.graph.Indexed;
    if n == |steps| {
      assert steps[..n] == steps;
      RemainingFits(k, steps);
    } else {
      var init, step := steps[..|steps| - 1], steps[|steps| - 1];
      assert init[..n] == steps[..n] && steps == init + [step];
      RemainingContinues(k, init, n);
      RemainingSnoc(k, init, step);
      hide Continues;
      ContinuesTrans(Remaining(k, steps[..n]), Remaining(k, init), Remaining(k, steps));
    }
  }

  lemma RemainingFits<S(!new), E(!new), P(!new)>(k: Machine<S, E, P>, steps: seq<Step<E, P>>)
    requires k.c.Valid()
    ensures Remaining(k, steps).Fits(|k.Run(steps).journal|)
  {
  }

  lemma ExtendedContinues<S(!new), E(!new), P(!new)>(k: Machine<S, E, P>, before: Remains<E, P>, w: World<S, E, P>,
      step: Step<E, P>)
    requires k.c.Valid() && w.journal <= k.Next(w, step).journal && before.Fits(|w.journal|)
    ensures Continues(before, Extended(k, before, w, step))
  {
    hide k.Next, IsIdle, IsMuted;
  }

  lemma RemainingSnoc<S(!new), E(!new), P(!new)>(k: Machine<S, E, P>, steps: seq<Step<E, P>>, step: Step<E, P>)
    requires k.c.Valid()
    ensures k.Run(steps + [step]) == k.Next(k.Run(steps), step)
    ensures k.Run(steps).journal <= k.Run(steps + [step]).journal
    ensures Remaining(k, steps + [step]) == Extended(k, Remaining(k, steps), k.Run(steps), step)
    ensures Continues(Remaining(k, steps), Remaining(k, steps + [step]))
  {
    hide k.Next, Extended, Continues, k.c.Accepts, AtRest, k.c.graph.Indexed;
    assert (steps + [step])[..|steps|] == steps;
    EveryRunIsSafe(k, steps);
    NextGrows(k, k.Run(steps), step);
    ExtendedContinues(k, Remaining(k, steps), k.Run(steps), step);
  }

  /** How the positions of a step that remains are found again in the remainder of the whole run. */
  lemma PositionsOfStep<E, P>(before: Remains<E, P>, step: Step<E, P>, long: nat, after: nat, r: Remains<E, P>,
      limit: nat, i: nat)
    requires before.Fits(long) && long <= after <= limit && Continues(before.With(step, long, after), r)
    requires |before.first| <= i && i + long + 1 <= after + |before.first|
    ensures At(r.first, i, limit) == i + long + 1 - |before.first| && i !in r.muted
    ensures i + long + 1 < after + |before.first| ==> At(r.last, i, limit) == i + long + 1 - |before.first|
  {
    var now := before.With(step, long, after);
    assert now.first[i] == i + long + 1 - |before.first| && r.first[i] == now.first[i];
    if i + long + 1 < after + |before.first| {
      assert now.last[i] == i + long + 1 - |before.first| && r.last[i] == now.last[..|now.last| - 1][i];
    }
  }

  /** The remainder at the start of a step that remains, and leaves something in the journal. */
  lemma PositionOfStart<E, P>(before: Remains<E, P>, step: Step<E, P>, long: nat, after: nat, r: Remains<E, P>,
      limit: nat)
    requires before.Fits(long) && long < after <= limit && Continues(before.With(step, long, after), r)
    ensures At(r.last, |before.first| - 1, limit) == long
  {
    var now := before.With(step, long, after);
    var i := |before.first| - 1;
    assert now.last[i] == long && r.last[i] == now.last[..|now.last| - 1][i];
  }

  lemma RemainingWith<S(!new), E(!new), P(!new)>(k: Machine<S, E, P>, steps: seq<Step<E, P>>, n: nat)
    requires k.c.Valid() && n < |steps|
    requires var w := k.Run(steps[..n]);
             !IsIdle(k, w, steps[n]) && !IsMuted(k, w, steps[n])
    ensures var w, goal := k.Run(steps[..n]), k.Next(k.Run(steps[..n]), steps[n]).journal;
            && w.journal <= goal <= k.Run(steps).journal
            && Continues(Remaining(k, steps[..n]).With(steps[n], |w.journal|, |goal|), Remaining(k, steps))
  {
    hide k.Next, IsIdle, IsMuted, Continues;
    assert steps[..n + 1] == steps[..n] + [steps[n]];
    RemainingSnoc(k, steps[..n], steps[n]);
    RunGrows(k, steps, n + 1);
    RemainingContinues(k, steps, n + 1);
  }

  lemma MirrorAnswersAt<S(!new), E(!new), P(!new)>(k: Machine<S, E, P>, steps: seq<Step<E, P>>, goal: Journal<S, E, P>,
      j': Journal<S, E, P>, i: nat)
    requires k.c.Valid() && i <= |goal| && goal <= k.Run(steps).journal
    requires At(Remaining(k, steps).first, |j'|, |k.Run(steps).journal|) == i && |j'| !in Remaining(k, steps).muted
    ensures Mirror(k, steps).env.edit(j') == k.env.edit(goal[..i])
    ensures Mirror(k, steps).env.decide(j') == k.env.decide(goal[..i])
    ensures Mirror(k, steps).env.poll(j') == k.env.poll(goal[..i])
  {
    hide k.Run, Remaining, At;
    assert k.Run(steps).journal[..i] == goal[..i];
  }

  lemma MirrorStoresAt<S(!new), E(!new), P(!new)>(k: Machine<S, E, P>, steps: seq<Step<E, P>>, goal: Journal<S, E, P>,
      j': Journal<S, E, P>, i: nat)
    requires k.c.Valid() && i <= |goal| && goal <= k.Run(steps).journal
    requires At(Remaining(k, steps).last, |j'|, |k.Run(steps).journal|) == i
    ensures Mirror(k, steps).env.storeSucceeds(j') == k.env.storeSucceeds(goal[..i])
  {
    hide k.Run, Remaining, At;
    assert k.Run(steps).journal[..i] == goal[..i];
  }

  /** During a step that remains, the mirror answers as the original does. */
  lemma MirrorEchoes<S(!new), E(!new), P(!new)>(k: Machine<S, E, P>, steps: seq<Step<E, P>>, before: Remains<E, P>,
      step: Step<E, P>, long: nat, t: Tandem<S, E, P>, j': Journal<S, E, P>)
    requires k.c.Valid() && t.k == k && t.k' == Mirror(k, steps) && t.goal <= k.Run(steps).journal
    requires before.Fits(long) && |before.first| <= long + 1 <= |t.goal| + 1
    requires Continues(before.With(step, long, |t.goal|), Remaining(k, steps))
    requires t.lag == long + 1 - |before.first| && |before.first| <= |j'| && |j'| + t.lag <= |t.goal|
    ensures t.Echoes(j')
  {
    hide k.Run, Remaining, Continues, At, Mirror, Remains.With;
    var i := |j'| + t.lag;
    PositionsOfStep(before, step, long, |t.goal|, Remaining(k, steps), |k.Run(steps).journal|, |j'|);
    MirrorAnswersAt(k, steps, t.goal, j', i);
    if i < |t.goal| {
      MirrorStoresAt(k, steps, t.goal, j', i);
    }
  }

  /** So it does when a launch asks for the store, which may be long after the last effect. */
  lemma MirrorSeeds<S(!new), E(!new), P(!new)>(k: Machine<S, E, P>, steps: seq<Step<E, P>>, goal: Journal<S, E, P>,
      before: Remains<E, P>, step: Step<E, P>, j: Journal<S, E, P>, j': Journal<S, E, P>)
    requires k.c.Valid() && j < goal <= k.Run(steps).journal
    requires before.Fits(|j|) && |j'| == |before.first| - 1
    requires Continues(before.With(step, |j|, |goal|), Remaining(k, steps))
    ensures Mirror(k, steps).env.storeSucceeds(j') == k.env.storeSucceeds(j)
  {
    hide k.Run, Remaining, Continues, At, Mirror, Remains.With;
    PositionOfStart(before, step, |j|, |goal|, Remaining(k, steps), |k.Run(steps).journal|);
    MirrorStoresAt(k, steps, goal, j', |j|);
    assert goal[..|j|] == j;
  }

  lemma MirrorConfig<S(!new), E(!new), P(!new)>(k: Machine<S, E, P>, steps: seq<Step<E, P>>)
    requires k.c.Valid()
    ensures Mirror(k, steps).c == k.c
  {
  }

  /** A launch that remains leaves something in the journal. */
  lemma LaunchLengthens<S(!new), E(!new), P(!new)>(k: Machine<S, E, P>, w: World<S, E, P>, step: Step<E, P>)
    requires k.c.Valid() && !IsIdle(k, w, step) && step.action.Launch?
    requires w.journal <= k.Next(w, step).journal
    ensures w.journal < k.Next(w, step).journal
  {
    hide k.Started, k.Incarnate, k.c.Watch;
    if k.Enabled(w, step.action) {
      var seeded := if k.c.supervised then k.Seed(w) else w;
      IncarnateGrows(k, seeded, step.action.payload);
      StartedGrows(k, k.Incarnate(seeded, step.action.payload).(up := true), step.fuel);
    }
  }

  lemma KeptStepMatches<S(!new), E(!new), P(!new)>(t: Tandem<S, E, P>, w: World<S, E, P>, w': World<S, E, P>,
      step: Step<E, P>)
    requires t.Valid() && Matched(t.k.c, w, w', t.start) && t.lag == |w.journal| - t.start
    requires !IsIdle(t.k, w, step) && w.journal <= t.goal == t.k.Next(w, step).journal
    requires step.action.Launch? ==> t.k'.env.storeSucceeds(w'.journal) == t.k.env.storeSucceeds(w.journal)
    ensures Matched(t.k.c, t.k.Next(w, step), t.k'.Next(w', Earlier(step, |w.journal|, t.start)), |t.goal| - t.lag)
  {
    hide t.k.Perform, t.k.Enabled, Matched, t.Echoes;
    match step {
      case Act(action, fuel) => ActMatches(t, w, w', action, fuel);
      case Crash(action, fuel, cut) => CrashMatches(t, w, w', action, fuel, cut);
    }
  }

  lemma MutedRemainderMatches<S(!new), E(!new), P(!new)>(k: Machine<S, E, P>, steps: seq<Step<E, P>>,
      before: Remains<E, P>, w: World<S, E, P>, step: Step<E, P>, w': World<S, E, P>)
    requires k.c.Valid() && Safe(k, w) && before.Fits(|w.journal|) && w.journal <= k.Next(w, step).journal
    requires k.Next(w, step).journal <= k.Run(steps).journal
    requires Continues(Extended(k, before, w, step), Remaining(k, steps))
    requires Mirror(k, steps).c == k.c && w' == Mirror(k, steps).Run(before.steps)
    requires Matched(k.c, w, w', |before.first| - 1)
    requires !IsIdle(k, w, step) && IsMuted(k, w, step)
    ensures var r := Extended(k, before, w, step);
            Matched(k.c, k.Next(w, step), Mirror(k, steps).Run(r.steps), |r.first| - 1)
  {
    var k' := Mirror(k, steps);
    var r := Extended(k, before, w, step);
    hide k.Run, k.Next, k.c.Accepts, k.c.Watch, Remaining, IsIdle, IsMuted, Mirror, Matched;
    PolledLength(k', w');
    assert |before.first| + 1 in r.muted && |w'.journal| + 2 in Remaining(k, steps).muted;
    MirrorIsMute(k, steps, Polled(k', w').journal);
    MutedMatches(k, k', w, w', step);
    RunSnoc(k', before.steps, step);
  }

  lemma PolledLength<S(!new), E(!new), P>(k: Machine<S, E, P>, w: World<S, E, P>)
    ensures |Polled(k, w).journal| == |w.journal| + 2
  {
  }

  lemma KeptRemainderMatches<S(!new), E(!new), P(!new)>(k: Machine<S, E, P>, steps: seq<Step<E, P>>,
      before: Remains<E, P>, w: World<S, E, P>, step: Step<E, P>, w': World<S, E, P>)
    requires k.c.Valid() && Safe(k, w) && before.Fits(|w.journal|) && w.journal <= k.Next(w, step).journal
    requires k.Next(w, step).journal <= k.Run(steps).journal
    requires Continues(Extended(k, before, w, step), Remaining(k, steps))
    requires Mirror(k, steps).c == k.c && w' == Mirror(k, steps).Run(before.steps)
    requires Matched(k.c, w, w', |before.first| - 1)
    requires !IsIdle(k, w, step) && !IsMuted(k, w, step)
    ensures var r := Extended(k, before, w, step);
            Matched(k.c, k.Next(w, step), Mirror(k, steps).Run(r.steps), |r.first| - 1)
  {
    var k' := Mirror(k, steps);
    var v := k.Next(w, step);
    var t := Tandem(k, k', v.journal, |w.journal| + 1 - |before.first|, |before.first| - 1);
    hide k.Run, k.Next, k.c.Accepts, k.c.Watch, Remaining, IsIdle, IsMuted, Mirror, Matched, t.Echoes, t.Valid,
      Continues, Remains.With;
    MirrorIsTandem(k, steps, before, w, step, t);
    MatchedLength(k.c, w, w', t.start);
    if step.action.Launch? {
      LaunchLengthens(k, w, step);
      MirrorSeeds(k, steps, v.journal, before, step, w.journal, w'.journal);
    }
    KeptStepMatches(t, w, w', step);
    RunSnoc(k', before.steps, Earlier(step, |w.journal|, t.start));
    WithGrows(before, step, |w.journal|, |v.journal|);
  }

  lemma MirrorIsTandem<S(!new), E(!new), P(!new)>(k: Machine<S, E, P>, steps: seq<Step<E, P>>, before: Remains<E, P>,
      w: World<S, E, P>, step: Step<E, P>, t: Tandem<S, E, P>)
    requires k.c.Valid() && before.Fits(|w.journal|) && w.journal <= t.goal <= k.Run(steps).journal
    requires Continues(before.With(step, |w.journal|, |t.goal|), Remaining(k, steps))
    requires |before.first| <= |w.journal| + 1
    requires t == Tandem(k, Mirror(k, steps), t.goal, |w.journal| + 1 - |before.first|, |before.first| - 1)
    ensures t.Valid()
  {
    MirrorConfig(k, steps);
    hide k.Run, Remaining, Mirror, t.Echoes, Continues, Remains.With;
    forall j': Journal<S, E, P> | t.start < |j'| && |j'| + t.lag <= |t.goal| ensures t.Echoes(j') {
      MirrorEchoes(k, steps, before, step, |w.journal|, t, j');
    }
  }

  lemma MatchedLength<S(!new), E(!new), P(!new)>(c: Config<S, E, P>, w: World<S, E, P>, w': World<S, E, P>, short: int)
    requires Matched(c, w, w', short)
    ensures |w'.journal| == short <= |w.journal|
  {
  }

  lemma WithGrows<E, P>(before: Remains<E, P>, step: Step<E, P>, long: nat, after: nat)
    requires before.Fits(long) && long <= after
    ensures var r := before.With(step, long, after);
            && |r.first| == |before.first| + after - long
            && r.steps == before.steps + [Earlier(step, long, |before.first| - 1)]
  {
  }

  /** What remains of one more step does to the mirror what the step did. */
  lemma RemainderMatches<S(!new), E(!new), P(!new)>(k: Machine<S, E, P>, steps: seq<Step<E, P>>, before: Remains<E, P>,
      w: World<S, E, P>, step: Step<E, P>, w': World<S, E, P>)
    requires k.c.Valid() && Safe(k, w) && before.Fits(|w.journal|) && w.journal <= k.Next(w, step).journal
    requires k.Next(w, step).journal <= k.Run(steps).journal
    requires Continues(Extended(k, before, w, step), Remaining(k, steps))
    requires Mirror(k, steps).c == k.c && w' == Mirror(k, steps).Run(before.steps)
    requires Matched(k.c, w, w', |before.first| - 1)
    ensures var r := Extended(k, before, w, step);
            Matched(k.c, k.Next(w, step), Mirror(k, steps).Run(r.steps), |r.first| - 1)
  {
    hide k.Run, k.Next, k.c.Accepts, k.c.Watch, Remaining, IsIdle, IsMuted, Mirror, JournalTwins, StateTwins, Continues;
    if IsIdle(k, w, step) {
      IdleMatches(k, w, step);
      MatchedTrans(k.c, k.Next(w, step), w, w');
    } else if IsMuted(k, w, step) {
      MutedRemainderMatches(k, steps, before, w, step, w');
    } else {
      KeptRemainderMatches(k, steps, before, w, step, w');
    }
  }

  lemma MirrorIsMute<S(!new), E(!new), P(!new)>(k: Machine<S, E, P>, steps: seq<Step<E, P>>, j': Journal<S, E, P>)
    requires k.c.Valid() && |j'| in Remaining(k, steps).muted
    ensures Mirror(k, steps).env.poll(j').None?
  {
  }

  /** What remains of these first steps of a run does to the mirror what they do to the original. */
  ghost predicate MirrorsRun<S(!new), E(!new), P(!new)>(k: Machine<S, E, P>, steps: seq<Step<E, P>>,
      begun: seq<Step<E, P>>)
    requires k.c.Valid()
  {
    var r := Remaining(k, begun);
    Mirror(k, steps).c == k.c && Matched(k.c, k.Run(begun), Mirror(k, steps).Run(r.steps), |r.first| - 1)
  }

  lemma MirrorFollows<S(!new), E(!new), P(!new)>(k: Machine<S, E, P>, steps: seq<Step<E, P>>, begun: seq<Step<E, P>>,
      step: Step<E, P>)
    requires k.c.Valid() && begun + [step] <= steps && MirrorsRun(k, steps, begun)
    ensures MirrorsRun(k, steps, begun + [step])
  {
    hide k.Run, k.Next, k.c.Accepts, Mirror, Continues, Extended, Matched, Remaining, k.c.graph.Indexed, AtRest;
    assert steps[..|begun| + 1] == begun + [step];
    RemainingSnoc(k, begun, step);
    RunGrows(k, steps, |begun| + 1);
    RemainingContinues(k, steps, |begun| + 1);
    EveryRunIsSafe(k, begun);
    RemainderMatches(k, steps, Remaining(k, begun), k.Run(begun), step,
        Mirror(k, steps).Run(Remaining(k, begun).steps));
  }

  lemma {:induction false} MirrorMatches<S(!new), E(!new), P(!new)>(k: Machine<S, E, P>, steps: seq<Step<E, P>>, n: nat)
    requires k.c.Valid() && n <= |steps|
    ensures MirrorsRun(k, steps, steps[..n])
  {
    hide MirrorsRun, k.c.graph.Indexed;
    if n == 0 {
      EmptyMatches(k, steps);
      assert steps[..0] == [];
    } else {
      MirrorMatches(k, steps, n - 1);
      assert steps[..n] == steps[..n - 1] + [steps[n - 1]];
      MirrorFollows(k, steps, steps[..n - 1], steps[n - 1]);
    }
  }

  lemma EmptyMatches<S(!new), E(!new), P(!new)>(k: Machine<S, E, P>, steps: seq<Step<E, P>>)
    requires k.c.Valid()
    ensures MirrorsRun(k, steps, [])
  {
    MirrorConfig(k, steps);
  }

  /**
   Refused attempts are harmless. Whatever an instance has been through, crashes included: take away
   every event that was delivered, or asked for by on_timer, and was skipped, not answered or
   refused. What remains is a run again, of callbacks that answer as they did; it has the same births,
   stores, moves and notes in the same order, and ends in the same state, with the same history,
   lifecycle, stored entry and listener log. Only the payload and the last error may differ.
   */
  lemma RefusalsAreHarmless<S(!new), E(!new), P(!new)>(k: Machine<S, E, P>, steps: seq<Step<E, P>>)
    requires k.c.Valid()
    ensures Mirror(k, steps).c == k.c
    ensures var w, w' := k.Run(steps), Mirror(k, steps).Run(Remaining(k, steps).steps);
            && w'.up == w.up
            && w'.state == w.state.(payload := w'.state.payload, lastError := w'.state.lastError)
            && Essence(w'.journal) == Essence(w.journal)
            && k.c.Watch(w'.journal).stored == k.c.Watch(w.journal).stored
            && LogOf(w'.journal) == LogOf(w.journal)
  {
    assert steps[..|steps|] == steps;
    MirrorMatches(k, steps, |steps|);
    MirrorConfig(k, steps);
    var w, w' := k.Run(steps), Mirror(k, steps).Run(Remaining(k, steps).steps);
    hide k.Run, Remaining, Mirror, Essence, k.c.Watch, LogOf;
    EssenceDecides(k.c, w.journal);
    EssenceDecides(k.c, w'.journal);
  }

  /** The first attempt of an event that is not idle is part of what the step leaves. */
  lemma AttemptIsWithin<S(!new), E(!new), P(!new)>(k: Machine<S, E, P>, w: World<S, E, P>, event: E, eventPayload: P,
      fuel: nat)
    requires k.c.Valid() && !IsIdle(k, w, Act(Deliver(TransitionMsg(event, eventPayload)), fuel))
    ensures k.Transit(w, event, eventPayload).0.journal
            <= k.Next(w, Act(Deliver(TransitionMsg(event, eventPayload)), fuel)).journal
  {
    hide k.Transit, k.c.graph.Indexed;
    if fuel > 0 {
      DoTransitionGrows(k, w, event, eventPayload, fuel);
      hide k.DoTransition;
      var after := k.Transit(w, event, eventPayload).0;
      assert after.journal <= k.Cache(after).journal;
    }
  }

  lemma SurvivorAgrees<S(!new), E(!new), P(!new)>(t: Tandem<S, E, P>, w: World<S, E, P>, w': World<S, E, P>, event: E,
      eventPayload: P, fuel: nat)
    requires t.Valid() && Matched(t.k.c, w, w', t.start) && t.lag == |w.journal| - t.start && w.journal <= t.goal
    requires !IsIdle(t.k, w, Act(Deliver(TransitionMsg(event, eventPayload)), fuel))
    requires t.goal == t.k.Next(w, Act(Deliver(TransitionMsg(event, eventPayload)), fuel)).journal
    ensures var (v, r), (v', r') := t.k.Transit(w, event, eventPayload), t.k'.Transit(w', event, eventPayload);
            r' == r && r.Ok? && r.value != SoftSkipped && StateTwins(v.state, v'.state)
  {
    AttemptIsWithin(t.k, w, event, eventPayload, fuel);
    hide t.k.Transit, JournalTwins, t.Echoes, t.k.c.graph.Indexed, t.k.Perform;
    MatchedIsTogether(t, w, w');
    t.TransitTogether(w, w', event, eventPayload, eventPayload);
  }

  /** At a step that remains, the mirror is in step with the original. */
  lemma MirrorIsInStep<S(!new), E(!new), P(!new)>(k: Machine<S, E, P>, steps: seq<Step<E, P>>, n: nat)
    returns (t: Tandem<S, E, P>)
    requires k.c.Valid() && n < |steps|
    requires !IsIdle(k, k.Run(steps[..n]), steps[n]) && !IsMuted(k, k.Run(steps[..n]), steps[n])
    ensures t.k == k && t.k' == Mirror(k, steps) && t.Valid()
    ensures var w, w' := k.Run(steps[..n]), Mirror(k, steps).Run(Remaining(k, steps[..n]).steps);
            && Matched(k.c, w, w', t.start) && t.lag == |w.journal| - t.start
            && w.journal <= t.goal == k.Next(w, steps[n]).journal
  {
    MirrorConfig(k, steps);
    MirrorMatches(k, steps, n);
    RemainingWith(k, steps, n);
    var before, k', w := Remaining(k, steps[..n]), Mirror(k, steps), k.Run(steps[..n]);
    hide k.Run, k.Next, Remaining, Mirror, Matched, Continues, Remains.With, IsIdle, IsMuted;
    MatchedLength(k.c, w, k'.Run(before.steps), |before.first| - 1);
    t := Tandem(k, k', k.Next(w, steps[n]).journal, |w.journal| + 1 - |before.first|, |before.first| - 1);
    MirrorIsTandem(k, steps, before, w, steps[n], t);
  }

  /** Each delivered event that remains has, where it remains, the result and the target it had. */
  lemma SurvivorsAgree<S(!new), E(!new), P(!new)>(k: Machine<S, E, P>, steps: seq<Step<E, P>>, n: nat, event: E,
      eventPayload: P, fuel: nat)
    requires k.c.Valid() && n < |steps| && steps[n] == Act(Deliver(TransitionMsg(event, eventPayload)), fuel)
    requires !IsIdle(k, k.Run(steps[..n]), steps[n])
    ensures Mirror(k, steps).c == k.c
    ensures var (v, r) := k.Transit(k.Run(steps[..n]), event, eventPayload);
            var w' := Mirror(k, steps).Run(Remaining(k, steps[..n]).steps);
            var (v', r') := Mirror(k, steps).Transit(w', event, eventPayload);
            r' == r && r.Ok? && r.value != SoftSkipped && StateTwins(v.state, v'.state)
  {
    MirrorConfig(k, steps);
    var t := MirrorIsInStep(k, steps, n);
    hide k.Run, k.Transit, k.Next, Remaining, Mirror, Matched, k.c.graph.Indexed, IsIdle, t.Valid, StateTwins;
    SurvivorAgrees(t, k.Run(steps[..n]), t.k'.Run(Remaining(k, steps[..n]).steps), event, eventPayload, fuel);
  }
}
