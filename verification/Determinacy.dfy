/**
 The descriptions of `Traces` leave nothing open: given the callbacks, only one journal is what an action
 makes of a world and threads the payload.
 */
module Determinacy {
  import opened Wrappers
  import opened States
  import opened Protocol
  import opened Machines
  import opened Services
  import opened Payloads
  import opened Traces

  /** Two threaded journals that agree on the first `n` effects. */
  ghost predicate Twins<S(!new), E(!new), P>(k: Machine<S, E, P>, j: Journal<S, E, P>, j': Journal<S, E, P>, n: nat) {
    Threaded(k, j) && Threaded(k, j') && n <= |j| && n <= |j'| && j[..n] == j'[..n]
  }

  lemma NothingElse<S, E, P>(x: Effect<S, E, P>, y: Effect<S, E, P>)
    requires Bare(x) == Bare(y) && Given(x) == Given(y)
    ensures x == y
  {
  }

  lemma BareDecidesGiven<S, E, P>(x: Effect<S, E, P>, y: Effect<S, E, P>)
    requires Bare(x) == Bare(y)
    ensures Given(x).Some? <==> Given(y).Some?
  {
  }

  lemma NextIsTwin<S(!new), E(!new), P>(k: Machine<S, E, P>, j: Journal<S, E, P>, j': Journal<S, E, P>, n: nat)
    requires Twins(k, j, j', n) && n < |j| && n < |j'| && Bare(j[n]) == Bare(j'[n])
    ensures Twins(k, j, j', n + 1)
  {
    hide Payloads.Left, Given, Bare;
    BareDecidesGiven(j[n], j'[n]);
    assert Given(j[n]) == Given(j'[n]);
    NothingElse(j[n], j'[n]);
    assert j[..n + 1] == j[..n] + [j[n]] && j'[..n + 1] == j'[..n] + [j'[n]];
  }

  /** What has the same outline, and continues the same journal, is the same. */
  lemma {:induction false} SegmentIsTwin<S(!new), E(!new), P>(k: Machine<S, E, P>, j: Journal<S, E, P>,
      j': Journal<S, E, P>, n: nat, m: nat)
    requires Twins(k, j, j', n) && n <= m <= |j| && m <= |j'| && Outline(j[n..m]) == Outline(j'[n..m])
    ensures Twins(k, j, j', m)
    decreases m - n
  {
    hide Twins, Bare;
    if n < m {
      assert Bare(j[n]) == Outline(j[n..m])[0] && Bare(j'[n]) == Outline(j'[n..m])[0];
      NextIsTwin(k, j, j', n);
      TailOutline(j, n, m);
      TailOutline(j', n, m);
      SegmentIsTwin(k, j, j', n + 1, m);
    }
  }

  lemma TailOutline<S, E, P>(j: Journal<S, E, P>, n: nat, m: nat)
    requires n < m <= |j|
    ensures Outline(j[n + 1..m]) == Outline(j[n..m])[1..]
  {
  }

  /** An attempt's question is the same, and so is what comes of it. */
  lemma AttemptIsTwin<S(!new), E(!new), P>(k: Machine<S, E, P>, v: Snapshot<S, P>, n: nat, event: E, eventPayload: P,
      j: Journal<S, E, P>, j': Journal<S, E, P>)
    requires k.c.Valid() && Twins(k, j, j', n)
    requires AttemptFits(k, v, n, event, eventPayload, j) && AttemptFits(k, v, n, event, eventPayload, j')
    ensures AttemptEnd(k, v, n, event, eventPayload, j) == AttemptEnd(k, v, n, event, eventPayload, j')
    ensures Twins(k, j, j', AttemptEnd(k, v, n, event, eventPayload, j).0 + 1)
  {
    hide Twins, Outline, Leads, k.c.graph.Indexed, k.c.graph.Allowed, Refusal, Arrival;
    if k.c.graph.Allowed(v.current, event).Some? {
      var asking := Asking(v.current, event, eventPayload);
      var end, end' := AttemptEnd(k, v, n, event, eventPayload, j).0, AttemptEnd(k, v, n, event, eventPayload, j').0;
      TrialAsks(k, v, n, event, eventPayload, j);
      TrialAsks(k, v, n, event, eventPayload, j');
      SubOutline(j, n, end, n + 2);
      SubOutline(j', n, end', n + 2);
      SegmentIsTwin(k, j, j', n, n + 2);
      assert Question(j, n) == Question(j', n) by {
        SameQuestion(k, j, j', n);
      }
      SegmentIsTwin(k, j, j', n, end);
    }
    CacheIsTwin(k, v, n, event, eventPayload, j, j');
  }

  lemma SameQuestion<S(!new), E(!new), P>(k: Machine<S, E, P>, j: Journal<S, E, P>, j': Journal<S, E, P>, n: nat)
    requires Twins(k, j, j', n + 2)
    ensures Question(j, n) == Question(j', n)
  {
  }

  /** The snapshot that is cached after an attempt is decided but for its payload, which is threaded. */
  lemma CacheIsTwin<S(!new), E(!new), P>(k: Machine<S, E, P>, v: Snapshot<S, P>, n: nat, event: E, eventPayload: P,
      j: Journal<S, E, P>, j': Journal<S, E, P>)
    requires k.c.Valid()
    requires AttemptFits(k, v, n, event, eventPayload, j) && AttemptFits(k, v, n, event, eventPayload, j')
    requires k.c.graph.Allowed(v.current, event).None? || Question(j, n) == Question(j', n)
    requires Twins(k, j, j', AttemptEnd(k, v, n, event, eventPayload, j).0)
    ensures Twins(k, j, j', AttemptEnd(k, v, n, event, eventPayload, j).0 + 1)
  {
    hide Twins, Outline, k.c.graph.Indexed, k.c.graph.Allowed, Refusal, Arrival, Question;
    var end := AttemptEnd(k, v, n, event, eventPayload, j).0;
    assert AttemptEnd(k, v, n, event, eventPayload, j') == AttemptEnd(k, v, n, event, eventPayload, j);
    assert Bare(j[end]) == Bare(j'[end]);
    NextIsTwin(k, j, j', end) by {
      assert end < |j| && end < |j'|;
    }
  }

  lemma {:induction false} ChainIsTwin<S(!new), E(!new), P>(k: Machine<S, E, P>, v: Snapshot<S, P>, n: nat, event: E,
      eventPayload: P, fuel: nat, j: Journal<S, E, P>, ending: Ending, j': Journal<S, E, P>, ending': Ending)
    requires k.c.Valid() && Twins(k, j, j', n)
    requires IsChain(k, v, n, j, event, eventPayload, fuel, ending)
    requires IsChain(k, v, n, j', event, eventPayload, fuel, ending')
    ensures j == j' && ending == ending'
    decreases fuel, 0
  {
    hide Outline, Trial, Leads, Question, k.c.graph.Indexed, Threaded, GoesOn;
    if fuel > 0 {
      AttemptIsTwin(k, v, n, event, eventPayload, j, j');
      var (end, r) := AttemptEnd(k, v, n, event, eventPayload, j);
      RestIsTwin(k, end, r, fuel - 1, j, ending, j', ending');
    }
  }

  lemma {:induction false} RestIsTwin<S(!new), E(!new), P>(k: Machine<S, E, P>, end: nat,
      r: Result<Outcome, ErrorStage>, fuel: nat, j: Journal<S, E, P>, ending: Ending, j': Journal<S, E, P>,
      ending': Ending)
    requires k.c.Valid() && Twins(k, j, j', end + 1) && j[end].Cached? && j'[end].Cached?
    requires GoesOn(k, j, end, r, fuel, ending) && GoesOn(k, j', end, r, fuel, ending')
    ensures j == j' && ending == ending'
    decreases fuel, 1
  {
    hide IsChain, k.c.graph.Indexed, Threaded, FirstHard;
    assert j[end] == j[..end + 1][end] == j'[end];
    var v := j[end].snapshot;
    var hard := FirstHard(k.c.graph.EventsFor(v.current));
    assert |j| == end + 1 ==> j == j[..end + 1];
    assert |j| == end + 2 ==> j == j[..end + 1] + [j[end + 1]];
    if r == Ok(HardContinue) && hard.Some? {
      ChainIsTwin(k, v, end + 1, hard.value, v.payload, fuel, j, ending, j', ending');
    }
  }

  lemma OpeningIsTwin<S(!new), E(!new), P>(k: Machine<S, E, P>, n: nat, opening: seq<Sketch<S, E, P>>, fuel: nat,
      j: Journal<S, E, P>, ending: Ending, j': Journal<S, E, P>, ending': Ending)
    requires k.c.Valid() && opening != [] && Twins(k, j, j', n)
    requires Opens(k, n, j, opening, fuel, ending) && Opens(k, n, j', opening, fuel, ending')
    ensures j == j' && ending == ending'
  {
    hide Outline, IsChain, k.c.graph.Indexed, Threaded, FirstHard;
    var born := n + |opening|;
    SegmentIsTwin(k, j, j', n, born);
    assert j[born - 1] == j[..born][born - 1] == j'[born - 1];
    var begun := if k.c.timer then born + 1 else born;
    if k.c.timer {
      NextIsTwin(k, j, j', born);
    }
    var v := if j[born - 1].Cached? then j[born - 1].snapshot else FreshSnapshot(k.c.graph.initial, k.c.payload);
    var hard := FirstHard(k.c.graph.EventsFor(v.current));
    if hard.Some? {
      ChainIsTwin(k, v, begun, hard.value, v.payload, fuel, j, ending, j', ending');
    } else {
      assert j == j[..begun] && j' == j'[..begun];
    }
  }

  lemma PollIsTwin<S(!new), E(!new), P>(k: Machine<S, E, P>, v: Snapshot<S, P>, n: nat, fuel: nat, j: Journal<S, E, P>,
      ending: Ending, j': Journal<S, E, P>, ending': Ending)
    requires k.c.Valid() && Twins(k, j, j', n)
    requires IsPoll(k, v, n, j, fuel, ending) && IsPoll(k, v, n, j', fuel, ending')
    ensures j == j' && ending == ending'
  {
    hide IsChain, k.c.graph.Indexed, Threaded;
    var asked := n + 1;
    assert j[..asked] == j[..n] + [j[n]] && j'[..asked] == j'[..n] + [j'[n]];
    match k.env.poll(j[..asked]) {
      case None => assert j == j[..asked] && j' == j'[..asked];
      case Some((event, payload)) =>
        ChainIsTwin(k, v.(payload := k.env.edit(j[..asked])), asked, event, payload, fuel, j, ending, j', ending');
    }
  }

  lemma ShorterIsTwin<S(!new), E(!new), P>(k: Machine<S, E, P>, j: Journal<S, E, P>, j': Journal<S, E, P>, n: nat)
    requires Twins(k, j, j', n) && n <= |WithoutTick(j)| && n <= |WithoutTick(j')|
    ensures Twins(k, WithoutTick(j), WithoutTick(j'), n)
  {
    PrefixThreads(k, j, |WithoutTick(j)|);
    PrefixThreads(k, j', |WithoutTick(j')|);
    hide Threaded;
  }

  lemma TickIsTwin<S(!new), E(!new), P>(k: Machine<S, E, P>, v: Snapshot<S, P>, n: nat, fuel: nat, j: Journal<S, E, P>,
      ending: Ending, j': Journal<S, E, P>, ending': Ending)
    requires k.c.Valid() && Twins(k, j, j', n)
    requires IsTick(k, v, n, j, fuel, ending) && IsTick(k, v, n, j', fuel, ending')
    ensures j == j' && ending == ending'
  {
    hide k.c.graph.Indexed, Twins, RunsAfterPoll, IsChain;
    var body, body' := WithoutTick(j), WithoutTick(j');
    NextIsTwin(k, j, j', n);
    ShorterIsTwin(k, j, j', n + 1);
    PollIsTwin(k, v, n + 1, fuel, body, ending, body', ending');
    assert body != j ==> j == body + [Scheduled];
    assert body' != j' ==> j' == body' + [Scheduled];
  }

  lemma RemainderIsTwin<S(!new), E(!new), P>(k: Machine<S, E, P>, j: Journal<S, E, P>, j': Journal<S, E, P>, n: nat)
    requires Twins(k, j, j', n) && Outline(j[n..]) == Outline(j'[n..])
    ensures j == j'
  {
    hide Threaded, Bare;
    assert |Outline(j[n..])| == |j| - n && |Outline(j'[n..])| == |j'| - n;
    assert j[n..|j|] == j[n..] && j'[n..|j|] == j'[n..];
    SegmentIsTwin(k, j, j', n, |j|);
    assert j == j[..|j|] && j' == j'[..|j|];
  }

  /** Of each action only one journal fits the description and threads the payload. */
  lemma OneJournalFits<S(!new), E(!new), P>(k: Machine<S, E, P>, w: World<S, E, P>, action: Action<E, P>, fuel: nat,
      j: Journal<S, E, P>, ending: Ending, j': Journal<S, E, P>, ending': Ending)
    requires k.c.Valid() && Threaded(k, j) && Threaded(k, j')
    requires Plays(k, w, action, fuel, j, ending) && Plays(k, w, action, fuel, j', ending')
    ensures j == j' && ending == ending'
  {
    hide Threaded, Opens, IsChain, IsTick, Birth, StoredOf, Outline, k.c.graph.Indexed;
    var n, stored := |w.journal|, StoredOf(w.journal);
    assert Twins(k, j, j', n);
    hide Twins;
    match action {
      case Launch(payload) =>
        var seeding := Seeding(k.c, stored, k.env.storeSucceeds(w.journal));
        var found := if seeding == [] then stored else Some((k.c.graph.initial, k.c.payload));
        BirthIsSomething(k.c, found, payload);
        OpeningIsTwin(k, n, seeding + Birth(k.c, found, payload), fuel, j, ending, j', ending');
      case Restart =>
        BirthIsSomething(k.c, stored, k.c.payload);
        OpeningIsTwin(k, n, Birth(k.c, stored, k.c.payload), fuel, j, ending, j', ending');
      case Deliver(TransitionMsg(event, payload)) =>
        ChainIsTwin(k, w.state, n, event, payload, fuel, j, ending, j', ending');
      case Deliver(TimerTickMsg) => TickIsTwin(k, w.state, n, fuel, j, ending, j', ending');
      case Deliver(ShutdownMsg) => RemainderIsTwin(k, j, j', n);
      case Stop => RemainderIsTwin(k, j, j', n);
    }
  }

  /** A step of a run that is enabled and ends makes exactly the journal that fits. */
  lemma StepsPlayExactly<S(!new), E(!new), P>(k: Machine<S, E, P>, steps: seq<Step<E, P>>, action: Action<E, P>,
      fuel: nat, j: Journal<S, E, P>, ending: Ending)
    requires k.c.Valid() && k.Enabled(k.Run(steps), action)
    ensures var w := k.Run(steps);
            var (after, e) := k.Perform(w, action, fuel);
            (j, ending) == (after.journal, e) <==> Threaded(k, j) && Plays(k, w, action, fuel, j, ending)
  {
    hide k.Run, k.Perform, k.Enabled, Threaded, Plays, k.c.graph.Indexed;
    var w := k.Run(steps);
    PayloadIsThreaded(k, steps);
    PerformCarries(k, w, action, fuel);
    ActionShows(k, w, action, fuel);
    var (after, e) := k.Perform(w, action, fuel);
    if Threaded(k, j) && Plays(k, w, action, fuel, j, ending) {
      OneJournalFits(k, w, action, fuel, j, ending, after.journal, e);
    }
  }
}
