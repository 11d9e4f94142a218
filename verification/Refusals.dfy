/** Attempts that are skipped or fail change nothing but the payload and the last error. */
module Refusals {
  import opened Wrappers
  import opened Graphs
  import opened History
  import opened States
  import opened Protocol
  import opened Machines
  import opened Conformance
  import opened Runs

  predicate Essential<S, E, P>(x: Effect<S, E, P>) {
    x.Born? || x.Seeded? || x.Stored? || x.Committed? || x.Notified?
  }

  /** The journal without the effects of failed attempts, callbacks, the timer and the cache. */
  function Essence<S, E, P>(j: Journal<S, E, P>): Journal<S, E, P> {
    if j == [] then []
    else
      var n := |j| - 1;
      if Essential(j[n]) then Essence(j[..n]) + [j[n]] else Essence(j[..n])
  }

  lemma EssenceSnoc<S, E, P>(j: Journal<S, E, P>, x: Effect<S, E, P>)
    ensures Essence(j + [x]) == if Essential(x) then Essence(j) + [x] else Essence(j)
  {
    assert (j + [x])[..|j|] == j;
  }

  ghost predicate SameCore<S(!new), E(!new), P>(m: Monitor<S, E, P>, core: Monitor<S, E, P>) {
    m.current == core.current && m.visits == core.visits && m.stored == core.stored
  }

  lemma StepKeepsCore<S(!new), E(!new), P>(c: Config<S, E, P>, m: Monitor<S, E, P>, core: Monitor<S, E, P>,
      x: Effect<S, E, P>)
    requires SameCore(m, core)
    ensures SameCore(c.Advance(m, x), if Essential(x) then c.Advance(core, x) else core)
  {
  }

  lemma {:induction false} EssenceDecides<S(!new), E(!new), P>(c: Config<S, E, P>, j: Journal<S, E, P>)
    ensures SameCore(c.Watch(j), c.Watch(Essence(j)))
    ensures LogOf(j) == LogOf(Essence(j))
  {
    if j != [] {
      var n := |j| - 1;
      EssenceDecides(c, j[..n]);
      StepKeepsCore(c, c.Watch(j[..n]), c.Watch(Essence(j[..n])), j[n]);
      hide c.Advance;
      var before := Essence(j[..n]);
      assert (before + [j[n]])[..|before|] == before;
    }
  }

  /** The attempt is skipped, or fails. */
  predicate IsRefused<S(!new), E(!new), P>(k: Machine<S, E, P>, w: World<S, E, P>, event: E, eventPayload: P)
    requires k.c.Valid()
  {
    var r := k.Transit(w, event, eventPayload).1;
    r.Err? || r == Ok(SoftSkipped)
  }

  // ---- Journals without failed attempts -----------------------------------------------------

  /** What is kept of a journal, and the attempt under way at its end. */
  datatype Sieve<S, E, P> = Sieve(kept: Journal<S, E, P>, attempt: Journal<S, E, P>)

  /** The cache is updated because the state has changed, not only an attempt at it been made. */
  predicate HasNews<S, E, P>(kept: Journal<S, E, P>) {
    kept != [] && (kept[|kept| - 1].OnEnter? || kept[|kept| - 1].Turned? || kept[|kept| - 1].OnTerminate?)
  }

  function Strain<S, E, P>(s: Sieve<S, E, P>, x: Effect<S, E, P>): Sieve<S, E, P> {
    match x
    case OnExit(_, _) => Sieve(s.kept, [x])
    case OnTransition(_, _, _, _) => s.(attempt := s.attempt + [x])
    case OnFailure(_, _, _) => s.(attempt := s.attempt + [x])
    case StoreFailed(_, _) => s.(attempt := s.attempt + [x])
    case Stored(_, _) => Sieve(s.kept + s.attempt + [x], [])
    case Committed(_) => Sieve(s.kept + s.attempt + [x], [])
    case Born(_, _, _, _) => Sieve(s.kept + [x], [])
    case OnEnter(_, _) => if s.attempt == [] then Sieve(s.kept + [x], []) else Sieve(s.kept, [])
    case Cached(_) => if HasNews(s.kept) then Sieve(s.kept + [x], s.attempt) else s
    case _ => Sieve(s.kept + [x], s.attempt)
  }

  /** The journal without the attempts that failed, or were lost in a crash, and their cache updates. */
  function Sift<S, E, P>(j: Journal<S, E, P>): Sieve<S, E, P> {
    if j == [] then Sieve([], []) else Strain(Sift(j[..|j| - 1]), j[|j| - 1])
  }

  predicate IsFailure<S, E, P>(x: Effect<S, E, P>) {
    x.OnFailure? || x.StoreFailed?
  }

  /** The monitors differ at most in what was entered before the first move, and in the cache. */
  ghost predicate Agree<S(!new), E(!new), P>(m: Monitor<S, E, P>, m': Monitor<S, E, P>) {
    m' == m.(open := m'.open, cached := m'.cached, polled := m'.polled)
  }

  /** An effect of an attempt that has not moved the instance. */
  predicate IsTrial<S, E, P>(x: Effect<S, E, P>) {
    x.OnExit? || x.OnTransition? || IsFailure(x)
  }

  predicate IsTrying<S, E>(phase: Phase<S, E>) {
    phase.Left? || phase.Asked? || phase.Refused?
  }

  /** The sieve of a legal journal: what it holds is legal, and agrees with the journal. */
  ghost predicate Sifts<S(!new), E(!new), P>(c: Config<S, E, P>, m: Monitor<S, E, P>, s: Sieve<S, E, P>)
    requires c.Valid()
  {
    && c.Accepts(s.kept + s.attempt) && Agree(m, c.Watch(s.kept + s.attempt))
    && (s.attempt != [] <==> IsTrying(m.phase))
    && c.Accepts(s.kept) && (s.attempt != [] ==> Agree(m.(phase := Ready), c.Watch(s.kept)))
    && (forall x :: x in s.kept ==> !IsFailure(x))
    && (forall x :: x in s.attempt ==> IsTrial(x) && (IsFailure(x) ==> m.phase.Refused?))
  }

  /** Monitors that agree allow the same effects, and agree after each. */
  lemma AgreeingStep<S(!new), E(!new), P>(c: Config<S, E, P>, m: Monitor<S, E, P>, m': Monitor<S, E, P>,
      x: Effect<S, E, P>)
    requires c.Valid() && Agree(m, m') && c.TracksBracket(m') && c.Legal(m, x)
    ensures c.Legal(m', x) && Agree(c.Advance(m, x), c.Advance(m', x))
  {
    hide c.graph.Indexed, c.graph.Allowed, PushAll;
  }

  lemma AppendAgrees<S(!new), E(!new), P>(c: Config<S, E, P>, m: Monitor<S, E, P>, j: Journal<S, E, P>,
      x: Effect<S, E, P>)
    requires c.Valid() && c.Accepts(j) && Agree(m, c.Watch(j)) && c.Legal(m, x)
    ensures c.Accepts(j + [x]) && Agree(c.Advance(m, x), c.Watch(j + [x]))
  {
    c.AcceptedIsSane(j);
    c.Snoc(j, x);
    hide c.Accepts, c.Watch, c.Legal, c.Advance, Agree, c.graph.Indexed;
    AgreeingStep(c, m, c.Watch(j), x);
  }

  lemma TrialSifts<S(!new), E(!new), P>(c: Config<S, E, P>, m: Monitor<S, E, P>, s: Sieve<S, E, P>, x: Effect<S, E, P>)
    requires c.Valid() && c.Sane(m) && Sifts(c, m, s) && c.Legal(m, x) && IsTrial(x)
    ensures Sifts(c, c.Advance(m, x), Strain(s, x))
  {
    hide c.Accepts, c.Watch, c.graph.Indexed, c.graph.Allowed, PushAll;
    AppendAgrees(c, m, s.kept + s.attempt, x);
    assert s.kept + (s.attempt + [x]) == s.kept + s.attempt + [x];
    if x.OnExit? {
      assert s.kept + [] == s.kept && [] + [x] == [x];
    }
  }

  lemma MoveSifts<S(!new), E(!new), P>(c: Config<S, E, P>, m: Monitor<S, E, P>, s: Sieve<S, E, P>, x: Effect<S, E, P>)
    requires c.Valid() && Sifts(c, m, s) && c.Legal(m, x) && (x.Stored? || x.Committed?)
    ensures Sifts(c, c.Advance(m, x), Strain(s, x))
  {
    hide c.Accepts, c.Watch, c.graph.Indexed, c.graph.Allowed, PushAll;
    AppendAgrees(c, m, s.kept + s.attempt, x);
    assert s.kept + s.attempt + [x] + [] == s.kept + s.attempt + [x];
  }

  lemma BirthSifts<S(!new), E(!new), P>(c: Config<S, E, P>, m: Monitor<S, E, P>, s: Sieve<S, E, P>, x: Effect<S, E, P>)
    requires c.Valid() && Sifts(c, m, s) && c.Legal(m, x) && x.Born?
    ensures Sifts(c, c.Advance(m, x), Strain(s, x))
  {
    hide c.Accepts, c.Watch, c.graph.Indexed, c.graph.Allowed, PushAll;
    assert s.kept + [] == s.kept && s.kept + [x] + [] == s.kept + [x];
    AppendAgrees(c, if s.attempt == [] then m else m.(phase := Ready), s.kept, x);
  }

  /** An instance that is entered again, or cached though nothing has changed, is where it was. */
  lemma ReturnSifts<S(!new), E(!new), P>(c: Config<S, E, P>, m: Monitor<S, E, P>, s: Sieve<S, E, P>, x: Effect<S, E, P>)
    requires c.Valid() && Sifts(c, m, s) && c.Legal(m, x)
    requires (x.OnEnter? && s.attempt != []) || (x.Cached? && !HasNews(s.kept))
    ensures Sifts(c, c.Advance(m, x), Strain(s, x))
  {
    hide c.Accepts, c.Watch, c.graph.Indexed, c.graph.Allowed, PushAll;
    assert s.kept + [] == s.kept;
  }

  lemma TrialIgnoresStore<S(!new), E(!new), P>(c: Config<S, E, P>, m: Monitor<S, E, P>, y: Effect<S, E, P>, s: S, p: P)
    requires c.Valid() && IsTrial(y) && c.Legal(m, y) && c.Legal(c.Advance(m, y), Seeded(s, p))
    ensures var seeded := m.(stored := Some((s, p)));
            && c.Legal(m, Seeded(s, p)) && c.Legal(seeded, y)
            && c.Advance(seeded, y) == c.Advance(m, y).(stored := Some((s, p)))
  {
    hide c.graph.Indexed, c.graph.Allowed, PushAll;
  }

  lemma SnocIgnoresStore<S(!new), E(!new), P>(c: Config<S, E, P>, j: Journal<S, E, P>, k: Journal<S, E, P>,
      y: Effect<S, E, P>, s: S, p: P)
    requires c.Valid() && IsTrial(y) && c.Accepts(j + [y]) && c.Legal(c.Watch(j + [y]), Seeded(s, p))
    requires c.Accepts(k) && c.Watch(k) == c.Watch(j).(stored := Some((s, p)))
    ensures c.Accepts(k + [y]) && c.Watch(k + [y]) == c.Watch(j + [y]).(stored := Some((s, p)))
  {
    c.Snoc(j, y);
    c.Snoc(k, y);
    hide c.Accepts, c.Watch, c.Legal, c.Advance, c.graph.Indexed;
    TrialIgnoresStore(c, c.Watch(j), y, s, p);
  }

  /** The initial state may be stored while an attempt lies unfinished that a crash has cut short. */
  lemma {:induction false} SeedEarlier<S(!new), E(!new), P>(c: Config<S, E, P>, j: Journal<S, E, P>,
      attempt: Journal<S, E, P>, s: S, p: P)
    requires c.Valid() && c.Accepts(j + attempt) && c.Legal(c.Watch(j + attempt), Seeded(s, p))
    requires forall y :: y in attempt ==> IsTrial(y)
    ensures c.Accepts(j + [Seeded(s, p)] + attempt) && c.Legal(c.Watch(j), Seeded(s, p))
    ensures c.Watch(j + [Seeded(s, p)] + attempt) == c.Watch(j + attempt).(stored := Some((s, p)))
  {
    var seeded := j + [Seeded(s, p)];
    if attempt == [] {
      c.Snoc(j, Seeded(s, p));
      hide c.Accepts, c.Watch;
      assert j + [] == j && seeded + [] == seeded;
    } else {
      hide c.Accepts, c.Watch, c.Legal, c.graph.Indexed;
      var front, y := attempt[..|attempt| - 1], attempt[|attempt| - 1];
      assert j + attempt == j + front + [y] && seeded + attempt == seeded + front + [y];
      assert y in attempt;
      PrefixIsLegal(c, j + front, y, s, p);
      SeedEarlier(c, j, front, s, p);
      SnocIgnoresStore(c, j + front, seeded + front, y, s, p);
    }
  }

  lemma PrefixIsLegal<S(!new), E(!new), P>(c: Config<S, E, P>, j: Journal<S, E, P>, y: Effect<S, E, P>, s: S, p: P)
    requires c.Valid() && IsTrial(y) && c.Accepts(j + [y]) && c.Legal(c.Watch(j + [y]), Seeded(s, p))
    ensures c.Accepts(j) && c.Legal(c.Watch(j), Seeded(s, p))
  {
    c.Snoc(j, y);
    hide c.Accepts, c.Watch, c.Legal, c.Advance, c.graph.Indexed;
    TrialIgnoresStore(c, c.Watch(j), y, s, p);
  }

  lemma SeedSifts<S(!new), E(!new), P>(c: Config<S, E, P>, m: Monitor<S, E, P>, s: Sieve<S, E, P>, x: Effect<S, E, P>)
    requires c.Valid() && Sifts(c, m, s) && c.Legal(m, x) && x.Seeded?
    ensures Sifts(c, c.Advance(m, x), Strain(s, x))
  {
    hide c.Accepts, c.Watch, c.graph.Indexed, c.graph.Allowed, PushAll;
    SeedEarlier(c, s.kept, s.attempt, x.state, x.payload);
    c.Snoc(s.kept, x);
  }

  /** Whatever else happens, happens between attempts, and is kept. */
  lemma OtherSifts<S(!new), E(!new), P>(c: Config<S, E, P>, m: Monitor<S, E, P>, s: Sieve<S, E, P>, x: Effect<S, E, P>)
    requires c.Valid() && Sifts(c, m, s) && c.Legal(m, x)
    requires !IsTrial(x) && !x.Stored? && !x.Committed? && !x.Born? && !x.Seeded?
    requires !(x.OnEnter? && s.attempt != []) && !(x.Cached? && !HasNews(s.kept))
    ensures Sifts(c, c.Advance(m, x), Strain(s, x))
  {
    hide c.Accepts, c.Watch, c.graph.Indexed, c.graph.Allowed, PushAll;
    assert s.attempt == [];
    assert s.kept + [] == s.kept && s.kept + [x] + [] == s.kept + [x];
    AppendAgrees(c, m, s.kept, x);
  }

  lemma StrainSifts<S(!new), E(!new), P>(c: Config<S, E, P>, m: Monitor<S, E, P>, s: Sieve<S, E, P>, x: Effect<S, E, P>)
    requires c.Valid() && c.Sane(m) && Sifts(c, m, s) && c.Legal(m, x)
    ensures Sifts(c, c.Advance(m, x), Strain(s, x))
  {
    hide Sifts, c.Sane, c.Legal, c.Advance, HasNews, Strain;
    if IsTrial(x) {
      TrialSifts(c, m, s, x);
    } else if x.Stored? || x.Committed? {
      MoveSifts(c, m, s, x);
    } else if x.Born? {
      BirthSifts(c, m, s, x);
    } else if x.Seeded? {
      SeedSifts(c, m, s, x);
    } else if (x.OnEnter? && s.attempt != []) || (x.Cached? && !HasNews(s.kept)) {
      ReturnSifts(c, m, s, x);
    } else {
      OtherSifts(c, m, s, x);
    }
  }

  lemma {:induction false} TrialsAreNotNoted<S, E, P>(j: Journal<S, E, P>, attempt: Journal<S, E, P>)
    requires forall x :: x in attempt ==> IsTrial(x)
    ensures LogOf(j + attempt) == LogOf(j)
  {
    if attempt == [] {
      assert j + attempt == j;
    } else {
      var n := |attempt| - 1;
      assert (j + attempt)[..|j| + n] == j + attempt[..n] && attempt[n] in attempt;
      TrialsAreNotNoted(j, attempt[..n]);
    }
  }

  lemma StrainKeepsLog<S, E, P>(s: Sieve<S, E, P>, x: Effect<S, E, P>)
    requires forall y :: y in s.attempt ==> IsTrial(y)
    ensures LogOf(Strain(s, x).kept) ==
            if x.Born? then [] else if x.Notified? then LogOf(s.kept) + [Note(x.from, x.event, x.to)] else LogOf(s.kept)
  {
    TrialsAreNotNoted(s.kept, s.attempt);
    LogSnoc(s.kept, x);
    LogSnoc(s.kept + s.attempt, x);
    hide LogOf;
  }

  lemma LogSnoc<S, E, P>(j: Journal<S, E, P>, x: Effect<S, E, P>)
    ensures LogOf(j + [x]) ==
            if x.Born? then [] else if x.Notified? then LogOf(j) + [Note(x.from, x.event, x.to)] else LogOf(j)
  {
    assert (j + [x])[..|j|] == j;
  }

  /**
   Take away every attempt that failed, or that a crash cut short, with its cache update: of what is
   left of a journal, every effect is legal when it comes, nothing in it is a failure, and it leads to
   the same phase, state, visits, store, lifecycle and listener log.
   */
  lemma {:induction false} SiftedIsAccepted<S(!new), E(!new), P>(c: Config<S, E, P>, j: Journal<S, E, P>)
    requires c.Valid() && c.Accepts(j)
    ensures Sifts(c, c.Watch(j), Sift(j))
    ensures LogOf(Sift(j).kept) == LogOf(j)
  {
    hide c.Legal, c.Advance, Strain;
    if j == [] {
    } else {
      var n := |j| - 1;
      SiftedIsAccepted(c, j[..n]);
      c.AcceptedIsSane(j[..n]);
      hide Sifts;
      StrainSifts(c, c.Watch(j[..n]), Sift(j[..n]), j[n]);
      SiftHoldsTrials(c, c.Watch(j[..n]), Sift(j[..n]));
      StrainKeepsLog(Sift(j[..n]), j[n]);
    }
  }

  lemma SiftHoldsTrials<S(!new), E(!new), P>(c: Config<S, E, P>, m: Monitor<S, E, P>, s: Sieve<S, E, P>)
    requires c.Valid() && Sifts(c, m, s)
    ensures forall x :: x in s.attempt ==> IsTrial(x)
  {
  }

  lemma AskAddsNothing<S(!new), E(!new), P>(k: Machine<S, E, P>, w: World<S, E, P>, event: E, eventPayload: P)
    ensures Essence(k.Ask(w, event, eventPayload).journal) == Essence(w.journal)
  {
    var x := OnExit(w.state.current, w.state.payload);
    var left := k.Call(w, x);
    EssenceSnoc(w.journal, x);
    EssenceSnoc(left.journal, OnTransition(w.state.current, event, eventPayload, left.state.payload));
  }

  lemma AbortAddsNothing<S(!new), E(!new), P>(k: Machine<S, E, P>, w: World<S, E, P>, from: S, event: E,
      error: ErrorStage)
    ensures Essence(k.Abort(w, from, event, error).journal) == Essence(w.journal)
  {
    var x := OnFailure(event, error, w.state.payload);
    var failed := k.Fail(k.Call(w, x), error);
    EssenceSnoc(w.journal, x);
    EssenceSnoc(failed.journal, OnEnter(from, failed.state.payload));
  }

  lemma SettleFailureAddsNothing<S(!new), E(!new), P>(k: Machine<S, E, P>, w: World<S, E, P>, from: S, event: E,
      target: S, allowed: (seq<S>, EventKind))
    ensures k.Settle(w, from, event, target, allowed).1 != Ok(SoftSkipped)
    ensures k.Settle(w, from, event, target, allowed).1.Err? ==>
              Essence(k.Settle(w, from, event, target, allowed).0.journal) == Essence(w.journal)
  {
    hide k.Abort, k.Announce, k.Terminate, Essence;
    if target !in allowed.0 {
      AbortAddsNothing(k, w, from, event, NotAllowed);
    } else if k.c.persistent && !k.env.storeSucceeds(w.journal) {
      var x := StoreFailed(target, w.state.payload);
      var failed := k.Fail(k.Emit(w, x), AtPersistency);
      EssenceSnoc(w.journal, x);
      EssenceSnoc(failed.journal, OnEnter(from, failed.state.payload));
    }
  }

  /** A skipped or failed attempt adds nothing to the essence; a successful one always does. */
  lemma FailureAddsNothing<S(!new), E(!new), P>(k: Machine<S, E, P>, w: World<S, E, P>, event: E, eventPayload: P)
    requires k.c.Valid()
    ensures var (w', r) := k.Transit(w, event, eventPayload);
            r.Err? || r == Ok(SoftSkipped) ==> Essence(w'.journal) == Essence(w.journal)
  {
    hide k.Settle, k.Abort, k.Ask, Essence, k.c.graph.Allowed;
    var asked := k.Ask(w, event, eventPayload);
    AskAddsNothing(k, w, event, eventPayload);
    if k.c.graph.Allowed(w.state.current, event).Some? {
      var allowed := k.c.graph.Allowed(w.state.current, event).value;
      match k.env.decide(asked.journal) {
        case Refuse(error) => AbortAddsNothing(k, asked, w.state.current, event, error);
        case Move(target) => SettleFailureAddsNothing(k, asked, w.state.current, event, target, allowed);
        case MoveWithPayload(target, payload) =>
          SettleFailureAddsNothing(k, k.WithPayload(asked, payload), w.state.current, event, target, allowed);
      }
    }
  }

  /** A failed or skipped attempt leaves the state as it was, up to the payload and the last error. */
  lemma FailureKeepsState<S(!new), E(!new), P>(k: Machine<S, E, P>, steps: seq<Step<E, P>>, event: E, eventPayload: P)
    requires k.c.Valid() && k.Run(steps).up && !k.c.Watch(k.Run(steps).journal).halted
    ensures var w := k.Run(steps);
            var (w', r) := k.Transit(w, event, eventPayload);
            r.Err? || r == Ok(SoftSkipped) ==>
              && w'.state == w.state.(payload := w'.state.payload, lastError := w'.state.lastError)
              && (w'.state.lastError == w.state.lastError || (r.Err? && w'.state.lastError == Some(r.error)))
              && Essence(w'.journal) == Essence(w.journal)
  {
    EveryRunIsSafe(k, steps);
    var w := k.Run(steps);
    hide k.c.Accepts, k.c.Watch, k.Run, k.Transit, Essence, PushAll, Pushed;
    TransitFollows(k, w, k.c.Watch(w.journal), event, eventPayload);
    FailureAddsNothing(k, w, event, eventPayload);
  }

  /**
   An attempt completes exactly when the state answers the event, the callbacks choose a target the
   graph allows, and the target can be stored where it has to be; it then leads to that target.
   */
  lemma CompletesExactlyWhen<S(!new), E(!new), P>(k: Machine<S, E, P>, w: World<S, E, P>, event: E, eventPayload: P)
    requires k.c.Valid()
    ensures var (after, r) := k.Transit(w, event, eventPayload);
            var asked := k.Ask(w, event, eventPayload).journal;
            var decision := k.env.decide(asked);
            && (r.Ok? && r.value != SoftSkipped <==>
                  && !decision.Refuse? && k.c.MayMove(w.state.current, event, decision.target)
                  && (k.c.persistent ==> k.env.storeSucceeds(asked)))
            && (r.Ok? && r.value != SoftSkipped ==> after.state.current == decision.target)
            && (r == Ok(AutoTerminate) ==> k.c.autoTerminate && k.c.graph.IsFinal(after.state.current))
  {
    hide k.Abort, k.Ask, k.c.graph.Indexed, k.c.graph.Allowed, PushAll, Pushed;
  }

  // ---- What a refused attempt may change ----------------------------------------------------

  ghost predicate LeavesState<S(!new), E(!new), P>(k: Machine<S, E, P>, w: World<S, E, P>, event: E, eventPayload: P)
    requires k.c.Valid()
  {
    IsRefused(k, w, event, eventPayload) ==> k.Transit(w, event, eventPayload).0.state == w.state
  }

  ghost predicate LeavesPayload<S(!new), E(!new), P>(k: Machine<S, E, P>, w: World<S, E, P>, event: E, eventPayload: P)
    requires k.c.Valid()
  {
    IsRefused(k, w, event, eventPayload) ==> k.Transit(w, event, eventPayload).0.state.payload == w.state.payload
  }

  /** Callbacks that leave this payload and refuse every transition with this error. */
  function Refusing<S, E, P>(payload: P, error: ErrorStage): Environment<S, E, P> {
    Environment(_ => payload, _ => Refuse(error), _ => None, _ => true)
  }

  lemma RefusingTransit<S(!new), E(!new), P>(k: Machine<S, E, P>, w: World<S, E, P>, event: E, eventPayload: P,
      payload: P, error: ErrorStage)
    requires k.c.Valid() && k.env == Refusing(payload, error) && k.c.graph.Responds(w.state.current, event)
    ensures var (after, r) := k.Transit(w, event, eventPayload);
            r == Err(error) && after.state.payload == payload && after.state.lastError == Some(error)
  {
    hide k.c.graph.Indexed, k.c.graph.Allowed;
  }

  /**
   An attempt that is skipped or fails leaves the whole state as it was, whatever the callbacks do,
   exactly when the state does not respond to the event.
   */
  lemma StateSurvivesExactlyWhen<S(!new), E(!new), P(!new)>(c: Config<S, E, P>, w: World<S, E, P>, event: E,
      eventPayload: P)
    requires c.Valid()
    ensures (forall env: Environment<S, E, P> :: LeavesState(Machine(c, env), w, event, eventPayload))
            <==> !c.graph.Responds(w.state.current, event)
  {
    hide c.graph.Indexed, c.graph.Allowed;
    if c.graph.Responds(w.state.current, event) {
      var error := if w.state.lastError == Some(Unknown) then AtTransition else Unknown;
      var env: Environment<S, E, P> := Refusing(w.state.payload, error);
      RefusingTransit(Machine(c, env), w, event, eventPayload, w.state.payload, error);
      assert !LeavesState(Machine(c, env), w, event, eventPayload);
    }
  }

  /** So it is with the payload alone, if there is another payload at all. */
  lemma PayloadSurvivesExactlyWhen<S(!new), E(!new), P(!new)>(c: Config<S, E, P>, w: World<S, E, P>, event: E,
      eventPayload: P, other: P)
    requires c.Valid() && other != w.state.payload
    ensures (forall env: Environment<S, E, P> :: LeavesPayload(Machine(c, env), w, event, eventPayload))
            <==> !c.graph.Responds(w.state.current, event)
  {
    hide c.graph.Indexed, c.graph.Allowed;
    if c.graph.Responds(w.state.current, event) {
      var env: Environment<S, E, P> := Refusing(other, Unknown);
      RefusingTransit(Machine(c, env), w, event, eventPayload, other, Unknown);
      assert !LeavesPayload(Machine(c, env), w, event, eventPayload);
    }
  }

  lemma AwakenCounts(k: Machine<int, int, int>, w: World<int, int, int>, s: int, payload: int, life: Lifecycle)
    requires k.env.edit == (j => |j|)
    ensures var v := k.Awaken(w, s, payload, life);
            v.state.current == s && v.state.payload <= |v.journal| && v.state.lifecycle == Running
  {
  }

  lemma LaunchedPayload(k: Machine<int, int, int>)
    requires k.c.Valid() && !k.c.supervised && k.c.graph.initial == 0
    requires k.c.graph.transitions == [Transition(0, [1], 7, Normal)] && k.env.edit == (j => |j|)
    ensures var w := k.Run([Act(Launch(0), 0)]);
            w.up && w.state.current == 0 && w.state.payload <= |w.journal| && w.state.lifecycle == Running
  {
    k.c.graph.EventsForIsFilter(0);
    var ts := k.c.graph.transitions;
    assert ts[1..] == [] && Outgoing(ts, 0) == [(7, Normal)] + Outgoing(ts[1..], 0);
    assert FirstHard([(7, Normal)]) == FirstHard([(7, Normal)][1..]);
    RunSnoc(k, [], Act(Launch(0), 0));
    var w := k.Run([]);
    AwakenCounts(k, w, 0, 0, Created);
    hide k.Awaken, k.c.graph.Indexed, k.c.graph.EventsFor;
    assert k.Incarnate(w, 0) == k.Awaken(w, 0, 0, Created);
  }

  lemma RunningIsNotHalted<S(!new), E(!new), P>(k: Machine<S, E, P>, steps: seq<Step<E, P>>)
    requires k.c.Valid() && k.Run(steps).up && k.Run(steps).state.lifecycle == Running
    ensures !k.c.Watch(k.Run(steps).journal).halted
  {
    hide k.Run, k.c.Accepts, k.c.Watch, PushAll, k.c.graph.Indexed;
    EveryRunIsSafe(k, steps);
    LinkedIsSane(k, k.Run(steps), k.c.Watch(k.Run(steps).journal));
  }

  /** Delivering an event that is refused makes one attempt, and updates the cache. */
  lemma RefusedDelivery<S(!new), E(!new), P>(k: Machine<S, E, P>, w: World<S, E, P>, event: E, eventPayload: P,
      fuel: nat)
    requires k.c.Valid() && k.Enabled(w, Deliver(TransitionMsg(event, eventPayload))) && fuel > 0
    requires IsRefused(k, w, event, eventPayload)
    ensures k.Next(w, Act(Deliver(TransitionMsg(event, eventPayload)), fuel)) ==
            k.Cache(k.Transit(w, event, eventPayload).0)
  {
    hide k.Transit, k.c.graph.Indexed;
  }

  lemma RefusedAttemptCounts(k: Machine<int, int, int>, w: World<int, int, int>)
    requires k.c.Valid() && k.env.edit == (j => |j|) && k.env.decide == (_ => Refuse(Unknown))
    requires k.c.graph.Allowed(w.state.current, 7).Some?
    ensures var (after, r) := k.Transit(w, 7, 0);
            r == Err(Unknown) && after.state.payload > |w.journal| && after.state.current == w.state.current
  {
    hide k.c.graph.Indexed, k.c.graph.Allowed;
  }

  lemma RefusedDeliveryCounts(k: Machine<int, int, int>, w: World<int, int, int>)
    requires k.c.Valid() && k.env.edit == (j => |j|) && k.env.decide == (_ => Refuse(Unknown))
    requires k.c.graph.Allowed(w.state.current, 7).Some? && w.up && !k.c.Watch(w.journal).halted
    ensures IsRefused(k, w, 7, 0)
    ensures var after := k.Next(w, Act(Deliver(TransitionMsg(7, 0)), 1));
            after.state.current == w.state.current && after.state.payload > |w.journal|
  {
    hide k.Transit, k.Next, k.c.Watch, k.c.graph.Indexed, k.c.graph.Allowed;
    RefusedAttemptCounts(k, w);
    RefusedDelivery(k, w, 7, 0, 1);
  }

  /** An instance whose refused attempt changes its payload: each callback counts what has happened so far. */
  lemma RefusedEditStays(c: Config<int, int, int>) returns (k: Machine<int, int, int>, steps: seq<Step<int, int>>)
    requires c.Valid() && !c.supervised && c.graph.initial == 0
    requires c.graph.transitions == [Transition(0, [1], 7, Normal)]
    ensures k.c == c && k.Run(steps).up && IsRefused(k, k.Run(steps), 7, 0)
    ensures var before, after := k.Run(steps), k.Run(steps + [Act(Deliver(TransitionMsg(7, 0)), 1)]);
            after.state.current == before.state.current && after.state.payload != before.state.payload
  {
    var env: Environment<int, int, int> := Environment(j => |j|, _ => Refuse(Unknown), _ => None, _ => true);
    k := Machine(c, env);
    steps := [Act(Launch(0), 0)];
    LaunchedPayload(k);
    c.graph.AllowedIsScan(0, 7);
    hide k.Run, k.Transit, k.Next, k.c.Watch, k.c.graph.Indexed, k.c.graph.Allowed, IsRefused;
    RunningIsNotHalted(k, steps);
    RunSnoc(k, steps, Act(Deliver(TransitionMsg(7, 0)), 1));
    RefusedDeliveryCounts(k, k.Run(steps));
  }
}
