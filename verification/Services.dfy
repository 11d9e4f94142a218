/** What an instance talks to: its callbacks, the storage backend and the state cache. */
module Services {
  import opened Wrappers
  import opened States
  import opened Protocol
  import opened Machines

  /** What the storage backend holds for the instance, by its journal. */
  function StoredOf<S, E, P>(j: Journal<S, E, P>): Option<(S, P)> {
    if j == [] then None
    else
      var x := j[|j| - 1];
      if x.Stored? || x.Seeded? then Some((x.state, x.payload)) else StoredOf(j[..|j| - 1])
  }

  /** What the cache holds for the instance, by its journal. */
  function CachedOf<S, E, P>(j: Journal<S, E, P>): Option<Snapshot<S, P>> {
    if j == [] then None
    else
      var x := j[|j| - 1];
      if x.Cached? then Some(x.snapshot) else CachedOf(j[..|j| - 1])
  }

  lemma StepStores<S(!new), E(!new), P>(c: Config<S, E, P>, m: Monitor<S, E, P>, x: Effect<S, E, P>)
    ensures c.Advance(m, x).stored == if x.Stored? || x.Seeded? then Some((x.state, x.payload)) else m.stored
  {
  }

  lemma {:induction false} StoredIsWatched<S(!new), E(!new), P>(c: Config<S, E, P>, j: Journal<S, E, P>)
    ensures c.Watch(j).stored == StoredOf(j)
  {
    if j != [] {
      StoredIsWatched(c, j[..|j| - 1]);
      StepStores(c, c.Watch(j[..|j| - 1]), j[|j| - 1]);
      hide c.Advance;
    }
  }

  /** The cache shows the instance as running. */
  predicate EntryRuns<S, E, P>(j: Journal<S, E, P>) {
    CachedOf(j).Some? && CachedOf(j).value.lifecycle == Running
  }

  lemma StepCaches<S(!new), E(!new), P>(c: Config<S, E, P>, m: Monitor<S, E, P>, x: Effect<S, E, P>)
    ensures c.Advance(m, x).cached ==
            if x.Born? then None else if x.Cached? then Some(x.snapshot) else m.cached
  {
  }

  /** The journal before the latest birth. */
  function BeforeBirth<S, E, P>(j: Journal<S, E, P>): Journal<S, E, P> {
    if j == [] then [] else if j[|j| - 1].Born? then j[..|j| - 1] else BeforeBirth(j[..|j| - 1])
  }

  /** The cache holds what the incarnation has cached last, or else what there was before its birth. */
  lemma {:induction false} CachedIsWatched<S(!new), E(!new), P>(c: Config<S, E, P>, j: Journal<S, E, P>)
    ensures CachedOf(j) == if c.Watch(j).cached.Some? then c.Watch(j).cached else CachedOf(BeforeBirth(j))
  {
    if j != [] {
      CachedIsWatched(c, j[..|j| - 1]);
      StepCaches(c, c.Watch(j[..|j| - 1]), j[|j| - 1]);
      hide c.Advance;
    }
  }

  /** The user's FSM and everything else outside the actor that answers, or is told, something. */
  class Outside<S, E, P> {
    const env: Environment<S, E, P>
    var journal: Journal<S, E, P>

    constructor (env: Environment<S, E, P>)
      ensures this.env == env && journal == []
    {
      this.env := env;
      journal := [];
    }

    /** Something happens that needs no answer. */
    method Note(x: Effect<S, E, P>)
      modifies this
      ensures journal == old(journal) + [x]
      ensures !x.Stored? && !x.Seeded? ==> StoredOf(journal) == old(StoredOf(journal))
      ensures x.Stored? || x.Seeded? ==> StoredOf(journal) == Some((x.state, x.payload))
      ensures CachedOf(journal) == if x.Cached? then Some(x.snapshot) else old(CachedOf(journal))
    {
      journal := journal + [x];
      assert journal[..|journal| - 1] == old(journal);
    }

    /** A callback is called, and hands back the payload as it leaves it. */
    method Call(x: Effect<S, E, P>) returns (payload: P)
      requires !x.Stored? && !x.Seeded? && !x.Cached?
      modifies this
      ensures journal == old(journal) + [x] && payload == env.edit(journal)
      ensures StoredOf(journal) == old(StoredOf(journal)) && CachedOf(journal) == old(CachedOf(journal))
    {
      Note(x);
      payload := env.edit(journal);
    }
  }

  /** The in-memory backend: one entry for each instance name. */
  class InMemoryPersistency<S, P> {
    var entries: map<string, (Lifecycle, S, P)>

    constructor ()
      ensures entries == map[]
    {
      entries := map[];
    }

    method Load(id: string) returns (r: Option<(Lifecycle, S, P)>)
      ensures r == if id in entries then Some(entries[id]) else None
    {
      r := if id in entries then Some(entries[id]) else None;
    }

    method Store(id: string, state: S, payload: P)
      modifies this
      ensures entries == old(entries)[id := (Running, state, payload)]
      ensures entries - {id} == old(entries) - {id}
    {
      entries := entries[id := (Running, state, payload)];
    }

    /** What is stored under the name is what the journal says, and counts as running. */
    ghost predicate Reflects<E>(id: string, j: Journal<S, E, P>)
      reads this
    {
      match StoredOf(j)
      case None => id !in entries
      case Some((s, p)) => id in entries && entries[id] == (Running, s, p)
    }
  }

  class StateCache<S, P> {
    var entries: map<string, Snapshot<S, P>>

    constructor ()
      ensures entries == map[]
    {
      entries := map[];
    }

    method Get(name: string) returns (r: Option<Snapshot<S, P>>)
      ensures r == if name in entries then Some(entries[name]) else None
    {
      r := if name in entries then Some(entries[name]) else None;
    }

    method Update(name: string, snapshot: Snapshot<S, P>)
      modifies this
      ensures entries == old(entries)[name := snapshot]
      ensures entries - {name} == old(entries) - {name}
    {
      entries := entries[name := snapshot];
    }

    /** What is cached under the name is what the journal says. */
    ghost predicate Reflects<E>(name: string, j: Journal<S, E, P>)
      reads this
    {
      match CachedOf(j)
      case None => name !in entries
      case Some(v) => name in entries && entries[name] == v
    }
  }
}
