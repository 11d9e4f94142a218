/** Bounded state history, and what it remembers of all the visits. */
module History {

  datatype Entry<S> = Entry(state: S, count: nat)

  predicate EndsWith<S(==)>(entries: seq<Entry<S>>, state: S) {
    |entries| > 0 && entries[|entries| - 1].state == state
  }

  /** One more visit: a repeat of the last state is counted, any other state is appended. */
  function Counted<S(==)>(entries: seq<Entry<S>>, state: S): seq<Entry<S>> {
    if EndsWith(entries, state) then
      entries[..|entries| - 1] + [Entry(state, entries[|entries| - 1].count + 1)]
    else
      entries + [Entry(state, 1)]
  }

  /** One more visit to a bounded list: when it is full, a new state evicts the oldest entry. */
  function Pushed<S(==)>(entries: seq<Entry<S>>, maxSize: nat, state: S): seq<Entry<S>> {
    if !EndsWith(entries, state) && |entries| >= maxSize && |entries| > 0
    then Counted(entries[1..], state)
    else Counted(entries, state)
  }

  class BoundedHistory<S(==)> {
    var entries: seq<Entry<S>>
    const maxSize: nat

    constructor (maxSize: nat)
      ensures this.maxSize == maxSize && entries == []
    {
      this.maxSize := maxSize;
      entries := [];
    }

    method Push(state: S)
      modifies this
      ensures entries == Pushed(old(entries), maxSize, state)
    {
      if |entries| > 0 {
        var last := entries[|entries| - 1];
        if last.state == state {
          entries := entries[|entries| - 1 := last.(count := last.count + 1)];
          return;
        }
      }
      if |entries| >= maxSize {
        if |entries| > 0 {
          entries := entries[1..];
        }
      }
      entries := entries + [Entry(state, 1)];
    }
  }

  /** The entries of a new history of the given size after all of `visits`. */
  function PushAll<S(==)>(maxSize: nat, visits: seq<S>): seq<Entry<S>> {
    if visits == [] then []
    else
      var n := |visits| - 1;
      Pushed(PushAll(maxSize, visits[..n]), maxSize, visits[n])
  }

  lemma PushAllSnoc<S>(maxSize: nat, visits: seq<S>, state: S)
    ensures PushAll(maxSize, visits + [state]) == Pushed(PushAll(maxSize, visits), maxSize, state)
  {
    assert (visits + [state])[..|visits|] == visits;
  }

  // ---- Run-length encoding --------------------------------------------------------------

  function Repeat<S>(state: S, n: nat): (r: seq<S>)
    ensures |r| == n && forall i :: 0 <= i < n ==> r[i] == state
  {
    seq(n, _ => state)
  }

  lemma RepeatOnce<S>(state: S, n: nat)
    ensures Repeat(state, n + 1) == Repeat(state, n) + [state]
    ensures Repeat(state, 1) == [state]
  {
  }

  /** The visits an entry list stands for. */
  function Expand<S>(entries: seq<Entry<S>>): seq<S> {
    if entries == [] then []
    else
      var n := |entries| - 1;
      Expand(entries[..n]) + Repeat(entries[n].state, entries[n].count)
  }

  /** Every entry counts something, and neighbours are different states. */
  ghost predicate Collapsed<S>(entries: seq<Entry<S>>) {
    && (forall k :: 0 <= k < |entries| ==> entries[k].count > 0)
    && (forall k :: 0 < k < |entries| ==> entries[k - 1].state != entries[k].state)
  }

  /** The run-length encoding of the visits: one entry for each maximal run of one state. */
  function Runs<S(==)>(visits: seq<S>): seq<Entry<S>> {
    if visits == [] then [] else Counted(Runs(visits[..|visits| - 1]), visits[|visits| - 1])
  }

  lemma ExpandSnoc<S>(entries: seq<Entry<S>>, entry: Entry<S>)
    ensures Expand(entries + [entry]) == Expand(entries) + Repeat(entry.state, entry.count)
  {
    assert (entries + [entry])[..|entries|] == entries;
  }

  lemma CountedExpands<S>(entries: seq<Entry<S>>, state: S)
    ensures Expand(Counted(entries, state)) == Expand(entries) + [state]
  {
    hide Expand, Repeat;
    if EndsWith(entries, state) {
      var m := |entries| - 1;
      var last := entries[m];
      assert entries == entries[..m] + [last];
      ExpandSnoc(entries[..m], last);
      ExpandSnoc(entries[..m], Entry(state, last.count + 1));
      RepeatOnce(state, last.count);
    } else {
      ExpandSnoc(entries, Entry(state, 1));
      RepeatOnce(state, 0);
    }
  }

  lemma CountedCollapses<S>(entries: seq<Entry<S>>, state: S)
    requires Collapsed(entries)
    ensures Collapsed(Counted(entries, state))
  {
  }

  /** The encoding loses nothing. */
  lemma {:induction false} RunsExpand<S>(visits: seq<S>)
    ensures Expand(Runs(visits)) == visits
    ensures Collapsed(Runs(visits))
  {
    if visits != [] {
      var n := |visits| - 1;
      RunsExpand(visits[..n]);
      CountedExpands(Runs(visits[..n]), visits[n]);
      CountedCollapses(Runs(visits[..n]), visits[n]);
      hide Expand, Collapsed, Counted;
      assert visits == visits[..n] + [visits[n]];
    }
  }

  lemma RunsSnoc<S>(visits: seq<S>, state: S)
    ensures Runs(visits + [state]) == Counted(Runs(visits), state)
  {
    assert (visits + [state])[..|visits|] == visits;
  }

  lemma {:induction false} RunsOfRepeat<S>(visits: seq<S>, state: S, n: nat)
    requires n > 0 && !EndsWith(Runs(visits), state)
    ensures Runs(visits + Repeat(state, n)) == Runs(visits) + [Entry(state, n)]
  {
    hide Runs, Repeat;
    RepeatOnce(state, n - 1);
    RunsSnoc(visits + Repeat(state, n - 1), state);
    assert visits + Repeat(state, n - 1) + [state] == visits + (Repeat(state, n - 1) + [state]);
    if n == 1 {
      assert visits + Repeat(state, 0) == visits;
    } else {
      RunsOfRepeat(visits, state, n - 1);
    }
  }

  /** The encoding is the only collapsed entry list that stands for its visits. */
  lemma {:induction false} RunsAreUnique<S>(entries: seq<Entry<S>>)
    requires Collapsed(entries)
    ensures Runs(Expand(entries)) == entries
  {
    hide Runs, Repeat;
    if entries == [] {
      RunsOfNothing<S>();
    } else {
      var n := |entries| - 1;
      assert entries == entries[..n] + [entries[n]];
      RunsAreUnique(entries[..n]);
      RunsOfRepeat(Expand(entries[..n]), entries[n].state, entries[n].count);
    }
  }

  lemma RunsOfNothing<S>()
    ensures Runs<S>([]) == []
  {
  }

  /** The bound matters from one entry on: a history of size 0 still holds one entry. */
  function Capacity(maxSize: nat): nat {
    if maxSize == 0 then 1 else maxSize
  }

  function LastOf<T>(s: seq<T>, n: nat): seq<T> {
    if |s| <= n then s else s[|s| - n..]
  }

  lemma PushedKeepsRecent<S>(maxSize: nat, runs: seq<Entry<S>>, state: S)
    ensures Pushed(LastOf(runs, Capacity(maxSize)), maxSize, state)
            == LastOf(Counted(runs, state), Capacity(maxSize))
  {
    var kept := LastOf(runs, Capacity(maxSize));
    if runs != [] {
      assert kept[|kept| - 1] == runs[|runs| - 1];
    }
  }

  /** A bounded history holds exactly the most recent runs of the full visit log. */
  lemma {:induction false} HistoryIsRecentRuns<S>(maxSize: nat, visits: seq<S>)
    ensures PushAll(maxSize, visits) == LastOf(Runs(visits), Capacity(maxSize))
  {
    if visits != [] {
      HistoryIsRecentRuns(maxSize, visits[..|visits| - 1]);
      PushedKeepsRecent(maxSize, Runs(visits[..|visits| - 1]), visits[|visits| - 1]);
    }
  }

  lemma {:induction false} ExpandConcat<S>(a: seq<Entry<S>>, b: seq<Entry<S>>)
    ensures Expand(a + b) == Expand(a) + Expand(b)
  {
    if b == [] {
      assert a + b == a;
    } else {
      var n := |b| - 1;
      assert (a + b)[..|a| + n] == a + b[..n];
      ExpandConcat(a, b[..n]);
    }
  }

  lemma KeepOrEvict<S>(entries: seq<Entry<S>>, n: nat) returns (evicted: seq<Entry<S>>)
    ensures evicted + LastOf(entries, n) == entries
    ensures Expand(evicted) + Expand(LastOf(entries, n)) == Expand(entries)
    ensures |LastOf(entries, n)| <= n
    ensures evicted != [] ==> |LastOf(entries, n)| == n
    ensures Collapsed(entries) ==> Collapsed(LastOf(entries, n))
  {
    evicted := if |entries| <= n then [] else entries[..|entries| - n];
    ExpandConcat(evicted, LastOf(entries, n));
    assert entries == evicted + LastOf(entries, n);
  }

  /** Every visit is either counted by a kept entry or by an evicted one, in order. */
  lemma VisitsAreKeptOrEvicted<S>(maxSize: nat, visits: seq<S>) returns (evicted: seq<Entry<S>>)
    ensures evicted + PushAll(maxSize, visits) == Runs(visits)
    ensures Expand(evicted) + Expand(PushAll(maxSize, visits)) == visits
    ensures |PushAll(maxSize, visits)| <= Capacity(maxSize)
    ensures evicted != [] ==> |PushAll(maxSize, visits)| == Capacity(maxSize)
    ensures Collapsed(PushAll(maxSize, visits))
  {
    HistoryIsRecentRuns(maxSize, visits);
    RunsExpand(visits);
    evicted := KeepOrEvict(Runs(visits), Capacity(maxSize));
  }

  lemma LastEntryIsLastVisit<S>(maxSize: nat, visits: seq<S>)
    requires visits != []
    ensures PushAll(maxSize, visits) != []
    ensures PushAll(maxSize, visits)[|PushAll(maxSize, visits)| - 1].state == visits[|visits| - 1]
  {
  }

  // ---- Histories of walks -----------------------------------------------------------------

  /** Each visit follows from the one before it. */
  ghost predicate Steps<S>(visits: seq<S>, follows: (S, S) -> bool) {
    forall k :: 0 < k < |visits| ==> follows(visits[k - 1], visits[k])
  }

  /** The entries of a walk's history are linked by its steps; a count above one is a self-loop. */
  ghost predicate EntriesFollow<S>(entries: seq<Entry<S>>, follows: (S, S) -> bool) {
    && (forall k :: 0 < k < |entries| ==> follows(entries[k - 1].state, entries[k].state))
    && (forall k :: 0 <= k < |entries| && entries[k].count > 1 ==> follows(entries[k].state, entries[k].state))
  }

  lemma PushedFollows<S>(entries: seq<Entry<S>>, maxSize: nat, state: S, follows: (S, S) -> bool)
    requires EntriesFollow(entries, follows)
    requires entries != [] ==> follows(entries[|entries| - 1].state, state)
    ensures EntriesFollow(Pushed(entries, maxSize, state), follows)
  {
    if !EndsWith(entries, state) && |entries| >= maxSize && |entries| > 0 {
      CountedFollows(entries[1..], state, follows);
    } else {
      CountedFollows(entries, state, follows);
    }
  }

  lemma CountedFollows<S>(entries: seq<Entry<S>>, state: S, follows: (S, S) -> bool)
    requires EntriesFollow(entries, follows)
    requires entries != [] ==> follows(entries[|entries| - 1].state, state)
    ensures EntriesFollow(Counted(entries, state), follows)
  {
  }

  lemma {:induction false} HistoryOfWalk<S>(maxSize: nat, visits: seq<S>, follows: (S, S) -> bool)
    requires Steps(visits, follows)
    ensures EntriesFollow(PushAll(maxSize, visits), follows)
  {
    if visits != [] {
      var n := |visits| - 1;
      HistoryOfWalk(maxSize, visits[..n], follows);
      if n > 0 {
        LastEntryIsLastVisit(maxSize, visits[..n]);
        assert follows(visits[n - 1], visits[n]);
      }
      PushedFollows(PushAll(maxSize, visits[..n]), maxSize, visits[n], follows);
    }
  }
}
