/** The runtime state of one FSM instance. */
module States {
  import opened Wrappers
  import opened History

  datatype Lifecycle = Created | Loaded | Running | Terminating | Terminated

  /** Which phase of processing an error comes from; all that is kept of a `FinitomataError`. */
  datatype ErrorStage =
    AtTransition | AtEnter | AtExit | AtPersistency | NotAllowed | NotResponds | AtValidation | Unknown

  /** The number of entries every instance's history is bounded to. */
  const HISTORY_SIZE: nat := 32

  /** A copy of an instance's state, as the cache keeps it. */
  datatype Snapshot<S, P> = Snapshot(
    current: S,
    payload: P,
    history: seq<Entry<S>>,
    lifecycle: Lifecycle,
    lastError: Option<ErrorStage>)

  /** A new instance: created, without error, having visited only its first state. */
  function FreshSnapshot<S, P>(state: S, payload: P): Snapshot<S, P> {
    Snapshot(state, payload, [Entry(state, 1)], Created, None)
  }

  /** The snapshot after a move: the error is cleared, the visit recorded, the instance running. */
  function Moved<S(==), P>(before: Snapshot<S, P>, target: S): Snapshot<S, P> {
    Snapshot(target, before.payload, Pushed(before.history, HISTORY_SIZE, target), Running, None)
  }

  class FsmState<S(==), P> {
    const name: string
    var current: S
    var payload: P
    const history: BoundedHistory<S>
    var lifecycle: Lifecycle
    var lastError: Option<ErrorStage>

    ghost predicate Valid() {
      history.maxSize == HISTORY_SIZE
    }

    /** What `clone` copies. */
    function View(): Snapshot<S, P>
      reads this, history
    {
      Snapshot(current, payload, history.entries, lifecycle, lastError)
    }

    constructor (name: string, initialState: S, payload: P)
      ensures Valid() && fresh(history)
      ensures this.name == name && View() == FreshSnapshot(initialState, payload)
    {
      this.name := name;
      this.current := initialState;
      this.payload := payload;
      var visited := new BoundedHistory<S>(HISTORY_SIZE);
      visited.Push(initialState);
      this.history := visited;
      this.lifecycle := Created;
      this.lastError := None;
    }

    method TransitionTo(newState: S)
      requires Valid()
      modifies this`current, history
      ensures View() ==
              old(View()).(current := newState, history := Pushed(old(history.entries), HISTORY_SIZE, newState))
    {
      current := newState;
      history.Push(newState);
    }

    method SetError(error: ErrorStage)
      modifies this`lastError
      ensures View() == old(View()).(lastError := Some(error))
    {
      lastError := Some(error);
    }

    method ClearError()
      modifies this`lastError
      ensures View() == old(View()).(lastError := None)
    {
      lastError := None;
    }
  }
}
