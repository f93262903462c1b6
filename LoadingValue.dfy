/** The loading/value/error state cell behind every data-binding hook:
    a pure reducer over four actions, and a cell that dispatches them. */
module LoadingValue {
  import opened Values

  /** The reducer state: the last value, the loading flag and the last error. */
  datatype State<T, E> = State(value: Maybe<T>, loading: bool, error: Option<E>)

  /** The closed set of actions the reducer accepts. */
  datatype Action<T, E> =
    | ErrorAction(error: E)
    | LoadingAction
    | ResetAction(defaultValue: Maybe<T>)
    | ValueAction(value: Maybe<T>)
  {
    /** Every action except `loading` overwrites all three fields of the state. */
    predicate Settles() {
      !LoadingAction?
    }
  }

  /** The cell's global invariant: an error is never shown together with a value
      (not even `null`), and an error is never shown while loading. */
  predicate Consistent<T, E>(s: State<T, E>) {
    s.error.Some? ==> s.value.Undefined? && !s.loading
  }

  /** The state built at creation (`isInitialLoad` true) and on reset (false):
      it holds the default as given, no error, and it is loading only on the
      initial load and only when the default is `undefined` or `null`. */
  function DefaultState<T, E>(defaultValue: Maybe<T>, isInitialLoad: bool): (r: State<T, E>)
    ensures r.error.None?
    ensures Consistent(r)
  {
    State(defaultValue, isInitialLoad && defaultValue.Nullish(), None)
  }

  /** The reducer. Whatever the prior state, the new state is consistent. */
  function Reduce<T, E>(s: State<T, E>, a: Action<T, E>): (r: State<T, E>)
    ensures Consistent(r)
  {
    match a
    case ErrorAction(e) => s.(error := Some(e), loading := false, value := Undefined)
    case LoadingAction => s.(error := None, loading := true)
    case ResetAction(d) => DefaultState(d, false)
    case ValueAction(v) => s.(error := None, loading := false, value := v)
  }

  /** The state after dispatching `actions` in order, starting from `s`.
      Once at least one action has been dispatched, the state is consistent
      whatever the start state was. */
  function Run<T, E>(s: State<T, E>, actions: seq<Action<T, E>>): (r: State<T, E>)
    ensures actions != [] ==> Consistent(r)
    decreases |actions|
  {
    if actions == [] then s else Run(Reduce(s, actions[0]), actions[1..])
  }

  // ----- The initial state and the four transitions -----

  /** At creation the cell is loading exactly when there is no usable default;
      a `null` default is stored as `null` and still counts as loading. */
  lemma InitialState<T, E>(defaultValue: Maybe<T>)
    ensures var r := DefaultState<T, E>(defaultValue, true);
      (r.loading <==> defaultValue.Undefined? || defaultValue.Null?) &&
      r.value == defaultValue && r.error == None
  {
  }

  /** `error`: the error is shown, loading stops and the value is cleared. */
  lemma ErrorTransition<T, E>(s: State<T, E>, e: E)
    ensures Reduce(s, ErrorAction(e)) == State(Undefined, false, Some(e))
  {
  }

  /** `loading`: loading starts and the error is cleared; the value is kept. */
  lemma LoadingTransition<T, E>(s: State<T, E>)
    ensures var r := Reduce(s, LoadingAction);
      r.loading && r.error == None && r.value == s.value
  {
  }

  /** `value`: the given value (possibly `undefined`) is shown, loading stops
      and the error is cleared. */
  lemma ValueTransition<T, E>(s: State<T, E>, v: Maybe<T>)
    ensures Reduce(s, ValueAction(v)) == State(v, false, None)
  {
  }

  /** `reset`: the new state is the default with no error and never loading,
      even when the default is `undefined` or `null`. */
  lemma ResetTransition<T, E>(s: State<T, E>, d: Maybe<T>)
    ensures Reduce(s, ResetAction(d)) == State(d, false, None)
  {
  }

  /** The asymmetry between creation and reset: with no default, creation is
      loading but a reset is not. */
  lemma ResetIsNotInitialLoad<T, E>(s: State<T, E>, d: Maybe<T>)
    requires d.Nullish()
    ensures DefaultState<T, E>(d, true).loading
    ensures !Reduce(s, ResetAction(d)).loading
    ensures Reduce(s, ResetAction(d)) != DefaultState<T, E>(d, true)
  {
  }

  /** A settling action (`error`, `reset`, `value`) makes the prior state irrelevant. */
  lemma SettlingForgetsState<T, E>(s: State<T, E>, t: State<T, E>, a: Action<T, E>)
    requires a.Settles()
    ensures Reduce(s, a) == Reduce(t, a)
  {
  }

  /** Every action is idempotent: dispatching it twice equals dispatching it once. */
  lemma ReduceIdempotent<T, E>(s: State<T, E>, a: Action<T, E>)
    ensures Reduce(Reduce(s, a), a) == Reduce(s, a)
  {
  }

  /** From any state, `loading` then `value(v)` shows `v`, not loading, no error. */
  lemma LoadingThenValue<T, E>(s: State<T, E>, v: Maybe<T>)
    ensures Run(s, [LoadingAction, ValueAction(v)]) == State(v, false, None)
  {
    var xs: seq<Action<T, E>> := [LoadingAction];
    RunSnoc(s, xs, ValueAction(v));
    assert xs + [ValueAction(v)] == [LoadingAction, ValueAction(v)];
  }

  // ----- Runs of several actions -----

  /** Dispatching `xs ++ ys` is dispatching `xs`, then `ys`. */
  lemma {:induction false} RunAppend<T, E>(s: State<T, E>, xs: seq<Action<T, E>>, ys: seq<Action<T, E>>)
    ensures Run(s, xs + ys) == Run(Run(s, xs), ys)
    decreases |xs|
  {
    if xs == [] {
      assert xs + ys == ys;
    } else {
      assert (xs + ys)[0] == xs[0];
      assert (xs + ys)[1..] == xs[1..] + ys;
      RunAppend(Reduce(s, xs[0]), xs[1..], ys);
    }
  }

  /** Dispatching one more action applies the reducer once more. */
  lemma RunSnoc<T, E>(s: State<T, E>, xs: seq<Action<T, E>>, a: Action<T, E>)
    ensures Run(s, xs + [a]) == Reduce(Run(s, xs), a)
  {
    RunAppend(s, xs, [a]);
  }

  /** Every action preserves the invariant, so any run from a consistent state
      ends in a consistent state. */
  lemma {:induction false} RunConsistent<T, E>(s: State<T, E>, xs: seq<Action<T, E>>)
    requires Consistent(s)
    ensures Consistent(Run(s, xs))
    decreases |xs|
  {
    if xs != [] {
      RunConsistent(Reduce(s, xs[0]), xs[1..]);
    }
  }

  /** Every state reachable from creation, with any default, is consistent. */
  lemma ReachableConsistent<T, E>(defaultValue: Maybe<T>, xs: seq<Action<T, E>>)
    ensures Consistent(Run(DefaultState(defaultValue, true), xs))
  {
    RunConsistent(DefaultState<T, E>(defaultValue, true), xs);
  }

  /** After a settling action the history before it is forgotten: the run from
      any start state agrees with a run that begins at that action. */
  lemma HistoryForgotten<T, E>(s: State<T, E>, t: State<T, E>, xs: seq<Action<T, E>>,
                              a: Action<T, E>, ys: seq<Action<T, E>>)
    requires a.Settles()
    ensures Run(s, xs + [a] + ys) == Run(t, [a] + ys)
  {
    RunAppend(s, xs + [a], ys);
    RunSnoc(s, xs, a);
    RunAppend(t, [a], ys);
    assert Run(t, [a]) == Reduce(t, a);
  }

  /** In particular a reset discards everything dispatched before it. */
  lemma ResetForgetsHistory<T, E>(s: State<T, E>, xs: seq<Action<T, E>>,
                                 d: Maybe<T>, ys: seq<Action<T, E>>)
    ensures Run(s, xs + [ResetAction(d)] + ys) == Run(State(d, false, None), ys)
  {
    HistoryForgotten(s, s, xs, ResetAction(d), ys);
    assert Run(s, [ResetAction(d)] + ys) == Run(Reduce(s, ResetAction(d)), ys) by {
      assert ([ResetAction(d)] + ys)[0] == ResetAction(d);
      assert ([ResetAction(d)] + ys)[1..] == ys;
    }
  }

  /** Dispatching the same action `n >= 1` times equals dispatching it once. */
  lemma {:induction false} RepeatedAction<T, E>(s: State<T, E>, a: Action<T, E>, n: nat)
    requires n >= 1
    ensures Run(s, seq(n, _ => a)) == Reduce(s, a)
    decreases n
  {
    var xs := seq(n, _ => a);
    if n == 1 {
      assert xs[1..] == [];
    } else {
      assert xs[1..] == seq(n - 1, _ => a);
      RepeatedAction(Reduce(s, a), a, n - 1);
      ReduceIdempotent(s, a);
    }
  }

  // ----- The hook's state cell -----

  /** The cell `useLoadingValue` owns: one mutable state, updated only by
      dispatching actions through the reducer. `history` records every action
      dispatched since creation. */
  class LoadingValueCell<T, E> {
    var state: State<T, E>
    ghost const initial: State<T, E>
    ghost var history: seq<Action<T, E>>

    ghost predicate Valid()
      reads this
    {
      state == Run(initial, history) && Consistent(state)
    }

    /** Creation with the default already computed (`undefined` when no
        producer was given). */
    constructor (defaultValue: Maybe<T>)
      ensures Valid()
      ensures state == DefaultState(defaultValue, true)
      ensures initial == state && history == []
    {
      state := DefaultState(defaultValue, true);
      initial := DefaultState(defaultValue, true);
      history := [];
    }

    /** Applies the reducer to the current state and records the action. */
    method Dispatch(a: Action<T, E>)
      requires Valid()
      modifies this
      ensures Valid()
      ensures state == Reduce(old(state), a)
      ensures history == old(history) + [a]
    {
      RunSnoc(initial, history, a);
      state := Reduce(state, a);
      history := history + [a];
    }

    /** `reset()`, given the default the producer returned for this call. */
    method Reset(defaultValue: Maybe<T>)
      requires Valid()
      modifies this
      ensures Valid()
      ensures state == State(defaultValue, false, None)
      ensures history == old(history) + [ResetAction(defaultValue)]
    {
      Dispatch(ResetAction(defaultValue));
    }

    /** `setError(error)` */
    method SetError(error: E)
      requires Valid()
      modifies this
      ensures Valid()
      ensures state == State(Undefined, false, Some(error))
      ensures history == old(history) + [ErrorAction(error)]
    {
      Dispatch(ErrorAction(error));
    }

    /** `setLoading()` */
    method SetLoading()
      requires Valid()
      modifies this
      ensures Valid()
      ensures state == State(old(state).value, true, None)
      ensures history == old(history) + [LoadingAction]
    {
      Dispatch(LoadingAction);
    }

    /** `setValue(value)`; `undefined` is an acceptable value. */
    method SetValue(value: Maybe<T>)
      requires Valid()
      modifies this
      ensures Valid()
      ensures state == State(value, false, None)
      ensures history == old(history) + [ValueAction(value)]
    {
      Dispatch(ValueAction(value));
    }
  }
}
